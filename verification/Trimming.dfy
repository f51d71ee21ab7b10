/** Trimming, and the idempotency key a request carries. */
module Trimming {
  import opened Values

  /** White space and line terminators as `String.prototype.trim` knows them. */
  predicate IsSpace(c: char) {
    c in {'\t', '\n', '\r', ' ', '\U{000B}', '\U{000C}', '\U{00A0}', '\U{1680}', '\U{2028}', '\U{2029}', '\U{202F}',
          '\U{205F}', '\U{3000}', '\U{FEFF}'}
    || '\U{2000}' <= c <= '\U{200A}'
  }

  function TrimStart(s: string): string {
    if s != "" && IsSpace(s[0]) then TrimStart(s[1..]) else s
  }

  function TrimEnd(s: string): string {
    if s != "" && IsSpace(s[|s| - 1]) then TrimEnd(s[..|s| - 1]) else s
  }

  function Trim(s: string): string {
    TrimEnd(TrimStart(s))
  }

  predicate Blank(s: string) {
    forall i | 0 <= i < |s| :: IsSpace(s[i])
  }

  /** `idempotencyKey?.trim() || undefined`. */
  function Normalize(raw: Option<string>): Option<string> {
    match raw
    case None => None
    case Some(s) => if Trim(s) == "" then None else Some(Trim(s))
  }

  /** Neither end of a trimmed text is white space. */
  predicate Tight(s: string) {
    s != "" ==> !IsSpace(s[0]) && !IsSpace(s[|s| - 1])
  }

  lemma {:induction false} TrimStartDrops(pad: string, s: string)
    requires Blank(pad)
    ensures TrimStart(pad + s) == TrimStart(s)
  {
    if pad == "" {
      assert pad + s == s;
    } else {
      assert (pad + s)[1..] == pad[1..] + s;
      TrimStartDrops(pad[1..], s);
    }
  }

  lemma {:induction false} TrimEndDrops(s: string, pad: string)
    requires Blank(pad)
    ensures TrimEnd(s + pad) == TrimEnd(s)
  {
    if pad == "" {
      assert s + pad == s;
    } else {
      var n := |pad| - 1;
      assert (s + pad)[..|s + pad| - 1] == s + pad[..n];
      TrimEndDrops(s, pad[..n]);
    }
  }

  /** What is left between the white space is what is kept. */
  lemma {:induction false} TrimKeeps(before: string, core: string, after: string)
    requires Blank(before) && Blank(after) && Tight(core)
    ensures Trim(before + (core + after)) == core
  {
    TrimStartDrops(before, core + after);
    if core == "" {
      assert core + after == after + "";
      TrimStartDrops(after, "");
    } else {
      assert (core + after)[0] == core[0];
      TrimEndDrops(core, after);
    }
  }

  lemma {:induction false} TrimStartSplits(s: string) returns (pad: string)
    ensures Blank(pad) && s == pad + TrimStart(s)
    ensures TrimStart(s) != "" ==> !IsSpace(TrimStart(s)[0])
  {
    if s != "" && IsSpace(s[0]) {
      var rest := TrimStartSplits(s[1..]);
      pad := [s[0]] + rest;
    } else {
      pad := "";
    }
  }

  lemma {:induction false} TrimEndSplits(s: string) returns (pad: string)
    ensures Blank(pad) && s == TrimEnd(s) + pad
    ensures TrimEnd(s) != "" ==> !IsSpace(TrimEnd(s)[|TrimEnd(s)| - 1])
  {
    if s != "" && IsSpace(s[|s| - 1]) {
      var rest := TrimEndSplits(s[..|s| - 1]);
      pad := rest + [s[|s| - 1]];
    } else {
      pad := "";
    }
  }

  /** Every text is white space around what trimming keeps, which is tight. */
  lemma {:induction false} TrimSplits(s: string) returns (before: string, after: string)
    ensures Blank(before) && Blank(after) && Tight(Trim(s))
    ensures s == before + (Trim(s) + after)
  {
    before := TrimStartSplits(s);
    after := TrimEndSplits(TrimStart(s));
    if Trim(s) != "" {
      assert TrimStart(s)[0] == Trim(s)[0];
    }
  }

  /** Two requests name the same key exactly when their keys are the same text up to white space around
      it; a blank key is no key. */
  lemma {:induction false} SameKeyIff(a: string, b: string)
    ensures Normalize(Some(a)) == None <==> Blank(a)
    ensures Normalize(Some(a)) == Normalize(Some(b)) <==>
            exists core, a1, a2, b1, b2 :: SameCore(a, b, core, a1, a2, b1, b2)
  {
    var a1, a2 := TrimSplits(a);
    var b1, b2 := TrimSplits(b);
    if Trim(a) == Trim(b) {
      assert SameCore(a, b, Trim(a), a1, a2, b1, b2);
    }
    forall core, x1, x2, y1, y2 | SameCore(a, b, core, x1, x2, y1, y2) ensures Trim(a) == Trim(b) {
      TrimKeeps(x1, core, x2);
      TrimKeeps(y1, core, y2);
    }
    if Blank(a) {
      assert a == a + ("" + "");
      TrimKeeps(a, "", "");
    }
  }

  ghost predicate SameCore(a: string, b: string, core: string, a1: string, a2: string, b1: string, b2: string) {
    && Blank(a1) && Blank(a2) && Blank(b1) && Blank(b2) && Tight(core)
    && a == a1 + (core + a2) && b == b1 + (core + b2)
  }

  /** The text between the white space around it. */
  ghost predicate IsCore(raw: string, core: string) {
    Tight(core) && exists before, after :: Blank(before) && Blank(after) && raw == before + (core + after)
  }

  lemma TrimIsCore(raw: string)
    ensures IsCore(raw, Trim(raw))
  {
    var _, _ := TrimSplits(raw);
  }

  lemma CoreIsTrim(raw: string, core: string)
    requires IsCore(raw, core)
    ensures core == Trim(raw)
  {
    var before, after :| Blank(before) && Blank(after) && raw == before + (core + after);
    TrimKeeps(before, core, after);
  }

  /** The key a header stands for: none if there is no header or a blank one, and else the text in it. */
  ghost predicate KeyFor(raw: Option<string>, key: Option<string>) {
    if raw.None? || Blank(raw.value) then key.None?
    else key.Some? && key.value != "" && IsCore(raw.value, key.value)
  }

  lemma {:induction false} NormalizeIsKeyFor(raw: Option<string>)
    ensures KeyFor(raw, Normalize(raw))
  {
    if raw.Some? {
      TrimIsCore(raw.value);
      SameKeyIff(raw.value, raw.value);
    }
  }
}
