/** The template language of TRANSFORM steps: literals and `{{input.path}}` holes. */
module Template {
  import opened Values

  const OPEN := "{{input."
  const CLOSE := "}}"

  /** The character class `[a-zA-Z0-9_.]`. */
  predicate PathChar(c: char) {
    'a' <= c <= 'z' || 'A' <= c <= 'Z' || '0' <= c <= '9' || c == '_' || c == '.'
  }

  predicate IsPath(path: string) {
    path != "" && forall i | 0 <= i < |path| :: PathChar(path[i])
  }

  /** What the pattern consumes for one hole. */
  function HoleText(path: string): (text: string)
    ensures |text| == |path| + 10
  {
    OPEN + path + CLOSE
  }

  /** The pattern matches at the start of `t` and captures `path`. */
  predicate Matches(t: string, path: string) {
    IsPath(path) && HoleText(path) <= t
  }

  /** The greedy `+`: how many path characters `t` starts with. */
  function PathRun(t: string): (n: nat)
    ensures n <= |t|
    ensures forall i | 0 <= i < n :: PathChar(t[i])
    ensures n < |t| ==> !PathChar(t[n])
  {
    if t != "" && PathChar(t[0]) then 1 + PathRun(t[1..]) else 0
  }

  /** Greedy matching at the start of `t`; backing off never helps, as `}` is no path character. */
  function MatchAt(t: string): Option<string> {
    if OPEN <= t then
      var n := PathRun(t[|OPEN|..]);
      if n > 0 && CLOSE <= t[|OPEN| + n..] then Some(t[|OPEN|..][..n]) else None
    else None
  }

  /** Greedy matching finds exactly what the pattern allows. */
  lemma {:induction false} MatchAtIsThePattern(t: string, path: string)
    ensures MatchAt(t) == Some(path) <==> Matches(t, path)
  {
    if Matches(t, path) {
      var rest := t[|OPEN|..];
      assert t[..|HoleText(path)|] == HoleText(path);
      assert OPEN == HoleText(path)[..|OPEN|] == t[..|OPEN|];
      assert rest[..|path|] == HoleText(path)[|OPEN|..|OPEN| + |path|] == path;
      assert forall i | 0 <= i < |path| :: rest[i] == path[i];
      assert rest[|path|] == t[|OPEN| + |path|] == HoleText(path)[|OPEN| + |path|] == '}';
      assert t[|OPEN| + |path|..][..2] == HoleText(path)[|OPEN| + |path|..] == CLOSE;
      assert PathRun(rest) == |path|;
    }
    if MatchAt(t) == Some(path) {
      var n := |path|;
      assert t == t[..|OPEN|] + t[|OPEN|..][..n] + t[|OPEN| + n..];
      assert HoleText(path) == t[..|OPEN| + n + 2];
    }
  }

  /** The pattern on concrete texts: letters, digits, `_` and dots make a path, and a dash does not. */
  lemma {:induction false} PatternExamples()
    ensures Matches("{{input.a.z_A.Z09}} and more", "a.z_A.Z09")
    ensures MatchAt("{{input.a-b}}") == None
  {
    var t, u := "{{input.a.z_A.Z09}} and more", "{{input.a-b}}";
    assert HoleText("a.z_A.Z09") == t[..19];
    var rest := u[|OPEN|..];
    var n := PathRun(rest);
    assert rest[0] == 'a' && rest[1] == '-';
    assert n == 1;
    assert rest[n..][0] == '-';
  }

  datatype Segment = Literal(text: string) | Hole(path: string)

  function Print(segments: seq<Segment>): string {
    if segments == [] then ""
    else (match segments[0] case Literal(text) => text case Hole(path) => HoleText(path)) + Print(segments[1..])
  }

  function Glue(c: char, segments: seq<Segment>): seq<Segment> {
    if segments != [] && segments[0].Literal?
    then [Literal([c] + segments[0].text)] + segments[1..]
    else [Literal([c])] + segments
  }

  function Scan(t: string): seq<Segment>
    decreases |t|
  {
    if t == "" then []
    else match MatchAt(t)
      case Some(path) =>
        MatchAtIsThePattern(t, path);
        [Hole(path)] + Scan(t[|HoleText(path)|..])
      case None => Glue(t[0], Scan(t[1..]))
  }

  /** The pattern matches at offset `o` of segment `i`, reading on through the segments behind it. */
  ghost predicate MatchesInside(segments: seq<Segment>, i: nat, o: nat, path: string) {
    i < |segments| && o <= |Print(segments[i..])| && Matches(Print(segments[i..])[o..], path)
  }

  /** The leftmost segmentation of `t`: it prints back as `t`, its holes are holes, no two literals
      meet, and the pattern matches nowhere inside a literal. */
  ghost predicate Leftmost(t: string, segments: seq<Segment>) {
    && Print(segments) == t
    && (forall i | 0 <= i < |segments| && segments[i].Hole? :: IsPath(segments[i].path))
    && (forall i | 0 <= i < |segments| && segments[i].Literal? :: segments[i].text != "")
    && (forall i, j | 0 <= i < j < |segments| && j == i + 1 && segments[i].Literal? :: segments[j].Hole?)
    && (forall i, o, path | 0 <= i < |segments| && segments[i].Literal? && 0 <= o < |segments[i].text| ::
          !MatchesInside(segments, i, o, path))
  }

  lemma {:induction false} LeftmostTail(t: string, segments: seq<Segment>)
    requires Leftmost(t, segments) && segments != []
    ensures Leftmost(Print(segments[1..]), segments[1..])
  {
    var tail := segments[1..];
    assert forall i | 0 <= i <= |tail| :: tail[i..] == segments[i + 1..];
    forall i, o, path | 0 <= i < |tail| && tail[i].Literal? && 0 <= o < |tail[i].text|
      ensures !MatchesInside(tail, i, o, path)
    {
      assert tail[i] == segments[i + 1];
      assert !MatchesInside(segments, i + 1, o, path);
    }
  }

  /** The first character of a leading literal can be dropped. */
  function Behead(segments: seq<Segment>): seq<Segment>
    requires segments != [] && segments[0].Literal? && segments[0].text != ""
  {
    if |segments[0].text| == 1 then segments[1..]
    else [Literal(segments[0].text[1..])] + segments[1..]
  }

  lemma FirstOut(a: string, b: string)
    requires a != ""
    ensures a + b == [a[0]] + (a[1..] + b)
    ensures (a + b)[1..] == a[1..] + b
  {
  }

  lemma BeheadPrints(segments: seq<Segment>)
    requires segments != [] && segments[0].Literal? && segments[0].text != ""
    ensures Print(segments) != "" && Print(segments)[1..] == Print(Behead(segments))
    ensures Print(segments)[0] == segments[0].text[0]
  {
    var text := segments[0].text;
    FirstOut(text, Print(segments[1..]));
    if |text| > 1 {
      assert Behead(segments)[1..] == segments[1..];
    } else {
      assert text[1..] + Print(segments[1..]) == Print(segments[1..]);
    }
  }

  lemma BeheadGlues(segments: seq<Segment>)
    requires segments != [] && segments[0].Literal? && segments[0].text != ""
    requires |segments| > 1 ==> segments[1].Hole?
    ensures Glue(segments[0].text[0], Behead(segments)) == segments
  {
    var text := segments[0].text;
    assert segments[0] == Literal(text) && text == [text[0]] + text[1..];
    assert segments == [segments[0]] + segments[1..];
    if |text| > 1 {
      assert Behead(segments)[1..] == segments[1..];
    } else {
      assert [text[0]] + text[1..] == [text[0]];
    }
  }

  lemma {:induction false} LeftmostBehead(t: string, segments: seq<Segment>)
    requires Leftmost(t, segments) && segments != [] && segments[0].Literal?
    ensures t != "" && Leftmost(t[1..], Behead(segments))
    ensures Glue(t[0], Behead(segments)) == segments
  {
    var short := Behead(segments);
    BeheadPrints(segments);
    BeheadGlues(segments);
    if |segments[0].text| == 1 {
      LeftmostTail(t, segments);
    } else {
      forall i, o, path | 0 <= i < |short| && short[i].Literal? && 0 <= o < |short[i].text|
        ensures !MatchesInside(short, i, o, path)
      {
        if i == 0 {
          assert short[0..] == short && segments[0..] == segments;
          assert Print(short)[o..] == Print(segments)[o + 1..];
          assert !MatchesInside(segments, 0, o + 1, path);
        } else {
          assert short[i..] == segments[i..];
          assert !MatchesInside(segments, i, o, path);
        }
      }
    }
  }

  lemma NoMatchAtLiteral(t: string, segments: seq<Segment>)
    requires Leftmost(t, segments) && segments != [] && segments[0].Literal?
    ensures MatchAt(t) == None
  {
    assert segments[0..] == segments && t[0..] == t;
    if MatchAt(t).Some? {
      assert !MatchesInside(segments, 0, 0, MatchAt(t).value);
      MatchAtIsThePattern(t, MatchAt(t).value);
      assert false;
    }
  }

  /** A leading hole is what the scanner finds first. */
  lemma HoleComesFirst(t: string, segments: seq<Segment>)
    requires Leftmost(t, segments) && segments != [] && segments[0].Hole?
    ensures var path := segments[0].path;
            && MatchAt(t) == Some(path) && |HoleText(path)| <= |t| && t[|HoleText(path)|..] == Print(segments[1..])
  {
    var path := segments[0].path;
    assert segments[0..] == segments;
    assert t == HoleText(path) + Print(segments[1..]);
    assert HoleText(path) <= t && Matches(t, path);
    MatchAtIsThePattern(t, path);
  }

  lemma ScanHole(t: string, path: string)
    requires MatchAt(t) == Some(path) && |HoleText(path)| <= |t|
    ensures Scan(t) == [Hole(path)] + Scan(t[|HoleText(path)|..])
  {
  }

  lemma ScanLiteral(t: string)
    requires t != "" && MatchAt(t) == None
    ensures Scan(t) == Glue(t[0], Scan(t[1..]))
  {
  }

  lemma SplitFirst(segments: seq<Segment>, path: string, tail: seq<Segment>)
    requires segments != [] && segments[0] == Hole(path) && segments[1..] == tail
    ensures segments == [Hole(path)] + tail
  {
  }

  /** A template has exactly one leftmost segmentation, and the scanner finds it. */
  lemma {:induction false} LeftmostIsScan(t: string, segments: seq<Segment>)
    requires Leftmost(t, segments)
    ensures segments == Scan(t)
    decreases |t|
  {
    if segments == [] {
      assert t == "";
    } else if segments[0].Hole? {
      var path, tail := segments[0].path, segments[1..];
      HoleComesFirst(t, segments);
      LeftmostTail(t, segments);
      LeftmostIsScan(t[|HoleText(path)|..], tail);
      ScanHole(t, path);
      SplitFirst(segments, path, tail);
    } else {
      LeftmostBehead(t, segments);
      LeftmostIsScan(t[1..], Behead(segments));
      NoMatchAtLiteral(t, segments);
      ScanLiteral(t);
    }
  }

  lemma GluePrints(t: string, segments: seq<Segment>)
    requires t != "" && Print(segments) == t[1..]
    ensures Print(Glue(t[0], segments)) == t
  {
    assert t == [t[0]] + t[1..];
    var glued := Glue(t[0], segments);
    if segments != [] && segments[0].Literal? {
      assert glued[1..] == segments[1..];
      assert [t[0]] + (segments[0].text + Print(segments[1..])) ==
             ([t[0]] + segments[0].text) + Print(segments[1..]);
    } else {
      assert glued[1..] == segments;
    }
  }

  /** Every tail of the glued segments but the whole is a tail of the old ones. */
  lemma GlueTails(c: char, segments: seq<Segment>, i: nat)
    requires 0 < i < |Glue(c, segments)|
    ensures var j := if segments != [] && segments[0].Literal? then i else i - 1;
            j < |segments| && Glue(c, segments)[i..] == segments[j..]
  {
  }

  lemma {:induction false} GlueIsLeftmost(t: string, segments: seq<Segment>)
    requires t != "" && MatchAt(t) == None && Leftmost(t[1..], segments)
    ensures Leftmost(t, Glue(t[0], segments))
  {
    var glued := Glue(t[0], segments);
    GluePrints(t, segments);
    forall i, o, path | 0 <= i < |glued| && glued[i].Literal? && 0 <= o < |glued[i].text|
      ensures !MatchesInside(glued, i, o, path)
    {
      if i > 0 {
        GlueTails(t[0], segments, i);
        var j := if segments != [] && segments[0].Literal? then i else i - 1;
        assert segments[j] == segments[j..][0] == glued[i..][0] == glued[i];
        assert !MatchesInside(segments, j, o, path);
      } else {
        assert glued[0..] == glued;
        if o == 0 {
          assert t[0..] == t;
          MatchAtIsThePattern(t, path);
        } else {
          assert t[o..] == t[1..][o - 1..];
          assert segments[0..] == segments && segments[0].Literal?;
          assert !MatchesInside(segments, 0, o - 1, path);
        }
      }
    }
  }

  lemma HoleThenLeftmost(t: string, path: string, rest: string, segments: seq<Segment>)
    requires Matches(t, path) && t == HoleText(path) + rest && Leftmost(rest, segments)
    ensures Leftmost(t, [Hole(path)] + segments)
  {
    var all := [Hole(path)] + segments;
    assert all[1..] == segments;
    forall i, o, p | 0 <= i < |all| && all[i].Literal? && 0 <= o < |all[i].text|
      ensures !MatchesInside(all, i, o, p)
    {
      assert all[i..] == segments[i - 1..];
      assert !MatchesInside(segments, i - 1, o, p);
    }
  }

  lemma {:induction false} ScanIsLeftmost(t: string)
    ensures Leftmost(t, Scan(t))
    decreases |t|
  {
    if t != "" {
      match MatchAt(t)
      case Some(path) =>
        MatchAtIsThePattern(t, path);
        var rest := t[|HoleText(path)|..];
        ScanIsLeftmost(rest);
        HoleThenLeftmost(t, path, rest, Scan(rest));
      case None =>
        ScanIsLeftmost(t[1..]);
        GlueIsLeftmost(t, Scan(t[1..]));
    }
  }

  /** How a hole is filled: `None` leaves it as it stands. */
  type Filling = string -> Option<string>

  function Fill(path: string, filling: Filling): string {
    match filling(path)
    case Some(text) => text
    case None => HoleText(path)
  }

  function Render(segments: seq<Segment>, filling: Filling): string {
    if segments == [] then ""
    else (match segments[0] case Literal(text) => text case Hole(path) => Fill(path, filling))
         + Render(segments[1..], filling)
  }

  predicate NoMatchAt(t: string, i: nat)
    requires i <= |t|
  {
    MatchAt(t[i..]) == None
  }

  /** The first position, from `at` on, where the pattern matches. */
  function Search(t: string, at: nat): (found: Option<nat>)
    requires at <= |t|
    ensures found.Some? ==> at <= found.value < |t| && MatchAt(t[found.value..]).Some?
    ensures forall i | at <= i < |t| && (found.None? || i < found.value) :: NoMatchAt(t, i)
    decreases |t| - at
  {
    if at == |t| then None
    else if MatchAt(t[at..]).Some? then Some(at)
    else Search(t, at + 1)
  }

  /** The global `replace`: copy up to the next match, fill it, go on behind it. */
  function Replace(t: string, filling: Filling): string
    decreases |t|
  {
    match Search(t, 0)
    case None => t
    case Some(at) =>
      var path := MatchAt(t[at..]).value;
      MatchAtIsThePattern(t[at..], path);
      t[..at] + (Fill(path, filling) + Replace(t[at + |HoleText(path)|..], filling))
  }

  lemma RenderGlue(c: char, segments: seq<Segment>, filling: Filling)
    ensures Render(Glue(c, segments), filling) == [c] + Render(segments, filling)
  {
    if segments != [] && segments[0].Literal? {
      assert Glue(c, segments)[1..] == segments[1..];
      assert [c] + (segments[0].text + Render(segments[1..], filling)) ==
             ([c] + segments[0].text) + Render(segments[1..], filling);
    } else {
      assert Glue(c, segments)[1..] == segments;
    }
  }

  lemma {:induction false} RenderScanCopies(t: string, n: nat, filling: Filling)
    requires n <= |t| && forall i | 0 <= i < n :: NoMatchAt(t, i)
    ensures Render(Scan(t), filling) == t[..n] + Render(Scan(t[n..]), filling)
    decreases n
  {
    if n == 0 {
      assert t[0..] == t;
    } else {
      RenderScanCopies(t, n - 1, filling);
      assert NoMatchAt(t, n - 1);
      var u := t[n - 1..];
      assert Scan(u) == Glue(u[0], Scan(u[1..]));
      RenderGlue(u[0], Scan(u[1..]), filling);
      CopyOne(t, n, Render(Scan(t[n..]), filling));
    }
  }

  lemma CopyOne(t: string, n: nat, rest: string)
    requires 0 < n <= |t|
    ensures t[n - 1..][1..] == t[n..]
    ensures t[..n - 1] + ([t[n - 1..][0]] + rest) == t[..n] + rest
  {
  }

  lemma RenderScanHole(t: string, path: string, filling: Filling)
    requires MatchAt(t) == Some(path) && |HoleText(path)| <= |t|
    ensures Render(Scan(t), filling) == Fill(path, filling) + Render(Scan(t[|HoleText(path)|..]), filling)
  {
    assert Scan(t)[1..] == Scan(t[|HoleText(path)|..]);
  }

  lemma ReplaceNothing(t: string, filling: Filling)
    requires Search(t, 0) == None
    ensures Render(Scan(t), filling) == t
  {
    RenderScanCopies(t, |t|, filling);
    assert t[|t|..] == "";
    assert t[..|t|] + "" == t;
  }

  lemma RenderScanMatch(t: string, at: nat, path: string, filling: Filling)
    requires at + |HoleText(path)| <= |t| && MatchAt(t[at..]) == Some(path)
    requires forall i | 0 <= i < at :: NoMatchAt(t, i)
    ensures Render(Scan(t), filling) ==
            t[..at] + (Fill(path, filling) + Render(Scan(t[at + |HoleText(path)|..]), filling))
  {
    var u := t[at..];
    assert u[|HoleText(path)|..] == t[at + |HoleText(path)|..];
    RenderScanHole(u, path, filling);
    RenderScanCopies(t, at, filling);
  }

  /** The replace loop renders the leftmost segmentation: literals are copied, each hole is filled
      once from its own path, and text that was inserted is not scanned again. */
  lemma {:induction false} ReplaceRendersScan(t: string, filling: Filling)
    ensures Replace(t, filling) == Render(Scan(t), filling)
    decreases |t|
  {
    match Search(t, 0)
    case None => ReplaceNothing(t, filling);
    case Some(at) =>
      var path := MatchAt(t[at..]).value;
      MatchAtIsThePattern(t[at..], path);
      RenderScanMatch(t, at, path, filling);
      ReplaceRendersScan(t[at + |HoleText(path)|..], filling);
  }

  lemma {:induction false} RenderUnresolved(segments: seq<Segment>, filling: Filling)
    requires forall i | 0 <= i < |segments| && segments[i].Hole? :: filling(segments[i].path) == None
    ensures Render(segments, filling) == Print(segments)
  {
    if segments != [] {
      forall i | 0 <= i < |segments[1..]| && segments[1..][i].Hole?
        ensures filling(segments[1..][i].path) == None
      {
        assert segments[1..][i] == segments[i + 1];
      }
      RenderUnresolved(segments[1..], filling);
    }
  }

  /** When no hole resolves, the template comes back unchanged. */
  lemma {:induction false} UnresolvedIsIdentity(t: string, filling: Filling)
    requires forall i | 0 <= i < |Scan(t)| && Scan(t)[i].Hole? :: filling(Scan(t)[i].path) == None
    ensures Replace(t, filling) == t
  {
    ReplaceRendersScan(t, filling);
    ScanIsLeftmost(t);
    RenderUnresolved(Scan(t), filling);
  }

  /** Any way to write a template as its leftmost segments gives the result of the replace. */
  lemma {:induction false} ReplaceOfSegments(t: string, segments: seq<Segment>, filling: Filling)
    requires Leftmost(t, segments)
    ensures Replace(t, filling) == Render(segments, filling)
  {
    ReplaceRendersScan(t, filling);
    LeftmostIsScan(t, segments);
  }
}
