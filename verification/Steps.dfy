/** The three kinds of workflow step and what TRANSFORM and FILTER compute. */
module Steps {
  import opened Values
  import opened Paths
  import Template

  datatype Operator = Equals | NotEquals | GreaterThan | LessThan

  datatype Action =
    | Transform(template: WorkflowData)
    | Filter(field: string, operator: Operator, expected: Json)
    | HttpRequest(request: Json)

  datatype Step = Step(id: string, action: Action)

  /** `String(number)` and `JSON.stringify`, of which only determinism matters here. */
  datatype Printer = Printer(number: real -> string, json: Json -> string)

  /** The text a resolved value is inserted as; `undefined` keeps the hole. */
  function Shown(printer: Printer, value: Option<Json>): Option<string> {
    match value
    case None => None
    case Some(Text(text)) => Some(text)
    case Some(Number(number)) => Some(printer.number(number))
    case Some(Bool(flag)) => Some(if flag then "true" else "false")
    case Some(Null) => Some("null")
    case Some(json) => Some(printer.json(json))
  }

  function Filling(printer: Printer, input: WorkflowData): Template.Filling {
    path => Shown(printer, Resolve(input, path))
  }

  function Substituted(printer: Printer, value: Json, input: WorkflowData): Json {
    match value
    case Text(text) => Text(Template.Replace(text, Filling(printer, input)))
    case _ => value
  }

  function Transformed(printer: Printer, template: WorkflowData, input: WorkflowData): WorkflowData {
    map key | key in template :: Substituted(printer, template[key], input)
  }

  // ---------------------------------------------------------------- what a transform inserts

  /** The text a value is inserted as. */
  ghost predicate PrintsAs(printer: Printer, value: Json, text: string) {
    && (value.Text? ==> text == value.text)
    && (value == Bool(true) ==> text == "true")
    && (value == Bool(false) ==> text == "false")
    && (value == Null ==> text == "null")
    && (value.Number? ==> text == printer.number(value.number))
    && (value.List? || value.Object? ==> text == printer.json(value))
  }

  /** A piece of the result: a literal as it stands; for a hole the value its path reads, or, if it reads none,
      the hole itself. */
  ghost predicate IsPiece(printer: Printer, input: WorkflowData, segment: Template.Segment, piece: string) {
    match segment
    case Literal(text) => piece == text
    case Hole(path) =>
      && (forall value | Reads(input, path, value) :: PrintsAs(printer, value, piece))
      && ((forall value :: !Reads(input, path, value)) ==> piece == "{{input." + path + "}}")
  }

  function Concat(pieces: seq<string>): string {
    if pieces == [] then "" else pieces[0] + Concat(pieces[1..])
  }

  /** The result is made of one piece for each segment. */
  ghost predicate IsFilled(printer: Printer, input: WorkflowData, segments: seq<Template.Segment>, result: string) {
    exists pieces: seq<string> :: Concat(pieces) == result && ArePieces(printer, input, segments, pieces)
  }

  ghost predicate ArePieces(printer: Printer, input: WorkflowData, segments: seq<Template.Segment>,
                            pieces: seq<string>) {
    |pieces| == |segments| && forall k | 0 <= k < |segments| :: IsPiece(printer, input, segments[k], pieces[k])
  }

  /** What stands under a key of the result: what is not a string is copied; a string is filled along its
      leftmost segmentation. */
  ghost predicate IsEntry(printer: Printer, input: WorkflowData, value: Json, entry: Json) {
    if value.Text? then
      entry.Text? && forall segments | Template.Leftmost(value.text, segments) ::
                       IsFilled(printer, input, segments, entry.text)
    else entry == value
  }

  lemma ShownPrints(printer: Printer, value: Json)
    ensures Shown(printer, Some(value)).Some? && PrintsAs(printer, value, Shown(printer, Some(value)).value)
  {
  }

  lemma FillsPiece(printer: Printer, input: WorkflowData, path: string, found: Option<Json>)
    requires forall value :: found == Some(value) <==> Reads(input, path, value)
    requires found == None <==> forall value :: !Reads(input, path, value)
    ensures var shown := Shown(printer, found);
            IsPiece(printer, input, Template.Hole(path), if shown.Some? then shown.value else Template.HoleText(path))
  {
    if found.Some? {
      ShownPrints(printer, found.value);
      assert Reads(input, path, found.value);
    }
  }

  lemma OnePiece(printer: Printer, input: WorkflowData, segment: Template.Segment) returns (piece: string)
    ensures IsPiece(printer, input, segment, piece)
    ensures piece == if segment.Literal? then segment.text else Template.Fill(segment.path, Filling(printer, input))
  {
    if segment.Literal? {
      piece := segment.text;
    } else {
      ResolvesWhatItReads(input, segment.path);
      FillsPiece(printer, input, segment.path, Resolve(input, segment.path));
      piece := Template.Fill(segment.path, Filling(printer, input));
    }
  }

  lemma MorePieces(printer: Printer, input: WorkflowData, segments: seq<Template.Segment>, piece: string,
                   result: string)
    requires segments != [] && IsPiece(printer, input, segments[0], piece)
    requires IsFilled(printer, input, segments[1..], result)
    ensures IsFilled(printer, input, segments, piece + result)
  {
    var rest: seq<string> :| Concat(rest) == result && ArePieces(printer, input, segments[1..], rest);
    var pieces := [piece] + rest;
    assert pieces[1..] == rest && Concat(pieces) == piece + result;
    forall k | 0 <= k < |segments| ensures IsPiece(printer, input, segments[k], pieces[k]) {
      if k > 0 {
        assert IsPiece(printer, input, segments[1..][k - 1], rest[k - 1]);
      }
    }
    assert ArePieces(printer, input, segments, pieces);
  }

  lemma {:induction false} RenderIsFilled(printer: Printer, input: WorkflowData, segments: seq<Template.Segment>)
    ensures IsFilled(printer, input, segments, Template.Render(segments, Filling(printer, input)))
    decreases |segments|
  {
    var filling := Filling(printer, input);
    if segments == [] {
      assert Concat([]) == "" && ArePieces(printer, input, segments, []);
    } else {
      RenderIsFilled(printer, input, segments[1..]);
      var piece := OnePiece(printer, input, segments[0]);
      MorePieces(printer, input, segments, piece, Template.Render(segments[1..], filling));
    }
  }

  lemma SubstitutedIsEntry(printer: Printer, value: Json, input: WorkflowData)
    ensures IsEntry(printer, input, value, Substituted(printer, value, input))
  {
    if value.Text? {
      var entry := Substituted(printer, value, input);
      forall segments | Template.Leftmost(value.text, segments) ensures IsFilled(printer, input, segments, entry.text) {
        SubstitutedMeans(printer, value.text, input, segments);
        RenderIsFilled(printer, input, segments);
      }
    }
  }

  /** `executeTransform`: fills the output key by key. */
  method ExecuteTransform(printer: Printer, template: WorkflowData, input: WorkflowData)
    returns (output: WorkflowData)
    ensures output == Transformed(printer, template, input)
    ensures output.Keys == template.Keys
    ensures forall key | key in template :: IsEntry(printer, input, template[key], output[key])
  {
    output := map[];
    var left := template.Keys;
    ghost var goal := Transformed(printer, template, input);
    while left != {}
      invariant left <= template.Keys
      invariant output.Keys == template.Keys - left
      invariant forall key | key in output :: output[key] == goal[key]
    {
      var key :| key in left;
      output := output[key := Substituted(printer, template[key], input)];
      left := left - {key};
    }
    assert output.Keys == goal.Keys;
    TransformedIsEntries(printer, template, input);
  }

  /** What a transform means, key by key, without the functions that compute it. */
  lemma {:induction false} TransformedIsEntries(printer: Printer, template: WorkflowData, input: WorkflowData)
    ensures Transformed(printer, template, input).Keys == template.Keys
    ensures forall key | key in template ::
              IsEntry(printer, input, template[key], Transformed(printer, template, input)[key])
  {
    forall key | key in template
      ensures IsEntry(printer, input, template[key], Transformed(printer, template, input)[key])
    {
      SubstitutedIsEntry(printer, template[key], input);
    }
  }

  lemma SubstitutedMeans(printer: Printer, text: string, input: WorkflowData, segments: seq<Template.Segment>)
    requires Template.Leftmost(text, segments)
    ensures Template.Replace(text, Filling(printer, input)) == Template.Render(segments, Filling(printer, input))
  {
    var filling := Filling(printer, input);
    Template.ReplaceOfSegments(text, segments, filling);
  }

  /** What a transform means: it keeps the keys of its template, copies what is not a string, and
      renders each string along its leftmost segmentation from the paths of the input. */
  lemma {:induction false} TransformMeans(printer: Printer, template: WorkflowData, input: WorkflowData, key: string,
                                          segments: seq<Template.Segment>)
    requires key in template
    requires template[key].Text? ==> Template.Leftmost(template[key].text, segments)
    ensures Transformed(printer, template, input).Keys == template.Keys
    ensures Transformed(printer, template, input)[key] ==
            if template[key].Text? then Text(Template.Render(segments, Filling(printer, input)))
            else template[key]
  {
    var value := Substituted(printer, template[key], input);
    assert Transformed(printer, template, input)[key] == value;
    if template[key].Text? {
      SubstitutedMeans(printer, template[key].text, input, segments);
      assert value.Text?;
    }
  }

  /** `===` between a resolved value and a JSON constant: primitives by value, while two separately
      parsed arrays or objects are never the same reference. */
  predicate StrictlyEqual(actual: Option<Json>, expected: Json) {
    && actual == Some(expected)
    && !expected.List?
    && !expected.Object?
  }

  /** `executeFilter`. */
  predicate Passes(field: string, operator: Operator, expected: Json, input: WorkflowData) {
    var actual := Resolve(input, field);
    match operator
    case Equals => StrictlyEqual(actual, expected)
    case NotEquals => !StrictlyEqual(actual, expected)
    case GreaterThan => actual.Some? && actual.value.Number? && expected.Number?
      && actual.value.number > expected.number
    case LessThan => actual.Some? && actual.value.Number? && expected.Number? && actual.value.number < expected.number
  }

  /** A value that `===` can find equal to a constant. */
  predicate IsPrimitive(value: Json) { !value.List? && !value.Object? }

  /** What a filter lets through, by what its field reads. */
  ghost predicate LetsThrough(field: string, operator: Operator, expected: Json, input: WorkflowData) {
    match operator
    case Equals => IsPrimitive(expected) && Reads(input, field, expected)
    case NotEquals => !(IsPrimitive(expected) && Reads(input, field, expected))
    case GreaterThan => expected.Number? && exists x: real :: Reads(input, field, Number(x)) && x > expected.number
    case LessThan => expected.Number? && exists x: real :: Reads(input, field, Number(x)) && x < expected.number
  }

  /** The switch of `executeFilter` decides just that. */
  lemma {:induction false} PassesIff(field: string, operator: Operator, expected: Json, input: WorkflowData)
    ensures Passes(field, operator, expected, input) <==> LetsThrough(field, operator, expected, input)
  {
    ResolvesWhatItReads(input, field);
  }

  /** On a field that holds a value under any dot-free segments: GREATER_THAN lets through what is greater than
      the constant, LESS_THAN what is less, EQUALS the same primitive and nothing compound. */
  lemma {:induction false} FilterOnField(parts: seq<string>, value: Json, expected: Json)
    requires |parts| >= 1 && forall i | 0 <= i < |parts| :: '.' !in parts[i]
    ensures Nest(parts, value).Object?
    ensures var field, input := Join(parts), Nest(parts, value).fields;
            && (value.Number? && expected.Number? ==>
                  && (Passes(field, GreaterThan, expected, input) <==> value.number > expected.number)
                  && (Passes(field, LessThan, expected, input) <==> value.number < expected.number))
            && (Passes(field, Equals, expected, input) <==> IsPrimitive(value) && value == expected)
            && (Passes(field, NotEquals, expected, input) <==> !(IsPrimitive(value) && value == expected))
  {
    ReadsWhatWasNested(parts, value);
  }

  /** On two numbers the operators are a trichotomy; on anything else both orders stop the workflow. */
  lemma FilterTrichotomy(field: string, expected: Json, input: WorkflowData)
    ensures Passes(field, NotEquals, expected, input) <==> !Passes(field, Equals, expected, input)
    ensures !(Passes(field, LessThan, expected, input) && Passes(field, GreaterThan, expected, input))
    ensures Passes(field, LessThan, expected, input) || Passes(field, GreaterThan, expected, input) ==>
              Passes(field, NotEquals, expected, input)
    ensures var actual := Resolve(input, field);
            expected.Number? && actual.Some? && actual.value.Number? ==>
              Passes(field, LessThan, expected, input) || Passes(field, Equals, expected, input)
              || Passes(field, GreaterThan, expected, input)
    ensures var actual := Resolve(input, field);
            !(expected.Number? && actual.Some? && actual.value.Number?) ==>
              !Passes(field, LessThan, expected, input) && !Passes(field, GreaterThan, expected, input)
  {
  }

  /** What a step makes of its input. The answer of an HTTP step comes from outside; the others
      compute theirs. `goOn` is false only for a filter that stops the workflow. */
  datatype Outcome = Outcome(output: WorkflowData, goOn: bool)

  function Evaluate(printer: Printer, action: Action, input: WorkflowData, answer: WorkflowData): Outcome {
    match action
    case Transform(template) => Outcome(Transformed(printer, template, input), true)
    case Filter(field, operator, expected) => Outcome(input, Passes(field, operator, expected, input))
    case HttpRequest(_) => Outcome(answer, true)
  }
}
