/** The displayed fields of a model response, their order keys, and the authoritative fallback. */
module Projection {
  import opened Wire
  import O = OrderKey
  import Spelling

  datatype FieldKind =
    | PlainText | Refusal | ReasoningSummary | ReasoningText | FunctionName | FunctionArguments
    | ToolName | ToolOutput | AuthoritativeText | Unsupported | Notice

  datatype PartSource =
    | InSummary(index: Option<nat>) | InContent(index: Option<nat>) | OfName | OfArguments
    | OfFallback(index: Option<nat>) | OfUnsupported

  datatype DisplayPart = DisplayPart(kind: FieldKind, text: Text, source: PartSource) {
    predicate Answer() { kind.PlainText? || kind.Refusal? }
  }

  function Unshown(source: PartSource): DisplayPart {
    DisplayPart(Unsupported, Ascii("Unsupported content"), source)
  }

  function AsText(value: Option<Json>): Option<Text> {
    if value.Some? && value.value.String? then Some(value.value.text) else None
  }

  // ---- the parts of one item

  function PartAt(part: Json, reasoning: bool, source: PartSource): (r: DisplayPart)
    ensures r.source == source && !r.kind.AuthoritativeText? && (r.Answer() ==> !reasoning)
  {
    var tag := AsText(part.Get(Ascii("type")));
    var scalar :=
      if !reasoning && tag == Some(Ascii("output_text")) then Some((PlainText, Ascii("text")))
      else if !reasoning && tag == Some(Ascii("refusal")) then Some((Refusal, Ascii("refusal")))
      else if reasoning && tag == Some(Ascii("summary_text")) then Some((ReasoningSummary, Ascii("text")))
      else if reasoning && tag == Some(Ascii("reasoning_text")) then Some((ReasoningText, Ascii("text")))
      else None;
    if scalar.None? then Unshown(source)
    else
      match AsText(part.Get(scalar.value.1))
      case None => Unshown(source)
      case Some(text) => DisplayPart(scalar.value.0, text, source)
  }

  function SourceAt(summary: bool, index: Option<nat>): PartSource {
    if summary then InSummary(index) else InContent(index)
  }

  function PartsOf(value: Option<Json>, reasoning: bool, summary: bool): seq<DisplayPart> {
    if value.Some? && value.value.Array? then
      var parts := value.value.elements;
      seq(|parts|, i requires 0 <= i < |parts| => PartAt(parts[i], reasoning, SourceAt(summary, Some(i))))
    else [Unshown(SourceAt(summary, None))]
  }

  method Parts(output: seq<DisplayPart>, value: Option<Json>, reasoning: bool, summary: bool)
    returns (extended: seq<DisplayPart>)
    ensures extended == output + PartsOf(value, reasoning, summary)
  {
    extended := output;
    match value {
      case Some(Array(parts)) =>
        for index := 0 to |parts|
          invariant extended == output + PartsOf(value, reasoning, summary)[..index]
        {
          extended := extended + [PartAt(parts[index], reasoning, SourceAt(summary, Some(index)))];
        }
      case _ => extended := extended + [Unshown(SourceAt(summary, None))];
    }
  }

  function ItemParts(item: OutputItem): seq<DisplayPart> {
    match item.kind
    case Message => PartsOf(item.native.Get(Ascii("content")), false, false)
    case Reasoning =>
      var summary, content := item.native.Get(Ascii("summary")), item.native.Get(Ascii("content"));
      if summary.None? && content.None? then [Unshown(OfUnsupported)]
      else
        (if summary.Some? then PartsOf(summary, true, true) else [])
        + (if content.Some? then PartsOf(content, true, false) else [])
    case FunctionCallItem =>
      if item.functionCall.Some? then
        [DisplayPart(FunctionName, item.functionCall.value.name, OfName),
         DisplayPart(FunctionArguments, item.functionCall.value.arguments, OfArguments)]
      else [Unshown(OfUnsupported)]
    case _ => [Unshown(OfUnsupported)]
  }

  method ProjectItem(item: OutputItem) returns (parts: seq<DisplayPart>)
    ensures parts == ItemParts(item)
  {
    parts := [];
    match item.kind {
      case Message => parts := Parts(parts, item.native.Get(Ascii("content")), false, false);
      case Reasoning =>
        var summary, content := item.native.Get(Ascii("summary")), item.native.Get(Ascii("content"));
        if summary.None? && content.None? { parts := parts + [Unshown(OfUnsupported)]; }
        if summary.Some? { parts := Parts(parts, summary, true, true); }
        if content.Some? { parts := Parts(parts, content, true, false); }
      case FunctionCallItem =>
        match item.functionCall {
          case Some(call) =>
            parts := parts + [DisplayPart(FunctionName, call.name, OfName)];
            parts := parts + [DisplayPart(FunctionArguments, call.arguments, OfArguments)];
          case None => parts := parts + [Unshown(OfUnsupported)];
        }
      case _ => parts := parts + [Unshown(OfUnsupported)];
    }
  }

  // ---- the fields of a response

  datatype Field = Field(output: nat, part: DisplayPart)

  function Tagged(output: nat, parts: seq<DisplayPart>): seq<Field> {
    seq(|parts|, i requires 0 <= i < |parts| => Field(output, parts[i]))
  }

  function FieldsOf(output: seq<OutputItem>): seq<Field> {
    if output == [] then []
    else
      var last := |output| - 1;
      FieldsOf(output[..last]) + Tagged(last, ItemParts(output[last]))
  }

  predicate Contains(text: Text, needle: Text) {
    exists i :: 0 <= i <= |text| && needle <= text[i..]
  }

  function AnswersOf(fields: seq<Field>): seq<Text> {
    if fields == [] then []
    else
      var last := |fields| - 1;
      AnswersOf(fields[..last]) + if fields[last].part.Answer() then [fields[last].part.text] else []
  }

  function Concat(texts: seq<Text>): Text {
    if texts == [] then [] else texts[0] + Concat(texts[1..])
  }

  function Lines(texts: seq<Text>): Text {
    if texts == [] then [] else if |texts| == 1 then texts[0] else texts[0] + [10] + Lines(texts[1..])
  }

  /** The text already shows in the answers: in one of them, run together, or as lines. */
  predicate Represented(text: Text, answers: seq<Text>) {
    || text == []
    || (exists i :: 0 <= i < |answers| && Contains(answers[i], text))
    || Contains(Concat(answers), text)
    || Contains(Lines(answers), text)
  }

  /** An answer the fallback covers. */
  predicate Covered(field: Field, text: Text) {
    field.part.Answer() && field.part.text != [] && Contains(text, field.part.text)
  }

  function FirstAnswer(fields: seq<Field>): (n: nat)
    ensures n <= |fields| && (n < |fields| ==> fields[n].part.Answer())
    ensures forall i :: 0 <= i < n ==> !fields[i].part.Answer()
  {
    if fields == [] then 0 else if fields[0].part.Answer() then 0 else 1 + FirstAnswer(fields[1..])
  }

  /** Placed where the first answer stood, or after everything. */
  function FallbackOf(response: ModelResponse, fields: seq<Field>): Field {
    var first := FirstAnswer(fields);
    if first < |fields| then
      var source := fields[first].part.source;
      Field(fields[first].output, DisplayPart(AuthoritativeText, response.text,
        OfFallback(if source.InContent? then source.index else None)))
    else Field(|response.output|, DisplayPart(AuthoritativeText, response.text, OfFallback(None)))
  }

  function Uncovered(fields: seq<Field>, text: Text): seq<Field> {
    if fields == [] then []
    else
      var last := |fields| - 1;
      Uncovered(fields[..last], text) + if Covered(fields[last], text) then [] else [fields[last]]
  }

  function Projected(response: ModelResponse): seq<Field> {
    var fields := FieldsOf(response.output);
    if Represented(response.text, AnswersOf(fields)) then fields
    else
      var first := FirstAnswer(fields);
      fields[..first] + [FallbackOf(response, fields)] + Uncovered(fields[first..], response.text)
  }

  /** `project_response`: flatten, test, and splice the fallback in. */
  method ProjectResponse(response: ModelResponse) returns (result: seq<Field>)
    ensures result == Projected(response)
  {
    var fields := Flatten(response.output);
    var answers, first := Survey(fields);
    if Represented(response.text, answers) { return fields; }
    var output, content := |response.output|, None;
    if first < |fields| {
      output := fields[first].output;
      if fields[first].part.source.InContent? { content := fields[first].part.source.index; }
    }
    var fallback := Field(output, DisplayPart(AuthoritativeText, response.text, OfFallback(content)));
    result := Splice(fields, first, fallback, response.text);
  }

  method Splice(fields: seq<Field>, first: nat, place: Field, text: Text) returns (result: seq<Field>)
    requires first == FirstAnswer(fields)
    ensures result == fields[..first] + [place] + Uncovered(fields[first..], text)
  {
    result := [];
    var fallback := Some(place);
    for index := 0 to |fields|
      invariant fallback == if index <= first then Some(place) else None
      invariant result == if index <= first then fields[..index]
                          else fields[..first] + [place] + Uncovered(fields[first..index], text)
    {
      if index == first {
        result := result + [fallback.value];
        fallback := None;
      }
      ghost var span := fields[first..Later(first, index + 1)];
      assert index >= first ==> span[..index - first] == fields[first..index] && span[index - first] == fields[index];
      if !Covered(fields[index], text) {
        result := result + [fields[index]];
      }
    }
    assert fields[first..|fields|] == fields[first..];
    match fallback {
      case Some(field) => result := result + [field];
      case None =>
    }
  }

  ghost function Later(a: nat, b: nat): nat { if a < b then b else a }

  method Flatten(output: seq<OutputItem>) returns (fields: seq<Field>)
    ensures fields == FieldsOf(output)
  {
    fields := [];
    for n := 0 to |output|
      invariant fields == FieldsOf(output[..n])
    {
      var parts := ProjectItem(output[n]);
      assert output[..n + 1][..n] == output[..n];
      fields := fields + Tagged(n, parts);
    }
    assert output[..|output|] == output;
  }

  method Survey(fields: seq<Field>) returns (answers: seq<Text>, first: nat)
    ensures answers == AnswersOf(fields) && first == FirstAnswer(fields)
  {
    answers, first := [], |fields|;
    for n := 0 to |fields|
      invariant answers == AnswersOf(fields[..n]) && first <= |fields|
      invariant first == |fields| ==> forall i :: 0 <= i < n ==> !fields[i].part.Answer()
      invariant first < |fields| ==> first < n && fields[first].part.Answer() && forall i :: 0 <= i < first ==> !fields[i].part.Answer()
    {
      assert fields[..n + 1][..n] == fields[..n];
      if fields[n].part.Answer() {
        answers := answers + [fields[n].part.text];
        if first == |fields| { first := n; }
      }
    }
    assert fields[..|fields|] == fields;
    FirstAnswerIs(fields, first);
  }

  lemma {:induction false} FirstAnswerIs(fields: seq<Field>, n: nat)
    requires n <= |fields| && (n < |fields| ==> fields[n].part.Answer())
    requires forall i :: 0 <= i < n ==> !fields[i].part.Answer()
    ensures FirstAnswer(fields) == n
  {
    if n > 0 { FirstAnswerIs(fields[1..], n - 1); }
  }

  // ---- order keys

  /** `part_order`, for indices that fit: every index of a vector does. */
  function PartOrder(output: u64, source: PartSource): Option<O.Key> {
    match source
    case InSummary(i) => Indexed(i, v => O.Key(Some(output), O.Summary, v, None))
    case InContent(i) => Indexed(i, v => O.Key(Some(output), O.Content, None, v))
    case OfName => Some(O.Key(Some(output), O.FunctionName, None, None))
    case OfArguments => Some(O.Key(Some(output), O.FunctionArguments, None, None))
    case OfFallback(i) => Indexed(i, v => O.Key(Some(output), O.Fallback, None, v))
    case OfUnsupported => Some(O.Key(Some(output), O.Unsupported, None, None))
  }

  function Indexed(i: Option<nat>, key: Option<u64> -> O.Key): Option<O.Key> {
    if i.None? then Some(key(None)) else if i.value <= U64_MAX then Some(key(Some(i.value))) else None
  }

  /** Lengths that a vector can have: its size in bytes is a signed 64-bit number. */
  const VEC_MAX: nat := 0x7FFF_FFFF_FFFF_FFFF

  predicate ShortArray(value: Option<Json>) {
    value.Some? && value.value.Array? ==> |value.value.elements| <= VEC_MAX
  }

  ghost predicate InMemory(response: ModelResponse) {
    && |response.output| <= VEC_MAX
    && forall i :: 0 <= i < |response.output| ==>
        && ShortArray(response.output[i].native.Get(Ascii("content")))
        && ShortArray(response.output[i].native.Get(Ascii("summary")))
  }

  ghost predicate Orderable(f: Field) {
    f.output <= U64_MAX && PartOrder(f.output, f.part.source).Some?
  }

  ghost function KeyOf(f: Field): O.Key
    requires Orderable(f)
  {
    PartOrder(f.output, f.part.source).value
  }

  ghost predicate Ascending(fields: seq<Field>) {
    && (forall i :: 0 <= i < |fields| ==> Orderable(fields[i]))
    && forall i, j :: 0 <= i < j < |fields| ==> O.Before(KeyOf(fields[i]), KeyOf(fields[j]))
  }

  lemma AscendingConcat(a: seq<Field>, b: seq<Field>)
    requires Ascending(a) && Ascending(b)
    requires forall i, j :: 0 <= i < |a| && 0 <= j < |b| ==> O.Before(KeyOf(a[i]), KeyOf(b[j]))
    ensures Ascending(a + b)
  {
    var c := a + b;
    forall i, j | 0 <= i < j < |c| ensures Orderable(c[i]) && Orderable(c[j]) && O.Before(KeyOf(c[i]), KeyOf(c[j])) {
      if j < |a| {
      } else if i < |a| {
        assert O.Before(KeyOf(a[i]), KeyOf(b[j - |a|]));
      } else {
        assert O.Before(KeyOf(b[i - |a|]), KeyOf(b[j - |a|]));
      }
    }
  }

  /** Parts read from one array: indexed in order, or a single marker without an index. */
  ghost predicate Shaped(parts: seq<DisplayPart>, reasoning: bool, summary: bool) {
    && |parts| <= VEC_MAX
    && (forall i :: 0 <= i < |parts| ==>
          && !parts[i].kind.AuthoritativeText? && (parts[i].Answer() ==> !reasoning)
          && (parts[i].source == SourceAt(summary, Some(i)) || (|parts| == 1 && parts[i].source == SourceAt(summary, None))))
  }

  lemma PartsAreShaped(value: Option<Json>, reasoning: bool, summary: bool)
    requires ShortArray(value)
    ensures Shaped(PartsOf(value, reasoning, summary), reasoning, summary)
  {
  }

  ghost predicate Ordinary(f: Field, output: nat) {
    && f.output == output && Orderable(f) && !f.part.kind.AuthoritativeText? && !KeyOf(f).rank.Fallback?
    && (f.part.Answer() ==> f.part.source.InContent?)
  }

  ghost predicate AllOrdinary(fields: seq<Field>, output: nat) {
    forall i :: 0 <= i < |fields| ==> Ordinary(fields[i], output)
  }

  lemma ShapedAscends(output: u64, parts: seq<DisplayPart>, reasoning: bool, summary: bool)
    requires Shaped(parts, reasoning, summary) && (summary ==> reasoning)
    ensures Ascending(Tagged(output, parts)) && AllOrdinary(Tagged(output, parts), output)
    ensures forall i :: 0 <= i < |parts| ==>
              KeyOf(Tagged(output, parts)[i]).rank == (if summary then O.Summary else O.Content)
  {
  }

  lemma TaggedConcat(output: nat, a: seq<DisplayPart>, b: seq<DisplayPart>)
    ensures Tagged(output, a + b) == Tagged(output, a) + Tagged(output, b)
  {
  }

  lemma ReasoningAscends(output: u64, a: seq<DisplayPart>, b: seq<DisplayPart>)
    requires Shaped(a, true, true) && Shaped(b, true, false)
    ensures Ascending(Tagged(output, a + b)) && AllOrdinary(Tagged(output, a + b), output)
  {
    ShapedAscends(output, a, true, true);
    ShapedAscends(output, b, true, false);
    TaggedConcat(output, a, b);
    AscendingConcat(Tagged(output, a), Tagged(output, b));
  }

  lemma ItemAscends(output: u64, item: OutputItem)
    requires ShortArray(item.native.Get(Ascii("content"))) && ShortArray(item.native.Get(Ascii("summary")))
    ensures Ascending(Tagged(output, ItemParts(item))) && AllOrdinary(Tagged(output, ItemParts(item)), output)
  {
    var summary, content := item.native.Get(Ascii("summary")), item.native.Get(Ascii("content"));
    if item.kind.Message? {
      PartsAreShaped(content, false, false);
      ShapedAscends(output, PartsOf(content, false, false), false, false);
    } else if item.kind.Reasoning? && (summary.Some? || content.Some?) {
      PartsAreShaped(summary, true, true);
      PartsAreShaped(content, true, false);
      var a := if summary.Some? then PartsOf(summary, true, true) else [];
      var b := if content.Some? then PartsOf(content, true, false) else [];
      ReasoningAscends(output, a, b);
    }
  }

  lemma LaterOutputAscends(a: seq<Field>, b: seq<Field>, output: nat)
    requires Ascending(a) && Ascending(b) && AllOrdinary(b, output)
    requires forall i :: 0 <= i < |a| ==> a[i].output < output
    ensures Ascending(a + b)
  {
    AscendingConcat(a, b);
  }

  ghost predicate AllPlain(fields: seq<Field>, count: nat) {
    forall i :: 0 <= i < |fields| ==> fields[i].output < count && Ordinary(fields[i], fields[i].output)
  }

  lemma {:induction false} FieldsAscend(output: seq<OutputItem>)
    requires |output| <= VEC_MAX
    requires forall i :: 0 <= i < |output| ==>
               && ShortArray(output[i].native.Get(Ascii("content"))) && ShortArray(output[i].native.Get(Ascii("summary")))
    ensures Ascending(FieldsOf(output)) && AllPlain(FieldsOf(output), |output|)
  {
    if output != [] {
      var last := |output| - 1;
      FieldsAscend(output[..last]);
      ItemAscends(last, output[last]);
      LaterOutputAscends(FieldsOf(output[..last]), Tagged(last, ItemParts(output[last])), last);
    }
  }

  lemma {:induction false} UncoveredKeeps(fields: seq<Field>, text: Text)
    ensures forall f :: f in Uncovered(fields, text) <==> f in fields && !Covered(f, text)
  {
    if fields != [] {
      var last := |fields| - 1;
      UncoveredKeeps(fields[..last], text);
      assert fields == fields[..last] + [fields[last]];
    }
  }

  lemma {:induction false} UncoveredAscends(fields: seq<Field>, text: Text)
    requires Ascending(fields)
    ensures Ascending(Uncovered(fields, text))
  {
    if fields != [] {
      var last := |fields| - 1;
      var most := fields[..last];
      UncoveredAscends(most, text);
      UncoveredKeeps(most, text);
      var kept := Uncovered(most, text);
      forall i | 0 <= i < |kept| ensures O.Before(KeyOf(kept[i]), KeyOf(fields[last])) {
        assert kept[i] in most;
      }
      AscendingConcat(kept, [fields[last]]);
    }
  }

  /** A fallback key stands immediately before the content it replaces. */
  lemma FallbackIsImmediate(content: O.Key, other: O.Key)
    requires content.rank.Content? && !other.rank.Fallback?
    ensures var fallback := content.(rank := O.Fallback);
            && (O.Before(other, content) ==> O.Before(other, fallback))
            && (other == content || O.Before(content, other) ==> O.Before(fallback, other))
  {
    var fallback := content.(rank := O.Fallback);
    assert O.Before(fallback, content);
    if O.Before(content, other) { O.BeforeIsTransitive(fallback, content, other); }
  }

  lemma FallbackKey(response: ModelResponse, fields: seq<Field>)
    requires Ascending(fields) && AllPlain(fields, |response.output|) && |response.output| <= VEC_MAX
    ensures var fallback, first := FallbackOf(response, fields), FirstAnswer(fields);
            && Orderable(fallback)
            && (first < |fields| ==>
                  KeyOf(fields[first]).rank.Content? && KeyOf(fallback) == KeyOf(fields[first]).(rank := O.Fallback))
            && (first == |fields| ==> KeyOf(fallback) == O.Key(Some(|response.output|), O.Fallback, None, None))
  {
    var first := FirstAnswer(fields);
    if first < |fields| {
      assert Ordinary(fields[first], fields[first].output);
    }
  }

  lemma FallbackStandsBefore(response: ModelResponse, fields: seq<Field>, i: nat)
    requires Ascending(fields) && AllPlain(fields, |response.output|) && |response.output| <= VEC_MAX && i < |fields|
    ensures var fallback, first := FallbackOf(response, fields), FirstAnswer(fields);
            && Orderable(fallback)
            && (i < first ==> O.Before(KeyOf(fields[i]), KeyOf(fallback)))
            && (first <= i ==> O.Before(KeyOf(fallback), KeyOf(fields[i])))
  {
    FallbackKey(response, fields);
    var first := FirstAnswer(fields);
    assert Ordinary(fields[i], fields[i].output);
    if first < |fields| { FallbackIsImmediate(KeyOf(fields[first]), KeyOf(fields[i])); }
  }

  lemma KeptAfter(fields: seq<Field>, first: nat, text: Text, key: O.Key)
    requires Ascending(fields) && first <= |fields|
    requires forall i :: first <= i < |fields| ==> O.Before(key, KeyOf(fields[i]))
    ensures var kept := Uncovered(fields[first..], text);
            Ascending(kept) && forall j :: 0 <= j < |kept| ==> O.Before(key, KeyOf(kept[j]))
  {
    var rest := fields[first..];
    assert Ascending(rest);
    UncoveredAscends(rest, text);
    UncoveredKeeps(rest, text);
    var kept := Uncovered(rest, text);
    forall j | 0 <= j < |kept| ensures O.Before(key, KeyOf(kept[j])) {
      assert kept[j] in rest;
      var k :| 0 <= k < |rest| && rest[k] == kept[j];
      assert fields[first + k] == kept[j];
    }
  }

  /** Two ascending stretches with one field between them. */
  lemma AscendingAround(before: seq<Field>, middle: Field, after: seq<Field>)
    requires Ascending(before) && Ascending(after) && Orderable(middle)
    requires forall i :: 0 <= i < |before| ==> O.Before(KeyOf(before[i]), KeyOf(middle))
    requires forall j :: 0 <= j < |after| ==> O.Before(KeyOf(middle), KeyOf(after[j]))
    ensures Ascending(before + [middle] + after)
  {
    AscendingConcat(before, [middle]);
    var front := before + [middle];
    forall i, j | 0 <= i < |front| && 0 <= j < |after| ensures O.Before(KeyOf(front[i]), KeyOf(after[j])) {
      if i < |before| { O.BeforeIsTransitive(KeyOf(before[i]), KeyOf(middle), KeyOf(after[j])); }
    }
    AscendingConcat(front, after);
  }

  lemma SplicedAscends(response: ModelResponse, fields: seq<Field>)
    requires Ascending(fields) && AllPlain(fields, |response.output|) && |response.output| <= VEC_MAX
    ensures var first := FirstAnswer(fields);
            Ascending(fields[..first] + [FallbackOf(response, fields)] + Uncovered(fields[first..], response.text))
  {
    FallbackKey(response, fields);
    var first, fallback := FirstAnswer(fields), FallbackOf(response, fields);
    forall i | 0 <= i < |fields|
      ensures i < first ==> O.Before(KeyOf(fields[i]), KeyOf(fallback))
      ensures first <= i ==> O.Before(KeyOf(fallback), KeyOf(fields[i]))
    {
      FallbackStandsBefore(response, fields, i);
    }
    KeptAfter(fields, first, response.text, KeyOf(fallback));
    AscendingAround(fields[..first], fallback, Uncovered(fields[first..], response.text));
  }

  /** The projected fields have strictly increasing keys, wherever the fallback goes. */
  lemma ProjectionAscends(response: ModelResponse)
    requires InMemory(response)
    ensures Ascending(Projected(response))
  {
    FieldsAscend(response.output);
    SplicedAscends(response, FieldsOf(response.output));
  }

  ghost predicate OneFallback(fields: seq<Field>) {
    forall i, j :: 0 <= i < j < |fields| && fields[i].part.source.OfFallback? ==> !fields[j].part.source.OfFallback?
  }

  /** Around the fallback stand only fields of the response. */
  lemma SplicedElsewhere(fields: seq<Field>, fallback: Field, text: Text, i: nat)
    requires var first := FirstAnswer(fields);
             i < |fields[..first] + [fallback] + Uncovered(fields[first..], text)| && i != first
    ensures var first := FirstAnswer(fields); (fields[..first] + [fallback] + Uncovered(fields[first..], text))[i] in fields
  {
    var first := FirstAnswer(fields);
    var kept := Uncovered(fields[first..], text);
    if first < i {
      UncoveredKeeps(fields[first..], text);
      assert (fields[..first] + [fallback] + kept)[i] == kept[i - first - 1];
      assert kept[i - first - 1] in fields[first..];
    }
  }

  lemma SplicedHasOneFallback(fields: seq<Field>, fallback: Field, text: Text)
    requires forall f :: f in fields ==> !f.part.source.OfFallback?
    ensures var first := FirstAnswer(fields); OneFallback(fields[..first] + [fallback] + Uncovered(fields[first..], text))
  {
    var first := FirstAnswer(fields);
    var result := fields[..first] + [fallback] + Uncovered(fields[first..], text);
    forall i | 0 <= i < |result| && i != first ensures !result[i].part.source.OfFallback? {
      SplicedElsewhere(fields, fallback, text, i);
    }
  }

  lemma PlainHasNoFallback(fields: seq<Field>, count: nat)
    requires AllPlain(fields, count)
    ensures forall f :: f in fields ==> !f.part.source.OfFallback? && !f.part.kind.AuthoritativeText?
  {
    forall i | 0 <= i < |fields| ensures !fields[i].part.source.OfFallback? && !fields[i].part.kind.AuthoritativeText? {
      assert Ordinary(fields[i], fields[i].output);
    }
  }

  lemma ProjectionHasOneFallback(response: ModelResponse)
    requires InMemory(response)
    ensures OneFallback(Projected(response))
  {
    FieldsAscend(response.output);
    var fields := FieldsOf(response.output);
    PlainHasNoFallback(fields, |response.output|);
    SplicedHasOneFallback(fields, FallbackOf(response, fields), response.text);
  }

  lemma SourcesAreDistinct(fields: seq<Field>, i: nat, j: nat)
    requires Ascending(fields) && OneFallback(fields) && i < j < |fields|
    ensures O.SourceSpelling(KeyOf(fields[i])) != O.SourceSpelling(KeyOf(fields[j]))
  {
    var a, b := KeyOf(fields[i]), KeyOf(fields[j]);
    assert O.Before(a, b);
    assert a.rank.Fallback? ==> !b.rank.Fallback?;
    SourcesOfDistinctKeys(a, b);
  }

  lemma SourcesOfDistinctKeys(a: O.Key, b: O.Key)
    requires O.Before(a, b) && !(a.rank.Fallback? && b.rank.Fallback?)
    ensures O.SourceSpelling(a) != O.SourceSpelling(b)
  {
    O.BeforeIsTotal(a, b);
    O.SpellingIdentifiesSource(a, b);
  }

  lemma PrintedKeysAscend(fields: seq<Field>, i: nat, j: nat)
    requires Ascending(fields) && i < j < |fields|
    ensures Spelling.Less(O.Print(KeyOf(fields[i])), O.Print(KeyOf(fields[j])))
  {
    O.PrintPreservesOrder(KeyOf(fields[i]), KeyOf(fields[j]));
  }

  /** Printed keys ascend as strings, as an entry demands, and no two fields share a source. */
  lemma ProjectionIsDisplayable(response: ModelResponse, i: nat, j: nat)
    requires InMemory(response) && i < j < |Projected(response)|
    ensures var fields := Projected(response);
            && Orderable(fields[i]) && Orderable(fields[j])
            && Spelling.Less(O.Print(KeyOf(fields[i])), O.Print(KeyOf(fields[j])))
            && O.SourceSpelling(KeyOf(fields[i])) != O.SourceSpelling(KeyOf(fields[j]))
  {
    ProjectionAscends(response);
    ProjectionHasOneFallback(response);
    SourcesAreDistinct(Projected(response), i, j);
    PrintedKeysAscend(Projected(response), i, j);
  }

  // ---- the fallback loses nothing

  /** The fields that are not answers, in order. */
  function Others(fields: seq<Field>): seq<Field> {
    if fields == [] then []
    else
      var last := |fields| - 1;
      Others(fields[..last])
      + if fields[last].part.Answer() || fields[last].part.kind.AuthoritativeText? then [] else [fields[last]]
  }

  lemma {:induction false} OthersConcat(a: seq<Field>, b: seq<Field>)
    ensures Others(a + b) == Others(a) + Others(b)
  {
    if b == [] {
      assert a + b == a;
    } else {
      var last := |b| - 1;
      assert (a + b)[..|a| + last] == a + b[..last];
      OthersConcat(a, b[..last]);
    }
  }

  lemma {:induction false} OthersSurvive(fields: seq<Field>, text: Text)
    ensures Others(Uncovered(fields, text)) == Others(fields)
  {
    if fields != [] {
      var last := |fields| - 1;
      OthersSurvive(fields[..last], text);
      var kept := Uncovered(fields[..last], text);
      OthersConcat(kept, [fields[last]]);
      assert [fields[last]][..0] == [];
      assert kept + [] == kept;
    }
  }

  /** What a reader sees as answers: text, refusals and the fallback. */
  function Shown(fields: seq<Field>): seq<Text> {
    if fields == [] then []
    else
      var last := |fields| - 1;
      Shown(fields[..last])
      + if fields[last].part.Answer() || fields[last].part.kind.AuthoritativeText? then [fields[last].part.text] else []
  }

  lemma {:induction false} ShownHas(fields: seq<Field>, i: nat)
    requires i < |fields| && (fields[i].part.Answer() || fields[i].part.kind.AuthoritativeText?)
    ensures fields[i].part.text in Shown(fields)
  {
    if i < |fields| - 1 { ShownHas(fields[..|fields| - 1], i); }
  }

  lemma {:induction false} ShownIsAnswers(fields: seq<Field>)
    requires forall i :: 0 <= i < |fields| ==> !fields[i].part.kind.AuthoritativeText?
    ensures Shown(fields) == AnswersOf(fields)
  {
    if fields != [] { ShownIsAnswers(fields[..|fields| - 1]); }
  }

  lemma ContainsItself(text: Text)
    ensures Contains(text, text)
  {
    assert text <= text[0..];
  }

  lemma OthersOfFallback(fallback: Field)
    requires fallback.part.kind.AuthoritativeText?
    ensures Others([fallback]) == []
  {
    assert [fallback][..0] == [];
  }

  lemma OthersAround(before: seq<Field>, fallback: Field, kept: seq<Field>, rest: seq<Field>)
    requires fallback.part.kind.AuthoritativeText? && Others(kept) == Others(rest)
    ensures Others(before + [fallback] + kept) == Others(before + rest)
  {
    OthersOfFallback(fallback);
    calc {
      Others(before + [fallback] + kept);
      { OthersConcat(before + [fallback], kept); }
      Others(before + [fallback]) + Others(kept);
      { OthersConcat(before, [fallback]); }
      Others(before) + [] + Others(rest);
      Others(before) + Others(rest);
      { OthersConcat(before, rest); }
      Others(before + rest);
    }
  }

  lemma SplicedOthers(fields: seq<Field>, fallback: Field, text: Text)
    requires fallback.part.kind.AuthoritativeText?
    ensures var first := FirstAnswer(fields);
            Others(fields[..first] + [fallback] + Uncovered(fields[first..], text)) == Others(fields)
  {
    var first := FirstAnswer(fields);
    OthersSurvive(fields[first..], text);
    OthersAround(fields[..first], fallback, Uncovered(fields[first..], text), fields[first..]);
    assert fields == fields[..first] + fields[first..];
  }

  lemma SplicedDrops(fields: seq<Field>, fallback: Field, text: Text, f: Field)
    requires f in fields
    ensures var first := FirstAnswer(fields);
            f !in fields[..first] + [fallback] + Uncovered(fields[first..], text) ==> Covered(f, text)
  {
    var first := FirstAnswer(fields);
    UncoveredKeeps(fields[first..], text);
    assert fields == fields[..first] + fields[first..];
    assert f in fields[..first] || f in fields[first..];
  }

  lemma ShownRepresents(fields: seq<Field>, i: nat)
    requires i < |fields| && fields[i].part.kind.AuthoritativeText?
    ensures Represented(fields[i].part.text, Shown(fields))
  {
    var text, shown := fields[i].part.text, Shown(fields);
    ShownHas(fields, i);
    ContainsItself(text);
    var k :| 0 <= k < |shown| && shown[k] == text;
    assert Contains(shown[k], text);
  }

  ghost predicate OneAuthority(fields: seq<Field>) {
    forall i, j :: 0 <= i < j < |fields| && fields[i].part.kind.AuthoritativeText? ==> !fields[j].part.kind.AuthoritativeText?
  }

  /** Nothing but covered answers is dropped, everything else keeps its order, the fallback appears, once, exactly when
      the text is not already represented, and the answers shown always represent the text. */
  lemma FallbackLosesNothing(response: ModelResponse)
    requires InMemory(response)
    ensures var fields, result := FieldsOf(response.output), Projected(response);
            var represented := Represented(response.text, AnswersOf(fields));
            && Others(result) == Others(fields)
            && (forall f :: f in fields && f !in result ==>
                  f.part.Answer() && f.part.text != [] && Contains(response.text, f.part.text))
            && (forall f :: f in result && !f.part.kind.AuthoritativeText? ==> f in fields)
            && (represented <==> forall f :: f in result ==> !f.part.kind.AuthoritativeText?)
            && (forall f :: f in result && f.part.kind.AuthoritativeText? ==> f.part.text == response.text)
            && OneAuthority(result)
            && Represented(response.text, Shown(result))
  {
    FieldsAscend(response.output);
    var fields := FieldsOf(response.output);
    PlainHasNoFallback(fields, |response.output|);
    if Represented(response.text, AnswersOf(fields)) {
      ShownIsAnswers(fields);
    } else {
      SplicedLosesNothing(response, fields);
    }
  }

  lemma SplicedLosesNothing(response: ModelResponse, fields: seq<Field>)
    requires forall f :: f in fields ==> !f.part.kind.AuthoritativeText?
    ensures var first, text := FirstAnswer(fields), response.text;
            var result := fields[..first] + [FallbackOf(response, fields)] + Uncovered(fields[first..], text);
            && Others(result) == Others(fields)
            && (forall f :: f in fields && f !in result ==> Covered(f, text))
            && (forall f :: f in result ==> if f.part.kind.AuthoritativeText? then f.part.text == text else f in fields)
            && result[first].part.kind.AuthoritativeText? && OneAuthority(result)
            && Represented(text, Shown(result))
  {
    var first, text, fallback := FirstAnswer(fields), response.text, FallbackOf(response, fields);
    var result := fields[..first] + [fallback] + Uncovered(fields[first..], text);
    SplicedOthers(fields, fallback, text);
    forall f | f in fields && f !in result ensures Covered(f, text) {
      SplicedDrops(fields, fallback, text, f);
    }
    forall i | 0 <= i < |result| && i != first ensures result[i] in fields {
      SplicedElsewhere(fields, fallback, text, i);
    }
    assert result[first] == fallback;
    ShownRepresents(result, first);
  }
}
