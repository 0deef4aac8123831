/** Building a JSON value from YAML parser events with an explicit stack, and the trees those events spell. */
module YamlEvents {
  import opened Wire

  /** `marked` says that the event carries an anchor or a tag. */
  datatype Event =
    | StreamStart | StreamEnd | DocumentStart | DocumentEnd
    | Scalar(text: Text, plain: bool, marked: bool)
    | SequenceStart(marked: bool) | SequenceEnd
    | MappingStart(marked: bool) | MappingEnd
    | Alias

  /** The YAML core schema's reading of a plain scalar. */
  type Schema = Text -> Option<Json>

  /** Quoted scalars are strings; a plain one that reads as no JSON scalar is refused. */
  function ScalarValue(schema: Schema, text: Text, plain: bool): (r: Option<Json>)
    ensures r.Some? ==> !r.value.Array? && !r.value.Object?
  {
    if !plain then Some(String(text))
    else
      match schema(text)
      case Some(Array(_)) => None
      case Some(Object(_)) => None
      case other => other
  }

  const Merge: Text := Ascii("<<")

  // ---- trees

  /** Lists and mappings grow at the end, as a parser meets their members. */
  datatype Node = Leaf(text: Text, plain: bool) | List(items: Items) | Dict(entries: Entries)
  datatype Items = NoItems | Item(before: Items, last: Node)
  datatype Entries = NoEntries | Entry(before: Entries, key: Text, plain: bool, value: Node)

  function Spell(n: Node): seq<Event> {
    match n
    case Leaf(text, plain) => [Scalar(text, plain, false)]
    case List(items) => [SequenceStart(false)] + SpellItems(items) + [SequenceEnd]
    case Dict(entries) => [MappingStart(false)] + SpellEntries(entries) + [MappingEnd]
  }

  function SpellItems(items: Items): seq<Event> {
    match items
    case NoItems => []
    case Item(before, last) => SpellItems(before) + Spell(last)
  }

  function SpellEntries(entries: Entries): seq<Event> {
    match entries
    case NoEntries => []
    case Entry(before, key, plain, value) => SpellEntries(before) + [Scalar(key, plain, false)] + Spell(value)
  }

  /** A key is a scalar that reads as a string, and not the plain merge key. */
  function KeyOf(schema: Schema, text: Text, plain: bool): Option<Text> {
    if plain && text == Merge then None
    else
      match ScalarValue(schema, text, plain)
      case Some(String(key)) => Some(key)
      case _ => None
  }

  function Meaning(schema: Schema, n: Node): Option<Json> {
    match n
    case Leaf(text, plain) => ScalarValue(schema, text, plain)
    case List(items) =>
      (match ItemsMeaning(schema, items)
       case None => None
       case Some(values) => Some(Array(values)))
    case Dict(entries) =>
      (match EntriesMeaning(schema, entries)
       case None => None
       case Some(values) => Some(Object(values)))
  }

  function ItemsMeaning(schema: Schema, items: Items): Option<seq<Json>> {
    match items
    case NoItems => Some([])
    case Item(before, last) =>
      var values, value := ItemsMeaning(schema, before), Meaning(schema, last);
      if values.None? || value.None? then None else Some(values.value + [value.value])
  }

  /** Keys are unique. */
  function EntriesMeaning(schema: Schema, entries: Entries): Option<map<Text, Json>> {
    match entries
    case NoEntries => Some(map[])
    case Entry(before, text, plain, value) =>
      var values, key, v := EntriesMeaning(schema, before), KeyOf(schema, text, plain), Meaning(schema, value);
      if values.None? || key.None? || v.None? || key.value in values.value then None
      else Some(values.value[key.value := v.value])
  }

  // ---- the stack machine

  datatype Frame = InList(values: seq<Json>) | InDict(members: map<Text, Json>, key: Option<Text>)

  datatype Machine = Machine(stack: seq<Frame>, root: Option<Json>, documents: nat)

  const Start := Machine([], None, 0)

  function Top(m: Machine): Option<Frame> {
    if m.stack == [] then None else Some(m.stack[|m.stack| - 1])
  }

  function Under(m: Machine): seq<Frame>
    requires m.stack != []
  {
    m.stack[..|m.stack| - 1]
  }

  predicate AtKey(m: Machine) {
    Top(m).Some? && Top(m).value.InDict? && Top(m).value.key.None?
  }

  /** Hand a finished value to the frame that waits for it, or make it the root. */
  function Deliver(m: Machine, value: Json): Option<Machine> {
    if m.stack == [] then if m.root.Some? then None else Some(m.(root := Some(value)))
    else
      match m.stack[|m.stack| - 1]
      case InList(values) => Some(m.(stack := Under(m) + [InList(values + [value])]))
      case InDict(members, Some(key)) =>
        if key in members then None else Some(m.(stack := Under(m) + [InDict(members[key := value], None)]))
      case InDict(members, None) =>
        if value.String? then Some(m.(stack := Under(m) + [InDict(members, Some(value.text))])) else None
  }

  function Step(schema: Schema, m: Machine, event: Event): Option<Machine> {
    match event
    case StreamStart => Some(m)
    case DocumentEnd => Some(m)
    case DocumentStart => if m.documents == 0 then Some(m.(documents := 1)) else None
    case Scalar(text, plain, false) =>
      if plain && text == Merge && AtKey(m) then None
      else
        (match ScalarValue(schema, text, plain)
         case None => None
         case Some(value) => Deliver(m, value))
    case SequenceStart(false) => Some(m.(stack := m.stack + [InList([])]))
    case MappingStart(false) => Some(m.(stack := m.stack + [InDict(map[], None)]))
    case SequenceEnd =>
      if Top(m).Some? && Top(m).value.InList? then Deliver(m.(stack := Under(m)), Array(Top(m).value.values)) else None
    case MappingEnd =>
      if Top(m).Some? && Top(m).value.InDict? && Top(m).value.key.None?
      then Deliver(m.(stack := Under(m)), Object(Top(m).value.members)) else None
    case _ => None
  }

  function Run(schema: Schema, m: Machine, events: seq<Event>): Option<Machine> {
    if events == [] then Some(m)
    else
      match Run(schema, m, events[..|events| - 1])
      case None => None
      case Some(next) => Step(schema, next, events[|events| - 1])
  }

  /** The events before the end of the stream; a stream that never ends is a scanner error. */
  function Body(events: seq<Event>): Option<seq<Event>> {
    if events == [] then None
    else if events[0].StreamEnd? then Some([])
    else
      match Body(events[1..])
      case None => None
      case Some(rest) => Some([events[0]] + rest)
  }

  function Result(m: Machine): Option<Json> {
    if m.documents == 1 && m.stack == [] && m.root.Some? && m.root.value.Object? then m.root else None
  }

  function Parsed(schema: Schema, events: seq<Event>): Option<Json> {
    match Body(events)
    case None => None
    case Some(body) =>
      match Run(schema, Start, body)
      case None => None
      case Some(m) => Result(m)
  }

  // ---- runs compose

  lemma {:induction false} RunAppend(schema: Schema, m: Machine, a: seq<Event>, b: seq<Event>)
    ensures Run(schema, m, a + b) ==
            match Run(schema, m, a) case None => None case Some(next) => Run(schema, next, b)
  {
    if b == [] {
      assert a + b == a;
    } else {
      var most := b[..|b| - 1];
      assert (a + b)[..|a + b| - 1] == a + most;
      RunAppend(schema, m, a, most);
    }
  }

  lemma RunOne(schema: Schema, m: Machine, event: Event)
    ensures Run(schema, m, [event]) == Step(schema, m, event)
  {
    assert [event][..0] == [];
  }

  function Push(m: Machine, frame: Frame): Machine { m.(stack := m.stack + [frame]) }

  lemma PushTop(m: Machine, frame: Frame)
    ensures Top(Push(m, frame)) == Some(frame) && Under(Push(m, frame)) == m.stack
    ensures Push(m, frame).(stack := Under(Push(m, frame))) == m
  {
  }

  // ---- every tree is read as its meaning

  function Then(m: Machine, value: Option<Json>): Option<Machine> {
    if value.None? then None else Deliver(m, value.value)
  }

  /** A bracketed stretch runs as its opening, its body and its closing. */
  lemma RunsBracket(schema: Schema, m: Machine, open: Event, body: seq<Event>, close: Event)
    ensures Run(schema, m, [open] + body + [close]) ==
            match Step(schema, m, open)
            case None => None
            case Some(x) =>
              match Run(schema, x, body)
              case None => None
              case Some(y) => Step(schema, y, close)
  {
    RunOne(schema, m, open);
    RunAppend(schema, m, [open], body);
    RunAppend(schema, m, [open] + body, [close]);
    match Run(schema, m, [open] + body)
    case None =>
    case Some(y) => RunOne(schema, y, close);
  }

  lemma {:induction false} RunsNode(schema: Schema, n: Node, m: Machine)
    requires n.Leaf? && n.plain && n.text == Merge ==> !AtKey(m)
    ensures Run(schema, m, Spell(n)) == Then(m, Meaning(schema, n))
    decreases n, 0
  {
    match n
    case Leaf(text, plain) => RunOne(schema, m, Scalar(text, plain, false));
    case List(items) => RunsList(schema, items, m);
    case Dict(entries) => RunsDict(schema, entries, m);
  }

  lemma {:induction false} RunsList(schema: Schema, items: Items, m: Machine)
    ensures Run(schema, m, Spell(List(items))) == Then(m, Meaning(schema, List(items)))
    decreases items, 1
  {
    RunsBracket(schema, m, SequenceStart(false), SpellItems(items), SequenceEnd);
    RunsItems(schema, items, m);
    if ItemsMeaning(schema, items).Some? { PushTop(m, InList(ItemsMeaning(schema, items).value)); }
  }

  lemma {:induction false} RunsDict(schema: Schema, entries: Entries, m: Machine)
    ensures Run(schema, m, Spell(Dict(entries))) == Then(m, Meaning(schema, Dict(entries)))
    decreases entries, 1
  {
    RunsBracket(schema, m, MappingStart(false), SpellEntries(entries), MappingEnd);
    RunsEntries(schema, entries, m);
    if EntriesMeaning(schema, entries).Some? { PushTop(m, InDict(EntriesMeaning(schema, entries).value, None)); }
  }

  lemma {:induction false} RunsItems(schema: Schema, items: Items, m: Machine)
    ensures Run(schema, Push(m, InList([])), SpellItems(items)) ==
            match ItemsMeaning(schema, items) case None => None case Some(values) => Some(Push(m, InList(values)))
    decreases items, 0
  {
    match items
    case NoItems =>
    case Item(before, last) =>
      RunsItems(schema, before, m);
      RunAppend(schema, Push(m, InList([])), SpellItems(before), Spell(last));
      if ItemsMeaning(schema, before).Some? {
        var inner := Push(m, InList(ItemsMeaning(schema, before).value));
        PushTop(m, InList(ItemsMeaning(schema, before).value));
        RunsNode(schema, last, inner);
      }
  }

  function AfterEntry(schema: Schema, members: map<Text, Json>, key: Text, plain: bool, value: Node): Option<map<Text, Json>> {
    var k, v := KeyOf(schema, key, plain), Meaning(schema, value);
    if k.None? || v.None? || k.value in members then None else Some(members[k.value := v.value])
  }

  lemma {:induction false} RunsEntry(schema: Schema, members: map<Text, Json>, key: Text, plain: bool, value: Node, m: Machine)
    ensures Run(schema, Push(m, InDict(members, None)), [Scalar(key, plain, false)] + Spell(value)) ==
            match AfterEntry(schema, members, key, plain, value)
            case None => None
            case Some(more) => Some(Push(m, InDict(more, None)))
    decreases value, 1
  {
    RunsKey(schema, members, key, plain, m);
    RunAppend(schema, Push(m, InDict(members, None)), [Scalar(key, plain, false)], Spell(value));
    if KeyOf(schema, key, plain).Some? {
      var inner := Push(m, InDict(members, KeyOf(schema, key, plain)));
      PushTop(m, InDict(members, KeyOf(schema, key, plain)));
      RunsNode(schema, value, inner);
    }
  }

  lemma {:induction false} RunsEntries(schema: Schema, entries: Entries, m: Machine)
    ensures Run(schema, Push(m, InDict(map[], None)), SpellEntries(entries)) ==
            match EntriesMeaning(schema, entries) case None => None case Some(members) => Some(Push(m, InDict(members, None)))
    decreases entries, 0
  {
    match entries
    case NoEntries =>
    case Entry(before, key, plain, value) =>
      RunsEntries(schema, before, m);
      Regrouped(SpellEntries(before), [Scalar(key, plain, false)], Spell(value));
      RunAppend(schema, Push(m, InDict(map[], None)), SpellEntries(before), [Scalar(key, plain, false)] + Spell(value));
      if EntriesMeaning(schema, before).Some? {
        RunsEntry(schema, EntriesMeaning(schema, before).value, key, plain, value, m);
      }
  }

  lemma RunsKey(schema: Schema, members: map<Text, Json>, key: Text, plain: bool, m: Machine)
    ensures Run(schema, Push(m, InDict(members, None)), [Scalar(key, plain, false)]) ==
            match KeyOf(schema, key, plain) case None => None case Some(k) => Some(Push(m, InDict(members, Some(k))))
  {
    RunOne(schema, Push(m, InDict(members, None)), Scalar(key, plain, false));
    PushTop(m, InDict(members, None));
  }

  // ---- everything the machine reads is a tree

  /** A half-read tree: the frames still open, from the outermost in, and a finished root. */
  datatype Outline = OpenList(items: Items) | OpenDict(entries: Entries, key: Option<(Text, bool)>)
  datatype Sketch = Sketch(stack: seq<Outline>, root: Option<Node>)

  function SpellOutline(o: Outline): seq<Event> {
    match o
    case OpenList(items) => [SequenceStart(false)] + SpellItems(items)
    case OpenDict(entries, None) => [MappingStart(false)] + SpellEntries(entries)
    case OpenDict(entries, Some((text, plain))) => [MappingStart(false)] + SpellEntries(entries) + [Scalar(text, plain, false)]
  }

  function SpellStack(stack: seq<Outline>): seq<Event> {
    if stack == [] then [] else SpellStack(stack[..|stack| - 1]) + SpellOutline(stack[|stack| - 1])
  }

  function SpellSketch(s: Sketch): seq<Event> {
    (if s.root.Some? then Spell(s.root.value) else []) + SpellStack(s.stack)
  }

  ghost predicate FrameMatches(schema: Schema, o: Outline, f: Frame) {
    match o
    case OpenList(items) => f.InList? && ItemsMeaning(schema, items) == Some(f.values)
    case OpenDict(entries, None) => f.InDict? && f.key.None? && EntriesMeaning(schema, entries) == Some(f.members)
    case OpenDict(entries, Some((text, plain))) =>
      f.InDict? && f.key.Some? && EntriesMeaning(schema, entries) == Some(f.members) && KeyOf(schema, text, plain) == f.key
  }

  ghost predicate Matches(schema: Schema, s: Sketch, m: Machine) {
    && |s.stack| == |m.stack|
    && (forall i :: 0 <= i < |s.stack| ==> FrameMatches(schema, s.stack[i], m.stack[i]))
    && (if s.root.Some? then Meaning(schema, s.root.value) == m.root && m.root.Some? else m.root.None?)
  }

  /** Replacing the innermost frame. */
  lemma TopMatches(schema: Schema, s: Sketch, m: Machine, o: Outline, f: Frame)
    requires Matches(schema, s, m) && s.stack != [] && FrameMatches(schema, o, f)
    ensures Matches(schema, s.(stack := s.stack[..|s.stack| - 1] + [o]), m.(stack := Under(m) + [f]))
  {
  }

  lemma SpellTop(s: Sketch, o: Outline, more: seq<Event>)
    requires s.stack != [] && SpellOutline(o) == SpellOutline(s.stack[|s.stack| - 1]) + more
    ensures SpellSketch(s.(stack := s.stack[..|s.stack| - 1] + [o])) == SpellSketch(s) + more
  {
    var top := s.stack[|s.stack| - 1];
    assert s.stack == Below(s).stack + [top];
    SpellOpen(Below(s), top);
    SpellOpen(Below(s), o);
    Regrouped(SpellSketch(Below(s)), SpellOutline(top), more);
  }

  lemma Delivers(schema: Schema, s: Sketch, m: Machine, n: Node) returns (t: Sketch)
    requires Matches(schema, s, m) && Meaning(schema, n).Some? && Deliver(m, Meaning(schema, n).value).Some?
    requires AtKey(m) ==> !(n.Leaf? && n.plain && n.text == Merge)
    ensures Matches(schema, t, Deliver(m, Meaning(schema, n).value).value) && SpellSketch(t) == SpellSketch(s) + Spell(n)
  {
    if s.stack == [] {
      t := s.(root := Some(n));
      assert SpellStack(s.stack) == [];
    } else {
      var top, frame := s.stack[|s.stack| - 1], m.stack[|m.stack| - 1];
      assert FrameMatches(schema, top, frame);
      var o := Extended(top, n);
      t := s.(stack := s.stack[..|s.stack| - 1] + [o]);
      ExtendedMatches(schema, top, frame, n);
      var next := Deliver(m, Meaning(schema, n).value).value;
      TopMatches(schema, s, m, o, next.stack[|next.stack| - 1]);
      SpellTop(s, o, Spell(n));
    }
  }

  /** The frame with one more node: an item, a value, or a key. */
  function Extended(o: Outline, n: Node): Outline {
    match o
    case OpenList(items) => OpenList(Item(items, n))
    case OpenDict(entries, Some((text, plain))) => OpenDict(Entry(entries, text, plain, n), None)
    case OpenDict(entries, None) => if n.Leaf? then OpenDict(entries, Some((n.text, n.plain))) else o
  }

  lemma ExtendedMatches(schema: Schema, o: Outline, f: Frame, n: Node)
    requires FrameMatches(schema, o, f) && Meaning(schema, n).Some?
    requires f.InDict? && f.key.None? ==> Meaning(schema, n).value.String? && !(n.Leaf? && n.plain && n.text == Merge)
    requires f.InDict? && f.key.Some? ==> f.key.value !in f.members
    ensures SpellOutline(Extended(o, n)) == SpellOutline(o) + Spell(n)
    ensures var v := Meaning(schema, n).value;
            FrameMatches(schema, Extended(o, n),
              match f
              case InList(values) => InList(values + [v])
              case InDict(members, Some(key)) => InDict(members[key := v], None)
              case InDict(members, None) => InDict(members, Some(v.text)))
  {
  }

  function Below(s: Sketch): Sketch
    requires s.stack != []
  {
    s.(stack := s.stack[..|s.stack| - 1])
  }

  lemma Pops(schema: Schema, s: Sketch, m: Machine)
    requires Matches(schema, s, m) && s.stack != []
    ensures Matches(schema, Below(s), m.(stack := Under(m)))
    ensures FrameMatches(schema, s.stack[|s.stack| - 1], m.stack[|m.stack| - 1])
    ensures SpellSketch(s) == SpellSketch(Below(s)) + SpellOutline(s.stack[|s.stack| - 1])
  {
  }

  lemma ClosesList(schema: Schema, s: Sketch, m: Machine) returns (t: Sketch)
    requires Matches(schema, s, m) && Step(schema, m, SequenceEnd).Some?
    ensures Matches(schema, t, Step(schema, m, SequenceEnd).value) && SpellSketch(t) == SpellSketch(s) + [SequenceEnd]
  {
    Pops(schema, s, m);
    var items := s.stack[|s.stack| - 1].items;
    t := Delivers(schema, Below(s), m.(stack := Under(m)), List(items));
    Regrouped(SpellSketch(Below(s)), [SequenceStart(false)] + SpellItems(items), [SequenceEnd]);
  }

  lemma ClosesDict(schema: Schema, s: Sketch, m: Machine) returns (t: Sketch)
    requires Matches(schema, s, m) && Step(schema, m, MappingEnd).Some?
    ensures Matches(schema, t, Step(schema, m, MappingEnd).value) && SpellSketch(t) == SpellSketch(s) + [MappingEnd]
  {
    Pops(schema, s, m);
    var entries := s.stack[|s.stack| - 1].entries;
    t := Delivers(schema, Below(s), m.(stack := Under(m)), Dict(entries));
    Regrouped(SpellSketch(Below(s)), [MappingStart(false)] + SpellEntries(entries), [MappingEnd]);
  }

  lemma Regrouped<T>(a: seq<T>, b: seq<T>, c: seq<T>)
    ensures a + (b + c) == a + b + c
  {
  }

  predicate Content(event: Event) {
    !event.StreamStart? && !event.DocumentStart? && !event.DocumentEnd?
  }

  lemma Opens(schema: Schema, s: Sketch, m: Machine, o: Outline, f: Frame)
    requires Matches(schema, s, m) && FrameMatches(schema, o, f)
    ensures Matches(schema, s.(stack := s.stack + [o]), m.(stack := m.stack + [f]))
  {
  }

  lemma SpellOpen(s: Sketch, o: Outline)
    ensures SpellSketch(s.(stack := s.stack + [o])) == SpellSketch(s) + SpellOutline(o)
  {
    assert (s.stack + [o])[..|s.stack|] == s.stack;
  }

  lemma Follows(schema: Schema, s: Sketch, m: Machine, event: Event) returns (t: Sketch)
    requires Matches(schema, s, m) && Content(event) && Step(schema, m, event).Some?
    ensures Matches(schema, t, Step(schema, m, event).value) && SpellSketch(t) == SpellSketch(s) + [event]
  {
    match event
    case Scalar(text, plain, _) => t := Delivers(schema, s, m, Leaf(text, plain));
    case SequenceStart(_) =>
      Opens(schema, s, m, OpenList(NoItems), InList([]));
      SpellOpen(s, OpenList(NoItems));
      t := s.(stack := s.stack + [OpenList(NoItems)]);
    case MappingStart(_) =>
      Opens(schema, s, m, OpenDict(NoEntries, None), InDict(map[], None));
      SpellOpen(s, OpenDict(NoEntries, None));
      t := s.(stack := s.stack + [OpenDict(NoEntries, None)]);
    case SequenceEnd => t := ClosesList(schema, s, m);
    case MappingEnd => t := ClosesDict(schema, s, m);
  }

  // ---- markers aside

  function Kept(events: seq<Event>): seq<Event> {
    if events == [] then []
    else
      var last := events[|events| - 1];
      Kept(events[..|events| - 1]) + if Content(last) then [last] else []
  }

  function Documents(events: seq<Event>): nat {
    if events == [] then 0
    else Documents(events[..|events| - 1]) + if events[|events| - 1].DocumentStart? then 1 else 0
  }

  /** Whatever the machine has read so far, markers aside, spells a half-read tree it agrees with. */
  lemma {:induction false} ReadIsSketch(schema: Schema, events: seq<Event>) returns (s: Sketch)
    requires Run(schema, Start, events).Some?
    ensures var m := Run(schema, Start, events).value;
            Matches(schema, s, m) && SpellSketch(s) == Kept(events) && m.documents == Documents(events)
  {
    if events == [] {
      s := Sketch([], None);
    } else {
      var most, last := events[..|events| - 1], events[|events| - 1];
      s := ReadIsSketch(schema, most);
      var m := Run(schema, Start, most).value;
      if Content(last) {
        s := Follows(schema, s, m, last);
        DocumentsKept(schema, m, last);
      }
    }
  }

  lemma DocumentsKept(schema: Schema, m: Machine, event: Event)
    requires Content(event) && Step(schema, m, event).Some?
    ensures Step(schema, m, event).value.documents == m.documents
  {
  }

  /** Markers change nothing but the document count. */
  lemma {:induction false} MarkersAside(schema: Schema, events: seq<Event>)
    requires Documents(events) <= 1
    ensures Run(schema, Start, events) ==
            match Run(schema, Start, Kept(events)) case None => None case Some(m) => Some(m.(documents := Documents(events)))
    ensures Run(schema, Start, Kept(events)).Some? ==> Run(schema, Start, Kept(events)).value.documents == 0
  {
    if events != [] {
      var most, last := events[..|events| - 1], events[|events| - 1];
      MarkersAside(schema, most);
      if Content(last) {
        assert (Kept(most) + [last])[..|Kept(most)|] == Kept(most);
        if Run(schema, Start, Kept(most)).Some? {
          StepIgnoresDocuments(schema, Run(schema, Start, Kept(most)).value, last, Documents(most));
        }
      } else {
        assert Kept(events) == Kept(most);
      }
    }
  }

  lemma StepIgnoresDocuments(schema: Schema, m: Machine, event: Event, documents: nat)
    requires Content(event)
    ensures Step(schema, m.(documents := documents), event) ==
            match Step(schema, m, event) case None => None case Some(next) => Some(next.(documents := documents))
    ensures Step(schema, m, event).Some? ==> Step(schema, m, event).value.documents == m.documents
  {
  }

  // ---- the two meanings agree

  /** The stream spells one mapping with this meaning, in one document. */
  ghost predicate Spells(schema: Schema, events: seq<Event>, n: Node, value: Json) {
    && Body(events).Some? && Documents(Body(events).value) == 1
    && n.Dict? && Kept(Body(events).value) == Spell(n) && Meaning(schema, n) == Some(value)
  }

  lemma ParsedIsSpelled(schema: Schema, events: seq<Event>) returns (n: Node)
    requires Parsed(schema, events).Some?
    ensures Spells(schema, events, n, Parsed(schema, events).value)
  {
    var body := Body(events).value;
    var s := ReadIsSketch(schema, body);
    n := s.root.value;
    assert SpellStack(s.stack) == [];
    assert SpellSketch(s) == Spell(n);
  }

  lemma SpelledIsParsed(schema: Schema, events: seq<Event>, n: Node, value: Json)
    requires Spells(schema, events, n, value)
    ensures Parsed(schema, events) == Some(value)
  {
    RunsNode(schema, n, Start);
    MarkersAside(schema, Body(events).value);
  }

  /** The stack machine accepts exactly the linearized mappings, and returns their meaning. */
  lemma ParsedExactly(schema: Schema, events: seq<Event>, value: Json)
    ensures Parsed(schema, events) == Some(value) <==> exists n :: Spells(schema, events, n, value)
  {
    if Parsed(schema, events) == Some(value) {
      var n := ParsedIsSpelled(schema, events);
    }
    if n :| Spells(schema, events, n, value) {
      SpelledIsParsed(schema, events, n, value);
    }
  }

  // ---- the parser's loop

  /** Reading on after a failure is still a failure. */
  lemma {:induction false} RunFails(schema: Schema, m: Machine, events: seq<Event>, n: nat)
    requires n <= |events| && Run(schema, m, events[..n]).None?
    ensures Run(schema, m, events).None?
  {
    if n < |events| {
      assert events[..|events| - 1][..n] == events[..n];
      RunFails(schema, m, events[..|events| - 1], n);
    } else {
      assert events[..n] == events;
    }
  }

  lemma {:induction false} BodyIs(events: seq<Event>, n: nat)
    requires n <= |events| && (forall i :: 0 <= i < n ==> !events[i].StreamEnd?)
    ensures n < |events| && events[n].StreamEnd? ==> Body(events) == Some(events[..n])
    ensures n == |events| ==> Body(events).None?
    ensures Body(events).Some? ==> |Body(events).value| >= n && Body(events).value[..n] == events[..n]
  {
    if n > 0 {
      BodyIs(events[1..], n - 1);
      assert events[..n] == [events[0]] + events[1..][..n - 1];
    }
  }

  lemma ParsedFails(schema: Schema, events: seq<Event>, n: nat)
    requires n <= |events| && (forall i :: 0 <= i < n ==> !events[i].StreamEnd?) && Run(schema, Start, events[..n]).None?
    ensures Parsed(schema, events).None?
  {
    BodyIs(events, n);
    if Body(events).Some? { RunFails(schema, Start, Body(events).value, n); }
  }

  /** `parse`, over the events that the scanner yields; a scanner failure is a stream without an end. */
  method Parse(schema: Schema, events: seq<Event>) returns (r: Option<Json>)
    ensures r == Parsed(schema, events)
  {
    var stack: seq<Frame>, root: Option<Json>, documents: nat := [], None, 0;
    var n := 0;
    while true
      invariant 0 <= n <= |events| && (forall i :: 0 <= i < n ==> !events[i].StreamEnd?)
      invariant Run(schema, Start, events[..n]) == Some(Machine(stack, root, documents))
      decreases |events| - n
    {
      BodyIs(events, n);
      if n == |events| { return None; }
      var event := events[n];
      if event.StreamEnd? { break; }
      assert events[..n + 1][..n] == events[..n];
      if Step(schema, Machine(stack, root, documents), event).None? { ParsedFails(schema, events, n + 1); }
      n := n + 1;
      var value: Json;
      match event {
        case StreamStart => continue;
        case DocumentEnd => continue;
        case DocumentStart =>
          documents := documents + 1;
          if documents != 1 { return None; }
          continue;
        case SequenceStart(false) =>
          stack := stack + [InList([])];
          continue;
        case MappingStart(false) =>
          stack := stack + [InDict(map[], None)];
          continue;
        case _ =>
          var finished: bool;
          finished, stack, value := Finish(schema, stack, root, documents, event);
          if !finished { return None; }
      }
      var delivered: bool;
      delivered, stack, root := Hand(stack, root, documents, value);
      if !delivered { return None; }
    }
    if documents != 1 || stack != [] { return None; }
    match root {
      case Some(Object(_)) => return root;
      case _ => return None;
    }
  }

  /** A scalar, or the end of a list or mapping, finishes a value. Anchors, tags and aliases finish nothing. */
  method Finish(schema: Schema, stack: seq<Frame>, root: Option<Json>, documents: nat, event: Event)
    returns (ok: bool, under: seq<Frame>, value: Json)
    requires Content(event) && event != SequenceStart(false) && event != MappingStart(false)
    ensures Step(schema, Machine(stack, root, documents), event) ==
            if ok then Deliver(Machine(under, root, documents), value) else None
  {
    under, value := stack, Null;
    match event {
      case Scalar(text, plain, false) =>
        if plain && text == Merge && stack != [] && stack[|stack| - 1].InDict? && stack[|stack| - 1].key.None? {
          return false, under, value;
        }
        match ScalarValue(schema, text, plain) {
          case None => return false, under, value;
          case Some(read) => return true, under, read;
        }
      case SequenceEnd =>
        if stack == [] || !stack[|stack| - 1].InList? { return false, under, value; }
        return true, stack[..|stack| - 1], Array(stack[|stack| - 1].values);
      case MappingEnd =>
        if stack == [] || !stack[|stack| - 1].InDict? || stack[|stack| - 1].key.Some? { return false, under, value; }
        return true, stack[..|stack| - 1], Object(stack[|stack| - 1].members);
      case _ => return false, under, value;
    }
  }

  method Hand(stack: seq<Frame>, root: Option<Json>, documents: nat, value: Json)
    returns (ok: bool, after: seq<Frame>, top: Option<Json>)
    ensures ok <==> Deliver(Machine(stack, root, documents), value).Some?
    ensures ok ==> Deliver(Machine(stack, root, documents), value) == Some(Machine(after, top, documents))
  {
    after, top := stack, root;
    if stack == [] {
      if root.Some? { return false, after, top; }
      return true, after, Some(value);
    }
    var under := stack[..|stack| - 1];
    match stack[|stack| - 1] {
      case InList(values) => after := under + [InList(values + [value])];
      case InDict(members, Some(key)) =>
        if key in members { return false, after, top; }
        after := under + [InDict(members[key := value], None)];
      case InDict(members, None) =>
        if !value.String? { return false, after, top; }
        after := under + [InDict(members, Some(value.text))];
    }
    return true, after, top;
  }
}
