/** Order keys of displayed fields: a sortable tuple with a canonical, order-preserving spelling. */
module OrderKey {
  import opened Wire
  import opened Spelling

  datatype Rank =
    | Summary | Fallback | Content | FunctionName | FunctionArguments | ToolName | ToolOutput | Unsupported | Notice
  {
    function Code(): nat {
      match this
      case Summary => 0 case Fallback => 1 case Content => 2 case FunctionName => 3 case FunctionArguments => 4
      case ToolName => 5 case ToolOutput => 6 case Unsupported => 7 case Notice => 8
    }

    /** A fallback stands among the content it replaces. */
    function Group(): nat {
      match this
      case Summary => 0 case Fallback => 1 case Content => 1 case FunctionName => 2 case FunctionArguments => 3
      case ToolName => 4 case ToolOutput => 5 case Unsupported => 6 case Notice => 7
    }
  }

  datatype Key = Key(output: Option<u64>, rank: Rank, summary: Option<u64>, content: Option<u64>)

  // ---- the order of keys

  /** `Option` orders none before some. */
  predicate Below(a: Option<u64>, b: Option<u64>) {
    b.Some? && (a.None? || a.value < b.value)
  }

  /** `Ord for OrderKey`: lexicographic on output, group, summary, content, rank. */
  predicate Before(a: Key, b: Key) {
    Below(a.output, b.output) || (a.output == b.output &&
    (a.rank.Group() < b.rank.Group() || (a.rank.Group() == b.rank.Group() &&
    (Below(a.summary, b.summary) || (a.summary == b.summary &&
    (Below(a.content, b.content) || (a.content == b.content &&
    a.rank.Code() < b.rank.Code())))))))
  }

  // ---- spelling

  const Colon: byte := 58

  function Component(value: Option<u64>): (t: Text)
    ensures Colon !in t && t != []
  {
    if value.None? then [48] else [49] + Hex(value.value, 16)
  }

  function Colons(a: Text, b: Text, c: Text, d: Text, e: Text): Text {
    a + [Colon] + (b + [Colon] + (c + [Colon] + (d + [Colon] + e)))
  }

  function Print(k: Key): Text {
    Colons(Component(k.output), Hex(k.rank.Group(), 16), Component(k.summary), Component(k.content), Hex(k.rank.Code(), 16))
  }

  function ParseHex(t: Text): Option<u64> {
    if |t| == 16 && IsHex(t) then
      HexOfHexValue(t); PowerOfSixteen();
      Some(HexValue(t))
    else None
  }

  function ParseComponent(t: Text): Option<Option<u64>> {
    if t == [48] then Some(None)
    else if t != [] && t[0] == 49 then
      match ParseHex(t[1..])
      case None => None
      case Some(v) => Some(Some(v))
    else None
  }

  function RankOf(code: nat): Option<Rank> {
    match code
    case 0 => Some(Summary) case 1 => Some(Fallback) case 2 => Some(Content)
    case 3 => Some(FunctionName) case 4 => Some(FunctionArguments) case 5 => Some(ToolName)
    case 6 => Some(ToolOutput) case 7 => Some(Unsupported) case 8 => Some(Notice)
    case _ => None
  }

  function Assemble(output: Option<Option<u64>>, group: Option<u64>, summary: Option<Option<u64>>,
                    content: Option<Option<u64>>, code: Option<u64>): Option<Key> {
    if output.None? || group.None? || summary.None? || content.None? || code.None? then None
    else
      match RankOf(code.value)
      case None => None
      case Some(rank) =>
        if group.value != rank.Group() then None else Some(Key(output.value, rank, summary.value, content.value))
  }

  function Parse(t: Text): Option<Key> {
    var parts := Split(t, Colon);
    if |parts| != 5 then None
    else
      Assemble(ParseComponent(parts[0]), ParseHex(parts[1]), ParseComponent(parts[2]), ParseComponent(parts[3]), ParseHex(parts[4]))
  }

  // ---- parse and print are mutual inverses

  lemma HexRoundTrip(v: u64)
    ensures ParseHex(Hex(v, 16)) == Some(v) && Colon !in Hex(v, 16)
  {
    PowerOfSixteen();
    HexValueOfHex(v, 16);
  }

  lemma HexIsCanonical(t: Text)
    ensures ParseHex(t).Some? ==> Hex(ParseHex(t).value, 16) == t
  {
    if |t| == 16 && IsHex(t) { HexOfHexValue(t); }
  }

  lemma ComponentRoundTrip(v: Option<u64>)
    ensures ParseComponent(Component(v)) == Some(v)
  {
    if v.Some? {
      HexRoundTrip(v.value);
      assert ([49] + Hex(v.value, 16))[1..] == Hex(v.value, 16);
    }
  }

  lemma ComponentIsCanonical(t: Text)
    ensures ParseComponent(t).Some? ==> Component(ParseComponent(t).value) == t
  {
    if t != [] && t[0] == 49 { HexIsCanonical(t[1..]); }
  }

  lemma ColonsSplit(a: Text, b: Text, c: Text, d: Text, e: Text)
    requires Colon !in a && Colon !in b && Colon !in c && Colon !in d && Colon !in e
    ensures Split(Colons(a, b, c, d, e), Colon) == [a, b, c, d, e]
  {
    SplitNothing(e, Colon);
    SplitAfter(d, e, Colon);
    SplitAfter(c, d + [Colon] + e, Colon);
    SplitAfter(b, c + [Colon] + (d + [Colon] + e), Colon);
    SplitAfter(a, b + [Colon] + (c + [Colon] + (d + [Colon] + e)), Colon);
  }

  lemma AssembleParts(k: Key)
    ensures Assemble(Some(k.output), Some(k.rank.Group()), Some(k.summary), Some(k.content), Some(k.rank.Code())) == Some(k)
  {
  }

  lemma ParseOfParts(t: Text, k: Key, a: Text, b: Text, c: Text, d: Text, e: Text)
    requires Split(t, Colon) == [a, b, c, d, e]
    requires ParseComponent(a) == Some(k.output) && ParseHex(b) == Some(k.rank.Group()) && ParseComponent(c) == Some(k.summary)
    requires ParseComponent(d) == Some(k.content) && ParseHex(e) == Some(k.rank.Code())
    ensures Parse(t) == Some(k)
  {
    AssembleParts(k);
  }

  /** Every key is read back from its spelling. */
  lemma ParseOfPrint(k: Key)
    ensures Parse(Print(k)) == Some(k)
  {
    var b, e := Hex(k.rank.Group(), 16), Hex(k.rank.Code(), 16);
    ComponentRoundTrip(k.output);
    ComponentRoundTrip(k.summary);
    ComponentRoundTrip(k.content);
    HexRoundTrip(k.rank.Group());
    HexRoundTrip(k.rank.Code());
    ColonsSplit(Component(k.output), b, Component(k.summary), Component(k.content), e);
    ParseOfParts(Print(k), k, Component(k.output), b, Component(k.summary), Component(k.content), e);
  }

  lemma JoinFive(parts: seq<Text>)
    requires |parts| == 5
    ensures Join(parts, Colon) == Colons(parts[0], parts[1], parts[2], parts[3], parts[4])
  {
    var p1 := parts[1..];
    var p2 := p1[1..];
    var p3 := p2[1..];
    var p4 := p3[1..];
    assert Join(p4, Colon) == parts[4];
    assert Join(p3, Colon) == parts[3] + [Colon] + parts[4];
    assert Join(p2, Colon) == parts[2] + [Colon] + Join(p3, Colon);
    assert Join(p1, Colon) == parts[1] + [Colon] + Join(p2, Colon);
  }

  lemma AssembleKeeps(k: Key, o: Option<Option<u64>>, g: Option<u64>, s: Option<Option<u64>>, c: Option<Option<u64>>,
          r: Option<u64>)
    requires Assemble(o, g, s, c, r) == Some(k)
    ensures o == Some(k.output) && g == Some(k.rank.Group()) && s == Some(k.summary) && c == Some(k.content)
    ensures r == Some(k.rank.Code())
  {
  }

  lemma PrintOfParts(k: Key, a: Text, b: Text, c: Text, d: Text, e: Text)
    requires Assemble(ParseComponent(a), ParseHex(b), ParseComponent(c), ParseComponent(d), ParseHex(e)) == Some(k)
    ensures a == Component(k.output) && b == Hex(k.rank.Group(), 16) && c == Component(k.summary)
    ensures d == Component(k.content) && e == Hex(k.rank.Code(), 16)
  {
    AssembleKeeps(k, ParseComponent(a), ParseHex(b), ParseComponent(c), ParseComponent(d), ParseHex(e));
    ComponentIsCanonical(a);
    HexIsCanonical(b);
    ComponentIsCanonical(c);
    ComponentIsCanonical(d);
    HexIsCanonical(e);
  }

  /** Only that spelling is read. */
  lemma PrintOfParse(t: Text)
    ensures Parse(t).Some? ==> Print(Parse(t).value) == t
  {
    var parts := Split(t, Colon);
    if Parse(t).Some? {
      JoinOfSplit(t, Colon);
      JoinFive(parts);
      PrintOfParts(Parse(t).value, parts[0], parts[1], parts[2], parts[3], parts[4]);
    }
  }

  // ---- byte order is key order

  lemma ComponentOrders(a: Option<u64>, b: Option<u64>)
    requires a != b
    ensures Decided(Component(a), Component(b))
    ensures Less(Component(a), Component(b)) <==> Below(a, b)
  {
    PowerOfSixteen();
    if a.Some? && b.Some? {
      HexOrders(a.value, b.value, 16);
      LessAfter([49], Hex(a.value, 16), Hex(b.value, 16));
    }
  }

  lemma ComponentThen(a: Option<u64>, x: Text, b: Option<u64>, y: Text)
    ensures Less(Component(a) + [Colon] + x, Component(b) + [Colon] + y) <==> Below(a, b) || (a == b && Less(x, y))
  {
    assert Component(a) + [Colon] + x == Component(a) + ([Colon] + x) && Component(b) + [Colon] + y == Component(b) + ([Colon] + y);
    if a == b {
      LessAfter(Component(a), [Colon] + x, [Colon] + y);
      LessAfter([Colon], x, y);
    } else {
      ComponentOrders(a, b);
      LessDecided(Component(a), Component(b), [Colon] + x, [Colon] + y);
    }
  }

  lemma HexThen(a: nat, x: Text, b: nat, y: Text)
    requires a < 16 && b < 16
    ensures Less(Hex(a, 16) + [Colon] + x, Hex(b, 16) + [Colon] + y) <==> a < b || (a == b && Less(x, y))
  {
    assert Hex(a, 16) + [Colon] + x == Hex(a, 16) + ([Colon] + x) && Hex(b, 16) + [Colon] + y == Hex(b, 16) + ([Colon] + y);
    if a == b {
      LessAfter(Hex(a, 16), [Colon] + x, [Colon] + y);
      LessAfter([Colon], x, y);
    } else {
      PowerOfSixteen();
      HexOrders(a, b, 16);
      LessDecided(Hex(a, 16), Hex(b, 16), [Colon] + x, [Colon] + y);
    }
  }

  lemma HexLast(a: nat, b: nat)
    requires a < 16 && b < 16
    ensures Less(Hex(a, 16), Hex(b, 16)) <==> a < b
  {
    PowerOfSixteen();
    if a == b { LessIsIrreflexive(Hex(a, 16)); } else { HexOrders(a, b, 16); }
  }

  /** Comparing spellings byte by byte compares keys. */
  lemma PrintPreservesOrder(a: Key, b: Key)
    ensures Less(Print(a), Print(b)) <==> Before(a, b)
  {
    var ae, be := Hex(a.rank.Code(), 16), Hex(b.rank.Code(), 16);
    var ad, bd := Component(a.content) + [Colon] + ae, Component(b.content) + [Colon] + be;
    var ac, bc := Component(a.summary) + [Colon] + ad, Component(b.summary) + [Colon] + bd;
    var ab, bb := Hex(a.rank.Group(), 16) + [Colon] + ac, Hex(b.rank.Group(), 16) + [Colon] + bc;
    HexLast(a.rank.Code(), b.rank.Code());
    ComponentThen(a.content, ae, b.content, be);
    ComponentThen(a.summary, ad, b.summary, bd);
    HexThen(a.rank.Group(), ac, b.rank.Group(), bc);
    ComponentThen(a.output, ab, b.output, bb);
  }

  /** The order is total, and keys that tie are equal. */
  lemma BeforeIsTotal(a: Key, b: Key)
    ensures Before(a, b) || Before(b, a) || a == b
    ensures !(Before(a, b) && Before(b, a)) && !Before(a, a)
  {
  }

  lemma BeforeIsTransitive(a: Key, b: Key, c: Key)
    requires Before(a, b) && Before(b, c)
    ensures Before(a, c)
  {
  }

  // ---- ranges

  function OutputRange(output: u64): (Text, Text) {
    (Component(Some(output)) + [Colon], Component(Some(output)) + [59])
  }

  lemma WithinRange(prefix: Text, rest: Text)
    ensures !Less(prefix + ([Colon] + rest), prefix + [Colon]) && Less(prefix + ([Colon] + rest), prefix + [59])
  {
    LessAfter(prefix, [Colon] + rest, [Colon]);
    LessAfter(prefix, [Colon] + rest, [59]);
    LessAfter([Colon], rest, []);
    assert [Colon] + [] == [Colon];
  }

  /** The half-open range of an output holds exactly the keys of that output. */
  lemma OutputRangeExactly(k: Key, output: u64)
    ensures var (low, high) := OutputRange(output);
            (!Less(Print(k), low) && Less(Print(k), high)) <==> k.output == Some(output)
  {
    var mine := Component(k.output);
    var rest := Print(k)[|mine| + 1..];
    assert Print(k) == mine + ([Colon] + rest);
    if k.output == Some(output) {
      WithinRange(mine, rest);
    } else {
      ComponentOrders(k.output, Some(output));
      LessDecided(mine, Component(Some(output)), [Colon] + rest, [Colon]);
      LessDecided(mine, Component(Some(output)), [Colon] + rest, [59]);
    }
  }

  // ---- source identity

  /** The rank code in decimal; every code is one digit. */
  function SourceSpelling(k: Key): Text {
    Component(k.output) + [Colon] + ([48 + k.rank.Code() as byte] + [Colon] + (Component(k.summary) + [Colon] +
    Component(if k.rank.Fallback? then None else k.content)))
  }

  /** A key as a source: a fallback's placement does not count. */
  function Source(k: Key): Key { if k.rank.Fallback? then k.(content := None) else k }

  lemma SpellingIdentifiesSource(a: Key, b: Key)
    ensures SourceSpelling(a) == SourceSpelling(b) <==> Source(a) == Source(b)
  {
    if SourceSpelling(a) == SourceSpelling(b) {
      var ca, cb := Component(Source(a).content), Component(Source(b).content);
      var sa, sb := Component(a.summary) + [Colon] + ca, Component(b.summary) + [Colon] + cb;
      var ra, rb := [48 + a.rank.Code() as byte], [48 + b.rank.Code() as byte];
      HeadIsDetermined(Component(a.output), ra + [Colon] + sa, Component(b.output), rb + [Colon] + sb, Colon);
      HeadIsDetermined(ra, sa, rb, sb, Colon);
      assert ra[0] == rb[0];
      HeadIsDetermined(Component(a.summary), ca, Component(b.summary), cb, Colon);
      ComponentRoundTrip(a.output);
      ComponentRoundTrip(b.output);
      ComponentRoundTrip(a.summary);
      ComponentRoundTrip(b.summary);
      ComponentRoundTrip(Source(a).content);
      ComponentRoundTrip(Source(b).content);
    }
  }
}
