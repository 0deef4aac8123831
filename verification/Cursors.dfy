/** Entry ids and the four page cursors: exactly one accepted spelling each. */
module Cursors {
  import opened Wire
  import opened Tokens
  import Spelling

  const MAX_CURSOR_BYTES: nat := 4096

  // ---- entry ids

  datatype EntryId = EntryId(sequence: u64, slot: u64)

  /** `EntryId::new`. */
  predicate ValidEntry(e: EntryId) { e.sequence != 0 }

  predicate EntryBefore(a: EntryId, b: EntryId) {
    a.sequence < b.sequence || (a.sequence == b.sequence && a.slot < b.slot)
  }

  function PrintEntry(e: EntryId): Text {
    [101, 58] + (Decimal(e.sequence) + [58] + Decimal(e.slot))
  }

  /** `split_once(':')`: everything up to the first colon, and everything behind it. */
  function SplitOnce(t: Text): Option<(Text, Text)> {
    if t == [] then None
    else if t[0] == 58 then Some(([], t[1..]))
    else
      match SplitOnce(t[1..])
      case None => None
      case Some((a, b)) => Some(([t[0]] + a, b))
  }

  function ReadEntry(t: Text): Option<EntryId> {
    if |t| < 2 || t[0] != 101 || t[1] != 58 then None
    else
      match SplitOnce(t[2..])
      case None => None
      case Some((a, b)) =>
        var sequence, slot := ReadDecimal(a), ReadDecimal(b);
        if sequence.None? || slot.None? || sequence.value == 0 then None
        else Some(EntryId(sequence.value, slot.value))
  }

  lemma {:induction false} SplitOnceOf(a: Text, b: Text)
    requires 58 !in a
    ensures SplitOnce(a + [58] + b) == Some((a, b))
  {
    var t := a + [58] + b;
    if a == [] {
      assert t[1..] == b;
    } else {
      assert t[1..] == a[1..] + [58] + b;
      SplitOnceOf(a[1..], b);
      assert [a[0]] + a[1..] == a;
    }
  }

  lemma {:induction false} SplitOnceIs(t: Text)
    ensures SplitOnce(t).Some? ==> t == SplitOnce(t).value.0 + [58] + SplitOnce(t).value.1
  {
    if SplitOnce(t).Some? && t[0] != 58 { SplitOnceIs(t[1..]); }
  }

  lemma EntryRoundTrip(e: EntryId)
    requires ValidEntry(e)
    ensures ReadEntry(PrintEntry(e)) == Some(e) && PlainText(PrintEntry(e)) && 0 < |PrintEntry(e)| <= 43
  {
    DecimalRoundTrip(e.sequence);
    DecimalRoundTrip(e.slot);
    DecimalOf64Bits(e.sequence);
    DecimalOf64Bits(e.slot);
    SplitOnceOf(Decimal(e.sequence), Decimal(e.slot));
    assert PrintEntry(e)[2..] == Decimal(e.sequence) + [58] + Decimal(e.slot);
  }

  lemma EntryIsCanonical(t: Text)
    ensures ReadEntry(t).Some? ==> ValidEntry(ReadEntry(t).value) && PrintEntry(ReadEntry(t).value) == t
  {
    if ReadEntry(t).Some? {
      SplitOnceIs(t[2..]);
      var (a, b) := SplitOnce(t[2..]).value;
      DecimalIsCanonical(a);
      DecimalIsCanonical(b);
      assert t == [101, 58] + t[2..];
    }
  }

  // ---- the common envelope

  function Envelope(prefix: Text, fields: seq<Text>): Text {
    prefix + Encode(Written(fields))
  }

  /** The bounded parser shared by all cursors, in one pass: a number of plain strings after the version. */
  function Open(t: Text, prefix: Text, count: nat): Option<seq<Text>> {
    if |t| > MAX_CURSOR_BYTES || !(prefix <= t) then None
    else
      match Decode(t[|prefix|..])
      case None => None
      case Some(bytes) =>
        match Read(bytes)
        case None => None
        case Some(fields) => if |fields| == count then Some(fields) else None
  }

  lemma OpenOfEnvelope(prefix: Text, fields: seq<Text>)
    requires PlainTexts(fields) && |Envelope(prefix, fields)| <= MAX_CURSOR_BYTES
    ensures Open(Envelope(prefix, fields), prefix, |fields|) == Some(fields)
  {
    var t := Envelope(prefix, fields);
    assert t[|prefix|..] == Encode(Written(fields));
    DecodeOfEncode(Written(fields));
    ReadOfWritten(fields);
  }

  lemma EnvelopeOfOpen(t: Text, prefix: Text, count: nat)
    ensures Open(t, prefix, count).Some? ==>
              && |Open(t, prefix, count).value| == count && PlainTexts(Open(t, prefix, count).value)
              && Envelope(prefix, Open(t, prefix, count).value) == t
  {
    if Open(t, prefix, count).Some? {
      EncodeOfDecode(t[|prefix|..]);
      WrittenOfRead(Decode(t[|prefix|..]).value);
      assert t == prefix + t[|prefix|..];
    }
  }

  // ---- the same parser as the program has it

  /** serde_json on arrays. */
  datatype Serde = Serde(parse: Text -> Option<seq<Json>>, write: seq<Json> -> Text)

  predicate Versioned(values: seq<Json>) { values != [] && values[0] == Number(1.0) }

  function JsonOf(fields: seq<Text>): seq<Json> {
    [Number(1.0)] + seq(|fields|, i requires 0 <= i < |fields| => String(fields[i]))
  }

  /** All that is asked of serde_json: it writes plain strings as they are, and reads them back. */
  ghost predicate Lawful(serde: Serde) {
    forall fields :: PlainTexts(fields) ==>
      serde.write(JsonOf(fields)) == Written(fields) && serde.parse(Written(fields)) == Some(JsonOf(fields))
  }

  /** `decode`: parse any array, write it again, and compare the bytes; then `text` on every field. */
  function Reopen(serde: Serde, t: Text, prefix: Text, count: nat): Option<seq<Text>> {
    if |t| > MAX_CURSOR_BYTES || !(prefix <= t) then None
    else
      match Decode(t[|prefix|..])
      case None => None
      case Some(bytes) =>
        match serde.parse(bytes)
        case None => None
        case Some(values) =>
          if !Versioned(values) || serde.write(values) != bytes || |values| != count + 1 then None
          else if exists i :: 0 < i < |values| && !values[i].String? then None
          else Some(seq(count, i requires 0 <= i < count => values[i + 1].text))
  }

  lemma ReopenOfOpen(serde: Serde, t: Text, prefix: Text, count: nat)
    requires Lawful(serde) && Open(t, prefix, count).Some?
    ensures Reopen(serde, t, prefix, count) == Open(t, prefix, count)
  {
    var bytes, fields := Decode(t[|prefix|..]).value, Open(t, prefix, count).value;
    WrittenOfRead(bytes);
    var values := JsonOf(fields);
    assert serde.parse(bytes) == Some(values) && serde.write(values) == bytes;
    assert forall i :: 0 < i < |values| ==> values[i] == String(fields[i - 1]);
    assert fields == seq(count, i requires 0 <= i < count => values[i + 1].text);
  }

  lemma OpenOfReopen(serde: Serde, t: Text, prefix: Text, count: nat)
    requires Lawful(serde) && Reopen(serde, t, prefix, count).Some? && PlainTexts(Reopen(serde, t, prefix, count).value)
    ensures Open(t, prefix, count) == Reopen(serde, t, prefix, count)
  {
    var bytes, fields := Decode(t[|prefix|..]).value, Reopen(serde, t, prefix, count).value;
    var values := serde.parse(bytes).value;
    assert values == JsonOf(fields);
    ReadOfWritten(fields);
  }

  lemma EnvelopeIsShort(prefix: Text, fields: seq<Text>)
    requires |prefix| == 5 && |fields| <= 7 && forall i :: 0 <= i < |fields| ==> |fields[i]| <= 64
    ensures |Envelope(prefix, fields)| <= 640
  {
    TailLength(fields, 64);
    PackLength(Written(fields));
    assert |fields| * 67 <= 469;
  }

  lemma UuidIsPlain(t: Text)
    requires IsUuid(t)
    ensures PlainText(t) && |t| == 36
  {
    forall i | 0 <= i < |t| ensures Tokens.Plain(t[i]) {
      assert if i == 8 || i == 13 || i == 18 || i == 23 then t[i] == 45 else Spelling.IsDigit(t[i]);
    }
  }

  lemma FieldIdIsPlain(t: Text)
    requires IsFieldId(t)
    ensures PlainText(t) && |t| <= 64
  {
    if |t| == 64 && Spelling.IsHex(t) {
      forall i | 0 <= i < |t| ensures Tokens.Plain(t[i]) { assert Spelling.IsDigit(t[i]); }
    }
  }

  lemma NumberIsPlain(v: u64)
    ensures PlainText(Decimal(v)) && |Decimal(v)| <= 20 && ReadDecimal(Decimal(v)) == Some(v)
  {
    DecimalRoundTrip(v);
    DecimalOf64Bits(v);
  }

  // ---- block cursors

  datatype BlockCursor = BlockCursor(session: Text, before: u64)

  predicate ValidBlock(c: BlockCursor) { IsUuid(c.session) && c.before != 0 }

  const BlockPrefix: Text := Ascii("g11b.")

  function BlockFields(c: BlockCursor): seq<Text> { [c.session, Decimal(c.before)] }

  function PrintBlock(c: BlockCursor): Text { Envelope(BlockPrefix, BlockFields(c)) }

  function BlockOf(f: seq<Text>): Option<BlockCursor>
    requires |f| == 2
  {
    var before := ReadDecimal(f[1]);
    if !IsUuid(f[0]) || before.None? || before.value == 0 then None
    else Some(BlockCursor(f[0], before.value))
  }

  function ReadBlock(t: Text): Option<BlockCursor> {
    match Open(t, BlockPrefix, 2) case None => None case Some(f) => BlockOf(f)
  }

  lemma BlockOfFields(f: seq<Text>)
    requires |f| == 2 && BlockOf(f).Some?
    ensures var c := BlockOf(f).value; ValidBlock(c) && BlockFields(c) == f && PlainTexts(f)
  {
    DecimalIsCanonical(f[1]);
    UuidIsPlain(f[0]);
    NumberIsPlain(BlockOf(f).value.before);
  }

  lemma BlockRoundTrip(c: BlockCursor)
    requires ValidBlock(c)
    ensures ReadBlock(PrintBlock(c)) == Some(c) && |PrintBlock(c)| <= 640
  {
    UuidIsPlain(c.session);
    NumberIsPlain(c.before);
    EnvelopeIsShort(BlockPrefix, BlockFields(c));
    OpenOfEnvelope(BlockPrefix, BlockFields(c));
  }

  lemma BlockIsCanonical(t: Text)
    ensures ReadBlock(t).Some? ==> ValidBlock(ReadBlock(t).value) && PrintBlock(ReadBlock(t).value) == t
  {
    if ReadBlock(t).Some? {
      EnvelopeOfOpen(t, BlockPrefix, 2);
      BlockOfFields(Open(t, BlockPrefix, 2).value);
    }
  }

  // ---- activity cursors

  datatype ActivityCursor = ActivityCursor(session: Text, run: Text, sequence: u64, slot: u64)

  predicate ValidActivity(c: ActivityCursor) { IsUuid(c.session) && IsUuid(c.run) && c.sequence != 0 }

  const ActivityPrefix: Text := Ascii("g11s.")

  function ActivityFields(c: ActivityCursor): seq<Text> { [c.session, c.run, Decimal(c.sequence), Decimal(c.slot)] }

  function PrintActivity(c: ActivityCursor): Text { Envelope(ActivityPrefix, ActivityFields(c)) }

  function ActivityOf(f: seq<Text>): Option<ActivityCursor>
    requires |f| == 4
  {
    var sequence, slot := ReadDecimal(f[2]), ReadDecimal(f[3]);
    if !IsUuid(f[0]) || !IsUuid(f[1]) || sequence.None? || slot.None? || sequence.value == 0 then None
    else Some(ActivityCursor(f[0], f[1], sequence.value, slot.value))
  }

  function ReadActivity(t: Text): Option<ActivityCursor> {
    match Open(t, ActivityPrefix, 4) case None => None case Some(f) => ActivityOf(f)
  }

  lemma ActivityOfFields(f: seq<Text>)
    requires |f| == 4 && ActivityOf(f).Some?
    ensures var c := ActivityOf(f).value; ValidActivity(c) && ActivityFields(c) == f && PlainTexts(f)
  {
    DecimalIsCanonical(f[2]);
    DecimalIsCanonical(f[3]);
    UuidIsPlain(f[0]);
    UuidIsPlain(f[1]);
    NumberIsPlain(ActivityOf(f).value.sequence);
    NumberIsPlain(ActivityOf(f).value.slot);
  }

  lemma ActivityRoundTrip(c: ActivityCursor)
    requires ValidActivity(c)
    ensures ReadActivity(PrintActivity(c)) == Some(c) && |PrintActivity(c)| <= 640
  {
    UuidIsPlain(c.session);
    UuidIsPlain(c.run);
    NumberIsPlain(c.sequence);
    NumberIsPlain(c.slot);
    EnvelopeIsShort(ActivityPrefix, ActivityFields(c));
    OpenOfEnvelope(ActivityPrefix, ActivityFields(c));
  }

  lemma ActivityIsCanonical(t: Text)
    ensures ReadActivity(t).Some? ==> ValidActivity(ReadActivity(t).value) && PrintActivity(ReadActivity(t).value) == t
  {
    if ReadActivity(t).Some? {
      EnvelopeOfOpen(t, ActivityPrefix, 4);
      ActivityOfFields(Open(t, ActivityPrefix, 4).value);
    }
  }

  // ---- content cursors

  datatype ContentCursor = ContentCursor(
    session: Text, run: Text, entry: EntryId, epoch: u64, field: Text, generation: u64, upper: u64)

  predicate PlausibleContent(c: ContentCursor) {
    && IsUuid(c.session) && IsUuid(c.run) && ValidEntry(c.entry)
    && c.epoch >= c.entry.sequence && c.generation >= c.entry.sequence && IsFieldId(c.field)
  }

  const ContentPrefix: Text := Ascii("g11c.")

  function ContentFields(c: ContentCursor): seq<Text> {
    [c.session, c.run, PrintEntry(c.entry), Decimal(c.epoch), c.field, Decimal(c.generation), Decimal(c.upper)]
  }

  function PrintContent(c: ContentCursor): Text { Envelope(ContentPrefix, ContentFields(c)) }

  /** `ContentCursor::new`, which also prints the cursor to bound its size. */
  function NewContent(c: ContentCursor): Option<ContentCursor> {
    if !PlausibleContent(c) then None
    else if |PrintContent(c)| > MAX_CURSOR_BYTES then None
    else Some(c)
  }

  function ContentOf(f: seq<Text>): Option<ContentCursor>
    requires |f| == 7
  {
    var entry, epoch, generation, upper := ReadEntry(f[2]), ReadDecimal(f[3]), ReadDecimal(f[5]), ReadDecimal(f[6]);
    if !IsUuid(f[0]) || !IsUuid(f[1]) || entry.None? || epoch.None? || generation.None? || upper.None? then None
    else NewContent(ContentCursor(f[0], f[1], entry.value, epoch.value, f[4], generation.value, upper.value))
  }

  function ReadContent(t: Text): Option<ContentCursor> {
    match Open(t, ContentPrefix, 7) case None => None case Some(f) => ContentOf(f)
  }

  lemma ContentOfFields(f: seq<Text>)
    requires |f| == 7 && ContentOf(f).Some?
    ensures var c := ContentOf(f).value; NewContent(c).Some? && ContentFields(c) == f && PlainTexts(f)
  {
    EntryIsCanonical(f[2]);
    DecimalIsCanonical(f[3]);
    DecimalIsCanonical(f[5]);
    DecimalIsCanonical(f[6]);
    ContentFieldsArePlain(ContentOf(f).value);
  }

  lemma ContentFieldsArePlain(c: ContentCursor)
    requires PlausibleContent(c)
    ensures PlainTexts(ContentFields(c)) && forall i :: 0 <= i < 7 ==> |ContentFields(c)[i]| <= 64
  {
    UuidIsPlain(c.session);
    UuidIsPlain(c.run);
    EntryRoundTrip(c.entry);
    NumberIsPlain(c.epoch);
    FieldIdIsPlain(c.field);
    NumberIsPlain(c.generation);
    NumberIsPlain(c.upper);
  }

  /** The size check never fires. */
  lemma ContentIsShort(c: ContentCursor)
    ensures NewContent(c).Some? <==> PlausibleContent(c)
    ensures PlausibleContent(c) ==> |PrintContent(c)| <= 640
  {
    if PlausibleContent(c) {
      ContentFieldsArePlain(c);
      EnvelopeIsShort(ContentPrefix, ContentFields(c));
    }
  }

  lemma ContentRoundTrip(c: ContentCursor)
    requires NewContent(c).Some?
    ensures ReadContent(PrintContent(c)) == Some(c)
  {
    ContentIsShort(c);
    ContentFieldsArePlain(c);
    OpenOfEnvelope(ContentPrefix, ContentFields(c));
    EntryRoundTrip(c.entry);
    NumberIsPlain(c.epoch);
    NumberIsPlain(c.generation);
    NumberIsPlain(c.upper);
  }

  lemma ContentIsCanonical(t: Text)
    ensures ReadContent(t).Some? ==> NewContent(ReadContent(t).value).Some? && PrintContent(ReadContent(t).value) == t
  {
    if ReadContent(t).Some? {
      EnvelopeOfOpen(t, ContentPrefix, 7);
      ContentOfFields(Open(t, ContentPrefix, 7).value);
    }
  }

  // ---- live cursors

  datatype LiveCursor = LiveCursor(session: Text, sequence: u64, rank: nat, run: Option<Text>, entry: Option<EntryId>)

  predicate ValidLive(c: LiveCursor) {
    && IsUuid(c.session) && c.sequence != 0 && c.rank <= 3
    && (c.run.Some? ==> IsUuid(c.run.value)) && (c.entry.Some? ==> ValidEntry(c.entry.value))
    && (c.run.Some? <==> c.rank == 1 || c.rank == 2) && (c.entry.Some? <==> c.rank == 2)
    && (c.entry.Some? ==> c.entry.value.sequence <= c.sequence)
  }

  const LivePrefix: Text := Ascii("g11l.")

  function LiveFields(c: LiveCursor): seq<Text> {
    [c.session, Decimal(c.sequence), Decimal(c.rank),
     if c.run.Some? then c.run.value else [], if c.entry.Some? then PrintEntry(c.entry.value) else []]
  }

  function PrintLive(c: LiveCursor): Text { Envelope(LivePrefix, LiveFields(c)) }

  /** An identity field is empty or must parse. */
  function ReadRun(t: Text): Option<Option<Text>> {
    if t == [] then Some(None) else if IsUuid(t) then Some(Some(t)) else None
  }

  function ReadOptionalEntry(t: Text): Option<Option<EntryId>> {
    if t == [] then Some(None)
    else match ReadEntry(t) case None => None case Some(e) => Some(Some(e))
  }

  function LiveOf(f: seq<Text>): Option<LiveCursor>
    requires |f| == 5
  {
    var sequence, rank, run, entry := ReadDecimal(f[1]), ReadDecimal(f[2]), ReadRun(f[3]), ReadOptionalEntry(f[4]);
    if !IsUuid(f[0]) || sequence.None? || rank.None? || rank.value > 255 || run.None? || entry.None? then None
    else
      var c := LiveCursor(f[0], sequence.value, rank.value, run.value, entry.value);
      if ValidLive(c) then Some(c) else None
  }

  function ReadLive(t: Text): Option<LiveCursor> {
    match Open(t, LivePrefix, 5) case None => None case Some(f) => LiveOf(f)
  }

  lemma LiveFieldsArePlain(c: LiveCursor)
    requires ValidLive(c)
    ensures PlainTexts(LiveFields(c)) && forall i :: 0 <= i < 5 ==> |LiveFields(c)[i]| <= 64
    ensures ReadRun(LiveFields(c)[3]) == Some(c.run) && ReadOptionalEntry(LiveFields(c)[4]) == Some(c.entry)
  {
    UuidIsPlain(c.session);
    NumberIsPlain(c.sequence);
    NumberIsPlain(c.rank);
    if c.run.Some? { UuidIsPlain(c.run.value); }
    if c.entry.Some? { EntryRoundTrip(c.entry.value); }
  }

  lemma LiveRoundTrip(c: LiveCursor)
    requires ValidLive(c)
    ensures ReadLive(PrintLive(c)) == Some(c) && |PrintLive(c)| <= 640
  {
    LiveFieldsArePlain(c);
    NumberIsPlain(c.sequence);
    NumberIsPlain(c.rank);
    EnvelopeIsShort(LivePrefix, LiveFields(c));
    OpenOfEnvelope(LivePrefix, LiveFields(c));
  }

  lemma RunIsCanonical(t: Text)
    ensures ReadRun(t).Some? ==> t == if ReadRun(t).value.Some? then ReadRun(t).value.value else []
  {
  }

  lemma OptionalEntryIsCanonical(t: Text)
    ensures ReadOptionalEntry(t).Some? ==>
              t == if ReadOptionalEntry(t).value.Some? then PrintEntry(ReadOptionalEntry(t).value.value) else []
  {
    EntryIsCanonical(t);
  }

  lemma LiveOfFields(f: seq<Text>)
    requires |f| == 5 && LiveOf(f).Some?
    ensures var c := LiveOf(f).value; ValidLive(c) && LiveFields(c) == f && PlainTexts(f)
  {
    DecimalIsCanonical(f[1]);
    DecimalIsCanonical(f[2]);
    RunIsCanonical(f[3]);
    OptionalEntryIsCanonical(f[4]);
    LiveFieldsArePlain(LiveOf(f).value);
    assert LiveFields(LiveOf(f).value) == f;
  }

  lemma LiveIsCanonical(t: Text)
    ensures ReadLive(t).Some? ==> ValidLive(ReadLive(t).value) && PrintLive(ReadLive(t).value) == t
  {
    if ReadLive(t).Some? {
      EnvelopeOfOpen(t, LivePrefix, 5);
      LiveOfFields(Open(t, LivePrefix, 5).value);
    }
  }

  // ---- both parsers accept the same cursors

  /** Parsing, writing again and comparing admits exactly the spellings of the one-pass parser. */
  lemma ParsersAgree(serde: Serde, t: Text)
    requires Lawful(serde)
    ensures ReadBlock(t) == match Reopen(serde, t, BlockPrefix, 2) case None => None case Some(f) => BlockOf(f)
    ensures ReadActivity(t) == match Reopen(serde, t, ActivityPrefix, 4) case None => None case Some(f) => ActivityOf(f)
    ensures ReadContent(t) == match Reopen(serde, t, ContentPrefix, 7) case None => None case Some(f) => ContentOf(f)
    ensures ReadLive(t) == match Reopen(serde, t, LivePrefix, 5) case None => None case Some(f) => LiveOf(f)
  {
    BlockParsersAgree(serde, t);
    ActivityParsersAgree(serde, t);
    ContentParsersAgree(serde, t);
    LiveParsersAgree(serde, t);
  }

  lemma BlockParsersAgree(serde: Serde, t: Text)
    requires Lawful(serde)
    ensures ReadBlock(t) == match Reopen(serde, t, BlockPrefix, 2) case None => None case Some(f) => BlockOf(f)
  {
    if Open(t, BlockPrefix, 2).Some? {
      ReopenOfOpen(serde, t, BlockPrefix, 2);
    } else if Reopen(serde, t, BlockPrefix, 2).Some? && BlockOf(Reopen(serde, t, BlockPrefix, 2).value).Some? {
      BlockOfFields(Reopen(serde, t, BlockPrefix, 2).value);
      OpenOfReopen(serde, t, BlockPrefix, 2);
    }
  }

  lemma ActivityParsersAgree(serde: Serde, t: Text)
    requires Lawful(serde)
    ensures ReadActivity(t) == match Reopen(serde, t, ActivityPrefix, 4) case None => None case Some(f) => ActivityOf(f)
  {
    if Open(t, ActivityPrefix, 4).Some? {
      ReopenOfOpen(serde, t, ActivityPrefix, 4);
    } else if Reopen(serde, t, ActivityPrefix, 4).Some? && ActivityOf(Reopen(serde, t, ActivityPrefix, 4).value).Some? {
      ActivityOfFields(Reopen(serde, t, ActivityPrefix, 4).value);
      OpenOfReopen(serde, t, ActivityPrefix, 4);
    }
  }

  lemma ContentParsersAgree(serde: Serde, t: Text)
    requires Lawful(serde)
    ensures ReadContent(t) == match Reopen(serde, t, ContentPrefix, 7) case None => None case Some(f) => ContentOf(f)
  {
    if Open(t, ContentPrefix, 7).Some? {
      ReopenOfOpen(serde, t, ContentPrefix, 7);
    } else if Reopen(serde, t, ContentPrefix, 7).Some? && ContentOf(Reopen(serde, t, ContentPrefix, 7).value).Some? {
      ContentOfFields(Reopen(serde, t, ContentPrefix, 7).value);
      OpenOfReopen(serde, t, ContentPrefix, 7);
    }
  }

  lemma LiveParsersAgree(serde: Serde, t: Text)
    requires Lawful(serde)
    ensures ReadLive(t) == match Reopen(serde, t, LivePrefix, 5) case None => None case Some(f) => LiveOf(f)
  {
    if Open(t, LivePrefix, 5).Some? {
      ReopenOfOpen(serde, t, LivePrefix, 5);
    } else if Reopen(serde, t, LivePrefix, 5).Some? && LiveOf(Reopen(serde, t, LivePrefix, 5).value).Some? {
      LiveOfFields(Reopen(serde, t, LivePrefix, 5).value);
      OpenOfReopen(serde, t, LivePrefix, 5);
    }
  }
}
