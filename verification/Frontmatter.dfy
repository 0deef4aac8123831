/** Reading the metadata header of a context file without reading its body. */
module Frontmatter {
  import opened Wire
  import Chunks
  import Y = YamlEvents

  const MAX_INPUT_BYTES: nat := 0x10_0000

  datatype Failure = ReadFailed | InputTooLarge | InvalidFrontmatter

  datatype Outcome<+T> = Done(value: T) | Failed(failure: Failure)

  /** A file, how far it has been consumed, and the offset from which reading fails. */
  class Reader {
    const bytes: seq<byte>
    const broken: nat
    var position: nat

    constructor (bytes: seq<byte>, broken: nat)
      ensures this.bytes == bytes && this.broken == broken && position == 0
    {
      this.bytes, this.broken, position := bytes, broken, 0;
    }
  }

  const NEWLINE: byte := 10

  /** Where a line that starts at `from` ends: behind its newline, at the limit, or at the end of the file. */
  function LineEnd(bytes: seq<byte>, from: nat, limit: nat): (end: nat)
    requires from <= limit && from <= |bytes|
    ensures from <= end <= limit && end <= |bytes|
    ensures forall i :: from <= i < end - 1 ==> bytes[i] != NEWLINE
    ensures end < limit && end < |bytes| ==> end > from && bytes[end - 1] == NEWLINE
    decreases |bytes| - from
  {
    if from == limit || from == |bytes| then from
    else if bytes[from] == NEWLINE then from + 1
    else LineEnd(bytes, from + 1, limit)
  }

  /** `line`: at most one byte more than the remaining budget is consumed. */
  method Line(reader: Reader, consumed: nat) returns (r: Outcome<seq<byte>>, now: nat)
    requires consumed == reader.position <= MAX_INPUT_BYTES && consumed <= |reader.bytes|
    modifies reader
    ensures (r, reader.position) == Lined(reader.bytes, reader.broken, consumed)
    ensures r.Done? ==> now == reader.position <= MAX_INPUT_BYTES && now <= |reader.bytes|
  {
    var remaining := MAX_INPUT_BYTES - consumed;
    var end := LineEnd(reader.bytes, consumed, consumed + remaining + 1);
    now := consumed;
    if reader.broken < end {
      reader.position := if reader.broken < consumed then consumed else reader.broken;
      return Failed(ReadFailed), now;
    }
    var bytes := reader.bytes[consumed..end];
    reader.position := end;
    if |bytes| > remaining { return Failed(InputTooLarge), now; }
    now := consumed + |bytes|;
    return Done(bytes), now;
  }

  function Lined(bytes: seq<byte>, broken: nat, from: nat): (Outcome<seq<byte>>, nat)
    requires from <= MAX_INPUT_BYTES && from <= |bytes|
  {
    var end := LineEnd(bytes, from, MAX_INPUT_BYTES + 1);
    if broken < end then (Failed(ReadFailed), if broken < from then from else broken)
    else if end > MAX_INPUT_BYTES then (Failed(InputTooLarge), end)
    else (Done(bytes[from..end]), end)
  }

  function WithoutEol(line: seq<byte>): seq<byte> {
    if line == [] || line[|line| - 1] != NEWLINE then line
    else
      var cut := line[..|line| - 1];
      if cut != [] && cut[|cut| - 1] == 13 then cut[..|cut| - 1] else cut
  }

  function WithoutMark(line: seq<byte>): seq<byte> {
    if [0xEF, 0xBB, 0xBF] <= line then line[3..] else line
  }

  const Fence: seq<byte> := [45, 45, 45]

  /** The lines up to the closing fence, from an offset: the text between, and where reading stops. */
  function Fenced(bytes: seq<byte>, broken: nat, from: nat, yaml: seq<byte>): (Outcome<seq<byte>>, nat)
    requires from <= MAX_INPUT_BYTES && from <= |bytes|
    decreases |bytes| - from
  {
    match Lined(bytes, broken, from)
    case (Failed(failure), at) => (Failed(failure), at)
    case (Done(line), at) =>
      if line == [] then (Failed(InvalidFrontmatter), at)
      else if WithoutEol(line) == Fence then (Done(yaml), at)
      else Fenced(bytes, broken, at, yaml + line)
  }

  /** The header of a file and the offset reading stops at. */
  function Header(bytes: seq<byte>, broken: nat): (Outcome<seq<byte>>, nat) {
    match Lined(bytes, broken, 0)
    case (Failed(failure), at) => (Failed(failure), at)
    case (Done(line), at) =>
      if WithoutEol(WithoutMark(line)) != Fence then (Failed(InvalidFrontmatter), at)
      else Fenced(bytes, broken, at, [])
  }

  method ReadHeader(reader: Reader) returns (r: Outcome<seq<byte>>)
    requires reader.position == 0
    modifies reader
    ensures (r, reader.position) == Header(reader.bytes, reader.broken)
  {
    var consumed: nat := 0;
    var opening: Outcome<seq<byte>>;
    opening, consumed := Line(reader, consumed);
    match opening {
      case Failed(failure) => return Failed(failure);
      case Done(line) => if WithoutEol(WithoutMark(line)) != Fence { return Failed(InvalidFrontmatter); }
    }
    var yaml: seq<byte> := [];
    while true
      invariant consumed == reader.position <= MAX_INPUT_BYTES && consumed <= |reader.bytes|
      invariant Fenced(reader.bytes, reader.broken, consumed, yaml) == Header(reader.bytes, reader.broken)
      decreases |reader.bytes| - consumed
    {
      var next: Outcome<seq<byte>>;
      next, consumed := Line(reader, consumed);
      match next {
        case Failed(failure) => return Failed(failure);
        case Done(line) =>
          if line == [] { return Failed(InvalidFrontmatter); }
          if WithoutEol(line) == Fence { return Done(yaml); }
          yaml := yaml + line;
      }
    }
  }

  // ---- what is consumed

  lemma {:induction false} FencedStops(bytes: seq<byte>, broken: nat, from: nat, yaml: seq<byte>)
    requires from <= MAX_INPUT_BYTES && from <= |bytes|
    ensures var (r, at) := Fenced(bytes, broken, from, yaml);
            && from <= at <= |bytes|
            && (at > MAX_INPUT_BYTES <==> r == Failed(InputTooLarge)) && at <= MAX_INPUT_BYTES + 1
    decreases |bytes| - from
  {
    match Lined(bytes, broken, from)
    case (Failed(_), _) =>
    case (Done(line), at) =>
      if line != [] && WithoutEol(line) != Fence { FencedStops(bytes, broken, at, yaml + line); }
  }

  /** No more than the limit is consumed exactly when the answer is not that the input is too large;
      then it is one byte more. The budget never goes below zero. */
  lemma HeaderConsumes(bytes: seq<byte>, broken: nat)
    ensures var (r, at) := Header(bytes, broken);
            && at <= |bytes| && (at > MAX_INPUT_BYTES <==> r == Failed(InputTooLarge)) && at <= MAX_INPUT_BYTES + 1
  {
    match Lined(bytes, broken, 0)
    case (Failed(_), _) =>
    case (Done(line), at) =>
      if WithoutEol(WithoutMark(line)) == Fence { FencedStops(bytes, broken, at, []); }
  }

  lemma {:induction false} NoNewline(bytes: seq<byte>, from: nat, limit: nat)
    requires from <= limit <= |bytes| && forall i :: from <= i < limit ==> bytes[i] != NEWLINE
    ensures LineEnd(bytes, from, limit) == limit
    decreases limit - from
  {
    if from < limit { NoNewline(bytes, from + 1, limit); }
  }

  /** So the limit is exceeded by every long enough input without a line end. */
  lemma OneLongLine(bytes: seq<byte>)
    requires |bytes| > MAX_INPUT_BYTES && forall i :: 0 <= i <= MAX_INPUT_BYTES ==> bytes[i] != NEWLINE
    ensures Header(bytes, |bytes|) == (Failed(InputTooLarge), MAX_INPUT_BYTES + 1)
  {
    NoNewline(bytes, 0, MAX_INPUT_BYTES + 1);
  }

  // ---- what is left

  /** The bytes between two offsets are one line, ended by a newline unless the file ends there. */
  ghost predicate OneLine(bytes: seq<byte>, from: nat, to: nat) {
    && from < to <= |bytes| && (forall i :: from <= i < to - 1 ==> bytes[i] != NEWLINE)
    && (to < |bytes| ==> bytes[to - 1] == NEWLINE)
  }

  /** The bytes between two offsets are whole lines, none of which is a fence. */
  ghost predicate Unfenced(bytes: seq<byte>, from: nat, to: nat)
    decreases to - from
  {
    from == to || exists n: nat :: from < n <= to && PlainLine(bytes, from, n) && Unfenced(bytes, n, to)
  }

  ghost predicate PlainLine(bytes: seq<byte>, from: nat, to: nat) {
    OneLine(bytes, from, to) && WithoutEol(bytes[from..to]) != Fence
  }

  lemma LinedIs(bytes: seq<byte>, broken: nat, from: nat)
    requires from <= MAX_INPUT_BYTES && from <= |bytes| && Lined(bytes, broken, from).0.Done?
    ensures var (r, at) := Lined(bytes, broken, from);
            && from <= at <= |bytes| && at <= MAX_INPUT_BYTES && r.value == bytes[from..at]
            && (from < |bytes| ==> OneLine(bytes, from, at)) && (r.value == [] <==> from == |bytes|)
  {
  }

  lemma Spliced<T>(yaml: seq<T>, bytes: seq<T>, from: nat, at: nat, to: nat)
    requires from <= at <= to <= |bytes|
    ensures yaml + bytes[from..at] + bytes[at..to] == yaml + bytes[from..to]
  {
  }

  /** On success the text is what lies between `from` and the closing fence, and reading stops right behind the fence. */
  lemma {:induction false} FencedLeavesTheBody(bytes: seq<byte>, broken: nat, from: nat, yaml: seq<byte>) returns (mid: nat)
    requires from <= MAX_INPUT_BYTES && from <= |bytes| && Fenced(bytes, broken, from, yaml).0.Done?
    ensures var (r, at) := Fenced(bytes, broken, from, yaml);
            && from <= mid < at <= |bytes| && at <= MAX_INPUT_BYTES
            && r.value == yaml + bytes[from..mid] && Unfenced(bytes, from, mid)
            && OneLine(bytes, mid, at) && WithoutEol(bytes[mid..at]) == Fence
    decreases |bytes| - from
  {
    LinedIs(bytes, broken, from);
    var (r, at) := Lined(bytes, broken, from);
    if WithoutEol(r.value) == Fence {
      mid := from;
      assert yaml + bytes[from..mid] == yaml;
    } else {
      mid := FencedLeavesTheBody(bytes, broken, at, yaml + r.value);
      Spliced(yaml, bytes, from, at, mid);
      assert PlainLine(bytes, from, at);
    }
  }

  /** A header that was read is an opening fence, text without fences, and a closing fence.
      Reading stops right behind it, so exactly the body is left. */
  lemma HeaderLeavesTheBody(bytes: seq<byte>, broken: nat) returns (open: nat, close: nat)
    requires Header(bytes, broken).0.Done?
    ensures var (r, at) := Header(bytes, broken);
            && open <= close < at <= |bytes| && at <= MAX_INPUT_BYTES
            && r == Done(bytes[open..close]) && Unfenced(bytes, open, close)
            && OneLine(bytes, 0, open) && WithoutEol(WithoutMark(bytes[..open])) == Fence
            && OneLine(bytes, close, at) && WithoutEol(bytes[close..at]) == Fence
  {
    LinedIs(bytes, broken, 0);
    open := Lined(bytes, broken, 0).1;
    close := FencedLeavesTheBody(bytes, broken, open, []);
    assert [] + bytes[open..close] == bytes[open..close];
  }

  // ---- when the limit is exceeded, read off the input

  /** A fence line that ends within the limit, at or after an offset where a line starts. */
  ghost predicate FenceLine(bytes: seq<byte>, from: nat, start: nat, end: nat) {
    && from <= start && OneLine(bytes, start, end) && end <= MAX_INPUT_BYTES
    && (start == from || bytes[start - 1] == NEWLINE) && WithoutEol(bytes[start..end]) == Fence
  }

  ghost predicate Closed(bytes: seq<byte>, from: nat) {
    exists start: nat, end: nat :: FenceLine(bytes, from, start, end)
  }

  lemma LinesAreUnique(bytes: seq<byte>, from: nat, a: nat, b: nat)
    requires OneLine(bytes, from, a) && OneLine(bytes, from, b)
    ensures a == b
  {
  }

  lemma NextLineStartsBehind(bytes: seq<byte>, from: nat, at: nat, start: nat)
    requires OneLine(bytes, from, at) && from < start <= |bytes| && bytes[start - 1] == NEWLINE
    ensures at <= start
  {
  }

  /** Fence lines after a line that is none start behind it. */
  lemma ClosedLater(bytes: seq<byte>, from: nat, at: nat)
    requires OneLine(bytes, from, at) && WithoutEol(bytes[from..at]) != Fence
    ensures Closed(bytes, from) <==> Closed(bytes, at)
  {
    if start: nat, end: nat :| FenceLine(bytes, from, start, end) {
      if start == from {
        LinesAreUnique(bytes, from, at, end);
      } else {
        NextLineStartsBehind(bytes, from, at, start);
        assert FenceLine(bytes, at, start, end);
      }
    }
    if start: nat, end: nat :| FenceLine(bytes, at, start, end) {
      assert FenceLine(bytes, from, start, end);
    }
  }

  lemma UnendedIsOpen(bytes: seq<byte>, from: nat)
    requires from <= MAX_INPUT_BYTES < |bytes| && LineEnd(bytes, from, MAX_INPUT_BYTES + 1) > MAX_INPUT_BYTES
    ensures !Closed(bytes, from)
  {
    forall start: nat, end: nat ensures !FenceLine(bytes, from, start, end) { }
  }

  lemma {:induction false} FencedTooLong(bytes: seq<byte>, broken: nat, from: nat, yaml: seq<byte>)
    requires from <= MAX_INPUT_BYTES && from <= |bytes|
    ensures Fenced(bytes, broken, from, yaml).0 == Failed(InputTooLarge) <==>
            |bytes| > MAX_INPUT_BYTES && broken > MAX_INPUT_BYTES && !Closed(bytes, from)
    decreases |bytes| - from
  {
    var end := LineEnd(bytes, from, MAX_INPUT_BYTES + 1);
    if end > MAX_INPUT_BYTES {
      UnendedIsOpen(bytes, from);
    } else if broken >= end {
      LinedIs(bytes, broken, from);
      if from < |bytes| {
        if WithoutEol(bytes[from..end]) == Fence {
          assert FenceLine(bytes, from, from, end);
        } else {
          ClosedLater(bytes, from, end);
          FencedTooLong(bytes, broken, end, yaml + bytes[from..end]);
        }
      }
    }
  }

  /** The first line has no end within the limit, or it opens a header that no fence closes within the limit. */
  ghost predicate Overlong(bytes: seq<byte>) {
    && |bytes| > MAX_INPUT_BYTES
    && var first := LineEnd(bytes, 0, MAX_INPUT_BYTES + 1);
    (first > MAX_INPUT_BYTES || (WithoutEol(WithoutMark(bytes[..first])) == Fence && !Closed(bytes, first)))
  }

  /** More than the limit is consumed exactly for these inputs, while they can be read that far. */
  lemma ExceedsExactly(bytes: seq<byte>, broken: nat)
    ensures Header(bytes, broken).1 > MAX_INPUT_BYTES <==> broken > MAX_INPUT_BYTES && Overlong(bytes)
  {
    HeaderConsumes(bytes, broken);
    var first := LineEnd(bytes, 0, MAX_INPUT_BYTES + 1);
    if first <= MAX_INPUT_BYTES && broken >= first && WithoutEol(WithoutMark(bytes[..first])) == Fence {
      FencedTooLong(bytes, broken, first, []);
    }
  }

  // ---- the whole reader

  const NAME: Text := Ascii("name")
  const DESCRIPTION: Text := Ascii("description")
  const LICENSE: Text := Ascii("license")
  const ALLOWED_TOOLS: Text := Ascii("allowed-tools")
  const COMPATIBILITY: Text := Ascii("compatibility")
  const METADATA: Text := Ascii("metadata")

  predicate NameByte(b: byte) { 97 <= b <= 122 || 48 <= b <= 57 || b == 45 }

  /** Lowercase words of letters and digits, joined by single hyphens. */
  predicate ValidName(name: Text) {
    && 0 < |name| <= 64 && (forall i :: 0 <= i < |name| ==> NameByte(name[i]))
    && name[0] != 45 && name[|name| - 1] != 45
    && forall i :: 0 <= i < |name| - 1 ==> !(name[i] == 45 && name[i + 1] == 45)
  }

  /** Characters of well-formed text: bytes that begin one. */
  function Characters(t: Text): nat {
    if t == [] then 0 else Characters(t[..|t| - 1]) + if Chunks.Continues(t[|t| - 1]) then 0 else 1
  }

  predicate Described(blank: Text -> bool, value: Json, limit: nat) {
    value.String? && !blank(value.text) && Characters(value.text) <= limit
  }

  /** `validate`: the metadata a skill or context file must and may carry. */
  predicate Admits(blank: Text -> bool, value: Json) {
    && value.Get(NAME).Some? && value.Get(NAME).value.String? && ValidName(value.Get(NAME).value.text)
    && value.Get(DESCRIPTION).Some? && Described(blank, value.Get(DESCRIPTION).value, 1024)
    && (value.Get(LICENSE).Some? ==> value.Get(LICENSE).value.String?)
    && (value.Get(ALLOWED_TOOLS).Some? ==> value.Get(ALLOWED_TOOLS).value.String?)
    && (value.Get(COMPATIBILITY).Some? ==> Described(blank, value.Get(COMPATIBILITY).value, 500))
    && (value.Get(METADATA).Some? ==>
          && value.Get(METADATA).value.Object?
          && forall key :: key in value.Get(METADATA).value.members ==> value.Get(METADATA).value.members[key].String?)
  }

  /** What lies outside: the YAML scanner, its scalar schema, and which text trims to nothing. */
  datatype Rules = Rules(scan: Text -> seq<Y.Event>, schema: Y.Schema, blank: Text -> bool)

  /** `read`: the value is the meaning of one mapping spelled between the fences of a header within the limit. */
  method Read(reader: Reader, rules: Rules) returns (r: Outcome<Json>)
    requires reader.position == 0
    modifies reader
    ensures reader.position == Header(reader.bytes, reader.broken).1
    ensures r.Done? <==>
              && Header(reader.bytes, reader.broken).0.Done?
              && var yaml := Header(reader.bytes, reader.broken).0.value;
              && Chunks.Utf8(yaml) && Y.Parsed(rules.schema, rules.scan(yaml)).Some?
              && Admits(rules.blank, Y.Parsed(rules.schema, rules.scan(yaml)).value)
    ensures r.Done? ==> exists n :: Y.Spells(rules.schema, rules.scan(Header(reader.bytes, reader.broken).0.value), n, r.value)
    ensures reader.position > MAX_INPUT_BYTES <==> r == Failed(InputTooLarge)
  {
    HeaderConsumes(reader.bytes, reader.broken);
    var header := ReadHeader(reader);
    match header {
      case Failed(failure) => return Failed(failure);
      case Done(yaml) =>
        if !Chunks.Utf8(yaml) { return Failed(InvalidFrontmatter); }
        var value := Y.Parse(rules.schema, rules.scan(yaml));
        match value {
          case None => return Failed(InvalidFrontmatter);
          case Some(json) =>
            if !Admits(rules.blank, json) { return Failed(InvalidFrontmatter); }
            ghost var n := Y.ParsedIsSpelled(rules.schema, rules.scan(yaml));
            return Done(json);
        }
    }
  }
}
