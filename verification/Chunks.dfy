/** Cutting UTF-8 text into chunks at character boundaries. */
module Chunks {
  import opened Wire

  const CHUNK_BYTES: nat := 8192

  predicate Continues(b: byte) { 128 <= b < 192 }

  /** The length of the character a text starts with, by the table in section 4 of RFC 3629; 0 if there is none. */
  function Lead(t: Text): (n: nat)
    ensures n <= |t| && n <= 4
    ensures n > 0 ==> !Continues(t[0]) && forall i :: 0 < i < n ==> Continues(t[i])
  {
    if t == [] then 0
    else if t[0] < 0x80 then 1
    else if |t| >= 2 && 0xC2 <= t[0] <= 0xDF && Continues(t[1]) then 2
    else if |t| >= 3 && 0xE0 <= t[0] <= 0xEF && Continues(t[1]) && Continues(t[2])
            && (t[0] == 0xE0 ==> t[1] >= 0xA0) && (t[0] == 0xED ==> t[1] <= 0x9F) then 3
    else if |t| >= 4 && 0xF0 <= t[0] <= 0xF4 && Continues(t[1]) && Continues(t[2]) && Continues(t[3])
            && (t[0] == 0xF0 ==> t[1] >= 0x90) && (t[0] == 0xF4 ==> t[1] <= 0x8F) then 4
    else 0
  }

  /** Well-formed UTF-8: a sequence of whole characters. */
  predicate Utf8(t: Text) {
    t == [] || (Lead(t) > 0 && Utf8(t[Lead(t)..]))
  }

  /** `is_char_boundary`, which looks at one byte only. */
  predicate Boundary(t: Text, i: nat) {
    i == 0 || i == |t| || (i < |t| && !Continues(t[i]))
  }

  lemma LeadOfPrefix(t: Text, i: nat)
    requires i <= |t| && 0 < Lead(t) <= i
    ensures Lead(t[..i]) == Lead(t)
  {
  }

  lemma BoundaryIsPastLead(t: Text, i: nat)
    requires 0 < i <= |t| && Boundary(t, i) && Lead(t) > 0
    ensures Lead(t) <= i && Boundary(t[Lead(t)..], i - Lead(t))
  {
    assert Lead(t) <= i < |t| ==> t[Lead(t)..][i - Lead(t)] == t[i];
  }

  lemma LeadThenText(t: Text, n: nat)
    requires 0 < n <= |t| && Lead(t) == n && Utf8(t[n..])
    ensures Utf8(t)
  {
  }

  lemma SliceTwice(t: Text, n: nat, i: nat)
    requires n <= i <= |t|
    ensures t[..i][n..] == t[n..][..i - n] && t[n..][i - n..] == t[i..]
  {
  }

  /** Text cut at a boundary is text on both sides. */
  lemma {:induction false} CutIsText(t: Text, i: nat)
    requires Utf8(t) && i <= |t| && Boundary(t, i)
    ensures Utf8(t[..i]) && Utf8(t[i..])
  {
    if i == 0 {
      assert t[..0] == [] && t[0..] == t;
    } else {
      var n := Lead(t);
      BoundaryIsPastLead(t, i);
      CutIsText(t[n..], i - n);
      SliceTwice(t, n, i);
      LeadOfPrefix(t, i);
      LeadThenText(t[..i], n);
    }
  }

  /** No character is longer than four bytes, so a boundary is never more than three bytes back. */
  lemma {:induction false} BoundaryIsNear(t: Text, i: nat) returns (k: nat)
    requires Utf8(t) && i <= |t|
    ensures k <= i <= k + 3 && Boundary(t, k)
    ensures i > 3 || t == [] ==> k > 0 || i == 0
    decreases |t|
  {
    var n := Lead(t);
    if t == [] || i == 0 {
      k := i;
    } else if i < n {
      k := 0;
    } else {
      var k' := BoundaryIsNear(t[n..], i - n);
      k := k' + n;
      assert k' < |t[n..]| ==> t[n..][k'] == t[k];
    }
  }

  /** The last boundary at or before a limit. */
  function LastBoundary(t: Text, limit: nat): (k: nat)
    requires limit <= |t|
    ensures k <= limit && Boundary(t, k) && forall i :: k < i <= limit ==> !Boundary(t, i)
    decreases |t|, limit
  {
    if Boundary(t, limit) then limit else LastBoundary(t, limit - 1)
  }

  function Least(a: nat, b: nat): nat { if a < b then a else b }

  function Cut(t: Text): nat { LastBoundary(t, Least(|t|, CHUNK_BYTES)) }

  lemma CutIsBounded(t: Text)
    requires Utf8(t) && t != []
    ensures 1 <= Cut(t) <= CHUNK_BYTES && Utf8(t[..Cut(t)]) && Utf8(t[Cut(t)..])
    ensures Cut(t) < |t| ==> Cut(t) >= CHUNK_BYTES - 3
  {
    var limit := Least(|t|, CHUNK_BYTES);
    var k := BoundaryIsNear(t, limit);
    CutIsText(t, Cut(t));
  }

  datatype Chunk = Chunk(start: nat, text: Text)

  /** The chunks of a text, first to last. */
  function Chunked(t: Text, start: nat): seq<Chunk>
    requires Utf8(t)
    decreases |t|
  {
    if t == [] then []
    else
      CutIsBounded(t);
      [Chunk(start, t[..Cut(t)])] + Chunked(t[Cut(t)..], start + Cut(t))
  }

  function Joined(chunks: seq<Chunk>): Text {
    if chunks == [] then [] else chunks[0].text + Joined(chunks[1..])
  }

  /** A partition of `t` that begins at offset `start`: each chunk is well-formed and nonempty,
      and only the last may fall more than three bytes short of the limit. */
  ghost predicate Partitions(c: seq<Chunk>, t: Text, start: nat) {
    if c == [] then t == []
    else
      var n := |c[0].text|;
      && c[0].start == start && 1 <= n <= CHUNK_BYTES && Utf8(c[0].text)
      && n <= |t| && c[0].text == t[..n] && (n < |t| ==> n >= CHUNK_BYTES - 3)
      && Partitions(c[1..], t[n..], start + n)
  }

  lemma PartitionsFrom(first: Text, rest: seq<Chunk>, t: Text, start: nat)
    requires 1 <= |first| <= CHUNK_BYTES && Utf8(first) && |first| <= |t| && first == t[..|first|]
    requires |first| < |t| ==> |first| >= CHUNK_BYTES - 3
    requires Partitions(rest, t[|first|..], start + |first|)
    ensures Partitions([Chunk(start, first)] + rest, t, start)
  {
    assert ([Chunk(start, first)] + rest)[1..] == rest;
  }

  lemma {:induction false} ChunkedPartitions(t: Text, start: nat)
    requires Utf8(t)
    ensures Partitions(Chunked(t, start), t, start)
    decreases |t|
  {
    if t != [] {
      CutIsBounded(t);
      var n := Cut(t);
      ChunkedPartitions(t[n..], start + n);
      PartitionsFrom(t[..n], Chunked(t[n..], start + n), t, start);
    }
  }

  lemma {:induction false} PartitionJoins(c: seq<Chunk>, t: Text, start: nat)
    requires Partitions(c, t, start)
    ensures Joined(c) == t
  {
    if c != [] {
      var n := |c[0].text|;
      PartitionJoins(c[1..], t[n..], start + n);
      assert t[..n] + t[n..] == t;
    }
  }

  /** Offsets are contiguous, and no chunk reaches past the end of the text. */
  lemma {:induction false} PartitionFits(c: seq<Chunk>, t: Text, start: nat, i: nat)
    requires Partitions(c, t, start) && i < |c|
    ensures Utf8(c[i].text) && 1 <= |c[i].text| <= CHUNK_BYTES
    ensures i + 1 < |c| ==> |c[i].text| >= CHUNK_BYTES - 3 && c[i + 1].start == c[i].start + |c[i].text|
    ensures i + 1 == |c| ==> c[i].start + |c[i].text| == start + |t|
    ensures c[i].start + |c[i].text| <= start + |t|
  {
    var n := |c[0].text|;
    if i > 0 { PartitionFits(c[1..], t[n..], start + n, i - 1); }
  }

  /** The chunks of a text concatenate to it and lie end to end from `start`. */
  lemma ChunksPartition(t: Text, start: nat, i: nat)
    requires Utf8(t)
    ensures var c := Chunked(t, start);
            && Joined(c) == t
            && (i < |c| ==>
                  && Utf8(c[i].text) && 1 <= |c[i].text| <= CHUNK_BYTES
                  && c[i].start + |c[i].text| <= start + |t|
                  && (i == 0 ==> c[i].start == start)
                  && (i + 1 < |c| ==> |c[i].text| >= CHUNK_BYTES - 3 && c[i + 1].start == c[i].start + |c[i].text|)
                  && (i + 1 == |c| ==> c[i].start + |c[i].text| == start + |t|))
  {
    ChunkedPartitions(t, start);
    var c := Chunked(t, start);
    PartitionJoins(c, t, start);
    if i < |c| { PartitionFits(c, t, start, i); }
  }

  /** The iterator. Offsets are 64-bit, and the constructor has checked that the whole range fits. */
  class TextChunks {
    var remaining: Text
    var nextByte: u64

    ghost predicate Valid() reads this { Utf8(remaining) && nextByte + |remaining| <= U64_MAX }

    constructor (text: Text, start: u64)
      requires Utf8(text) && start + |text| <= U64_MAX
      ensures Valid() && remaining == text && nextByte == start
    {
      remaining, nextByte := text, start;
    }

    static method New(text: Text, start: u64) returns (r: Option<TextChunks>)
      requires Utf8(text)
      ensures r.Some? <==> start + |text| <= U64_MAX
      ensures r.Some? ==> fresh(r.value) && r.value.Valid() && r.value.remaining == text && r.value.nextByte == start
    {
      if |text| > U64_MAX || start + |text| > U64_MAX { return None; }
      var chunks := new TextChunks(text, start);
      return Some(chunks);
    }

    /** Back up from the limit to a character boundary. */
    static method CutPoint(text: Text) returns (end: nat)
      ensures end == Cut(text)
    {
      end := if |text| < CHUNK_BYTES then |text| else CHUNK_BYTES;
      while !Boundary(text, end)
        invariant end <= |text| && LastBoundary(text, end) == Cut(text)
        decreases end
      {
        end := end - 1;
      }
    }

    method Next() returns (r: Option<Chunk>)
      requires Valid()
      modifies this
      ensures Valid()
      ensures r.None? <==> old(remaining) == []
      ensures r.None? ==> remaining == old(remaining) && nextByte == old(nextByte)
      ensures r.Some? ==>
                && Chunked(old(remaining), old(nextByte)) == [r.value] + Chunked(remaining, nextByte)
                && |remaining| < |old(remaining)|
    {
      if remaining == [] { return None; }
      var end := CutPoint(remaining);
      CutIsBounded(remaining);
      r := Some(Chunk(nextByte, remaining[..end]));
      nextByte := nextByte + end;
      remaining := remaining[end..];
    }

    /** Draining the iterator yields exactly the chunks, and ends. */
    method Drain() returns (chunks: seq<Chunk>)
      requires Valid()
      modifies this
      ensures chunks == Chunked(old(remaining), old(nextByte)) && remaining == []
    {
      chunks := [];
      var more := true;
      while more
        invariant Valid() && chunks + Chunked(remaining, nextByte) == Chunked(old(remaining), old(nextByte))
        invariant !more ==> remaining == []
        decreases |remaining|, more
      {
        var chunk := Next();
        match chunk {
          case None => more := false;
          case Some(c) => chunks := chunks + [c];
        }
      }
    }
  }
}
