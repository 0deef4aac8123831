/** The digest of a history prefix, and the check of every selection ever made against it in the same pass. */
module HistoryPrefix {
  import opened Wire
  import Spelling

  const I64_MAX: nat := 0x7FFF_FFFF_FFFF_FFFF

  /** A stored event row in canonical JSON, if its columns can be decoded. */
  datatype RawRow = RawRow(sequence: int, canonical: Option<Text>)

  /** SHA-256 in hexadecimal, over the domain tag and the length-prefixed rows. */
  type Hash = seq<Text> -> Text

  predicate IsDigest(t: Text) { |t| == 64 && Spelling.IsHex(t) }

  predicate Numbered(rows: seq<RawRow>) {
    forall i :: 0 <= i < |rows| ==> rows[i].sequence == i + 1 && rows[i].canonical.Some?
  }

  function Canonical(rows: seq<RawRow>): seq<Text>
    requires Numbered(rows)
  {
    seq(|rows|, i requires 0 <= i < |rows| => rows[i].canonical.value)
  }

  /** A selection made when the history ended at `checkpoint.0` named exactly the rows up to there. */
  predicate Attests(hash: Hash, rows: seq<RawRow>, checkpoint: (nat, Text))
    requires Numbered(rows)
  {
    && 0 < checkpoint.0 <= |rows| && IsDigest(checkpoint.1)
    && checkpoint.1 == hash(Canonical(rows)[..checkpoint.0])
  }

  /** The prefix is complete and every checkpoint tells the truth about it. */
  predicate Attested(hash: Hash, head: int, rows: seq<RawRow>, through: nat, checkpoints: seq<(nat, Text)>) {
    && 0 < through <= I64_MAX && through <= head && |rows| == through && Numbered(rows)
    && forall k :: 0 <= k < |checkpoints| ==> Attests(hash, rows, checkpoints[k])
  }

  function DigestOf(hash: Hash, head: int, rows: seq<RawRow>, through: nat, checkpoints: seq<(nat, Text)>): Option<Text> {
    if Attested(hash, head, rows, through, checkpoints) then Some(hash(Canonical(rows))) else None
  }

  /** What each sequence number is expected to hash to, unless two selections contradict each other. */
  method Expectations(through: nat, checkpoints: seq<(nat, Text)>) returns (r: Option<map<nat, Text>>)
    ensures r.Some? ==>
              && (forall k :: 0 <= k < |checkpoints| ==>
                    && 0 < checkpoints[k].0 <= through && IsDigest(checkpoints[k].1)
                    && checkpoints[k].0 in r.value && r.value[checkpoints[k].0] == checkpoints[k].1)
              && forall s :: s in r.value ==> (s, r.value[s]) in checkpoints
    ensures r.None? ==>
              exists k :: 0 <= k < |checkpoints| &&
                (|| !(0 < checkpoints[k].0 <= through) || !IsDigest(checkpoints[k].1)
                 || exists j :: 0 <= j < |checkpoints| && checkpoints[j].0 == checkpoints[k].0 && checkpoints[j].1 != checkpoints[k].1)
  {
    var expected: map<nat, Text> := map[];
    for i := 0 to |checkpoints|
      invariant forall k :: 0 <= k < i ==>
        && 0 < checkpoints[k].0 <= through && IsDigest(checkpoints[k].1)
        && checkpoints[k].0 in expected && expected[checkpoints[k].0] == checkpoints[k].1
      invariant forall s :: s in expected ==> (s, expected[s]) in checkpoints
    {
      var (sequence, digest) := checkpoints[i];
      if sequence == 0 || sequence > through || !IsDigest(digest) { return None; }
      if sequence in expected && expected[sequence] != digest {
        ghost var j :| 0 <= j < |checkpoints| && checkpoints[j] == (sequence, expected[sequence]);
        return None;
      }
      expected := expected[sequence := digest];
      assert checkpoints[i] in checkpoints;
    }
    return Some(expected);
  }

  /** One streaming pass: hash the rows in order, and compare at every expected sequence number. */
  method Digest(hash: Hash, head: int, rows: seq<RawRow>, through: nat, checkpoints: seq<(nat, Text)>) returns (r: Option<Text>)
    ensures r == DigestOf(hash, head, rows, through, checkpoints)
  {
    if through == 0 || through > I64_MAX { return None; }
    var expected := Expectations(through, checkpoints);
    if expected.None? {
      Contradicted(hash, head, rows, through, checkpoints);
      return None;
    }
    if head < 1 || through > head { return None; }
    var context: seq<Text> := [];
    for i := 0 to |rows|
      invariant Numbered(rows[..i]) && context == Canonical(rows[..i])
      invariant forall s :: s in expected.value && s <= i ==> expected.value[s] == hash(context[..s])
    {
      assert rows[..i + 1] == rows[..i] + [rows[i]];
      if rows[i].sequence != i + 1 || rows[i].canonical.None? { return None; }
      context := context + [rows[i].canonical.value];
      assert context[..i] == Canonical(rows[..i]) && context == Canonical(rows[..i + 1]);
      forall s | s in expected.value && s <= i ensures expected.value[s] == hash(context[..s]) {
        assert context[..s] == Canonical(rows[..i])[..s];
      }
      if i + 1 in expected.value && hash(context) != expected.value[i + 1] {
        Disproved(hash, head, rows, through, checkpoints, i + 1, expected.value[i + 1]);
        return None;
      }
      assert context[..i + 1] == context;
    }
    assert rows[..|rows|] == rows;
    if |rows| != through { return None; }
    forall k | 0 <= k < |checkpoints| ensures Attests(hash, rows, checkpoints[k]) {
      assert checkpoints[k].0 in expected.value;
    }
    return Some(hash(context));
  }

  lemma Contradicted(hash: Hash, head: int, rows: seq<RawRow>, through: nat, checkpoints: seq<(nat, Text)>)
    requires exists k :: 0 <= k < |checkpoints| &&
               (|| !(0 < checkpoints[k].0 <= through) || !IsDigest(checkpoints[k].1)
                || exists j :: 0 <= j < |checkpoints| && checkpoints[j].0 == checkpoints[k].0 && checkpoints[j].1 != checkpoints[k].1)
    ensures !Attested(hash, head, rows, through, checkpoints)
  {
  }

  lemma CanonicalOfPrefix(rows: seq<RawRow>, n: nat)
    requires Numbered(rows) && n <= |rows|
    ensures Numbered(rows[..n]) && Canonical(rows[..n]) == Canonical(rows)[..n]
  {
  }

  lemma Disproved(hash: Hash, head: int, rows: seq<RawRow>, through: nat, checkpoints: seq<(nat, Text)>, n: nat, digest: Text)
    requires 0 < n <= |rows| && (n, digest) in checkpoints && Numbered(rows[..n]) && hash(Canonical(rows[..n])) != digest
    ensures !Attested(hash, head, rows, through, checkpoints)
  {
    var k :| 0 <= k < |checkpoints| && checkpoints[k] == (n, digest);
    if Numbered(rows) { CanonicalOfPrefix(rows, n); }
  }
}
