/**
 * A SharedPreferences.Editor: the puts collected on it, in call order, and what
 * `commit()` / `apply()` make of a file. A batch lands as one update; a later put of a
 * key overrides an earlier one.
 */
module Editor {
  import opened Wrappers
  import opened Keys
  import opened Prefs

  /** One putBoolean, putInt or putString. */
  datatype Put = Put(key: Key, value: Value)

  type Edits = seq<Put>

  /** The file after the batch `edits` is committed to `b`. */
  function Commit(b: Bucket, edits: Edits): Bucket
    decreases |edits|
  {
    if |edits| == 0 then b
    else
      var last := edits[|edits| - 1];
      Commit(b, edits[..|edits| - 1])[last.key := last.value]
  }

  /** The value of the last put of `k` in the batch, if there is one. */
  function Lookup(edits: Edits, k: Key): Option<Value>
    decreases |edits|
  {
    if |edits| == 0 then None
    else if edits[|edits| - 1].key == k then Some(edits[|edits| - 1].value)
    else Lookup(edits[..|edits| - 1], k)
  }

  /** A key reads, after a commit, as its last put in the batch, or as before when it has none. */
  lemma {:induction false} CommitRead(b: Bucket, edits: Edits, k: Key)
    ensures Read(Commit(b, edits), k) == if Lookup(edits, k).Some? then Lookup(edits, k) else Read(b, k)
    decreases |edits|
  {
    if |edits| > 0 {
      CommitRead(b, edits[..|edits| - 1], k);
    }
  }

  /** A batch of one put. */
  lemma LookupOne(p: Put, k: Key)
    ensures Lookup([p], k) == if p.key == k then Some(p.value) else None
  {
    assert [p][..0] == [];
  }

  /** A batch of three puts. */
  lemma LookupThree(p0: Put, p1: Put, p2: Put, k: Key)
    ensures Lookup([p0, p1, p2], k) ==
      if p2.key == k then Some(p2.value)
      else if p1.key == k then Some(p1.value)
      else if p0.key == k then Some(p0.value)
      else None
  {
    assert [p0, p1, p2][..2] == [p0, p1];
    assert [p0, p1][..1] == [p0];
    LookupOne(p0, k);
  }

  /** In a batch made of two parts, the second part's puts win. */
  lemma {:induction false} LookupAppend(p: Edits, q: Edits, k: Key)
    ensures Lookup(p + q, k) == if Lookup(q, k).Some? then Lookup(q, k) else Lookup(p, k)
    decreases |q|
  {
    if |q| > 0 {
      assert (p + q)[..|p + q| - 1] == p + q[..|q| - 1];
      LookupAppend(p, q[..|q| - 1], k);
    } else {
      assert p + q == p;
    }
  }

  /** Two files that read alike under every key are the same file. */
  lemma SameReads(b1: Bucket, b2: Bucket)
    requires forall k :: Read(b1, k) == Read(b2, k)
    ensures b1 == b2
  {
    forall k | k in b1
      ensures k in b2 && b1[k] == b2[k]
    {
      assert Read(b1, k) == Read(b2, k);
    }
    forall k | k in b2
      ensures k in b1
    {
      assert Read(b1, k) == Read(b2, k);
    }
  }

  /** Committing the same batch twice leaves the file as committing it once. */
  lemma CommitTwice(b: Bucket, edits: Edits)
    ensures Commit(Commit(b, edits), edits) == Commit(b, edits)
  {
    forall k
      ensures Read(Commit(Commit(b, edits), edits), k) == Read(Commit(b, edits), k)
    {
      CommitRead(Commit(b, edits), edits, k);
      CommitRead(b, edits, k);
    }
    SameReads(Commit(Commit(b, edits), edits), Commit(b, edits));
  }

  /** The puts of one indexed key family: `name + i` receives values[i], for i in order. */
  function Indexed(name: Name, values: seq<Value>): (r: Edits)
    ensures |r| == |values|
  {
    seq(|values|, i requires 0 <= i < |values| => Put(Key(name, At(i)), values[i]))
  }

  function Ints(xs: seq<int>): seq<Value> {
    seq(|xs|, i requires 0 <= i < |xs| => IntV(xs[i]))
  }

  function Strings(xs: seq<string>): seq<Value> {
    seq(|xs|, i requires 0 <= i < |xs| => StrV(xs[i]))
  }

  /** The batch of an indexed family puts each index of the family once, and nothing else. */
  lemma {:induction false} LookupIndexed(name: Name, values: seq<Value>, k: Key)
    ensures Lookup(Indexed(name, values), k) ==
      if k.name == name && k.index.At? && 0 <= k.index.i < |values| then Some(values[k.index.i]) else None
    decreases |values|
  {
    if |values| > 0 {
      var n := |values| - 1;
      assert Indexed(name, values)[..n] == Indexed(name, values[..n]);
      LookupIndexed(name, values[..n], k);
    }
  }

  /** One more put at the end of an indexed family. */
  lemma IndexedSnoc(name: Name, values: seq<Value>, v: Value)
    ensures Indexed(name, values + [v]) == Indexed(name, values) + [Put(Key(name, At(|values|)), v)]
  {
  }
}
