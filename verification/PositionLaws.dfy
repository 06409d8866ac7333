/** The position table as user -> bucket -> list of positions. */
module PositionLaws {
  import opened Wrappers
  import opened PositionKeys
  import opened PositionStore

  function Numbered(cs: seq<Content>): (rows: seq<Row>)
    ensures |rows| == |cs|
    ensures forall i :: 0 <= i < |cs| ==> rows[i] == Row(i, cs[i])
  {
    seq(|cs|, i requires 0 <= i < |cs| => Row(i, cs[i]))
  }

  lemma {:induction false} NumberedRows(cs: seq<Content>, r: Row)
    ensures Strictly(Numbered(cs))
    ensures r in Numbered(cs) <==> r.idx < |cs| && cs[r.idx] == r.content
  {
    if r.idx < |cs| {
      assert Numbered(cs)[r.idx] == Row(r.idx, cs[r.idx]);
    }
  }

  /** A replaced bucket reads back as the new list, numbered from 0. */
  lemma {:induction false} ReplacedReadsBack(rows: seq<Row>, t: Table, user: string, bucket: string, cs: seq<Content>)
    ensures Lists(rows, Replaced(t, user, bucket, cs), user, bucket) <==> rows == Numbered(cs)
  {
    forall r ensures r in Numbered(cs)
                     <==> Key(user, bucket, r.idx) in Replaced(t, user, bucket, cs)
                          && Replaced(t, user, bucket, cs)[Key(user, bucket, r.idx)] == r.content {
      NumberedRows(cs, r);
    }
    assert Strictly(Numbered(cs));
    if Lists(rows, Replaced(t, user, bucket, cs), user, bucket) {
      ListingUnique(rows, Numbered(cs));
    }
  }

  /** Every other bucket, of this and of every other user, reads as before. */
  lemma {:induction false} ReplacedKeepsOthers(rows: seq<Row>, t: Table, user: string, bucket: string, cs: seq<Content>,
                            user': string, bucket': string)
    requires user' != user || bucket' != bucket
    ensures Lists(rows, Replaced(t, user, bucket, cs), user', bucket') <==> Lists(rows, t, user', bucket')
  {
    forall i: nat
      ensures (Key(user', bucket', i) in Replaced(t, user, bucket, cs) <==> Key(user', bucket', i) in t)
              && (Key(user', bucket', i) in t ==>
                    Replaced(t, user, bucket, cs)[Key(user', bucket', i)] == t[Key(user', bucket', i)])
    {
    }
  }

  /** Reordering twice is reordering by the composed permutation. */
  lemma {:induction false} ReordersCompose(rows: seq<Row>, p: seq<int>, q: seq<int>)
    requires Permutes(p, |rows|) && Permutes(q, |rows|)
    ensures |p| == |rows| == |q|
    ensures forall i :: 0 <= i < |rows| ==> 0 <= p[i] < |rows| && 0 <= q[i] < |rows|
    ensures Permuted(Numbered(Permuted(rows, p)), q)
            == Permuted(rows, seq(|q|, i requires 0 <= i < |q| => p[q[i]]))
  {
    PermutationRange(p, |rows|);
    PermutationRange(q, |rows|);
  }

  // ----------------------------------------------------------- restoring a snapshot

  /** Writing a row back as it was read keeps it. */
  predicate Settled(c: Content) {
    c.shortName != Some("") && c.isin != Some("")
  }

  lemma {:induction false} SettledRoundTrip(c: Content)
    ensures Stored(AsInput(c)) == c <==> Settled(c)
    ensures Settled(Stored(AsInput(c)))
  {
  }

  ghost predicate Contiguous(t: Table, user: string) {
    forall k, i: nat :: k in t && k.user == user && i < k.idx ==> Key(user, k.bucket, i) in t
  }

  ghost predicate SettledRows(t: Table, user: string) {
    forall k :: k in t && k.user == user ==> Settled(t[k])
  }

  function Inputs(rows: seq<Row>): (ps: seq<Input>)
    ensures |ps| == |rows|
    ensures forall i :: 0 <= i < |rows| ==> ps[i] == AsInput(rows[i].content)
  {
    seq(|rows|, i requires 0 <= i < |rows| => AsInput(rows[i].content))
  }

  /** A snapshot as the argument of a restore. */
  function Given(buckets: map<string, seq<Row>>): map<string, seq<Input>> {
    map b | b in buckets :: Inputs(buckets[b])
  }

  lemma {:induction false} ContiguousIndices(rows: seq<Row>, t: Table, user: string, bucket: string, n: nat)
    requires Contiguous(t, user) && Lists(rows, t, user, bucket) && n <= |rows|
    ensures forall i :: 0 <= i < n ==> rows[i].idx == i
  {
    if n > 0 {
      ContiguousIndices(rows, t, user, bucket, n - 1);
      var m := n - 1;
      assert rows[m] in rows;
      forall j | 0 <= j < |rows| && rows[j].idx == m ensures rows[m].idx <= m {
        assert j >= m;
      }
      if Key(user, bucket, m) in t {
        assert Row(m, t[Key(user, bucket, m)]) in rows;
      }
      if m > 0 {
        assert rows[m - 1].idx < rows[m].idx;
      }
    }
  }

  lemma {:induction false} FullIndices(rows: seq<Row>, t: Table, user: string, bucket: string)
    requires Lists(rows, t, user, bucket)
    requires forall i: nat :: Key(user, bucket, i) in t <==> i < |rows|
    ensures forall i :: 0 <= i < |rows| ==> rows[i] == Row(i, t[Key(user, bucket, i)])
  {
    var cs := seq(|rows|, i requires 0 <= i < |rows| => t[Key(user, bucket, i)]);
    forall r ensures r in Numbered(cs) <==> r in rows {
      NumberedRows(cs, r);
    }
    assert Strictly(Numbered(cs));
    ListingUnique(rows, Numbered(cs));
  }

  /** Restoring a user's own snapshot changes nothing exactly when the indices have no gaps and
      no stored label or ISIN is the empty text. */
  lemma {:induction false} RestoreSnapshotIff(t: Table, after: Table, user: string, buckets: map<string, seq<Row>>)
    requires Reads(buckets, t, user)
    requires OthersKept(after, t, user) && HoldsExactly(after, user, Given(buckets))
    ensures after == t <==> Contiguous(t, user) && SettledRows(t, user)
  {
    if after == t {
      SnapshotKept(t, user, buckets);
    }
    if Contiguous(t, user) && SettledRows(t, user) {
      forall k: Key ensures (k in after <==> k in t) && (k in t ==> after[k] == t[k]) {
        if k.user == user {
          RestoredBucket(t, after, user, k.bucket, buckets, Given(buckets));
          assert k == Key(user, k.bucket, k.idx);
        }
      }
    }
  }

  lemma {:induction false} SnapshotKept(t: Table, user: string, buckets: map<string, seq<Row>>)
    requires Reads(buckets, t, user) && HoldsExactly(t, user, Given(buckets))
    ensures Contiguous(t, user) && SettledRows(t, user)
  {
    forall k | k in t && k.user == user
      ensures Settled(t[k]) && forall i: nat :: i < k.idx ==> Key(user, k.bucket, i) in t
    {
      var rows := buckets[k.bucket];
      assert HoldsBucket(t, user, k.bucket, Inputs(rows));
      assert k == Key(user, k.bucket, k.idx);
      FullIndices(rows, t, user, k.bucket);
      SettledRoundTrip(t[k]);
    }
  }

  /** A bucket that a restore writes back as it was read is kept. */
  lemma {:induction false} RestoredBucket(t: Table, after: Table, user: string, other: string,
                                          buckets: map<string, seq<Row>>, given: map<string, seq<Input>>)
    requires Reads(buckets, t, user) && Contiguous(t, user) && SettledRows(t, user)
    requires HoldsExactly(after, user, given)
    requires other in given <==> other in buckets
    requires other in buckets ==> given[other] == Inputs(buckets[other])
    ensures forall i: nat :: (Key(user, other, i) in after <==> Key(user, other, i) in t)
                             && (Key(user, other, i) in t ==> after[Key(user, other, i)] == t[Key(user, other, i)])
  {
    if other in buckets {
      var rows := buckets[other];
      assert HoldsBucket(after, user, other, Inputs(rows));
      ContiguousIndices(rows, t, user, other, |rows|);
      forall i: nat
        ensures (Key(user, other, i) in t <==> i < |rows|)
                && (i < |rows| ==> after[Key(user, other, i)] == t[Key(user, other, i)])
      {
        if i < |rows| {
          assert rows[i] in rows;
          SettledRoundTrip(rows[i].content);
        }
        if Key(user, other, i) in t {
          assert Row(i, t[Key(user, other, i)]) in rows;
        }
      }
    }
  }

  /** What a completed restore reads back as: the given lists, and no empty bucket. */
  lemma {:induction false} RestoreReadsBack(after: Table, user: string, given: map<string, seq<Input>>,
                                            buckets: map<string, seq<Row>>)
    requires HoldsExactly(after, user, given) && Reads(buckets, after, user)
    ensures forall b :: b in buckets <==> b in given && given[b] != []
    ensures forall b :: b in buckets ==> buckets[b] == Numbered(StoredAll(given[b]))
  {
    forall b | b in buckets ensures b in given && given[b] != [] && buckets[b] == Numbered(StoredAll(given[b])) {
      assert buckets[b][0] in buckets[b];
      assert Key(user, b, buckets[b][0].idx) in after;
      assert HoldsBucket(after, user, b, given[b]);
      forall r ensures r in Numbered(StoredAll(given[b])) <==> r in buckets[b] {
        NumberedRows(StoredAll(given[b]), r);
      }
      ListingUnique(buckets[b], Numbered(StoredAll(given[b])));
    }
    forall b | b in given && given[b] != [] ensures b in buckets {
      assert HoldsBucket(after, user, b, given[b]);
      assert Key(user, b, 0) in after;
    }
  }

  /** What the wildcard user reads is that user's own rows exactly when nobody else has any. */
  lemma {:induction false} WildcardReadsOwnIff(t: Table, buckets: map<string, seq<Row>>)
    requires ReadsSeen(buckets, t, "all")
    ensures Reads(buckets, t, "all") <==> forall k :: k in t ==> k.user == "all"
  {
    if Reads(buckets, t, ALL) {
      forall k | k in t ensures k.user == ALL {
        NoStranger(buckets[k.bucket], t, k);
      }
    }
    if forall k :: k in t ==> k.user == ALL {
      forall b | b in buckets ensures Lists(buckets[b], t, ALL, b) {
        var keys :| Shows(buckets[b], keys, t, t.Keys, ALL, b);
        SeenAreOwn(buckets[b], keys, t, ALL, b);
      }
    }
  }

  /** Another user's row would show up beside its twin, under the same index. */
  lemma {:induction false} NoStranger(rows: seq<Row>, t: Table, k: Key)
    requires ListsSeen(rows, t, ALL, k.bucket) && Lists(rows, t, ALL, k.bucket) && k in t
    ensures k.user == ALL
  {
    var keys :| Shows(rows, keys, t, t.Keys, ALL, k.bucket);
    var twin := Key(ALL, k.bucket, k.idx);
    SeenIffShown(rows, keys, t, t.Keys, ALL, k.bucket, k);
    SeenIffShown(rows, keys, t, t.Keys, ALL, k.bucket, twin);
    var i :| 0 <= i < |keys| && keys[i] == k;
    var j :| 0 <= j < |keys| && keys[j] == twin;
    assert rows[i].idx == rows[j].idx;
  }

  // ------------------------------------------------------------------ keys as texts

  /** The memory storage, which knows rows by their text alone, holds the rows of the table. */
  ghost predicate Mirrors(memory: map<string, (Key, Content)>, t: Table) {
    && (forall k :: k in t ==> Encode(k) in memory && memory[Encode(k)] == (k, t[k]))
    && (forall x :: x in memory ==> memory[x].0 in t && Encode(memory[x].0) == x)
  }

  /** What the table makes of a removal by text. */
  function RemovedText(t: Table, text: string): Table {
    if Decode(text).Some? then t - {Decode(text).value} else t
  }

  /** Removing a row leaves both kinds of storage alike exactly when its names keep clear of the separator: the
      table cannot decode any other text, the memory storage takes the row out all the same. */
  lemma {:induction false} RemovalsAgreeIff(memory: map<string, (Key, Content)>, t: Table, k: Key)
    requires Mirrors(memory, t) && k in t
    ensures Mirrors(memory - {Encode(k)}, RemovedText(t, Encode(k))) <==> Clean(k.user) && Clean(k.bucket)
  {
    DecodeEncodes(k);
  }

  /** Writing a row does exactly when no other row has the same text. */
  lemma {:induction false} PutsAgreeIff(memory: map<string, (Key, Content)>, t: Table, k: Key, c: Content)
    requires Mirrors(memory, t)
    ensures Mirrors(memory[Encode(k) := (k, c)], t[k := c]) <==> forall q :: q in t && Encode(q) == Encode(k) ==> q == k
  {
  }

  /** Among clean names no two rows have the same text. */
  lemma {:induction false} CleanTextsDiffer(k: Key, q: Key)
    requires Clean(k.user) && Clean(k.bucket) && Clean(q.user) && Clean(q.bucket) && Encode(k) == Encode(q)
    ensures k == q
  {
    DecodeEncodes(k);
    DecodeEncodes(q);
  }

  // --------------------------------------------------------------- gap-free tables

  /** Replacing, reordering and deleting a bucket keep every user's indices without gaps. */
  lemma {:induction false} ReplacedContiguous(t: Table, user: string, bucket: string, cs: seq<Content>, other: string)
    requires Contiguous(t, other)
    ensures Contiguous(Replaced(t, user, bucket, cs), other)
  {
    var after := Replaced(t, user, bucket, cs);
    forall k, i: nat | k in after && k.user == other && i < k.idx ensures Key(other, k.bucket, i) in after {
      if !InBucket(k, user, bucket) {
        assert Key(other, k.bucket, i) in t;
      }
    }
  }

  /** So does a restore, whatever the table held before. */
  lemma {:induction false} RestoredContiguous(after: Table, user: string, given: map<string, seq<Input>>)
    requires HoldsExactly(after, user, given)
    ensures Contiguous(after, user)
  {
    forall k, i: nat | k in after && k.user == user && i < k.idx ensures Key(user, k.bucket, i) in after {
      assert HoldsBucket(after, user, k.bucket, given[k.bucket]);
      assert k == Key(user, k.bucket, k.idx);
    }
  }

  predicate NotEmpty(text: Option<string>) {
    text.Some? && text.value != ""
  }

  /** Of two spellings the first one counts unless it is missing or empty; everything else is stored as it is. */
  lemma {:induction false} StoredSpelling(p: Input)
    ensures var c := Stored(p);
            && c.name == p.name && c.figures == p.figures
            && (NotEmpty(p.shortName) ==> c.shortName == p.shortName)
            && (!NotEmpty(p.shortName) ==> c.shortName == p.group)
            && (NotEmpty(p.upperIsin) ==> c.isin == p.upperIsin) && (!NotEmpty(p.upperIsin) ==> c.isin == p.lowerIsin)
  {
  }

  /** Reordering stores a row as it was read, but for an ISIN that is the empty text. */
  lemma RewrittenKeeps(c: Content)
    ensures c.isin != Some("") ==> Rewritten(c) == c
    ensures c.isin == Some("") ==> Rewritten(c) == c.(isin := None)
  {
  }

  /** Only a text left empty under both of its spellings is stored as the empty text. */
  lemma StoredSettledIff(p: Input)
    ensures Settled(Stored(p)) <==>
            !((p.shortName == None || p.shortName == Some("")) && p.group == Some(""))
            && !((p.upperIsin == None || p.upperIsin == Some("")) && p.lowerIsin == Some(""))
  {
  }
}
