/** Edits of the constituents page: snapshot, change a list, restore (visual/web/backend/constituents.py). */
module Constituents {
  import opened Wrappers
  import opened PositionKeys
  import opened PositionStore
  import opened PositionLaws

  function Reordered(ps: seq<Input>, order: seq<int>): (r: seq<Input>)
    requires forall i :: 0 <= i < |order| ==> 0 <= order[i] < |ps|
    ensures |r| == |order| && forall i :: 0 <= i < |order| ==> r[i] == ps[order[i]]
  {
    seq(|order|, i requires 0 <= i < |order| => ps[order[i]])
  }

  lemma {:induction false} SnapshotNames(buckets: map<string, seq<Row>>, t: Table, reader: string)
    requires ReadsSeen(buckets, t, reader) && CleanTable(t) && NamesGiven(t)
    ensures forall b :: b in buckets ==> Clean(b) && !Blank(b) && !Blank(reader)
  {
    forall b | b in buckets ensures Clean(b) && !Blank(b) && !Blank(reader) {
      var keys :| Shows(buckets[b], keys, t, t.Keys, reader, b);
      NamesSeen(buckets[b], t, reader, b);
      SeenIffShown(buckets[b], keys, t, t.Keys, reader, b, keys[0]);
    }
  }

  /** What the page starts from: the lists that the user reads. */
  ghost predicate Snapshot(buckets: map<string, seq<Row>>, t: Table, user: string) {
    ReadsSeen(buckets, t, user) && (user != ALL ==> Reads(buckets, t, user))
  }

  method ReadSnapshot(repo: PositionRepository, user: string) returns (buckets: map<string, seq<Row>>)
    requires CleanTable(repo.positions.rows) && NamesGiven(repo.positions.rows)
    ensures Snapshot(buckets, repo.positions.rows, user)
    ensures forall b :: b in buckets ==> Clean(b) && !Blank(b) && !Blank(user)
  {
    buckets := repo.GetForUser(user);
    SnapshotNames(buckets, repo.positions.rows, user);
  }

  /** `reorder_constituents`: refused orders leave the store untouched. */
  method ReorderConstituents(repo: PositionRepository, user: string, bucket: string, order: seq<int>)
    returns (ok: bool, ghost buckets: map<string, seq<Row>>)
    requires Clean(user)
    requires CleanTable(repo.positions.rows) && NamesGiven(repo.positions.rows)
    modifies repo.positions
    ensures Snapshot(buckets, old(repo.positions.rows), user)
    ensures ok == (order != [] && bucket in buckets && Permutes(order, |buckets[bucket]|))
    ensures !ok ==> repo.positions.rows == old(repo.positions.rows)
    ensures ok ==> forall i :: 0 <= i < |order| ==> 0 <= order[i] < |buckets[bucket]|
    ensures ok ==> HoldsExactly(repo.positions.rows, user,
                                Given(buckets)[bucket := Reordered(Inputs(buckets[bucket]), order)])
    ensures OthersKept(repo.positions.rows, old(repo.positions.rows), user)
  {
    var assets := ReadSnapshot(repo, user);
    buckets := assets;
    ok := order != [] && bucket in assets && Permutes(order, |assets[bucket]|);
    if ok {
      PermutationRange(order, |assets[bucket]|);
      ok := repo.Restore(user, Given(assets)[bucket := Reordered(Inputs(assets[bucket]), order)]);
    }
  }

  /** `delete_constituent`: an index out of range leaves the store untouched. */
  method DeleteConstituent(repo: PositionRepository, user: string, bucket: string, index: int)
    returns (ok: bool, left: nat, ghost buckets: map<string, seq<Row>>)
    requires Clean(user)
    requires CleanTable(repo.positions.rows) && NamesGiven(repo.positions.rows)
    modifies repo.positions
    ensures Snapshot(buckets, old(repo.positions.rows), user)
    ensures ok == (bucket in buckets && 0 <= index < |buckets[bucket]|)
    ensures !ok ==> repo.positions.rows == old(repo.positions.rows)
    ensures ok ==> var rows := Inputs(buckets[bucket]);
                   && left == |rows| - 1
                   && HoldsExactly(repo.positions.rows, user,
                                   Given(buckets)[bucket := rows[..index] + rows[index + 1..]])
    ensures OthersKept(repo.positions.rows, old(repo.positions.rows), user)
  {
    var assets := ReadSnapshot(repo, user);
    buckets := assets;
    left := 0;
    ok := bucket in assets && 0 <= index < |assets[bucket]|;
    if ok {
      var rows := Inputs(assets[bucket]);
      rows := rows[..index] + rows[index + 1..];
      left := |rows|;
      ok := repo.Restore(user, Given(assets)[bucket := rows]);
    }
  }

  ghost predicate SameAt(a: Table, b: Table, k: Key) {
    (k in a <==> k in b) && (k in a ==> a[k] == b[k])
  }

  lemma {:induction false} ReorderedBucket(t: Table, after: Table, user: string, bucket: string, rows: seq<Row>,
                                           order: seq<int>, i: nat)
    requires Lists(rows, t, user, bucket) && SettledRows(t, user)
    requires |order| == |rows| && forall j :: 0 <= j < |order| ==> 0 <= order[j] < |rows|
    requires HoldsBucket(after, user, bucket, Reordered(Inputs(rows), order))
    ensures SameAt(after, Replaced(t, user, bucket, Permuted(rows, order)), Key(user, bucket, i))
  {
    if i < |order| {
      var row := rows[order[i]];
      assert row in rows && Settled(row.content);
      assert after[Key(user, bucket, i)] == Stored(AsInput(row.content)) == Rewritten(row.content);
    }
  }

  lemma {:induction false} OtherBucket(t: Table, after: Table, user: string, k: Key,
                                       buckets: map<string, seq<Row>>, given: map<string, seq<Input>>)
    requires Reads(buckets, t, user) && Contiguous(t, user) && SettledRows(t, user)
    requires OthersKept(after, t, user) && HoldsExactly(after, user, given)
    requires k.bucket in given <==> k.bucket in buckets
    requires k.bucket in buckets ==> given[k.bucket] == Inputs(buckets[k.bucket])
    ensures SameAt(after, t, k)
  {
    if k.user == user {
      RestoredBucket(t, after, user, k.bucket, buckets, given);
      assert k == Key(user, k.bucket, k.idx);
    }
  }

  lemma {:induction false} ReplacedElsewhere(t: Table, user: string, bucket: string, cs: seq<Content>, k: Key)
    requires !InBucket(k, user, bucket)
    ensures SameAt(Replaced(t, user, bucket, cs), t, k)
  {
  }

  /** The page's reorder, which rewrites the whole user, leaves the same table as the repository's
      own, which rewrites one bucket, when the table has no gaps and no empty texts. */
  lemma {:induction false} ReordersAgree(t: Table, after: Table, user: string, bucket: string,
                                         buckets: map<string, seq<Row>>, order: seq<int>)
    requires Reads(buckets, t, user) && Contiguous(t, user) && SettledRows(t, user)
    requires bucket in buckets && Permutes(order, |buckets[bucket]|)
    requires |order| == |buckets[bucket]| && forall i :: 0 <= i < |order| ==> 0 <= order[i] < |buckets[bucket]|
    requires OthersKept(after, t, user)
    requires HoldsExactly(after, user, Given(buckets)[bucket := Reordered(Inputs(buckets[bucket]), order)])
    ensures after == Replaced(t, user, bucket, Permuted(buckets[bucket], order))
  {
    var rows := buckets[bucket];
    var given, expected := Given(buckets)[bucket := Reordered(Inputs(rows), order)],
                           Replaced(t, user, bucket, Permuted(rows, order));
    assert HoldsBucket(after, user, bucket, given[bucket]);
    forall k: Key ensures SameAt(after, expected, k) {
      if InBucket(k, user, bucket) {
        ReorderedBucket(t, after, user, bucket, rows, order, k.idx);
        assert k == Key(user, bucket, k.idx);
      } else {
        ReplacedElsewhere(t, user, bucket, Permuted(rows, order), k);
        if k.user == user {
          OtherBucket(t, after, user, k, buckets, given);
        }
      }
    }
    SameEverywhere(after, expected);
  }

  lemma {:induction false} SameEverywhere(a: Table, b: Table)
    requires forall k: Key :: SameAt(a, b, k)
    ensures a == b
  {
    forall k: Key ensures (k in a <==> k in b) && (k in a ==> a[k] == b[k]) {
      assert SameAt(a, b, k);
    }
  }
}
