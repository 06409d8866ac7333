/** The flat position table and the repositories above it (storage/repositories.py). */
module PositionStore {
  import opened Wrappers
  import opened PositionKeys

  /** The columns that are stored and handed back as they are. */
  datatype Figures = Figures(value: Option<real>, shares: Option<real>, broker: Option<string>,
                             dmem: Option<real>, dmemOther: Option<real>, usavn: Option<real>)

  datatype Content = Content(name: string, shortName: Option<string>, isin: Option<string>, figures: Figures)

  /** A position as an application dictionary, with its spellings of two fields. */
  datatype Input = Input(name: string, shortName: Option<string>, group: Option<string>,
                         upperIsin: Option<string>, lowerIsin: Option<string>, figures: Figures)

  /** A row as a reader sees it inside its bucket. */
  datatype Row = Row(idx: nat, content: Content)

  type Table = map<Key, Content>

  /** The user name that reads every user's rows. */
  const ALL := "all"

  // ------------------------------------------------------------------ spelling variants

  /** What a batch write stores for a dictionary. */
  function Stored(p: Input): Content {
    Content(p.name, Or(p.shortName, p.group), Or(p.upperIsin, p.lowerIsin), p.figures)
  }

  /** What reordering stores for a row. */
  function Rewritten(c: Content): Content {
    c.(isin := Or(c.isin, None))
  }

  /** The dictionary a reader gets for a row. */
  function AsInput(c: Content): Input {
    Input(c.name, c.shortName, None, c.isin, None, c.figures)
  }

  function StoredAll(ps: seq<Input>): (cs: seq<Content>)
    ensures |cs| == |ps|
    ensures forall i :: 0 <= i < |ps| ==> cs[i] == Stored(ps[i])
  {
    seq(|ps|, i requires 0 <= i < |ps| => Stored(ps[i]))
  }

  // ---------------------------------------------------------------------- specification

  predicate InBucket(k: Key, user: string, bucket: string) {
    k.user == user && k.bucket == bucket
  }

  function Filled(user: string, bucket: string, cs: seq<Content>): Table {
    map i: nat | i < |cs| :: Key(user, bucket, i) := cs[i]
  }

  function Without(t: Table, user: string, bucket: string): Table {
    map k | k in t && !InBucket(k, user, bucket) :: t[k]
  }

  /** The table with one bucket replaced by a list. */
  function Replaced(t: Table, user: string, bucket: string, cs: seq<Content>): Table {
    Without(t, user, bucket) + Filled(user, bucket, cs)
  }

  predicate Sees(reader: string, user: string) {
    reader == ALL || reader == user
  }

  /** Every name in the table keeps clear of the separator. */
  ghost predicate CleanTable(t: Table) {
    forall k :: k in t ==> Clean(k.user) && Clean(k.bucket)
  }

  predicate ByIndex(rows: seq<Row>) {
    forall i, j :: 0 <= i < j < |rows| ==> rows[i].idx <= rows[j].idx
  }

  predicate Strictly(rows: seq<Row>) {
    forall i, j :: 0 <= i < j < |rows| ==> rows[i].idx < rows[j].idx
  }

  /** The rows of one user's bucket, by index. */
  ghost predicate Lists(rows: seq<Row>, t: Table, user: string, bucket: string) {
    && Strictly(rows)
    && (forall r :: r in rows <==> Key(user, bucket, r.idx) in t && t[Key(user, bucket, r.idx)] == r.content)
  }

  /** The keys of one bucket that a reader sees. */
  function Seen(keys: set<Key>, reader: string, bucket: string): set<Key> {
    set k | k in keys && Sees(reader, k.user) && k.bucket == bucket
  }

  ghost predicate Images(rows: seq<Row>, keys: seq<Key>, t: Table) {
    |rows| == |keys| && forall i :: 0 <= i < |keys| ==> keys[i] in t && rows[i] == Row(keys[i].idx, t[keys[i]])
  }

  /** One row for each of the keys in the bucket that the reader sees. */
  ghost predicate Shows(rows: seq<Row>, keys: seq<Key>, t: Table, done: set<Key>, reader: string, bucket: string) {
    Images(rows, keys, t) && multiset(keys) == multiset(Seen(done, reader, bucket))
  }

  /** The rows of the bucket that the reader sees, each one once, by index. */
  ghost predicate ListsSeen(rows: seq<Row>, t: Table, reader: string, bucket: string) {
    ByIndex(rows) && exists keys :: Shows(rows, keys, t, t.Keys, reader, bucket)
  }

  /** What a user reads: a list for each bucket that has rows. */
  ghost predicate Reads(buckets: map<string, seq<Row>>, t: Table, user: string) {
    && (forall b :: b in buckets ==> buckets[b] != [] && Lists(buckets[b], t, user, b))
    && (forall k :: k in t && k.user == user ==> k.bucket in buckets)
  }

  /** Everything the reader may see is in what they read. */
  ghost predicate Complete(buckets: map<string, seq<Row>>, t: Table, reader: string) {
    forall k :: k in t && Sees(reader, k.user) ==> k.bucket in buckets && Row(k.idx, t[k]) in buckets[k.bucket]
  }

  /** What any reader gets, the wildcard user too: a list for each bucket in which they see a row. */
  ghost predicate ReadsSeen(buckets: map<string, seq<Row>>, t: Table, reader: string) {
    && Complete(buckets, t, reader)
    && (forall b :: b in buckets ==> buckets[b] != [] && ListsSeen(buckets[b], t, reader, b))
  }

  function Contents(rows: seq<Row>): (cs: seq<Content>)
    ensures |cs| == |rows|
    ensures forall i :: 0 <= i < |rows| ==> cs[i] == rows[i].content
  {
    seq(|rows|, i requires 0 <= i < |rows| => rows[i].content)
  }

  predicate Permutes(order: seq<int>, n: nat) {
    multiset(order) == multiset(seq(n, i => i))
  }

  /** The contents in the stated order, as reordering writes them. */
  function Permuted(rows: seq<Row>, order: seq<int>): (cs: seq<Content>)
    requires forall i :: 0 <= i < |order| ==> 0 <= order[i] < |rows|
    ensures |cs| == |order|
    ensures forall i :: 0 <= i < |order| ==> cs[i] == Rewritten(rows[order[i]].content)
  {
    seq(|order|, i requires 0 <= i < |order| => Rewritten(rows[order[i]].content))
  }

  // --------------------------------------------------------------------------- sorting

  function PlaceRow(r: Row, s: seq<Row>): seq<Row> {
    if s == [] || r.idx <= s[0].idx then [r] + s else [s[0]] + PlaceRow(r, s[1..])
  }

  /** `sort(key=position_index)` */
  function Sorted(s: seq<Row>): seq<Row> {
    if s == [] then [] else PlaceRow(s[0], Sorted(s[1..]))
  }

  lemma {:induction false} PlaceRowSorts(r: Row, s: seq<Row>)
    requires ByIndex(s)
    ensures ByIndex(PlaceRow(r, s)) && |PlaceRow(r, s)| == |s| + 1
    ensures forall x :: x in PlaceRow(r, s) <==> x == r || x in s
  {
    if s != [] && r.idx > s[0].idx {
      PlaceRowSorts(r, s[1..]);
      var rest := PlaceRow(r, s[1..]);
      forall j | 0 <= j < |rest| ensures s[0].idx <= rest[j].idx {
        assert rest[j] in rest;
      }
    }
  }

  lemma {:induction false} SortedSorts(s: seq<Row>)
    ensures ByIndex(Sorted(s)) && |Sorted(s)| == |s|
    ensures forall x :: x in Sorted(s) <==> x in s
  {
    if s != [] {
      SortedSorts(s[1..]);
      PlaceRowSorts(s[0], Sorted(s[1..]));
    }
  }

  lemma MultisetHead(keys: seq<Key>)
    requires keys != []
    ensures multiset(keys) == multiset{keys[0]} + multiset(keys[1..])
  {
    assert keys == [keys[0]] + keys[1..];
  }

  lemma {:induction false} ImagesCons(k: Key, s: seq<Row>, keys: seq<Key>, t: Table)
    requires k in t && Images(s, keys, t)
    ensures Images([Row(k.idx, t[k])] + s, [k] + keys, t)
    ensures multiset([k] + keys) == multiset(keys) + multiset{k}
  {
    assert ([k] + keys)[1..] == keys;
    MultisetHead([k] + keys);
  }

  lemma {:induction false} PlaceImage(k: Key, s: seq<Row>, keys: seq<Key>, t: Table) returns (placed: seq<Key>)
    requires k in t && Images(s, keys, t)
    ensures Images(PlaceRow(Row(k.idx, t[k]), s), placed, t) && multiset(placed) == multiset(keys) + multiset{k}
  {
    if s == [] || k.idx <= s[0].idx {
      placed := [k] + keys;
      ImagesCons(k, s, keys, t);
    } else {
      var rest := PlaceImage(k, s[1..], keys[1..], t);
      placed := [keys[0]] + rest;
      ImagesCons(keys[0], PlaceRow(Row(k.idx, t[k]), s[1..]), rest, t);
      MultisetHead(keys);
    }
  }

  /** Sorting keeps the rows, each as often as it was there. */
  lemma {:induction false} SortImages(s: seq<Row>, keys: seq<Key>, t: Table) returns (sorted: seq<Key>)
    requires Images(s, keys, t)
    ensures Images(Sorted(s), sorted, t) && multiset(sorted) == multiset(keys)
  {
    if s == [] {
      sorted := [];
    } else {
      var rest := SortImages(s[1..], keys[1..], t);
      sorted := PlaceImage(keys[0], Sorted(s[1..]), rest, t);
      MultisetHead(keys);
    }
  }

  lemma {:induction false} NoRepeats(keys: seq<Key>, all: set<Key>, i: nat, j: nat)
    requires multiset(keys) == multiset(all) && i < j < |keys|
    ensures keys[i] != keys[j]
  {
    assert keys == keys[..j] + keys[j..];
    assert keys[i] == keys[..j][i] && keys[j] == keys[j..][0];
    assert multiset(keys)[keys[j]] <= 1;
  }

  /** There is only one such listing. */
  lemma {:induction false} ListingUnique(a: seq<Row>, b: seq<Row>)
    requires Strictly(a) && Strictly(b) && forall r :: r in a <==> r in b
    ensures a == b
  {
    assert (a == [] || a[0] in b) && (b == [] || b[0] in a);
    if a != [] {
      forall r ensures r in a[1..] <==> r in b[1..] {
        assert r in a <==> r == a[0] || r in a[1..];
        assert r in b <==> r == b[0] || r in b[1..];
      }
      ListingUnique(a[1..], b[1..]);
      assert a == [a[0]] + a[1..] && b == [b[0]] + b[1..];
    }
  }

  // ----------------------------------------------------------------------------- the table

  /** One table addressed by string keys that decode into the composite primary key. */
  class PositionTable {
    var rows: Table

    constructor ()
      ensures rows == map[]
    {
      rows := map[];
    }

    method Put(k: Key, c: Content)
      modifies this
      ensures rows == old(rows)[k := c]
    {
      rows := rows[k := c];
    }

    /** A key that does not decode raises and removes nothing. */
    method Remove(text: string) returns (ok: bool)
      modifies this
      ensures ok == Decode(text).Some?
      ensures rows == if ok then old(rows) - {Decode(text).value} else old(rows)
    {
      var key := Decode(text);
      ok := key.Some?;
      if ok {
        rows := rows - {key.value};
      }
    }
  }

  // ---------------------------------------------------------------------- the repository

  class PositionRepository {
    const positions: PositionTable

    constructor (backend: PositionTable)
      ensures positions == backend
    {
      positions := backend;
    }

    /** The grouping loop of `get_for_user`; the table's row order is up to the backend. */
    method Group(username: string) returns (buckets: map<string, seq<Row>>, ghost from: map<string, seq<Key>>)
      ensures Collected(buckets, from, positions.rows, positions.rows.Keys, username)
    {
      buckets, from := map[], map[];
      var todo := positions.rows.Keys;
      ghost var done: set<Key> := {};
      while todo != {}
        invariant done !! todo && done + todo == positions.rows.Keys
        invariant Collected(buckets, from, positions.rows, done, username)
        decreases |todo|
      {
        var k :| k in todo;
        if username == ALL || k.user == username {
          CollectOne(buckets, from, positions.rows, done, username, k);
          var before := if k.bucket in buckets then buckets[k.bucket] else [];
          buckets := buckets[k.bucket := before + [Row(k.idx, positions.rows[k])]];
          from := from[k.bucket := (if k.bucket in from then from[k.bucket] else []) + [k]];
        } else {
          SkipOne(buckets, from, positions.rows, done, username, k);
        }
        todo, done := todo - {k}, done + {k};
      }
      assert done == positions.rows.Keys;
    }

    /** `get_for_user` */
    method GetForUser(username: string) returns (buckets: map<string, seq<Row>>)
      ensures ReadsSeen(buckets, positions.rows, username)
      ensures username != ALL ==> Reads(buckets, positions.rows, username)
      ensures FromRows(buckets, positions.rows.Keys)
    {
      var raw, from := Group(username);
      SortedBucketsRead(raw, from, positions.rows, username);
      return map b | b in raw :: Sorted(raw[b]);
    }

    /** `get_for_bucket` */
    method GetForBucket(username: string, bucket: string) returns (rows: seq<Row>)
      ensures ListsSeen(rows, positions.rows, username, bucket)
      ensures username != ALL ==> Lists(rows, positions.rows, username, bucket)
      ensures forall k :: k in positions.rows && Sees(username, k.user) && k.bucket == bucket ==>
                Row(k.idx, positions.rows[k]) in rows
    {
      var buckets := GetForUser(username);
      if bucket !in buckets {
        NothingSeen(positions.rows, username, bucket);
        return [];
      }
      return buckets[bucket];
    }

    /** `delete_bucket`: one removal for each row that the user reads there. */
    method DeleteBucket(username: string, bucket: string) returns (count: nat, ghost rows: seq<Row>)
      requires Clean(username) && Clean(bucket)
      modifies positions
      ensures count == |rows| && ListsSeen(rows, old(positions.rows), username, bucket)
      ensures username != ALL ==> Lists(rows, old(positions.rows), username, bucket)
      ensures positions.rows == Without(old(positions.rows), username, bucket)
    {
      var listed := GetForBucket(username, bucket);
      for i := 0 to |listed|
        invariant positions.rows == Removed(old(positions.rows), username, bucket, listed[..i])
      {
        DecodeEncodes(Key(username, bucket, listed[i].idx));
        var ok := positions.Remove(Encode(Key(username, bucket, listed[i].idx)));
        RemovedNext(old(positions.rows), username, bucket, listed, i);
      }
      assert listed[..|listed|] == listed;
      RemovedAll(positions.rows, old(positions.rows), username, bucket, listed);
      count, rows := |listed|, listed;
    }

    /** Building a record validates the names before anything is written. */
    method PutRecord(username: string, bucket: string, idx: nat, c: Content) returns (ok: bool)
      modifies positions
      ensures ok == (!Blank(username) && !Blank(bucket))
      ensures positions.rows == if ok then old(positions.rows)[Key(username, bucket, idx) := c] else old(positions.rows)
    {
      ok := !Blank(username) && !Blank(bucket);
      if ok {
        positions.Put(Key(username, bucket, idx), c);
      }
    }

    /** Writing a list into an emptied bucket, stopping where a record is refused. */
    method PutAll(username: string, bucket: string, cs: seq<Content>) returns (ok: bool)
      requires Without(positions.rows, username, bucket) == positions.rows
      modifies positions
      ensures ok == (cs == [] || (!Blank(username) && !Blank(bucket)))
      ensures positions.rows == if ok then Replaced(old(positions.rows), username, bucket, cs) else old(positions.rows)
    {
      for i := 0 to |cs|
        invariant i > 0 ==> !Blank(username) && !Blank(bucket)
        invariant positions.rows == Replaced(old(positions.rows), username, bucket, cs[..i])
      {
        ok := PutRecord(username, bucket, i, cs[i]);
        if !ok {
          ReplacedByNothing(old(positions.rows), username, bucket);
          return;
        }
        ReplacedNext(old(positions.rows), username, bucket, cs, i);
      }
      assert cs[..|cs|] == cs;
      ok := true;
    }

    /** `batch_upsert_positions`: the bucket is emptied even if a record is then refused. */
    method BatchUpsertPositions(username: string, bucket: string, inputs: seq<Input>) returns (ok: bool)
      requires Clean(username) && Clean(bucket)
      modifies positions
      ensures ok == Acceptable(username, bucket, inputs)
      ensures positions.rows == Replaced(old(positions.rows), username, bucket, if ok then StoredAll(inputs) else [])
    {
      var _, _ := DeleteBucket(username, bucket);
      ReplacedByNothing(old(positions.rows), username, bucket);
      ReplacedAfterDelete(old(positions.rows), username, bucket, StoredAll(inputs));
      ok := PutAll(username, bucket, StoredAll(inputs));
    }

    /** `reorder_positions`: an order that is no permutation of the listed rows is refused. The wildcard user
        gets a bucket of its own with everybody's rows. */
    method ReorderPositions(username: string, bucket: string, newOrder: seq<int>)
      returns (ok: bool, ghost rows: seq<Row>)
      requires Clean(username) && Clean(bucket) && NamesGiven(positions.rows)
      modifies positions
      ensures ListsSeen(rows, old(positions.rows), username, bucket)
      ensures username != ALL ==> Lists(rows, old(positions.rows), username, bucket)
      ensures ok == Permutes(newOrder, |rows|)
      ensures ok ==> forall i :: 0 <= i < |newOrder| ==> 0 <= newOrder[i] < |rows|
      ensures positions.rows == if ok then Replaced(old(positions.rows), username, bucket, Permuted(rows, newOrder))
                                else old(positions.rows)
    {
      var listed := GetForBucket(username, bucket);
      rows := listed;
      ok := Permutes(newOrder, |listed|);
      if !ok {
        return;
      }
      PermutationRange(newOrder, |listed|);
      if listed != [] {
        NamesSeen(listed, positions.rows, username, bucket);
      }
      var _, _ := DeleteBucket(username, bucket);
      ReplacedByNothing(old(positions.rows), username, bucket);
      ReplacedAfterDelete(old(positions.rows), username, bucket, Permuted(listed, newOrder));
      ok := PutAll(username, bucket, Permuted(listed, newOrder));
    }

    /** The buckets that a restore does not mention. */
    method DropBuckets(user: string, doomed: set<string>)
      requires Clean(user) && forall b :: b in doomed ==> Clean(b)
      modifies positions
      ensures OthersKept(positions.rows, old(positions.rows), user)
      ensures forall k :: k in positions.rows && k.user == user ==> k in old(positions.rows) && k.bucket !in doomed
    {
      var todo := doomed;
      while todo != {}
        invariant todo <= doomed
        invariant OthersKept(positions.rows, old(positions.rows), user)
        invariant forall k :: k in positions.rows && k.user == user ==>
                    k in old(positions.rows) && (k.bucket in doomed ==> k.bucket in todo)
        decreases |todo|
      {
        var b :| b in todo;
        var _, _ := DeleteBucket(user, b);
        todo := todo - {b};
      }
    }

    /** The buckets that a restore gives, one batch write each. */
    method WriteBuckets(user: string, given: map<string, seq<Input>>) returns (ok: bool)
      requires Clean(user) && forall b :: b in given ==> Clean(b)
      modifies positions
      ensures OthersKept(positions.rows, old(positions.rows), user)
      ensures ok <==> forall b :: b in given ==> Acceptable(user, b, given[b])
      ensures ok ==> forall b :: b in given ==> HoldsBucket(positions.rows, user, b, given[b])
      ensures forall k :: k in positions.rows && k.user == user ==> k in old(positions.rows) || k.bucket in given
    {
      var pending := given.Keys;
      while pending != {}
        invariant pending <= given.Keys
        invariant OthersKept(positions.rows, old(positions.rows), user)
        invariant forall k :: k in positions.rows && k.user == user ==> k in old(positions.rows) || k.bucket in given
        invariant forall b :: b in given.Keys - pending ==>
                    HoldsBucket(positions.rows, user, b, given[b]) && Acceptable(user, b, given[b])
        decreases |pending|
      {
        var b :| b in pending;
        ghost var before := positions.rows;
        ok := BatchUpsertPositions(user, b, given[b]);
        BatchEffect(before, user, b, if ok then StoredAll(given[b]) else []);
        if !ok {
          return;
        }
        forall c | c in given.Keys - pending ensures HoldsBucket(positions.rows, user, c, given[c]) {
          OtherBucketKept(before, user, b, StoredAll(given[b]), c, given[c]);
        }
        HoldsBatch(before, user, b, given[b]);
        pending := pending - {b};
      }
      ok := true;
    }

    /** `AssetRepository.restore`: buckets that are not given are dropped, the rest are replaced. */
    method Restore(user: string, given: map<string, seq<Input>>) returns (ok: bool)
      requires Clean(user) && forall b :: b in given ==> Clean(b)
      requires CleanTable(positions.rows)
      modifies positions
      ensures OthersKept(positions.rows, old(positions.rows), user)
      ensures ok <==> forall b :: b in given ==> Acceptable(user, b, given[b])
      ensures ok ==> HoldsExactly(positions.rows, user, given)
    {
      var existing := GetForUser(user);
      DropBuckets(user, existing.Keys - given.Keys);
      ok := WriteBuckets(user, given);
    }
  }

  /** No record of the list is refused for its names. */
  predicate Acceptable(user: string, bucket: string, inputs: seq<Input>) {
    inputs == [] || (!Blank(user) && !Blank(bucket))
  }

  /** No row carries a blank user or bucket. */
  ghost predicate NamesGiven(t: Table) {
    forall k :: k in t ==> !Blank(k.user) && !Blank(k.bucket)
  }

  /** Every other user's rows are there, and unchanged. */
  ghost predicate OthersKept(after: Table, before: Table, user: string) {
    forall k: Key :: k.user != user ==> (k in after <==> k in before) && (k in after ==> after[k] == before[k])
  }

  /** The bucket holds exactly these positions at the indices from 0 on. */
  ghost predicate HoldsBucket(t: Table, user: string, bucket: string, inputs: seq<Input>) {
    forall i: nat :: (Key(user, bucket, i) in t <==> i < |inputs|)
                     && (i < |inputs| ==> t[Key(user, bucket, i)] == Stored(inputs[i]))
  }

  /** The user's rows are exactly the given positions, bucket by bucket. */
  ghost predicate HoldsExactly(t: Table, user: string, given: map<string, seq<Input>>) {
    && (forall k :: k in t && k.user == user ==> k.bucket in given)
    && (forall b :: b in given ==> HoldsBucket(t, user, b, given[b]))
  }

  function Removed(t: Table, user: string, bucket: string, rows: seq<Row>): Table {
    map k | k in t && !(InBucket(k, user, bucket) && exists i :: 0 <= i < |rows| && rows[i].idx == k.idx) :: t[k]
  }

  lemma {:induction false} RemovedNext(t: Table, user: string, bucket: string, rows: seq<Row>, n: nat)
    requires n < |rows|
    ensures Removed(t, user, bucket, rows[..n]) - {Key(user, bucket, rows[n].idx)}
            == Removed(t, user, bucket, rows[..n + 1])
  {
    var a, b := rows[..n], rows[..n + 1];
    assert b == a + [rows[n]];
    forall k: Key
      ensures (exists i :: 0 <= i < |b| && b[i].idx == k.idx)
              <==> (exists i :: 0 <= i < |a| && a[i].idx == k.idx) || k.idx == rows[n].idx
    {
      if exists i :: 0 <= i < |a| && a[i].idx == k.idx {
        var i :| 0 <= i < |a| && a[i].idx == k.idx;
        assert b[i].idx == k.idx;
      }
      if k.idx == rows[n].idx {
        assert b[n].idx == k.idx;
      }
    }
  }

  lemma {:induction false} RemovedAll(after: Table, t: Table, user: string, bucket: string, rows: seq<Row>)
    requires after == Removed(t, user, bucket, rows)
    requires forall k :: k in t && InBucket(k, user, bucket) ==> Row(k.idx, t[k]) in rows
    ensures after == Without(t, user, bucket)
  {
    forall k | k in t && InBucket(k, user, bucket) ensures exists i :: 0 <= i < |rows| && rows[i].idx == k.idx {
      var i :| 0 <= i < |rows| && rows[i] == Row(k.idx, t[k]);
      assert rows[i].idx == k.idx;
    }
  }

  lemma {:induction false} ReplacedByNothing(t: Table, user: string, bucket: string)
    ensures Replaced(t, user, bucket, []) == Without(t, user, bucket)
    ensures Without(Without(t, user, bucket), user, bucket) == Without(t, user, bucket)
  {
    assert Filled(user, bucket, []) == map[];
  }

  lemma {:induction false} ReplacedAfterDelete(t: Table, user: string, bucket: string, cs: seq<Content>)
    ensures Replaced(Without(t, user, bucket), user, bucket, cs) == Replaced(t, user, bucket, cs)
  {
  }

  lemma {:induction false} ReplacedNext(t: Table, user: string, bucket: string, cs: seq<Content>, n: nat)
    requires n < |cs|
    ensures Replaced(t, user, bucket, cs[..n])[Key(user, bucket, n) := cs[n]] == Replaced(t, user, bucket, cs[..n + 1])
  {
  }

  lemma {:induction false} FirstNumbers(n: nat, x: int)
    ensures multiset(seq(n, i => i))[x] == if 0 <= x < n then 1 else 0
  {
    if n > 0 {
      FirstNumbers(n - 1, x);
      var s, rest := seq(n, i => i), seq(n - 1, i => i);
      assert s == rest + [n - 1];
    }
  }

  /** That many indices, all of them in range and no two alike. */
  predicate EachOnce(order: seq<int>, n: nat) {
    && |order| == n && (forall i :: 0 <= i < |order| ==> 0 <= order[i] < n)
    && forall i, j :: 0 <= i < j < |order| ==> order[i] != order[j]
  }

  /** An order permutes `n` rows exactly when it has each of their indices once. */
  lemma {:induction false} PermutesIff(order: seq<int>, n: nat)
    ensures Permutes(order, n) <==> EachOnce(order, n)
  {
    if Permutes(order, n) {
      PermutationRange(order, n);
      forall i, j | 0 <= i < j < |order| ensures order[i] != order[j] {
        FirstNumbers(n, order[j]);
        assert order == order[..j] + order[j..] && order[i] == order[..j][i] && order[j] == order[j..][0];
      }
    }
    if EachOnce(order, n) {
      EachOncePermutes(order, n);
    }
  }

  lemma {:induction false} EachOncePermutes(order: seq<int>, n: nat)
    requires EachOnce(order, n)
    ensures Permutes(order, n)
  {
    forall x: int ensures multiset(order)[x] == multiset(seq(n, i => i))[x] {
      FirstNumbers(n, x);
      OnceIff(order, x);
      if 0 <= x < n {
        NoneLeftOut(order, n, x);
      }
    }
  }

  lemma {:induction false} OnceIff(order: seq<int>, x: int)
    requires forall i, j :: 0 <= i < j < |order| ==> order[i] != order[j]
    ensures multiset(order)[x] == if x in order then 1 else 0
  {
    if order != [] {
      OnceIff(order[1..], x);
      assert order == [order[0]] + order[1..];
      assert order[0] !in order[1..];
    }
  }

  function Below(n: nat): set<int> {
    if n == 0 then {} else Below(n - 1) + {n - 1}
  }

  lemma {:induction false} BelowHas(n: nat, x: int)
    ensures x in Below(n) <==> 0 <= x < n
  {
    if n > 0 {
      BelowHas(n - 1, x);
    }
  }

  lemma {:induction false} BelowSize(n: nat)
    ensures |Below(n)| == n
  {
    if n > 0 {
      BelowSize(n - 1);
      BelowHas(n - 1, n - 1);
    }
  }

  function Numbers(order: seq<int>): set<int> {
    set i | 0 <= i < |order| :: order[i]
  }

  lemma {:induction false} NumbersSize(order: seq<int>)
    requires forall i, j :: 0 <= i < j < |order| ==> order[i] != order[j]
    ensures |Numbers(order)| == |order|
  {
    if order != [] {
      NumbersSize(order[1..]);
      assert forall i :: 0 < i < |order| ==> order[i] == order[1..][i - 1];
      assert Numbers(order) == Numbers(order[1..]) + {order[0]};
      assert order[0] !in Numbers(order[1..]);
    } else {
      assert Numbers(order) == {};
    }
  }

  lemma {:induction false} SubsetSize(a: set<int>, b: set<int>)
    requires a <= b
    ensures |a| <= |b|
  {
    assert b == a + (b - a) && a !! (b - a);
    assert |a + (b - a)| == |a| + |b - a|;
  }

  /** That many different numbers below `n` leave none out. */
  lemma {:induction false} NoneLeftOut(order: seq<int>, n: nat, x: int)
    requires EachOnce(order, n) && 0 <= x < n
    ensures x in order
  {
    NumbersSize(order);
    BelowSize(n);
    BelowHas(n, x);
    forall y | y in Numbers(order) ensures y in Below(n) {
      BelowHas(n, y);
    }
    if x !in Numbers(order) {
      SubsetSize(Numbers(order), Below(n) - {x});
    }
  }

  lemma {:induction false} PermutationRange(order: seq<int>, n: nat)
    requires Permutes(order, n)
    ensures |order| == n
    ensures forall i :: 0 <= i < |order| ==> 0 <= order[i] < n
  {
    var ident := seq(n, i => i);
    assert |multiset(order)| == |order| && |multiset(ident)| == n;
    forall i | 0 <= i < |order| ensures 0 <= order[i] < n {
      assert order[i] in multiset(ident);
    }
  }

  /** Every bucket in the answer comes from some row. */
  ghost predicate FromRows(buckets: map<string, seq<Row>>, keys: set<Key>) {
    forall b :: b in buckets ==> exists k :: k in keys && k.bucket == b
  }

  /** The rows collected so far: those of the keys already visited. */
  ghost predicate Collected(buckets: map<string, seq<Row>>, from: map<string, seq<Key>>, t: Table, done: set<Key>,
                            reader: string)
  {
    && from.Keys == buckets.Keys
    && (forall k :: k in done && Sees(reader, k.user) ==> k.bucket in buckets)
    && (forall b :: b in buckets ==> buckets[b] != [] && Shows(buckets[b], from[b], t, done, reader, b))
  }

  lemma {:induction false} CollectOne(buckets: map<string, seq<Row>>, from: map<string, seq<Key>>, t: Table,
                                      done: set<Key>, reader: string, k: Key)
    requires k in t && k !in done && Sees(reader, k.user) && Collected(buckets, from, t, done, reader)
    ensures var before := if k.bucket in buckets then buckets[k.bucket] else [];
            var keys := if k.bucket in from then from[k.bucket] else [];
            Collected(buckets[k.bucket := before + [Row(k.idx, t[k])]], from[k.bucket := keys + [k]], t,
                      done + {k}, reader)
  {
    var before := if k.bucket in buckets then buckets[k.bucket] else [];
    var keys := if k.bucket in from then from[k.bucket] else [];
    if k.bucket !in buckets {
      assert Seen(done, reader, k.bucket) == {};
    }
    ShowsOneMore(before, keys, t, done, reader, k);
    forall b | b in buckets && b != k.bucket ensures Shows(buckets[b], from[b], t, done + {k}, reader, b) {
      ShowsTheSame(buckets[b], from[b], t, done, reader, b, k);
    }
  }

  lemma {:induction false} ShowsTheSame(rows: seq<Row>, keys: seq<Key>, t: Table, done: set<Key>, reader: string,
                                        bucket: string, k: Key)
    requires k.bucket != bucket || !Sees(reader, k.user)
    ensures Shows(rows, keys, t, done + {k}, reader, bucket) <==> Shows(rows, keys, t, done, reader, bucket)
  {
    assert Seen(done + {k}, reader, bucket) == Seen(done, reader, bucket);
  }

  lemma {:induction false} ShowsOneMore(rows: seq<Row>, keys: seq<Key>, t: Table, done: set<Key>, reader: string,
                                        k: Key)
    requires k in t && k !in done && Sees(reader, k.user) && Shows(rows, keys, t, done, reader, k.bucket)
    ensures Shows(rows + [Row(k.idx, t[k])], keys + [k], t, done + {k}, reader, k.bucket)
  {
    assert Seen(done + {k}, reader, k.bucket) == Seen(done, reader, k.bucket) + {k};
    assert multiset(keys + [k]) == multiset(keys) + multiset{k};
  }

  lemma {:induction false} SkipOne(buckets: map<string, seq<Row>>, from: map<string, seq<Key>>, t: Table,
                                   done: set<Key>, reader: string, k: Key)
    requires !Sees(reader, k.user) && Collected(buckets, from, t, done, reader)
    ensures Collected(buckets, from, t, done + {k}, reader)
  {
    forall b ensures Seen(done + {k}, reader, b) == Seen(done, reader, b) {
    }
  }

  lemma {:induction false} NothingSeen(t: Table, reader: string, bucket: string)
    requires forall k :: k in t && Sees(reader, k.user) ==> k.bucket != bucket
    ensures ListsSeen([], t, reader, bucket)
  {
    assert Seen(t.Keys, reader, bucket) == {};
    assert Shows([], [], t, t.Keys, reader, bucket);
  }

  /** A listed row comes from a key with names. */
  lemma {:induction false} NamesSeen(rows: seq<Row>, t: Table, reader: string, bucket: string)
    requires ListsSeen(rows, t, reader, bucket) && rows != [] && NamesGiven(t)
    ensures !Blank(reader) && !Blank(bucket)
  {
    var keys :| Shows(rows, keys, t, t.Keys, reader, bucket);
    assert keys[0] in multiset(keys) && keys[0] in Seen(t.Keys, reader, bucket);
    assert reader == ALL ==> 'a' in reader && 'a' !in " \t\n\r";
  }

  /** Every key that the reader sees there is among the keys shown, and the other way round. */
  lemma {:induction false} SeenIffShown(rows: seq<Row>, keys: seq<Key>, t: Table, done: set<Key>, reader: string,
                                        bucket: string, k: Key)
    requires Shows(rows, keys, t, done, reader, bucket)
    ensures k in keys <==> k in Seen(done, reader, bucket)
    ensures k in keys ==> k in t && Row(k.idx, t[k]) in rows
  {
    assert k in keys <==> k in multiset(keys);
    if k in keys {
      var i :| 0 <= i < |keys| && keys[i] == k;
      assert rows[i] in rows;
    }
  }

  /** A reader who sees only rows of their own there sees the rows of their own bucket. */
  lemma {:induction false} SeenAreOwn(rows: seq<Row>, keys: seq<Key>, t: Table, reader: string, bucket: string)
    requires ByIndex(rows) && Shows(rows, keys, t, t.Keys, reader, bucket)
    requires forall k :: k in Seen(t.Keys, reader, bucket) ==> k.user == reader
    ensures Lists(rows, t, reader, bucket)
  {
    forall i, j | 0 <= i < j < |rows| ensures rows[i].idx < rows[j].idx {
      NoRepeats(keys, Seen(t.Keys, reader, bucket), i, j);
      SeenIffShown(rows, keys, t, t.Keys, reader, bucket, keys[i]);
      SeenIffShown(rows, keys, t, t.Keys, reader, bucket, keys[j]);
    }
    forall r ensures r in rows <==> Key(reader, bucket, r.idx) in t && t[Key(reader, bucket, r.idx)] == r.content {
      SeenIffShown(rows, keys, t, t.Keys, reader, bucket, Key(reader, bucket, r.idx));
      if r in rows {
        var i :| 0 <= i < |rows| && rows[i] == r;
        SeenIffShown(rows, keys, t, t.Keys, reader, bucket, keys[i]);
      }
    }
  }

  /** Sorting a collected bucket lists it. */
  lemma {:induction false} SortedBucketLists(rows: seq<Row>, keys: seq<Key>, t: Table, reader: string, bucket: string)
    requires rows != [] && Shows(rows, keys, t, t.Keys, reader, bucket)
    ensures Sorted(rows) != [] && ListsSeen(Sorted(rows), t, reader, bucket)
    ensures reader != ALL ==> Lists(Sorted(rows), t, reader, bucket)
    ensures forall k :: k in Seen(t.Keys, reader, bucket) ==> Row(k.idx, t[k]) in Sorted(rows)
    ensures exists k :: k in t && k.bucket == bucket
  {
    var sorted := SortImages(rows, keys, t);
    SortedSorts(rows);
    assert Shows(Sorted(rows), sorted, t, t.Keys, reader, bucket);
    if reader != ALL {
      SeenAreOwn(Sorted(rows), sorted, t, reader, bucket);
    }
    forall k | k in Seen(t.Keys, reader, bucket) ensures Row(k.idx, t[k]) in Sorted(rows) {
      SeenIffShown(Sorted(rows), sorted, t, t.Keys, reader, bucket, k);
    }
    SeenIffShown(rows, keys, t, t.Keys, reader, bucket, keys[0]);
  }

  lemma {:induction false} SortedBucketsRead(buckets: map<string, seq<Row>>, from: map<string, seq<Key>>, t: Table,
                                             reader: string)
    requires Collected(buckets, from, t, t.Keys, reader)
    ensures var sorted := map b | b in buckets :: Sorted(buckets[b]);
            && ReadsSeen(sorted, t, reader)
            && FromRows(sorted, t.Keys)
            && (reader != ALL ==> Reads(sorted, t, reader))
  {
    forall b | b in buckets
      ensures Sorted(buckets[b]) != [] && ListsSeen(Sorted(buckets[b]), t, reader, b)
      ensures reader != ALL ==> Lists(Sorted(buckets[b]), t, reader, b)
      ensures forall k :: k in Seen(t.Keys, reader, b) ==> Row(k.idx, t[k]) in Sorted(buckets[b])
      ensures exists k :: k in t.Keys && k.bucket == b
    {
      SortedBucketLists(buckets[b], from[b], t, reader, b);
    }
    forall k | k in t && Sees(reader, k.user) ensures k in Seen(t.Keys, reader, k.bucket) {
    }
  }

  lemma {:induction false} BatchEffect(before: Table, user: string, bucket: string, cs: seq<Content>)
    ensures var after := Replaced(before, user, bucket, cs);
            && OthersKept(after, before, user)
            && (forall k :: k in after && k.user == user ==> k in before || k.bucket == bucket)
  {
  }

  lemma {:induction false} HoldsBatch(before: Table, user: string, bucket: string, inputs: seq<Input>)
    ensures HoldsBucket(Replaced(before, user, bucket, StoredAll(inputs)), user, bucket, inputs)
  {
  }

  lemma {:induction false} OtherBucketKept(before: Table, user: string, bucket: string, cs: seq<Content>,
                                           other: string, inputs: seq<Input>)
    requires other != bucket && HoldsBucket(before, user, other, inputs)
    ensures HoldsBucket(Replaced(before, user, bucket, cs), user, other, inputs)
  {
  }
}
