/** The ISIN registry over either kind of storage (storage/repositories.py, storage/records.py). */
module IsinRegistries {
  import opened Wrappers
  import opened Backends
  import opened Runs

  datatype Isin = Isin(issuer: Option<string>, bucket: Option<string>, productRef: Option<string>, visits: int)

  const UNKNOWN := Isin(None, None, None, 0)

  const ISSUERS: set<string> := {"amundi", "ishares", "ssga", "dws", "ubs", "invesco", "landg", "vanguard", "justetf",
                                 "yfinance"}

  /** `IsinRecord.validate`, apart from the key. */
  function CoerceIsin(r: Isin): Option<Isin> {
    if (r.issuer.Some? && r.issuer.value !in ISSUERS) || r.visits < 0 then None else Some(r)
  }

  /** A store after recording a change for one ISIN; a refused change leaves it as it was. */
  function Recorded(s: map<string, Isin>, key: string, change: Isin -> Isin): (r: (map<string, Isin>, bool)) {
    var c := CoerceIsin(change(At(s, key, UNKNOWN)));
    if c.None? || (key !in s && Blank(key)) then (s, false) else (s[key := c.value], true)
  }

  function FillOption(stored: Option<string>, given: Option<string>): Option<string> {
    if stored.None? then given else stored
  }

  /** Registering fills only what is still null. */
  function Filled(r: Isin, issuer: Option<string>, bucket: Option<string>, productRef: Option<string>): Isin {
    Isin(FillOption(r.issuer, issuer), FillOption(r.bucket, bucket), FillOption(r.productRef, productRef), r.visits)
  }

  class IsinRegistry {
    const backend: Storage<Isin>

    constructor (aliasing: bool)
      ensures fresh(backend) && backend.aliasing == aliasing && Valid() && backend.Contents() == map[]
      ensures backend.objects == map[]
    {
      backend := new Storage(aliasing, CoerceIsin, UNKNOWN);
    }

    ghost predicate Valid()
      reads backend, backend.objects.Values
    {
      backend.Valid() && backend.coerce == CoerceIsin && backend.empty == UNKNOWN
    }

    /** A row that is not there yet is built, validated and put. */
    method RecordNew(key: string, data: Isin) returns (ok: bool)
      requires Valid() && key !in backend.Contents()
      modifies backend
      ensures Valid() && fresh(backend.objects.Values - old(backend.objects.Values))
      ensures ok == (CoerceIsin(data).Some? && !Blank(key))
      ensures backend.Contents() == if ok then old(backend.Contents())[key := data] else old(backend.Contents())
    {
      ok := CoerceIsin(data).Some? && !Blank(key);
      if ok {
        var record := new RowObject(key, data);
        backend.Put(record);
      }
    }

    /** A row that was handed out is merged and, when that is accepted, put again. */
    method RecordMerged(existing: RowObject<Isin>, change: Isin -> Isin) returns (ok: bool)
      requires Valid() && existing.key in backend.Contents() && existing.data == backend.Contents()[existing.key]
      requires backend.aliasing ==> existing.key in backend.objects && existing == backend.objects[existing.key]
      modifies backend, existing
      ensures Valid() && fresh(backend.objects.Values - old(backend.objects.Values))
      ensures ok == CoerceIsin(change(old(existing.data))).Some?
      ensures backend.Contents() == if ok then old(backend.Contents())[existing.key := change(old(existing.data))]
                                    else old(backend.Contents())
    {
      ghost var before := backend.Contents();
      ok := MergeHandedOut(existing, change);
      if ok {
        backend.PutBack(existing);
        assert backend.Contents() == before[existing.key := existing.data];
      } else {
        assert before == before[existing.key := before[existing.key]];
      }
    }

    method Record(key: string, change: Isin -> Isin) returns (ok: bool)
      requires Valid()
      modifies backend, backend.objects.Values
      ensures Valid() && fresh(backend.objects.Values - old(backend.objects.Values))
      ensures (backend.Contents(), ok) == Recorded(old(backend.Contents()), key, change)
    {
      var existing := backend.Get(key);
      if existing == null {
        ok := RecordNew(key, change(UNKNOWN));
      } else {
        ok := RecordMerged(existing, change);
      }
    }

    method MergeHandedOut(entry: RowObject<Isin>, change: Isin -> Isin) returns (ok: bool)
      requires Valid() && entry.key in backend.Contents() && entry.data == backend.Contents()[entry.key]
      requires backend.aliasing ==> entry.key in backend.objects && entry == backend.objects[entry.key]
      modifies entry
      ensures Valid() && ok == CoerceIsin(change(old(entry.data))).Some?
      ensures entry.data == Merged(old(entry.data), change, CoerceIsin)
      ensures backend.Contents() == if backend.aliasing then old(backend.Contents())[entry.key := entry.data]
                                    else old(backend.Contents())
    {
      ghost var before := backend.Contents();
      ok := entry.Merge(change, CoerceIsin);
      assert backend.Contents() == if backend.aliasing then before[entry.key := entry.data] else before;
    }

    /** `register_isin` */
    method RegisterIsin(isin: string, issuer: Option<string>, bucket: Option<string>, productRef: Option<string>)
      returns (ok: bool)
      requires Valid()
      modifies backend, backend.objects.Values
      ensures Valid() && fresh(backend.objects.Values - old(backend.objects.Values))
      ensures (backend.Contents(), ok)
              == Recorded(old(backend.Contents()), isin, r => Filled(r, issuer, bucket, productRef))
    {
      ok := Record(isin, r => Filled(r, issuer, bucket, productRef));
    }

    /** `set_issuer_for_isin` */
    method SetIssuer(isin: string, issuer: string) returns (ok: bool)
      requires Valid()
      modifies backend, backend.objects.Values
      ensures Valid() && fresh(backend.objects.Values - old(backend.objects.Values))
      ensures (backend.Contents(), ok)
              == Recorded(old(backend.Contents()), isin, (r: Isin) => r.(issuer := Some(issuer)))
    {
      ok := Record(isin, (r: Isin) => r.(issuer := Some(issuer)));
    }

    /** `set_bucket_for_isin` */
    method SetBucket(isin: string, bucket: string) returns (ok: bool)
      requires Valid()
      modifies backend, backend.objects.Values
      ensures Valid() && fresh(backend.objects.Values - old(backend.objects.Values))
      ensures (backend.Contents(), ok)
              == Recorded(old(backend.Contents()), isin, (r: Isin) => r.(bucket := Some(bucket)))
    {
      ok := Record(isin, (r: Isin) => r.(bucket := Some(bucket)));
    }

    /** `increment_visits_for_isin` */
    method IncrementVisits(isin: string) returns (ok: bool, visits: int)
      requires Valid()
      modifies backend, backend.objects.Values
      ensures Valid() && fresh(backend.objects.Values - old(backend.objects.Values))
      ensures (backend.Contents(), ok)
              == Recorded(old(backend.Contents()), isin, (r: Isin) => r.(visits := r.visits + 1))
      ensures ok ==> visits == backend.Contents()[isin].visits == At(old(backend.Contents()), isin, UNKNOWN).visits + 1
    {
      var existing := backend.Get(isin);
      visits := if existing == null then 1 else existing.data.visits + 1;
      ok := Record(isin, (r: Isin) => r.(visits := r.visits + 1));
    }

    /** One operation of a run. */
    method Perform(op: Op) returns (ok: bool)
      requires Valid()
      modifies backend, backend.objects.Values
      ensures Valid() && fresh(backend.objects.Values - old(backend.objects.Values))
      ensures (backend.Contents(), ok) == Apply(old(backend.Contents()), op)
    {
      match op
      case Register(isin, issuer, bucket, productRef) => ok := RegisterIsin(isin, issuer, bucket, productRef);
      case PutIssuer(isin, issuer) => ok := SetIssuer(isin, issuer);
      case PutBucket(isin, bucket) => ok := SetBucket(isin, bucket);
      case Visit(isin) =>
        var visits;
        ok, visits := IncrementVisits(isin);
    }

    /** One operation, its answer and the store after it. */
    method See(op: Op) returns (seen: (map<string, Isin>, bool))
      requires Valid()
      modifies backend, backend.objects.Values
      ensures Valid() && fresh(backend.objects.Values - old(backend.objects.Values))
      ensures seen == Apply(old(backend.Contents()), op) && seen.0 == backend.Contents()
    {
      var ok := Perform(op);
      var plain := backend.Snapshot();
      seen := (plain, ok);
    }

    /** A run of operations, and what its caller sees after each of them: on either kind of storage the same. */
    method RunOps(ops: seq<Op>) returns (trace: seq<(map<string, Isin>, bool)>)
      requires Valid()
      modifies backend, backend.objects.Values
      ensures Valid() && fresh(backend.objects.Values - old(backend.objects.Values))
      ensures trace == Observed(old(backend.Contents()), ops, Apply)
    {
      trace := [];
      for i := 0 to |ops|
        invariant Valid() && fresh(backend.objects.Values - old(backend.objects.Values))
        invariant Observed(old(backend.Contents()), ops, Apply) == trace + Observed(backend.Contents(), ops[i..], Apply)
      {
        ghost var before := backend.Contents();
        var seen := See(ops[i]);
        NextSeen(before, ops, Apply, i, trace);
        trace := trace + [seen];
      }
    }
  }

  // ---------------------------------------------------------------------------- runs

  datatype Op =
    | Register(isin: string, issuer: Option<string>, bucket: Option<string>, productRef: Option<string>)
    | PutIssuer(isin: string, issuerOf: string)
    | PutBucket(isin: string, bucketOf: string)
    | Visit(isin: string)

  function Change(op: Op): Isin -> Isin {
    match op
    case Register(_, issuer, bucket, productRef) => r => Filled(r, issuer, bucket, productRef)
    case PutIssuer(_, issuer) => (r: Isin) => r.(issuer := Some(issuer))
    case PutBucket(_, bucket) => (r: Isin) => r.(bucket := Some(bucket))
    case Visit(_) => (r: Isin) => r.(visits := r.visits + 1)
  }

  function Apply(s: map<string, Isin>, op: Op): (map<string, Isin>, bool) {
    Recorded(s, op.isin, Change(op))
  }

  /** The same calls on a memory and on a database registry, both empty: their callers see the same. */
  method RunOnBoth(ops: seq<Op>) returns (live: seq<(map<string, Isin>, bool)>, copied: seq<(map<string, Isin>, bool)>)
    ensures live == copied == Observed(map[], ops, Apply)
  {
    var memory := new IsinRegistry(true);
    var database := new IsinRegistry(false);
    live := memory.RunOps(ops);
    copied := database.RunOps(ops);
  }

  // ------------------------------------------------------------------- first value wins

  lemma {:induction false} RegisteredRow(s: map<string, Isin>, key: string, i: Option<string>, b: Option<string>,
                                         p: Option<string>)
    ensures var row := Filled(At(s, key, UNKNOWN), i, b, p);
            Recorded(s, key, r => Filled(r, i, b, p))
            == if CoerceIsin(row).None? || (key !in s && Blank(key)) then (s, false) else (s[key := row], true)
  {
  }

  /** Registering fills exactly the fields that are null, counts no visit, and touches no other ISIN; it is
      refused for an issuer that is none, or for a new blank key. */
  lemma {:induction false} RegistrationFills(s: map<string, Isin>, key: string, i: Option<string>, b: Option<string>,
                                             p: Option<string>)
    requires Coherent(s, CoerceIsin)
    ensures var (now, ok) := Recorded(s, key, r => Filled(r, i, b, p));
            var was := At(s, key, Isin(None, None, None, 0));
            && (ok <==> !(key !in s && Blank(key)) && (was.issuer == None && i.Some? ==> i.value in ISSUERS))
            && (!ok ==> now == s)
            && (ok ==> key in now
                       && now[key].issuer == (if was.issuer == None then i else was.issuer)
                       && now[key].bucket == (if was.bucket == None then b else was.bucket)
                       && now[key].productRef == (if was.productRef == None then p else was.productRef)
                       && now[key].visits == was.visits)
            && forall k: string :: k != key ==> (k in now <==> k in s) && (k in s ==> now[k] == s[k])
  {
    RegisteredRow(s, key, i, b, p);
    if key in s {
      assert CoerceIsin(s[key]) == Some(s[key]);
    }
  }

  /** A correction overwrites its own field, a visit counts one; nothing else in the row changes, and no other
      ISIN. */
  lemma {:induction false} CorrectionsOverwrite(s: map<string, Isin>, key: string, text: string)
    requires Coherent(s, CoerceIsin) && (key in s || !Blank(key))
    ensures var was := At(s, key, Isin(None, None, None, 0));
            && Apply(s, PutIssuer(key, text)) == (if text in ISSUERS then (s[key := was.(issuer := Some(text))], true)
                                                  else (s, false))
            && Apply(s, PutBucket(key, text)) == (s[key := was.(bucket := Some(text))], true)
            && Apply(s, Visit(key)) == (s[key := was.(visits := was.visits + 1)], true)
  {
    if key in s {
      assert CoerceIsin(s[key]) == Some(s[key]);
    }
  }

  /** Two registrations are one with the first value given for each field. */
  lemma {:induction false} RegistrationsCombine(s: map<string, Isin>, key: string,
                                                i1: Option<string>, b1: Option<string>, p1: Option<string>,
                                                i2: Option<string>, b2: Option<string>, p2: Option<string>)
    requires Recorded(s, key, r => Filled(r, i1, b1, p1)).1
    requires i2.Some? ==> i2.value in ISSUERS
    ensures var once := Recorded(s, key, r => Filled(r, i1, b1, p1)).0;
            var twice := Recorded(once, key, r => Filled(r, i2, b2, p2));
            && twice.1
            && twice.0
                == s[key := Filled(At(s, key, UNKNOWN), FillOption(i1, i2), FillOption(b1, b2), FillOption(p1, p2))]
  {
    var first := Filled(At(s, key, UNKNOWN), i1, b1, p1);
    var once := Recorded(s, key, r => Filled(r, i1, b1, p1)).0;
    RegisteredRow(s, key, i1, b1, p1);
    assert once == s[key := first] && CoerceIsin(first) == Some(first);
    assert CoerceIsin(Filled(first, i2, b2, p2)).Some?;
    RegisteredRow(once, key, i2, b2, p2);
    assert once[key := Filled(first, i2, b2, p2)] == s[key := Filled(first, i2, b2, p2)];
  }

  /** The key is only registered or visited. */
  predicate Registers(ops: seq<Op>, key: string) {
    forall i :: 0 <= i < |ops| && ops[i].isin == key ==> ops[i].Register? || ops[i].Visit?
  }

  /** Every field that is set stays as it is. */
  predicate Keeps(a: Isin, b: Isin) {
    && (a.issuer.Some? ==> b.issuer == a.issuer)
    && (a.bucket.Some? ==> b.bucket == a.bucket)
    && (a.productRef.Some? ==> b.productRef == a.productRef)
  }

  lemma {:induction false} OneCallKeeps(s: map<string, Isin>, op: Op, key: string)
    requires op.isin == key ==> op.Register? || op.Visit?
    ensures Keeps(At(s, key, UNKNOWN), At(Apply(s, op).0, key, UNKNOWN))
  {
    if op.isin == key && op.Register? {
      RegisteredRow(s, key, op.issuer, op.bucket, op.productRef);
    }
  }

  /** Registering never overwrites a decided field: over any run that only registers or visits the key, and
      does whatever it likes to others, every field keeps the first value it was given. */
  lemma {:induction false} FirstRegistrationWins(s: map<string, Isin>, ops: seq<Op>, key: string)
    requires Registers(ops, key)
    ensures Keeps(At(s, key, UNKNOWN), At(Final(s, ops, Apply), key, UNKNOWN))
    decreases |ops|
  {
    if ops != [] {
      OneCallKeeps(s, ops[0], key);
      FirstRegistrationWins(Apply(s, ops[0]).0, ops[1..], key);
    }
  }
}
