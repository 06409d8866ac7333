/** The user accounts over either kind of storage (storage/repositories.py, storage/records.py). */
module Users {
  import opened Wrappers
  import opened Backends
  import opened Runs

  /** Passwords by user name. */
  type Accounts = map<string, string>

  function CoercePassword(password: string): Option<string> {
    Some(password)
  }

  datatype Op =
    | Add(user: string, password: string)
    | Change(user: string, password: string)
    | Remove(user: string)
    | Check(user: string, password: string)

  /** A store after one call, and its answer: refused for a blank new name, or what was asked for. */
  function Apply(s: Accounts, op: Op): (r: (Accounts, bool)) {
    match op
    case Add(user, password) =>
      if user in s then (s, true) else if Blank(user) then (s, false) else (s[user := password], true)
    case Change(user, password) =>
      if user !in s && Blank(user) then (s, false) else (s[user := password], true)
    case Remove(user) => (s - {user}, user in s)
    case Check(user, password) => (s, user in s && s[user] == password)
  }

  class UsersRepository {
    const backend: Storage<string>

    constructor (aliasing: bool)
      ensures fresh(backend) && backend.aliasing == aliasing && Valid() && backend.Contents() == map[]
      ensures backend.objects == map[]
    {
      backend := new Storage(aliasing, CoercePassword, "");
    }

    ghost predicate Valid()
      reads backend, backend.objects.Values
    {
      backend.Valid() && backend.coerce == CoercePassword
    }

    /** A new account is built, validated and added. */
    method AddNew(user: string, password: string) returns (ok: bool)
      requires Valid() && user !in backend.Contents()
      modifies backend
      ensures Valid() && fresh(backend.objects.Values - old(backend.objects.Values))
      ensures ok == !Blank(user)
      ensures backend.Contents() == if ok then old(backend.Contents())[user := password] else old(backend.Contents())
    {
      ok := !Blank(user);
      if ok {
        var record := new RowObject(user, password);
        backend.Put(record);
      }
    }

    /** `add_user`: an existing account keeps its password. */
    method AddUser(user: string, password: string) returns (ok: bool)
      requires Valid()
      modifies backend
      ensures Valid() && fresh(backend.objects.Values - old(backend.objects.Values))
      ensures (backend.Contents(), ok) == Apply(old(backend.Contents()), Add(user, password))
    {
      var existing := backend.Get(user);
      if existing != null {
        return true;
      }
      ok := AddNew(user, password);
    }

    /** The password of a row that was handed out: a live one changes the store at once. */
    method SetHandedOut(record: RowObject<string>, password: string)
      requires Valid() && record.key in backend.Contents() && record.data == backend.Contents()[record.key]
      requires backend.aliasing ==> record.key in backend.objects && record == backend.objects[record.key]
      modifies record
      ensures Valid() && record.data == password
      ensures backend.Contents() == if backend.aliasing then old(backend.Contents())[record.key := password]
                                    else old(backend.Contents())
    {
      ghost var before := backend.Contents();
      var ok := record.Merge(_ => password, CoercePassword);
      assert backend.Contents() == if backend.aliasing then before[record.key := password] else before;
    }

    /** `set_password`: creates the account where there is none. */
    method SetPassword(user: string, password: string) returns (ok: bool)
      requires Valid()
      modifies backend, backend.objects.Values
      ensures Valid() && fresh(backend.objects.Values - old(backend.objects.Values))
      ensures (backend.Contents(), ok) == Apply(old(backend.Contents()), Change(user, password))
    {
      var record := backend.Get(user);
      if record == null {
        ok := AddNew(user, password);
      } else {
        ChangeHandedOut(record, password);
        ok := true;
      }
    }

    /** Another password is set and the row put back; the same one leaves it alone. */
    method ChangeHandedOut(record: RowObject<string>, password: string)
      requires Valid() && record.key in backend.Contents() && record.data == backend.Contents()[record.key]
      requires backend.aliasing ==> record.key in backend.objects && record == backend.objects[record.key]
      modifies backend, record
      ensures Valid() && backend.objects.Values <= old(backend.objects.Values)
      ensures backend.Contents() == old(backend.Contents())[record.key := password]
    {
      ghost var before := backend.Contents();
      if record.data != password {
        SetHandedOut(record, password);
        backend.PutBack(record);
      }
      assert backend.Contents() == before[record.key := password];
    }

    /** `remove_user` */
    method RemoveUser(user: string) returns (removed: bool)
      requires Valid()
      modifies backend
      ensures Valid() && fresh(backend.objects.Values - old(backend.objects.Values))
      ensures (backend.Contents(), removed) == Apply(old(backend.Contents()), Remove(user))
    {
      var existing := backend.Get(user);
      removed := existing != null;
      if removed {
        backend.Remove(user);
      } else {
        assert backend.Contents() - {user} == backend.Contents();
      }
    }

    /** `check_credentials`: an unknown user is compared with the empty password all the same. */
    method CheckCredentials(user: string, password: string) returns (known: bool)
      requires Valid()
      ensures known <==> user in backend.Contents() && backend.Contents()[user] == password
    {
      var record := backend.Get(user);
      var expected := if record == null then "" else record.data;
      var matched := expected == password;
      known := record != null && matched;
    }

    /** One call of a run. */
    method Perform(op: Op) returns (answer: bool)
      requires Valid()
      modifies backend, backend.objects.Values
      ensures Valid() && fresh(backend.objects.Values - old(backend.objects.Values))
      ensures (backend.Contents(), answer) == Apply(old(backend.Contents()), op)
    {
      match op
      case Add(user, password) => answer := AddUser(user, password);
      case Change(user, password) => answer := SetPassword(user, password);
      case Remove(user) => answer := RemoveUser(user);
      case Check(user, password) => answer := CheckCredentials(user, password);
    }

    /** One call, its answer and the store after it. */
    method See(op: Op) returns (seen: (Accounts, bool))
      requires Valid()
      modifies backend, backend.objects.Values
      ensures Valid() && fresh(backend.objects.Values - old(backend.objects.Values))
      ensures seen == Apply(old(backend.Contents()), op) && seen.0 == backend.Contents()
    {
      var answer := Perform(op);
      var plain := backend.Snapshot();
      seen := (plain, answer);
    }

    /** A run of calls, and what its caller sees after each of them: on either kind of storage the same. */
    method RunOps(ops: seq<Op>) returns (trace: seq<(Accounts, bool)>)
      requires Valid()
      modifies backend, backend.objects.Values
      ensures Valid() && fresh(backend.objects.Values - old(backend.objects.Values))
      ensures trace == Observed(old(backend.Contents()), ops, Apply)
    {
      trace := [];
      for i := 0 to |ops|
        invariant Valid() && fresh(backend.objects.Values - old(backend.objects.Values))
        invariant Observed(old(backend.Contents()), ops, Apply) == trace + Observed(backend.Contents(), ops[i..], Apply)
      {
        ghost var before := backend.Contents();
        var seen := See(ops[i]);
        NextSeen(before, ops, Apply, i, trace);
        trace := trace + [seen];
      }
    }
  }

  /** The same calls on memory and on a database, both empty: their callers see the same. */
  method RunOnBoth(ops: seq<Op>) returns (live: seq<(Accounts, bool)>, copied: seq<(Accounts, bool)>)
    ensures live == copied == Observed(map[], ops, Apply)
  {
    var memory := new UsersRepository(true);
    var database := new UsersRepository(false);
    live := memory.RunOps(ops);
    copied := database.RunOps(ops);
  }

  // ------------------------------------------------------------------- one account's history

  /** The account and its password, if it is there. */
  function Account(s: Accounts, user: string): Option<string> {
    if user in s then Some(s[user]) else None
  }

  /** The calls that name one user. */
  function Only(ops: seq<Op>, user: string): seq<Op> {
    if ops == [] then [] else (if ops[0].user == user then [ops[0]] else []) + Only(ops[1..], user)
  }

  /** What becomes of an account over any run depends on the calls that name its user alone. */
  lemma {:induction false} AccountsAreIndependent(s: Accounts, t: Accounts, ops: seq<Op>, user: string)
    requires Account(s, user) == Account(t, user)
    ensures Account(Final(s, ops, Apply), user) == Account(Final(t, Only(ops, user), Apply), user)
    decreases |ops|
  {
    if ops != [] {
      var mine, rest := ops[0].user == user, Only(ops[1..], user);
      AccountsAreIndependent(Apply(s, ops[0]).0, if mine then Apply(t, ops[0]).0 else t, ops[1..], user);
      if mine {
        assert ([ops[0]] + rest)[1..] == rest;
      } else {
        assert [] + rest == rest;
      }
    }
  }

  /** No call changes the password or drops the account. */
  predicate Keeps(ops: seq<Op>, user: string) {
    forall i :: 0 <= i < |ops| && ops[i].user == user ==> ops[i].Add? || ops[i].Check?
  }

  /** An account keeps its first password however often it is added again. */
  lemma {:induction false} FirstPasswordStays(s: Accounts, ops: seq<Op>, user: string, password: string)
    requires user !in s && !Blank(user) && Keeps(ops, user)
    ensures Account(Final(Apply(s, Add(user, password)).0, ops, Apply), user) == Some(password)
  {
    KeptPassword(Apply(s, Add(user, password)).0, ops, user);
  }

  lemma {:induction false} KeptPassword(s: Accounts, ops: seq<Op>, user: string)
    requires user in s && Keeps(ops, user)
    ensures Account(Final(s, ops, Apply), user) == Some(s[user])
    decreases |ops|
  {
    if ops != [] {
      KeptPassword(Apply(s, ops[0]).0, ops[1..], user);
    }
  }

  /** A password that was set is the one that is accepted, and a removed account accepts none. */
  lemma {:induction false} SetPasswordCounts(s: Accounts, user: string, password: string, tried: string)
    ensures user in s || !Blank(user) ==>
              (Apply(Apply(s, Change(user, password)).0, Check(user, tried)).1 <==> tried == password)
    ensures user !in s && !Blank(user) ==>
              (Apply(Apply(s, Add(user, password)).0, Check(user, tried)).1 <==> tried == password)
    ensures !Apply(Apply(s, Remove(user)).0, Check(user, tried)).1
    ensures Apply(s, Remove(user)).1 <==> user in s
  {
  }
}
