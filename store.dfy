/**
 * The in-memory user repository: a list of user records plus a flag saying
 * whether the fixed demo records have been loaded.
 *
 * The process-wide store object becomes a `Store` passed to every operation;
 * identifier generation and the clock become parameters.
 */
module UserStore {
  import opened Wrappers

  /** One stored user, with every field a string (timestamps are ISO-8601 text). */
  datatype UserRecord = UserRecord(
    id: string,
    firstName: string,
    lastName: string,
    email: string,
    phone: string,
    createdAt: string,
    updatedAt: string)

  /**
   * The caller-supplied dictionary of user fields. A key that is absent from
   * the dictionary is `None`; keys other than these four are never looked at.
   */
  datatype UserData = UserData(
    firstName: Option<string>,
    lastName: Option<string>,
    email: Option<string>,
    phone: Option<string>)

  /** Reading a key that the input dictionary does not hold raises `KeyError(key)`. */
  datatype CreateError = KeyError(key: string)

  // ---------------------------------------------------------------------------
  // Identifiers and lookup

  /** The set of identifiers held by the records. */
  function Ids(users: seq<UserRecord>): set<string> {
    set u | u in users :: u.id
  }

  /** No two records share an identifier. */
  predicate DistinctIds(users: seq<UserRecord>) {
    forall i, j :: 0 <= i < j < |users| ==> users[i].id != users[j].id
  }

  /** The identifiers of a non-empty list: the head's plus those of the rest. */
  lemma IdsCons(users: seq<UserRecord>)
    requires |users| > 0
    ensures Ids(users) == {users[0].id} + Ids(users[1..])
  {
  }

  /** The position of the first record whose identifier is `uid`, if any. */
  function FirstIndexOf(users: seq<UserRecord>, uid: string): (r: Option<nat>)
    ensures r.None? <==> uid !in Ids(users)
    ensures r.Some? ==> r.value < |users| && users[r.value].id == uid
    ensures r.Some? ==> forall j :: 0 <= j < r.value ==> users[j].id != uid
    decreases |users|
  {
    if |users| == 0 then None
    else
      IdsCons(users);
      if users[0].id == uid then Some(0)
      else match FirstIndexOf(users[1..], uid)
        case None => None
        case Some(k) => Some(k + 1)
  }

  /**
   * The first record whose identifier is `uid`, or `None`: the lookup behind
   * `get_user`. It is "not found" exactly when no record carries `uid`.
   */
  function Find(users: seq<UserRecord>, uid: string): (r: Option<UserRecord>)
    ensures r.None? <==> uid !in Ids(users)
    ensures r.Some? ==> r.value in users && r.value.id == uid
    ensures r.Some? ==> exists k :: 0 <= k < |users| && users[k] == r.value && forall j :: 0 <= j < k ==> users[j].id != uid
  {
    match FirstIndexOf(users, uid)
    case None => None
    case Some(k) => Some(users[k])
  }

  /** When identifiers are distinct, looking up any record's identifier yields that record. */
  lemma FindDistinct(users: seq<UserRecord>, i: nat)
    requires DistinctIds(users)
    requires i < |users|
    ensures Find(users, users[i].id) == Some(users[i])
  {
  }

  /** A record appended under an identifier nobody holds is what a lookup of that identifier finds. */
  lemma FindAppendFresh(users: seq<UserRecord>, rec: UserRecord)
    requires rec.id !in Ids(users)
    ensures Find(users + [rec], rec.id) == Some(rec)
    ensures forall uid :: uid != rec.id ==> Find(users + [rec], uid) == Find(users, uid)
  {
    var all := users + [rec];
    assert all[|users|] == rec;
    assert forall j :: 0 <= j < |users| ==> all[j] == users[j] && users[j] in users;
    forall uid | uid != rec.id ensures Find(all, uid) == Find(users, uid) {
      FindAppendOther(users, rec, uid);
    }
  }

  /** Appending a record leaves the lookup of every other identifier as it was. */
  lemma FindAppendOther(users: seq<UserRecord>, rec: UserRecord, uid: string)
    requires uid != rec.id
    ensures Find(users + [rec], uid) == Find(users, uid)
  {
    var all := users + [rec];
    assert all[|users|] == rec;
    assert forall j :: 0 <= j < |users| ==> all[j] == users[j] && users[j] in users;
  }

  // ---------------------------------------------------------------------------
  // Deletion filter

  /** The records whose identifier is not `uid`, in their original order. */
  function Without(users: seq<UserRecord>, uid: string): (r: seq<UserRecord>)
    ensures |r| <= |users|
    ensures forall u :: u in r <==> u in users && u.id != uid
    ensures |r| == |users| <==> uid !in Ids(users)
    decreases |users|
  {
    if |users| == 0 then []
    else
      IdsCons(users);
      assert users == [users[0]] + users[1..];
      (if users[0].id == uid then [] else [users[0]]) + Without(users[1..], uid)
  }

  /** Filtering out an identifier nobody holds leaves the list as it was. */
  lemma {:induction false} WithoutAbsent(users: seq<UserRecord>, uid: string)
    requires uid !in Ids(users)
    ensures Without(users, uid) == users
    decreases |users|
  {
    if |users| > 0 {
      IdsCons(users);
      WithoutAbsent(users[1..], uid);
      assert users == [users[0]] + users[1..];
    }
  }

  /** The filter works record by record: it distributes over concatenation, so survivors keep their order. */
  lemma {:induction false} WithoutAppend(a: seq<UserRecord>, b: seq<UserRecord>, uid: string)
    ensures Without(a + b, uid) == Without(a, uid) + Without(b, uid)
    decreases |a|
  {
    if |a| == 0 {
      assert a + b == b;
    } else {
      var head := if a[0].id == uid then [] else [a[0]];
      assert (a + b)[0] == a[0];
      calc {
        Without(a + b, uid);
        head + Without((a + b)[1..], uid);
        { assert (a + b)[1..] == a[1..] + b; WithoutAppend(a[1..], b, uid); }
        head + (Without(a[1..], uid) + Without(b, uid));
        (head + Without(a[1..], uid)) + Without(b, uid);
        Without(a, uid) + Without(b, uid);
      }
    }
  }

  /** After filtering, no record with that identifier is left for a lookup to find. */
  lemma FindWithout(users: seq<UserRecord>, uid: string)
    ensures uid !in Ids(Without(users, uid))
    ensures Find(Without(users, uid), uid) == None
  {
  }

  /** Filtering keeps identifiers distinct. */
  lemma {:induction false} WithoutDistinct(users: seq<UserRecord>, uid: string)
    requires DistinctIds(users)
    ensures DistinctIds(Without(users, uid))
    decreases |users|
  {
    if |users| > 0 {
      var rest := users[1..];
      assert DistinctIds(rest) by {
        forall i, j | 0 <= i < j < |rest| ensures rest[i].id != rest[j].id {
          assert rest[i] == users[i + 1] && rest[j] == users[j + 1];
        }
      }
      WithoutDistinct(rest, uid);
      var tail := Without(rest, uid);
      if users[0].id != uid {
        assert forall u :: u in tail ==> u.id != users[0].id by {
          forall u | u in tail ensures u.id != users[0].id {
            var j :| 0 <= j < |rest| && rest[j] == u;
            assert rest[j] == users[j + 1];
          }
        }
        var r := [users[0]] + tail;
        forall i, j | 0 <= i < j < |r| ensures r[i].id != r[j].id {
          if i == 0 {
            assert r[j] == tail[j - 1];
            assert r[j] in tail;
          } else {
            assert r[i] == tail[i - 1] && r[j] == tail[j - 1];
          }
        }
      }
    }
  }

  /** With distinct identifiers, deleting a present identifier removes exactly one record. */
  lemma {:induction false} WithoutCountDistinct(users: seq<UserRecord>, uid: string)
    requires DistinctIds(users)
    requires uid in Ids(users)
    ensures |Without(users, uid)| == |users| - 1
    decreases |users|
  {
    IdsCons(users);
    var rest := users[1..];
    assert DistinctIds(rest) by {
      forall i, j | 0 <= i < j < |rest| ensures rest[i].id != rest[j].id {
        assert rest[i] == users[i + 1] && rest[j] == users[j + 1];
      }
    }
    if users[0].id == uid {
      assert uid !in Ids(rest) by {
        forall u | u in rest ensures u.id != uid {
          var j :| 0 <= j < |rest| && rest[j] == u;
          assert users[j + 1] == u;
        }
      }
    } else {
      WithoutCountDistinct(rest, uid);
    }
  }

  // ---------------------------------------------------------------------------
  // Building and merging records

  /** The keys `create_user` reads, in the order it reads them, that `data` does not hold. */
  function MissingKeys(data: UserData): seq<string> {
    (if data.firstName.None? then ["firstName"] else [])
    + (if data.lastName.None? then ["lastName"] else [])
    + (if data.email.None? then ["email"] else [])
    + (if data.phone.None? then ["phone"] else [])
  }

  /**
   * The record `create_user` builds from `data` under identifier `id`, or the
   * `KeyError` raised by the first of the four keys that is absent.
   */
  function NewRecord(data: UserData, id: string, createdAt: string, updatedAt: string)
    : (r: Result<UserRecord, CreateError>)
    ensures r.Success? <==> MissingKeys(data) == []
    ensures r.Failure? ==> r.error == KeyError(MissingKeys(data)[0])
    ensures r.Success? ==> r.value.id == id
    ensures r.Success? ==> r.value.createdAt == createdAt && r.value.updatedAt == updatedAt
    ensures r.Success? ==> Some(r.value.firstName) == data.firstName && Some(r.value.lastName) == data.lastName
    ensures r.Success? ==> Some(r.value.email) == data.email && Some(r.value.phone) == data.phone
  {
    if data.firstName.None? then Failure(KeyError("firstName"))
    else if data.lastName.None? then Failure(KeyError("lastName"))
    else if data.email.None? then Failure(KeyError("email"))
    else if data.phone.None? then Failure(KeyError("phone"))
    else Success(UserRecord(id, data.firstName.value, data.lastName.value,
                            data.email.value, data.phone.value, createdAt, updatedAt))
  }

  /** `after` is `patch` when the key was supplied and `before` when it was not. */
  predicate Overwrites(before: string, after: string, patch: Option<string>) {
    (patch.Some? ==> after == patch.value) && (patch.None? ==> after == before)
  }

  /**
   * The record after `update_user` merged `data` into it at time `now`: only
   * the four recognised keys present in `data` are overwritten, and
   * `updatedAt` is refreshed.
   */
  function Merge(u: UserRecord, data: UserData, now: string): (r: UserRecord)
    ensures r.id == u.id && r.createdAt == u.createdAt
    ensures r.updatedAt == now
    ensures Overwrites(u.firstName, r.firstName, data.firstName)
    ensures Overwrites(u.lastName, r.lastName, data.lastName)
    ensures Overwrites(u.email, r.email, data.email)
    ensures Overwrites(u.phone, r.phone, data.phone)
  {
    u.(firstName := data.firstName.GetOr(u.firstName),
       lastName := data.lastName.GetOr(u.lastName),
       email := data.email.GetOr(u.email),
       phone := data.phone.GetOr(u.phone),
       updatedAt := now)
  }

  /** The dictionary `first` updated with `second`: keys of `second` win. */
  function Combine(first: UserData, second: UserData): UserData {
    UserData(
      if second.firstName.Some? then second.firstName else first.firstName,
      if second.lastName.Some? then second.lastName else first.lastName,
      if second.email.Some? then second.email else first.email,
      if second.phone.Some? then second.phone else first.phone)
  }

  /** Two successive updates act like one update with the combined input and the later time. */
  lemma MergeTwice(u: UserRecord, first: UserData, second: UserData, t1: string, t2: string)
    ensures Merge(Merge(u, first, t1), second, t2) == Merge(u, Combine(first, second), t2)
  {
  }

  /** Replacing a record by its merged version touches no other position and keeps the set of identifiers. */
  lemma {:induction false} UpdateAtKeepsOthers(users: seq<UserRecord>, uid: string, k: nat, rec: UserRecord)
    requires FirstIndexOf(users, uid) == Some(k)
    requires rec.id == uid
    ensures Ids(users[k := rec]) == Ids(users)
    ensures DistinctIds(users) ==> DistinctIds(users[k := rec])
    ensures Find(users[k := rec], uid) == Some(rec)
    ensures forall other :: other != uid ==> Find(users[k := rec], other) == Find(users, other)
  {
    var after := users[k := rec];
    forall x ensures x in Ids(after) <==> x in Ids(users) {
      if x in Ids(after) {
        var u :| u in after && u.id == x;
        var i :| 0 <= i < |after| && after[i] == u;
        assert users[i].id == x;
        assert users[i] in users;
      }
      if x in Ids(users) {
        var u :| u in users && u.id == x;
        var i :| 0 <= i < |users| && users[i] == u;
        assert after[i].id == x;
        assert after[i] in after;
      }
    }
    assert after[k] == rec;
    assert forall j :: 0 <= j < |users| && j != k ==> after[j] == users[j];
  }

  // ---------------------------------------------------------------------------
  // The fixed demo records

  /** The ten demo records `seed_once` loads, in order. */
  const SampleUsers: seq<UserRecord> := [
    UserRecord("4b1335f4-788b-4e8d-9ed5-04b99ce430a4", "Emma", "Johnson",
               "emma.johnson@email.com", "+1-555-555-0123",
               "2023-01-15T08:30:00Z", "2023-08-22T14:15:30Z"),
    UserRecord("c27d2af0-b713-4092-a73b-024d1313233f", "Liam", "Williams",
               "liam.williams@email.com", "+1-555-555-0456",
               "2023-02-03T12:45:15Z", "2023-09-10T09:22:45Z"),
    UserRecord("02ad7f8d-9a4d-4f00-b101-7744851880a2", "Sophia", "Brown",
               "sophia.brown@email.com", "+1-555-555-0789",
               "2023-03-22T16:20:30Z", "2023-07-18T11:33:20Z"),
    UserRecord("a3fdef38-b254-4139-b93c-7e576baf9536", "Noah", "Davis",
               "noah.davis@email.com", "+1-555-555-0321",
               "2023-04-07T10:15:45Z", "2023-09-25T15:40:10Z"),
    UserRecord("872afdbd-639e-495f-94f0-c008799f7914", "Olivia", "Miller",
               "olivia.miller@email.com", "+1-555-555-0654",
               "2023-05-12T13:25:20Z", "2023-08-30T16:55:35Z"),
    UserRecord("3415a2d7-8f54-4e17-8966-55d1b0219ee4", "Ethan", "Wilson",
               "ethan.wilson@email.com", "+1-555-555-0987",
               "2023-01-28T09:40:10Z", "2023-06-14T12:28:50Z"),
    UserRecord("a81f014a-efea-40d1-9a53-ff7f329b653c", "Ava", "Moore",
               "ava.moore@email.com", "+1-555-555-0147",
               "2023-06-05T14:55:25Z", "2023-09-12T10:18:40Z"),
    UserRecord("3d4c5f82-909d-474c-95ee-0ab44fec640e", "Mason", "Taylor",
               "mason.taylor@email.com", "+1-555-555-0258",
               "2023-07-19T11:30:50Z", "2023-09-28T13:42:15Z"),
    UserRecord("8b5fac60-b246-4601-81e7-a517ceea1c6d", "Isabella", "Anderson",
               "isabella.anderson@email.com", "+1-555-555-0369",
               "2023-08-01T07:15:35Z", "2023-09-05T08:50:25Z"),
    UserRecord("798ada0b-a752-449c-9138-551a4850fb03", "William", "Thomas",
               "william.thomas@email.com", "+1-555-555-0741",
               "2023-09-14T15:20:10Z", "2023-09-20T17:35:55Z")
  ]

  /** There are ten demo records and their identifiers are pairwise distinct. */
  lemma SampleUsersDistinct()
    ensures |SampleUsers| == 10
    ensures DistinctIds(SampleUsers)
  {
  }

  /** Looking up any demo identifier in the demo records yields that record. */
  lemma SampleLookups()
    ensures forall i :: 0 <= i < |SampleUsers| ==> Find(SampleUsers, SampleUsers[i].id) == Some(SampleUsers[i])
  {
    SampleUsersDistinct();
    forall i | 0 <= i < |SampleUsers| ensures Find(SampleUsers, SampleUsers[i].id) == Some(SampleUsers[i]) {
      FindDistinct(SampleUsers, i);
    }
  }

  /** Appending records whose identifiers are new and distinct keeps identifiers distinct. */
  lemma DistinctConcat(a: seq<UserRecord>, b: seq<UserRecord>)
    requires DistinctIds(a) && DistinctIds(b)
    requires Ids(a) !! Ids(b)
    ensures DistinctIds(a + b)
  {
    var ab := a + b;
    forall i, j | 0 <= i < j < |ab| ensures ab[i].id != ab[j].id {
      if j < |a| {
        assert ab[i] == a[i] && ab[j] == a[j];
      } else if i >= |a| {
        assert ab[i] == b[i - |a|] && ab[j] == b[j - |a|];
      } else {
        assert ab[i] == a[i] && ab[j] == b[j - |a|];
        assert a[i].id in Ids(a) && b[j - |a|].id in Ids(b);
      }
    }
  }

  // ---------------------------------------------------------------------------
  // The store object

  /** The store: the record list in insertion order and the seeded flag. */
  class Store {
    var users: seq<UserRecord>
    var seeded: bool

    /** A new store is empty and not yet seeded. */
    constructor ()
      ensures users == [] && !seeded
    {
      users := [];
      seeded := false;
    }

    /** Whether the demo records have been loaded since the last clear. */
    method IsSeeded() returns (b: bool)
      ensures b == seeded
    {
      b := seeded;
    }

    /** Sets the seeded flag and nothing else. */
    method MarkSeeded()
      modifies this
      ensures seeded
      ensures users == old(users)
    {
      seeded := true;
    }

    /** Drops every record and forgets that the store was seeded. */
    method Clear()
      modifies this
      ensures users == []
      ensures !seeded
    {
      users := [];
      seeded := false;
    }
  }

  // ---------------------------------------------------------------------------
  // Store operations

  /**
   * Loads the demo records once: a seeded store is left alone; otherwise the
   * ten records are appended after the existing ones and the flag is set.
   */
  method SeedOnce(s: Store)
    modifies s
    ensures s.seeded
    ensures old(s.seeded) ==> s.users == old(s.users)
    ensures !old(s.seeded) ==> s.users == old(s.users) + SampleUsers
    ensures DistinctIds(old(s.users)) && Ids(old(s.users)) !! Ids(SampleUsers) ==> DistinctIds(s.users)
  {
    var done := s.IsSeeded();
    if done {
      return;
    }
    SampleUsersDistinct();
    if DistinctIds(s.users) && Ids(s.users) !! Ids(SampleUsers) {
      DistinctConcat(s.users, SampleUsers);
    }
    s.users := s.users + SampleUsers;
    s.MarkSeeded();
  }

  /** All records, in insertion order. */
  method ListUsers(s: Store) returns (r: seq<UserRecord>)
    ensures r == s.users
  {
    r := s.users;
  }

  /** The first record whose identifier is `uid`, or `None`, found by a linear scan. */
  method GetUser(s: Store, uid: string) returns (r: Option<UserRecord>)
    ensures r == Find(s.users, uid)
    ensures r.None? <==> uid !in Ids(s.users)
  {
    var i := 0;
    while i < |s.users|
      invariant 0 <= i <= |s.users|
      invariant forall j :: 0 <= j < i ==> s.users[j].id != uid
    {
      if s.users[i].id == uid {
        return Some(s.users[i]);
      }
      i := i + 1;
    }
    return None;
  }

  /**
   * Appends a record built from `data` under the fresh identifier `freshId`,
   * or raises `KeyError` for the first missing key and leaves the store alone.
   */
  method CreateUser(s: Store, data: UserData, freshId: string, createdAt: string, updatedAt: string)
    returns (r: Result<UserRecord, CreateError>)
    requires freshId !in Ids(s.users)
    modifies s
    ensures r == NewRecord(data, freshId, createdAt, updatedAt)
    ensures s.seeded == old(s.seeded)
    ensures r.Success? ==> s.users == old(s.users) + [r.value]
    ensures r.Failure? ==> s.users == old(s.users)
    ensures r.Success? ==> Find(s.users, freshId) == Some(r.value)
    ensures forall uid :: uid != freshId ==> Find(s.users, uid) == Find(old(s.users), uid)
    ensures DistinctIds(old(s.users)) ==> DistinctIds(s.users)
  {
    r := NewRecord(data, freshId, createdAt, updatedAt);
    if r.Failure? {
      return;
    }
    FindAppendFresh(s.users, r.value);
    if DistinctIds(s.users) {
      DistinctConcat(s.users, [r.value]);
    }
    s.users := s.users + [r.value];
  }

  /**
   * Merges the recognised keys of `data` into the first record with
   * identifier `uid` and stamps it with `now`; `None` when there is none.
   */
  method UpdateUser(s: Store, uid: string, data: UserData, now: string) returns (r: Option<UserRecord>)
    modifies s
    ensures s.seeded == old(s.seeded)
    ensures r.None? <==> uid !in Ids(old(s.users))
    ensures r.None? ==> s.users == old(s.users)
    ensures r.Some? ==>
      var k := FirstIndexOf(old(s.users), uid).value;
      r.value == Merge(old(s.users)[k], data, now) && s.users == old(s.users)[k := r.value]
    ensures r.Some? ==> Find(s.users, uid) == r
    ensures forall other :: other != uid ==> Find(s.users, other) == Find(old(s.users), other)
    ensures Ids(s.users) == Ids(old(s.users))
    ensures DistinctIds(old(s.users)) ==> DistinctIds(s.users)
  {
    var found := FirstIndexOf(s.users, uid);
    if found.None? {
      return None;
    }
    var k := found.value;
    var merged := Merge(s.users[k], data, now);
    UpdateAtKeepsOthers(s.users, uid, k, merged);
    s.users := s.users[k := merged];
    r := Some(merged);
  }

  /**
   * Removes every record with identifier `uid`, keeping the others in order,
   * and reports whether anything was removed.
   */
  method DeleteUser(s: Store, uid: string) returns (removed: bool)
    modifies s
    ensures removed <==> uid in Ids(old(s.users))
    ensures s.users == Without(old(s.users), uid)
    ensures s.seeded == old(s.seeded)
    ensures uid !in Ids(s.users) && Find(s.users, uid) == None
    ensures DistinctIds(old(s.users)) ==> DistinctIds(s.users)
    ensures removed && DistinctIds(old(s.users)) ==> |s.users| == |old(s.users)| - 1
  {
    var before := |s.users|;
    var kept := Without(s.users, uid);
    FindWithout(s.users, uid);
    if DistinctIds(s.users) {
      WithoutDistinct(s.users, uid);
      if uid in Ids(s.users) {
        WithoutCountDistinct(s.users, uid);
      }
    }
    if |kept| == before {
      WithoutAbsent(s.users, uid);
      return false;
    }
    s.users := kept;
    return true;
  }

  /** Empties the store and clears the seeded flag, so a later seeding reloads the demo records. */
  method ClearUsers(s: Store)
    modifies s
    ensures s.users == []
    ensures !s.seeded
  {
    s.Clear();
  }

  /** Clears the store and seeds it: afterwards it holds exactly the ten demo records. */
  method ResetAndSeed(s: Store)
    modifies s
    ensures s.users == SampleUsers
    ensures s.seeded
    ensures DistinctIds(s.users)
    ensures forall i :: 0 <= i < |SampleUsers| ==> Find(s.users, SampleUsers[i].id) == Some(SampleUsers[i])
  {
    ClearUsers(s);
    SeedOnce(s);
    SampleUsersDistinct();
    SampleLookups();
  }
}
