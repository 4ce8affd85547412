# In-memory user store

A Dafny model of the user repository behind a small REST API for user records
(`users/store.py`). The store keeps a list of user records in insertion order
and a flag saying whether the ten fixed demo records have been loaded. It is
used through eight module-level operations: seed once, list, get, create,
update, delete, clear, and reset-and-seed. Six of them change the store; list
and get only read it.

The model has two modules:

- `Wrappers` (`wrappers.dfy`): `Option`, used for the "not found" signal and for
  keys missing from an input dictionary, and `Result`, used for the `KeyError`
  that `create_user` can raise.
- `UserStore` (`store.dfy`) contains:
  - `UserRecord`: the stored record, with seven string fields.
  - `UserData`: the caller's dictionary, restricted to the four user keys. Each
    key is `Option<string>`, with `None` meaning the key is absent.
  - The specification functions `FirstIndexOf`, `Find`, `Without`, `NewRecord`
    and `Merge`, plus the lemmas about them.
  - The class `Store`, which has the fields `users: seq<UserRecord>` and
    `seeded: bool`.
  - The store operations, written as methods that take the store as a parameter.

How the model maps to the Python code:

- **The store object.** The code keeps one process-wide store object. The model
  passes a `Store` explicitly to every operation instead.
- **Helper methods.** The store object's own helpers (`is_seeded`,
  `mark_seeded`, `clear`) are methods of `Store`.
- **Identifiers.** `uuid4()` becomes the parameter `freshId` of `CreateUser`.
  `CreateUser` requires that no stored record already has this id.
- **The clock.** `now_iso()` becomes timestamp parameters. `CreateUser` takes
  two of them, because the code reads the clock twice for `createdAt` and
  `updatedAt`, so the two need not be equal.
- **Updating in place.** `update_user` changes the dictionary that `get_user`
  returned. The model records that dictionary reference as the index of the
  first record with the requested id, and replaces the list element at that
  index.
- **Missing keys on create.** `create_user` reads all four keys without a
  default. A missing key raises `KeyError` before anything is appended.
  `CreateUser` models this as `Failure(KeyError(k))`, where `k` is the first
  absent key in the order the dictionary literal reads it. The store is left
  unchanged in that case.
  - The create serializer (`users/serializers.py:20-22`) marks `lastName` and
    `phone` optional, so a request without them gets through validation and
    then fails here.
- **Email uniqueness.** The store never checks it, so the model does not treat
  it as an invariant.
- **Id uniqueness.** This is the invariant the model does treat:
  - `CreateUser`, `UpdateUser` and `DeleteUser` keep ids pairwise distinct
    whenever they were distinct before the call.
  - On an unseeded store, `SeedOnce` keeps them distinct only if the existing
    ids avoid the demo ids. The code appends the demo records after whatever
    is stored. On a seeded store it changes nothing.

## Model

| member | source | states |
|---|---|---|
| `UserStore.Store.constructor` | users/store.py:15-17 | a new store holds no records and is not seeded |
| `UserStore.Store.IsSeeded` | users/store.py:19-25 | returns exactly the seeded flag |
| `UserStore.Store.MarkSeeded` | users/store.py:27-29 | sets the flag and leaves the records unchanged |
| `UserStore.Store.Clear` | users/store.py:31-34 | drops every record and resets the flag to false |
| `UserStore.SampleUsersDistinct` | users/store.py:54-145 | the constant `SampleUsers` (the demo list, field for field) has ten records and their ids are pairwise distinct |
| `UserStore.SampleLookups` | users/store.py:56-138 | looking up any demo id in the demo list yields that demo record |
| `UserStore.SeedOnce` | users/store.py:50-147 | on a seeded store nothing changes; otherwise the ten demo records are appended after the existing ones in their listed order; either way the store ends seeded, so a second call changes nothing; ids stay distinct when they were distinct and, on an unseeded store, the existing ids avoid the demo ids |
| `UserStore.ListUsers` | users/store.py:150-156 | returns every record in insertion order |
| `UserStore.FirstIndexOf` | users/store.py:168 | returns `None` exactly when no record has the id; otherwise returns an in-range index of a record with that id, with no earlier record having it |
| `UserStore.Find` | users/store.py:168 | the value `get_user` returns: "not found" exactly when no record has the id; otherwise a stored record with that id, with no earlier record having it |
| `UserStore.FindDistinct` | users/store.py:168 | when ids are distinct, looking up the id of the record at any position yields that record |
| `UserStore.GetUser` | users/store.py:159-168 | the linear scan returns the first record with the id, or `None`, which happens exactly when the id is absent; the store is not changed |
| `UserStore.NewRecord` | users/store.py:180-188 | succeeds exactly when all four keys are present; the record has the given id and timestamps and the four input values unchanged; otherwise fails with `KeyError` on the first missing key in the order read |
| `UserStore.FindAppendFresh` | users/store.py:180-190 | after appending a record under an unused id, looking up that id finds the record, and lookups of every other id are as before |
| `UserStore.FindAppendOther` | users/store.py:189 | appending a record does not change the lookup of any other id |
| `UserStore.CreateUser` | users/store.py:171-190 | on success exactly one record is appended at the end, and earlier records and the flag stay as they were; a later lookup of the fresh id returns the input's four fields; a missing key raises `KeyError` and leaves the store unchanged; distinct ids stay distinct |
| `UserStore.Merge` | users/store.py:206-213 | keeps `id` and `createdAt`; sets `updatedAt` to the new time; each of the four keys takes the input value when present and keeps the old value when absent |
| `UserStore.MergeTwice` | users/store.py:206-213 | two successive merges equal one merge of the combined input (later keys win) stamped with the later time |
| `UserStore.UpdateAtKeepsOthers` | users/store.py:203-214 | rewriting the first record that has the id with a record of the same id keeps the id set and distinct ids; a lookup of that id then finds the new record, and lookups of other ids are unchanged |
| `UserStore.UpdateUser` | users/store.py:193-214 | returns `None` and changes nothing exactly when the id is absent; otherwise only the first record with that id is replaced by its merge, length and every other position stay the same, and the flag is unchanged; lookups of other ids and the id set are preserved |
| `UserStore.Without` | users/store.py:227 | never longer than the input; the survivors are exactly the input records whose id differs from the given id; the length is unchanged exactly when no record has that id |
| `UserStore.WithoutAbsent` | users/store.py:226-229 | filtering out an id nobody has returns the list unchanged |
| `UserStore.WithoutAppend` | users/store.py:227 | the filter distributes over concatenation, so survivors keep their relative order |
| `UserStore.FindWithout` | users/store.py:227 | after filtering, the id is absent and a lookup of it is "not found" |
| `UserStore.WithoutDistinct` | users/store.py:227 | filtering keeps ids pairwise distinct |
| `UserStore.WithoutCountDistinct` | users/store.py:226-232 | with distinct ids, deleting an id that is present removes exactly one record |
| `UserStore.DistinctConcat` | users/store.py:146 | appending records with distinct ids not yet present keeps ids distinct |
| `UserStore.DeleteUser` | users/store.py:217-232 | reports true exactly when the id was present; the records become the original list without every record of that id, in order (unchanged when the id was absent); the id is then absent, so a second delete reports false; with distinct ids the length drops by exactly one |
| `UserStore.ClearUsers` | users/store.py:235-237 | the store is emptied and the seeded flag reset |
| `UserStore.ResetAndSeed` | users/store.py:240-243 | the store then holds exactly the ten demo records, is seeded, has distinct ids, and a lookup of each demo id yields its record |

## Left out

- The HTTP layer (`users/views.py`): maps "not found" and `False` results to
  404. It is request plumbing around these calls.
- The request validators (`users/serializers.py`): lengths, required keys and
  email syntax are checked inside the web framework, which is not part of this
  model. The create operation has no validation in front of it here, so a
  missing key shows up as the `KeyError` result.
- ORM model, URL routing, the start-up hook and the test fixtures: not part of
  the store.
- UUID generation and ISO-8601 time formatting: these are foreign calls. They
  are parameters here.
- CreateUser: the `freshId !in Ids` precondition stands in for how unlikely a
  UUID collision is. A clash is not handled in the code anyway.
- UpdateUser: does not promise that `updatedAt` increases. The timestamp is a
  parameter, and the code takes whatever the clock reads.
- Aliasing:
  - `list_users`, `get_user`, `create_user` and `update_user` return live
    references into the store (the list itself, or the stored dictionary), so a
    caller could change stored records through them.
  - The model returns values instead, so changes made through those references
    are not modelled.
  - `update_user` changing the looked-up dictionary in place is modelled as
    replacing the list element at that index.
- Concurrency on the shared store: the code does not address it. The model is
  single-threaded.
