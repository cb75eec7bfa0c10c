/**
The BuntDB room store: a global key-value store with one entry per room, and an open database per room.

Encoding a room, writing to the global store, and naming, opening and indexing a database may each fail.  Which of
them fail is an input of the operation, so that its contract says what it does about every failure.  A failed update
leaves the global store as it was.
*/
module RoomStore {
  import opened Wrappers

  // An open room database; the name of its file tells it apart.
  type Handle = string

  datatype Store = Store(db: map<string, string>, roomDbs: map<string, Handle>)

  function RoomKey(id: string): string { "room:" + id }

  function UserKey(id: string): string { "user:" + id }

  // ---------------------------------------------------------------- what the surroundings answer

  // For StoreRoom: the first update, the name of the database file, opening it, its index, and the roll-back.
  datatype StoreIo = StoreIo(setFails: bool, fileName: Option<Handle>, opens: bool, indexes: bool, backFails: bool)

  // For DeleteRoom: the first update and the one that puts the value back.
  datatype DeleteIo = DeleteIo(deleteFails: bool, backFails: bool)

  // ---------------------------------------------------------------- what the operations do

  // The database of the room has to be created.
  predicate NeedsDatabase(s: Store, id: string) { RoomKey(id) !in s.db || id !in s.roomDbs }

  predicate Creates(io: StoreIo) { io.fileName.Some? && io.opens && io.indexes }

  // u is the encoded room, or None if the room cannot be encoded.
  predicate StoreFails(s: Store, id: string, u: Option<string>, io: StoreIo) {
    u.None? || io.setFails || (NeedsDatabase(s, id) && !Creates(io))
  }

  // The update that undoes the first one: the old value is put back, or the new entry is deleted.
  function RolledBack(db: map<string, string>, key: string, oldVal: Option<string>): map<string, string> {
    if oldVal.Some? then db[key := oldVal.value] else db - {key}
  }

  function Lookup(db: map<string, string>, key: string): Option<string> { if key in db then Some(db[key]) else None }

  function StoreNext(s: Store, id: string, u: Option<string>, io: StoreIo): Store {
    if u.None? || io.setFails then s
    else
      var key := RoomKey(id);
      var written := s.db[key := u.value];
      if !NeedsDatabase(s, id) then s.(db := written)
      else if Creates(io) then Store(written, s.roomDbs[id := io.fileName.value])
      else if io.backFails then s.(db := written)
      else s.(db := RolledBack(written, key, Lookup(s.db, key)))
  }

  predicate DeleteFails(s: Store, id: string, io: DeleteIo) { id == "" || RoomKey(id) !in s.db || io.deleteFails }

  // The entry that is taken out of roomDbs is the one under the room's key.  What is put back after a failure is the
  // old value, which is empty for a room that is not there.
  function DeleteNext(s: Store, id: string, io: DeleteIo): Store {
    if id == "" then s
    else
      var key := RoomKey(id);
      if !DeleteFails(s, id, io) then Store(s.db - {key}, s.roomDbs - {key})
      else if io.backFails then s
      else s.(db := s.db[key := Lookup(s.db, key).GetOr("")])
  }

  function StoreUserNext(s: Store, id: string, u: Option<string>, fails: bool): Store {
    if u.None? || fails then s else s.(db := s.db[UserKey(id) := u.value])
  }

  // ---------------------------------------------------------------- the code

  class BuntDBPersist {
    var db: map<string, string>
    var roomDbs: map<string, Handle>

    constructor (db: map<string, string>, roomDbs: map<string, Handle>)
      ensures this.db == db && this.roomDbs == roomDbs
    {
      this.db, this.roomDbs := db, roomDbs;
    }

    ghost function State(): Store
      reads this
    {
      Store(db, roomDbs)
    }

    // An update with one Set.
    method Set(key: string, value: string, fails: bool) returns (oldVal: string, replaced: bool, err: bool)
      modifies this`db
      ensures err == fails && replaced == (key in old(db))
      ensures oldVal == Lookup(old(db), key).GetOr("")
      ensures db == if fails then old(db) else old(db)[key := value]
    {
      replaced, err := key in db, fails;
      oldVal := if replaced then db[key] else "";
      if !fails { db := db[key := value]; }
    }

    // An update with one Delete: fails for a missing key; the deleted value is known even if the commit fails.
    method Delete(key: string, fails: bool) returns (oldVal: string, err: bool)
      modifies this`db
      ensures err == (key !in old(db) || fails)
      ensures oldVal == Lookup(old(db), key).GetOr("")
      ensures db == if err then old(db) else old(db) - {key}
    {
      if key !in db {
        return "", true;
      }
      oldVal, err := db[key], fails;
      if !fails { db := db - {key}; }
    }

    method RollBack(key: string, replaced: bool, oldVal: string, fails: bool)
      requires key in db
      modifies this`db
      ensures db == if fails then old(db) else RolledBack(old(db), key, if replaced then Some(oldVal) else None)
    {
      if replaced {
        var _, _, _ := Set(key, oldVal, fails);
      } else {
        var _, _ := Delete(key, fails);
      }
    }

    // All or nothing: a failure whose roll-back succeeds leaves no trace.
    method StoreRoom(id: string, u: Option<string>, io: StoreIo) returns (err: bool)
      modifies this
      ensures err == StoreFails(old(State()), id, u, io)
      ensures State() == StoreNext(old(State()), id, u, io)
      ensures err && !io.backFails ==> State() == old(State())
      ensures
        var isComplete := "room:" + id in old(db) && id in old(roomDbs);
        && (err <==>
              u.None? || io.setFails || (!isComplete && (io.fileName.None? || !io.opens || !io.indexes)))
        && (!err ==> db == old(db)["room:" + id := u.value])
        && (!err ==> roomDbs == if isComplete then old(roomDbs) else old(roomDbs)[id := io.fileName.value])
    {
      if u.None? {
        return true;
      }
      var key := RoomKey(id);
      var oldVal, replaced, failed := Set(key, u.value, io.setFails);
      if failed {
        return true;
      }
      if !replaced || id !in roomDbs {
        RollBackRestores(old(db), key, u.value);
        if io.fileName.None? {
          RollBack(key, replaced, oldVal, io.backFails);
          return true;
        }
        if !io.opens {
          RollBack(key, replaced, oldVal, io.backFails);
          return true;
        }
        if !io.indexes {
          RollBack(key, replaced, oldVal, io.backFails);
          return true;
        }
        roomDbs := roomDbs[id := io.fileName.value];
      }
      return false;
    }

    method DeleteRoom(id: string, io: DeleteIo) returns (err: bool)
      modifies this
      ensures err == DeleteFails(old(State()), id, io)
      ensures State() == DeleteNext(old(State()), id, io)
      ensures err <==> id == "" || "room:" + id !in old(db) || io.deleteFails
      ensures !err ==> db == old(db) - {"room:" + id} && roomDbs == old(roomDbs) - {"room:" + id}
      ensures id != "" && "room:" + id !in old(db) && !io.backFails ==> db == old(db)["room:" + id := ""]
      ensures err ==> roomDbs == old(roomDbs)
      ensures err && RoomKey(id) in old(db) ==> State() == old(State())
    {
      if id == "" {
        return true;
      }
      var oldVal, failed := Delete(RoomKey(id), io.deleteFails);
      if failed {
        var _, _, _ := Set(RoomKey(id), oldVal, io.backFails);
        assert RoomKey(id) in old(db) ==> old(db)[RoomKey(id) := oldVal] == old(db);
        return true;
      }
      roomDbs := roomDbs - {RoomKey(id)};
      return false;
    }

    // Users live in the same store, but storing one touches no room.
    method StoreUser(id: string, u: Option<string>, fails: bool) returns (err: bool)
      modifies this`db
      ensures err == (u.None? || fails)
      ensures State() == StoreUserNext(old(State()), id, u, fails)
      ensures forall room :: Lookup(db, RoomKey(room)) == Lookup(old(db), RoomKey(room))
    {
      if u.None? {
        return true;
      }
      forall room ensures RoomKey(room) != UserKey(id) { KeysDiffer(room, id); }
      var _, _, failed := Set(UserKey(id), u.value, fails);
      err := failed;
    }
  }

  // Whatever the first update did to the entry, the roll-back undoes it.
  lemma RollBackRestores(db: map<string, string>, key: string, value: string)
    ensures RolledBack(db[key := value], key, Lookup(db, key)) == db
  {
  }

  // ---------------------------------------------------------------- all or nothing

  // A failed StoreRoom can be seen exactly if its first update went through, its roll-back did not, and the entry was
  // not the same before.
  lemma FailureIsVisibleIff(s: Store, id: string, u: Option<string>, io: StoreIo)
    requires StoreFails(s, id, u, io)
    ensures StoreNext(s, id, u, io) != s <==>
      u.Some? && !io.setFails && io.backFails && Lookup(s.db, RoomKey(id)) != u
  {
    if u.Some? {
      RollBackRestores(s.db, RoomKey(id), u.value);
      if Lookup(s.db, RoomKey(id)) == u { assert s.db[RoomKey(id) := u.value] == s.db; }
    }
  }

  // A room that was deleted and is stored again gets a new database, and is not stored if that cannot be created.
  lemma StoredAgainAfterDelete(s: Store, id: string, text: string, io: StoreIo)
    requires id != "" && RoomKey(id) in s.db && !io.setFails && !io.backFails
    ensures
      var deleted := DeleteNext(s, id, DeleteIo(false, false));
      var again := StoreNext(deleted, id, Some(text), io);
      if io.fileName.Some? && io.opens && io.indexes then
        && !StoreFails(deleted, id, Some(text), io)
        && again.db == s.db[RoomKey(id) := text] && id in again.roomDbs && again.roomDbs[id] == io.fileName.value
      else
        StoreFails(deleted, id, Some(text), io) && again == deleted && RoomKey(id) !in again.db
  {
    var deleted := DeleteNext(s, id, DeleteIo(false, false));
    RollBackRestores(deleted.db, RoomKey(id), text);
    assert deleted.db[RoomKey(id) := text] == s.db[RoomKey(id) := text];
  }

  // ---------------------------------------------------------------- every stored room has a database

  ghost predicate EveryRoomHasDatabase(s: Store) {
    forall id :: RoomKey(id) in s.db ==> id in s.roomDbs
  }

  lemma KeysDiffer(a: string, b: string)
    ensures RoomKey(a) == RoomKey(b) ==> a == b
    ensures RoomKey(a) != UserKey(b)
  {
    assert RoomKey(a)[5..] == a && RoomKey(b)[5..] == b;
    assert RoomKey(a)[0] == 'r' && UserKey(b)[0] == 'u';
  }

  // StoreRoom keeps this, unless it cannot create the database of a room without one and cannot roll back either.
  lemma StoreKeepsDatabasesIff(s: Store, id: string, u: Option<string>, io: StoreIo)
    requires EveryRoomHasDatabase(s)
    ensures EveryRoomHasDatabase(StoreNext(s, id, u, io)) <==>
      !(u.Some? && !io.setFails && !Creates(io) && io.backFails && id !in s.roomDbs)
  {
    var s' := StoreNext(s, id, u, io);
    if u.Some? { RollBackRestores(s.db, RoomKey(id), u.value); }
    forall other ensures RoomKey(other) in s'.db && other != id ==> RoomKey(other) in s.db {
      KeysDiffer(other, id);
    }
    if u.Some? && !io.setFails && !Creates(io) && io.backFails && id !in s.roomDbs { assert RoomKey(id) in s'.db; }
  }

  // What a caller of DeleteRoom can check beforehand.  A stored room must not have a namesake whose id is its key,
  // because the entry under that name is what DeleteRoom takes out of roomDbs; a missing room must have a database,
  // because DeleteRoom puts an empty value in its place.
  predicate IsSafeToDelete(s: Store, id: string) {
    id == "" || if RoomKey(id) in s.db then RoomKey(RoomKey(id)) !in s.db else id in s.roomDbs
  }

  lemma DeleteKeepsDatabases(s: Store, id: string, io: DeleteIo)
    requires EveryRoomHasDatabase(s) && IsSafeToDelete(s, id)
    ensures EveryRoomHasDatabase(DeleteNext(s, id, io))
  {
    var s', twice := DeleteNext(s, id, io), RoomKey(id);
    forall other | RoomKey(other) in s'.db ensures other in s'.roomDbs {
      KeysDiffer(other, id);
      KeysDiffer(other, twice);
      assert |twice| == |id| + 5;
    }
  }

  lemma DeleteLosesDatabase(s: Store, id: string)
    requires EveryRoomHasDatabase(s) && !IsSafeToDelete(s, id)
    ensures !EveryRoomHasDatabase(DeleteNext(s, id, DeleteIo(false, false)))
  {
    var s', twice := DeleteNext(s, id, DeleteIo(false, false)), RoomKey(id);
    KeysDiffer(twice, id);
    assert |twice| == |id| + 5;
    if RoomKey(id) in s.db {
      assert RoomKey(twice) in s'.db && twice !in s'.roomDbs;
    } else {
      assert RoomKey(id) in s'.db && id !in s'.roomDbs;
    }
  }

  // DeleteRoom keeps a database for every stored room, whatever its updates do, exactly for these ids.
  lemma DeleteKeepsDatabasesIff(s: Store, id: string)
    requires EveryRoomHasDatabase(s)
    ensures (forall io :: EveryRoomHasDatabase(DeleteNext(s, id, io))) <==> IsSafeToDelete(s, id)
  {
    if IsSafeToDelete(s, id) {
      forall io ensures EveryRoomHasDatabase(DeleteNext(s, id, io)) { DeleteKeepsDatabases(s, id, io); }
    } else {
      DeleteLosesDatabase(s, id);
    }
  }

  // Two rooms, one with the key of the other for its id: deleting the second leaves the first without its database,
  // and the second one's database open.
  lemma NamesakeLosesItsDatabase(text: string, file: Handle, file': Handle)
    ensures
      var s := Store(map[RoomKey("a") := text, RoomKey("room:a") := text], map["a" := file, "room:a" := file']);
      var s' := DeleteNext(s, "a", DeleteIo(false, false));
      && EveryRoomHasDatabase(s) && !EveryRoomHasDatabase(s')
      && RoomKey("room:a") in s'.db && "room:a" !in s'.roomDbs && "a" in s'.roomDbs
  {
    var s := Store(map[RoomKey("a") := text, RoomKey("room:a") := text], map["a" := file, "room:a" := file']);
    assert RoomKey("a") == "room:a" && |RoomKey("room:a")| == 11;
    forall id | RoomKey(id) in s.db ensures id in s.roomDbs {
      KeysDiffer(id, "a");
      KeysDiffer(id, "room:a");
    }
    assert !IsSafeToDelete(s, "a");
    DeleteLosesDatabase(s, "a");
  }

  // Deleting a missing room is no no-op: it fails, but unless its second update fails too the room is there from then
  // on, without a database if it had none; only deleting it once more brings the stored rooms back to what they were.
  lemma DeletingNothingStoresSomething(s: Store, id: string, io: DeleteIo)
    requires id != "" && RoomKey(id) !in s.db && !io.backFails && EveryRoomHasDatabase(s)
    ensures
      var s' := DeleteNext(s, id, io);
      var s'' := DeleteNext(s', id, DeleteIo(false, false));
      && DeleteFails(s, id, io) && !DeleteFails(s', id, DeleteIo(false, false))
      && s'.db.Keys == s.db.Keys + {RoomKey(id)}
      && (EveryRoomHasDatabase(s') <==> id in s.roomDbs)
      && s''.db == s.db
  {
    var s' := DeleteNext(s, id, io);
    assert s'.db - {RoomKey(id)} == s.db;
    if id in s.roomDbs {
      DeleteKeepsDatabases(s, id, io);
    } else {
      assert RoomKey(id) in s'.db && id !in s'.roomDbs;
    }
  }

  // ---------------------------------------------------------------- runs

  datatype Operation =
    | StoreRoomOp(id: string, u: Option<string>, stored: StoreIo)
    | DeleteRoomOp(id: string, deleted: DeleteIo)
    | StoreUserOp(id: string, u: Option<string>, fails: bool)

  function Apply(s: Store, op: Operation): Store {
    match op
    case StoreRoomOp(id, u, io) => StoreNext(s, id, u, io)
    case DeleteRoomOp(id, io) => DeleteNext(s, id, io)
    case StoreUserOp(id, u, fails) => StoreUserNext(s, id, u, fails)
  }

  function ApplyAll(s: Store, ops: seq<Operation>): Store {
    if ops == [] then s else Apply(ApplyAll(s, ops[..|ops| - 1]), ops[|ops| - 1])
  }

  // Roll-backs succeed, and a room is deleted only when that is safe.
  predicate IsCareful(s: Store, op: Operation) {
    match op
    case StoreRoomOp(_, _, io) => !io.backFails
    case DeleteRoomOp(id, _) => IsSafeToDelete(s, id)
    case StoreUserOp(_, _, _) => true
  }

  ghost predicate IsOrderly(s: Store, ops: seq<Operation>) {
    forall i :: 0 <= i < |ops| ==> IsCareful(ApplyAll(s, ops[..i]), ops[i])
  }

  lemma ApplyKeepsDatabases(s: Store, op: Operation)
    requires EveryRoomHasDatabase(s) && IsCareful(s, op)
    ensures EveryRoomHasDatabase(Apply(s, op))
  {
    match op {
      case StoreRoomOp(id, u, io) => StoreKeepsDatabasesIff(s, id, u, io);
      case DeleteRoomOp(id, io) => DeleteKeepsDatabases(s, id, io);
      case StoreUserOp(id, u, fails) =>
        var s' := Apply(s, op);
        forall other | RoomKey(other) in s'.db ensures other in s'.roomDbs { KeysDiffer(other, id); }
    }
  }

  // After every orderly run, each stored room has an open database.
  lemma {:induction false} RunsKeepDatabases(s: Store, ops: seq<Operation>)
    requires EveryRoomHasDatabase(s) && IsOrderly(s, ops)
    ensures EveryRoomHasDatabase(ApplyAll(s, ops))
  {
    if ops != [] {
      var front, op := ops[..|ops| - 1], ops[|ops| - 1];
      assert forall i :: 0 <= i < |front| ==> front[i] == ops[i] && front[..i] == ops[..i];
      RunsKeepDatabases(s, front);
      ApplyKeepsDatabases(ApplyAll(s, front), op);
    }
  }

  // ---------------------------------------------------------------- ids without colons

  predicate IsPlainId(id: string) { ':' !in id }

  ghost predicate OnlyPlainIds(s: Store) { forall id :: RoomKey(id) in s.db ==> IsPlainId(id) }

  // Only ids without colons are used, only stored rooms are deleted, and roll-backs succeed.
  predicate IsPlain(s: Store, op: Operation) {
    match op
    case StoreRoomOp(id, _, io) => IsPlainId(id) && !io.backFails
    case DeleteRoomOp(id, _) => IsPlainId(id) && RoomKey(id) in s.db
    case StoreUserOp(_, _, _) => true
  }

  ghost predicate IsPlainRun(s: Store, ops: seq<Operation>) {
    forall i :: 0 <= i < |ops| ==> IsPlain(ApplyAll(s, ops[..i]), ops[i])
  }

  lemma PlainIsCareful(s: Store, op: Operation)
    requires OnlyPlainIds(s) && IsPlain(s, op)
    ensures IsCareful(s, op) && OnlyPlainIds(Apply(s, op))
  {
    if op.DeleteRoomOp? { assert RoomKey(op.id)[4] == ':'; }
    var s' := Apply(s, op);
    forall id | RoomKey(id) in s'.db ensures IsPlainId(id) {
      KeysDiffer(id, op.id);
    }
  }

  // With ids that have no colons, deleting stored rooms only is careful enough.
  lemma {:induction false} PlainRunsAreOrderly(s: Store, ops: seq<Operation>)
    requires OnlyPlainIds(s) && IsPlainRun(s, ops)
    ensures IsOrderly(s, ops) && OnlyPlainIds(ApplyAll(s, ops))
  {
    if ops != [] {
      var front, op := ops[..|ops| - 1], ops[|ops| - 1];
      assert IsPlainRun(s, front) by {
        forall i | 0 <= i < |front| ensures IsPlain(ApplyAll(s, front[..i]), front[i]) {
          assert front[..i] == ops[..i];
        }
      }
      PlainRunsAreOrderly(s, front);
      PlainIsCareful(ApplyAll(s, front), op);
      forall i | 0 <= i < |ops| ensures IsCareful(ApplyAll(s, ops[..i]), ops[i]) {
        if i < |front| { assert front[..i] == ops[..i]; }
      }
    }
  }

}
