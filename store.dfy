/**
 * LocalStorageService (src/services/localStorage.js): a document store kept
 * in the browser's key-value storage. Every key is stored under the prefix
 * "ecotrack_"; a collection is one JSON array of records under its key, and
 * every operation reads the whole array, changes it and writes it back.
 */
module Store {
  import opened Values
  import opened Seqs

  /** What the storage holds under a key: text that parses as JSON to v, or text JSON.parse rejects. */
  datatype Slot = Text(v: Field) | Corrupt

  /** A rejected call: a TypeError from using a non-array as an array, or an Error the code throws. */
  datatype StoreError = TypeError | Thrown(message: string)

  datatype Result<T> = Ok(value: T) | Err(error: StoreError)

  const Prefix: string := "ecotrack_"

  /** The collections seeded with an empty array on construction. */
  const Collections: seq<string> := ["users", "waterLogs", "carbonLogs", "reports", "communityPosts", "leaderboard"]

  const UserExists: string := "User already exists"
  const UserNotFound: string := "User not found. Please sign up first."

  /** `localStorage.getItem` followed by JSON.parse, with null for a missing or unparsable entry. */
  function Read(storage: map<string, Slot>, fullKey: string): Field {
    if fullKey in storage && storage[fullKey].Text? then storage[fullKey].v else FNull
  }

  /** The storage after a `setItem` that succeeded (ok) or failed and left everything as it was. */
  function Written(storage: map<string, Slot>, fullKey: string, v: Field, ok: bool): map<string, Slot> {
    if ok then storage[fullKey := Text(v)] else storage
  }

  /** Whether two storages agree on one key. */
  predicate SameSlot(a: map<string, Slot>, b: map<string, Slot>, k: string) {
    (k in a <==> k in b) && (k in a ==> a[k] == b[k])
  }

  /** Distinct names give distinct storage keys. */
  lemma PrefixInjective(a: string, b: string)
    requires Prefix + a == Prefix + b
    ensures a == b
  {
    assert a == (Prefix + a)[|Prefix|..];
    assert b == (Prefix + b)[|Prefix|..];
  }

  /**
   * `getItem(key) || []` used as an array of records. A falsy value reads as
   * the empty array; an array of objects reads as those records; any other
   * value is used as an array by the code and fails.
   */
  function Items(v: Field): Option<seq<Record>> {
    if !Truthy(v) then Some([])
    else if v.FList? && forall i :: 0 <= i < |v.elems| ==> v.elems[i].FObj? then
      Some(seq(|v.elems|, i requires 0 <= i < |v.elems| && v.elems[i].FObj? => v.elems[i].fields))
    else None
  }

  /** A record array as it is written back (`JSON.stringify(items)`). */
  function Encode(items: seq<Record>): (v: Field)
    ensures Truthy(v)
    ensures Items(v) == Some(items)
  {
    var v := FList(seq(|items|, i requires 0 <= i < |items| => FObj(items[i])));
    assert Items(v).value == items;
    v
  }

  // ---------------------------------------------------------------------------
  // Record construction and matching

  /** `item.id === id`; the id may be any value, `undefined` (None) included. */
  predicate HasId(item: Record, id: Option<Field>) {
    StrictEquals(Prop(item, "id"), id)
  }

  /** `item => item.id === id` */
  function IdIs(id: Option<Field>): Record -> bool {
    item => HasId(item, id)
  }

  /** `item => item.id !== id` */
  function IdIsNot(id: Option<Field>): Record -> bool {
    item => !HasId(item, id)
  }

  /** `{ id, ...data, createdAt: stamp, updatedAt: stamp }` */
  function NewDoc(data: Record, freshId: string, stamp: string): (r: Record)
    ensures r.Keys == data.Keys + {"id", "createdAt", "updatedAt"}
    ensures r["createdAt"] == r["updatedAt"] == FStr(stamp)
    ensures "id" in data ==> r["id"] == data["id"]
    ensures "id" !in data ==> r["id"] == FStr(freshId)
    ensures forall k :: k in data && k != "createdAt" && k != "updatedAt" ==> r[k] == data[k]
  {
    map["id" := FStr(freshId)] + data + map["createdAt" := FStr(stamp), "updatedAt" := FStr(stamp)]
  }

  /** `{ ...item, ...data, updatedAt: stamp }` */
  function Overlay(item: Record, data: Record, stamp: string): (r: Record)
    ensures r.Keys == item.Keys + data.Keys + {"updatedAt"}
    ensures r["updatedAt"] == FStr(stamp)
    ensures forall k :: k in data && k != "updatedAt" ==> r[k] == data[k]
    ensures forall k :: k in item && k !in data && k != "updatedAt" ==> r[k] == item[k]
  {
    item + data + map["updatedAt" := FStr(stamp)]
  }

  predicate HasEmail(u: Record, email: string) {
    "email" in u && u["email"] == FStr(email)
  }

  /** `u => u.email === email` */
  function EmailIs(email: string): Record -> bool {
    u => HasEmail(u, email)
  }

  /** `name || email.split('@')[0]` */
  function DisplayNameFor(email: string, name: string): (r: string)
    ensures name != "" ==> r == name
    ensures name == "" ==> r <= email && '@' !in r
    ensures name == "" && |r| < |email| ==> email[|r|] == '@'
  {
    if name != "" then name else Before(email, '@')
  }

  /** The account record signUp creates. */
  function NewUser(uid: string, email: string, name: string, stamp: string): (u: Record)
    ensures u.Keys == {"uid", "email", "displayName", "isGuest", "createdAt", "ecoScore", "waterSaved", "carbonReduced", "badges"}
    ensures u["uid"] == FStr(uid) && u["email"] == FStr(email)
    ensures u["displayName"] == FStr(DisplayNameFor(email, name))
    ensures u["isGuest"] == FBool(false) && u["ecoScore"] == FNum(50.0)
    ensures u["waterSaved"] == FNum(0.0) && u["carbonReduced"] == FNum(0.0) && u["badges"] == FList([])
    ensures u["createdAt"] == FStr(stamp)
    ensures HasEmail(u, email)
  {
    map["uid" := FStr(uid), "email" := FStr(email),
        "displayName" := FStr(DisplayNameFor(email, name)), "isGuest" := FBool(false),
        "createdAt" := FStr(stamp), "ecoScore" := FNum(50.0), "waterSaved" := FNum(0.0),
        "carbonReduced" := FNum(0.0), "badges" := FList([])]
  }

  // ---------------------------------------------------------------------------
  // Seeding the collections on construction

  /** The storage after `if (!getItem(name)) setItem(name, [])`, whose write succeeds when ok. */
  function Seed(m: map<string, Slot>, name: string, ok: bool): map<string, Slot> {
    if !Truthy(Read(m, Prefix + name)) && ok then m[Prefix + name := Text(FList([]))] else m
  }

  /** Seeding each name in turn. */
  function SeedAll(m: map<string, Slot>, names: seq<string>, oks: seq<bool>): map<string, Slot>
    requires |oks| == |names|
    decreases names
  {
    if names == [] then m else SeedAll(Seed(m, names[0], oks[0]), names[1..], oks[1..])
  }

  /** Seeding one more name after the others. */
  lemma {:induction false} SeedAllSnoc(m: map<string, Slot>, names: seq<string>, oks: seq<bool>, name: string, ok: bool)
    requires |oks| == |names|
    ensures SeedAll(m, names + [name], oks + [ok]) == Seed(SeedAll(m, names, oks), name, ok)
    decreases names
  {
    if names == [] {
      assert SeedAll(Seed(m, name, ok), [], []) == Seed(m, name, ok);
      assert ([] + [name])[1..] == [] && ([] + [ok])[1..] == [];
    } else {
      assert (names + [name])[1..] == names[1..] + [name];
      assert (oks + [ok])[1..] == oks[1..] + [ok];
      SeedAllSnoc(Seed(m, names[0], oks[0]), names[1..], oks[1..], name, ok);
    }
  }

  /** Seeding the next collection extends SeedAll over the ones before it. */
  lemma SeedStep(m: map<string, Slot>, i: nat, oks: seq<bool>, ok: bool)
    requires i < |Collections| && |oks| == i
    ensures SeedAll(m, Collections[..i + 1], oks + [ok]) == Seed(SeedAll(m, Collections[..i], oks), Collections[i], ok)
  {
    assert Collections[..i + 1] == Collections[..i] + [Collections[i]];
    SeedAllSnoc(m, Collections[..i], oks, Collections[i], ok);
  }

  lemma CollectionsDistinct()
    ensures forall i, j :: 0 <= i < j < |Collections| ==> Collections[i] != Collections[j]
  {
    forall i, j | 0 <= i < j < |Collections| ensures Collections[i] != Collections[j] {
      assert |Collections[i]| != |Collections[j]|;
    }
  }

  function SeedKeys(names: seq<string>): set<string> {
    set c | c in names :: Prefix + c
  }

  /** Collection c is left alone if its value was truthy, and otherwise left alone or set to []. */
  predicate Seeded(before: map<string, Slot>, after: map<string, Slot>, c: string) {
    var k := Prefix + c;
    if Truthy(Read(before, k)) then SameSlot(before, after, k)
    else SameSlot(before, after, k) || (k in after && after[k] == Text(FList([])))
  }

  /**
   * Seeding distinct names leaves every key outside them alone, and seeds
   * each one: a key holding a truthy value (an empty array included) keeps it.
   */
  lemma {:induction false} SeedAllEffect(m: map<string, Slot>, names: seq<string>, oks: seq<bool>)
    requires |oks| == |names|
    requires forall i, j :: 0 <= i < j < |names| ==> names[i] != names[j]
    ensures forall k :: k !in SeedKeys(names) ==> SameSlot(m, SeedAll(m, names, oks), k)
    ensures forall c :: c in names ==> Seeded(m, SeedAll(m, names, oks), c)
    decreases names
  {
    if names != [] {
      var m1 := Seed(m, names[0], oks[0]);
      var rest := names[1..];
      SeedAllEffect(m1, rest, oks[1..]);
      var after := SeedAll(m, names, oks);
      assert after == SeedAll(m1, rest, oks[1..]);
      forall k | k !in SeedKeys(names) ensures SameSlot(m, after, k) {
        assert k != Prefix + names[0];
        assert k !in SeedKeys(rest);
      }
      forall c | c in names ensures Seeded(m, after, c) {
        if c == names[0] {
          assert Prefix + c !in SeedKeys(rest) by {
            if Prefix + c in SeedKeys(rest) {
              var d :| d in rest && Prefix + d == Prefix + c;
              PrefixInjective(d, c);
            }
          }
        } else {
          assert c in rest;
          assert Prefix + c != Prefix + names[0] by {
            if Prefix + c == Prefix + names[0] { PrefixInjective(c, names[0]); }
          }
          assert Read(m1, Prefix + c) == Read(m, Prefix + c);
        }
      }
    }
  }

  /**
   * The store. `storage` is the whole browser storage, including keys of
   * other applications; the store only ever touches keys under its prefix.
   * `setItem` and `removeItem` may fail (quota, storage disabled): the model
   * lets each write fail nondeterministically, leaving the storage as it was.
   */
  class LocalStorageService {
    const prefix: string := Prefix
    var storage: map<string, Slot>

    /** Seeds every collection in Collections whose stored value is falsy; touches no other key. */
    constructor (initial: map<string, Slot>)
      ensures forall c :: c in Collections ==> Seeded(initial, storage, c)
      ensures forall k :: k !in SeedKeys(Collections) ==> SameSlot(initial, storage, k)
    {
      storage := initial;
      new;
      var _ := InitializeDefaults();
    }

    /**
     * `initializeDefaults()`: the six guarded writes of the source, one per
     * collection in order, here as one loop over Collections; `oks` records
     * which writes succeeded.
     */
    method InitializeDefaults() returns (ghost oks: seq<bool>)
      modifies this
      ensures |oks| == |Collections| && storage == SeedAll(old(storage), Collections, oks)
      ensures forall c :: c in Collections ==> Seeded(old(storage), storage, c)
      ensures forall k :: k !in SeedKeys(Collections) ==> SameSlot(old(storage), storage, k)
    {
      ghost var s0 := storage;
      oks := [];
      var i := 0;
      while i < |Collections|
        invariant 0 <= i <= |Collections| && |oks| == i
        invariant storage == SeedAll(s0, Collections[..i], oks)
      {
        ghost var ok := SeedIfFalsy(Collections[i]);
        SeedStep(s0, i, oks, ok);
        oks := oks + [ok];
        i := i + 1;
      }
      assert Collections[..i] == Collections;
      CollectionsDistinct();
      SeedAllEffect(s0, Collections, oks);
    }

    /** `if (!this.getItem(key)) this.setItem(key, [])`; `ok` says whether a write happened. */
    method SeedIfFalsy(key: string) returns (ghost ok: bool)
      modifies this
      ensures storage == Seed(old(storage), key, ok)
    {
      ok := false;
      if !Truthy(GetItem(key)) {
        ok := SetItem(key, FList([]));
      }
    }

    /** `getItem(key)`: the parsed value under prefix + key, null when absent or unparsable. */
    function GetItem(key: string): (r: Field)
      reads this
      ensures prefix + key !in storage ==> r == FNull
      ensures prefix + key in storage && storage[prefix + key].Corrupt? ==> r == FNull
      ensures prefix + key in storage && storage[prefix + key].Text? ==> r == storage[prefix + key].v
    {
      Read(storage, prefix + key)
    }

    /** `setItem(key, value)`: reports whether the write happened; a failed write changes nothing. */
    method SetItem(key: string, value: Field) returns (ok: bool)
      modifies this
      ensures storage == Written(old(storage), prefix + key, value, ok)
      ensures ok ==> GetItem(key) == value
      ensures !ok ==> GetItem(key) == old(GetItem(key))
    {
      ok := *;
      if ok {
        storage := storage[prefix + key := Text(value)];
      }
    }

    /** `removeItem(key)`: reports whether the removal happened. */
    method RemoveItem(key: string) returns (ok: bool)
      modifies this
      ensures storage == if ok then old(storage) - {prefix + key} else old(storage)
      ensures ok ==> GetItem(key) == FNull
    {
      ok := *;
      if ok {
        storage := storage - {prefix + key};
      }
    }

    /** The records of a collection as the array methods see them. */
    function Docs(collection: string): Option<seq<Record>>
      reads this
    {
      Items(GetItem(collection))
    }

    // -------------------------------------------------------------------------
    // Document operations

    /** `getDocs(collection)`: the stored value, or [] when it is falsy (absent, unparsable, null). */
    function GetDocs(collection: string): (r: Field)
      reads this
      ensures Truthy(r)
      ensures Truthy(GetItem(collection)) ==> r == GetItem(collection)
      ensures !Truthy(GetItem(collection)) ==> r == FList([])
      ensures Items(r) == Docs(collection)
    {
      assert |Items(FList([])).value| == 0;
      if Truthy(GetItem(collection)) then GetItem(collection) else FList([])
    }

    /** `getDoc(collection, id)`: the first record whose id is `id`, or None. */
    function GetDoc(collection: string, id: Option<Field>): (r: Result<Option<Record>>)
      reads this
      ensures r.Err? <==> Docs(collection).None?
      ensures r == Err(TypeError) || r.Ok?
      ensures r.Ok? && r.value.Some? ==>
        var items := Docs(collection).value;
        exists i :: 0 <= i < |items| && items[i] == r.value.value && HasId(items[i], id) &&
          forall j :: 0 <= j < i ==> !HasId(items[j], id)
      ensures r.Ok? && r.value.None? ==>
        forall j :: 0 <= j < |Docs(collection).value| ==> !HasId(Docs(collection).value[j], id)
    {
      match Docs(collection)
      case None => Err(TypeError)
      case Some(items) =>
        match FirstIndex(items, IdIs(id))
        case None => Ok(None)
        case Some(i) => Ok(Some(items[i]))
    }

    /**
     * `addDoc(collection, data)`: appends one new record and returns it. The
     * write-back's result is ignored, so the record is returned even when the
     * write failed (`written` false).
     */
    method AddDoc(collection: string, data: Record, freshId: string, stamp: string)
      returns (r: Result<Record>, ghost written: bool)
      modifies this
      ensures old(Docs(collection)).None? ==> r == Err(TypeError) && storage == old(storage)
      ensures old(Docs(collection)).Some? ==>
        r == Ok(NewDoc(data, freshId, stamp)) &&
        storage == Written(old(storage), prefix + collection, Encode(old(Docs(collection)).value + [r.value]), written)
      ensures old(Docs(collection)).Some? && written ==>
        Docs(collection) == Some(old(Docs(collection)).value + [r.value])
    {
      var items := Docs(collection);
      if items.None? {
        r, written := Err(TypeError), false;
        return;
      }
      var newItem := NewDoc(data, freshId, stamp);
      var all := items.value + [newItem];
      written := SetItem(collection, Encode(all));
      r := Ok(newItem);
    }

    /**
     * `updateDoc(collection, id, data)`: overlays data on the first record
     * with that id, stamps updatedAt and writes the array back; Ok(None)
     * (null) without writing when no record has that id.
     */
    method UpdateDoc(collection: string, id: Option<Field>, data: Record, stamp: string)
      returns (r: Result<Option<Record>>, ghost written: bool)
      modifies this
      ensures old(Docs(collection)).None? ==> r == Err(TypeError) && storage == old(storage)
      ensures old(Docs(collection)).Some? && FirstIndex(old(Docs(collection)).value, IdIs(id)).None? ==>
        r == Ok(None) && storage == old(storage)
      ensures old(Docs(collection)).Some? && FirstIndex(old(Docs(collection)).value, IdIs(id)).Some? ==>
        var items := old(Docs(collection)).value;
        var i := FirstIndex(items, IdIs(id)).value;
        r == Ok(Some(Overlay(items[i], data, stamp))) &&
        storage == Written(old(storage), prefix + collection, Encode(items[i := r.value.value]), written)
      ensures written ==> (r.Ok? && r.value.Some? &&
        var items := old(Docs(collection)).value;
        Docs(collection) == Some(items[FirstIndex(items, IdIs(id)).value := r.value.value]))
    {
      var items := Docs(collection);
      if items.None? {
        r, written := Err(TypeError), false;
        return;
      }
      var index := FirstIndex(items.value, IdIs(id));
      if index.None? {
        r, written := Ok(None), false;
        return;
      }
      var updated := Overlay(items.value[index.value], data, stamp);
      written := SetItem(collection, Encode(items.value[index.value := updated]));
      r := Ok(Some(updated));
    }

    /** `deleteDoc(collection, id)`: writes back the records without that id; always reports true. */
    method DeleteDoc(collection: string, id: Option<Field>) returns (r: Result<bool>, ghost written: bool)
      modifies this
      ensures old(Docs(collection)).None? ==> r == Err(TypeError) && storage == old(storage)
      ensures old(Docs(collection)).Some? ==>
        r == Ok(true) &&
        storage == Written(old(storage), prefix + collection, Encode(Filter(old(Docs(collection)).value, IdIsNot(id))), written)
      ensures old(Docs(collection)).Some? && written ==> Docs(collection) == Some(Filter(old(Docs(collection)).value, IdIsNot(id)))
    {
      var items := Docs(collection);
      if items.None? {
        r, written := Err(TypeError), false;
        return;
      }
      written := SetItem(collection, Encode(Filter(items.value, IdIsNot(id))));
      r := Ok(true);
    }

    // -------------------------------------------------------------------------
    // Stub authentication

    /**
     * `getCurrentUser()`: the stored current user, or null when none is
     * stored or the stored text does not parse. SignUp, SignIn and SignOut
     * state what it returns after them.
     */
    function GetCurrentUser(): (r: Field)
      reads this
      ensures prefix + "currentUser" in storage && storage[prefix + "currentUser"].Text? ==>
        r == storage[prefix + "currentUser"].v
      ensures (prefix + "currentUser" !in storage || storage[prefix + "currentUser"].Corrupt?) ==> r == FNull
    {
      GetItem("currentUser")
    }

    /**
     * `signUp(email, password, name)`: rejects a taken email without writing;
     * otherwise appends a new user and makes it the current user. The password
     * is not used. `nowMs` is the clock reading that forms the uid.
     */
    method SignUp(email: string, password: string, name: string, nowMs: nat, stamp: string)
      returns (r: Result<Record>, ghost usersWritten: bool, ghost currentWritten: bool)
      modifies this
      ensures old(Docs("users")).None? ==> r == Err(TypeError) && storage == old(storage)
      ensures old(Docs("users")).Some? && FirstIndex(old(Docs("users")).value, EmailIs(email)).Some? ==>
        r == Err(Thrown(UserExists)) && storage == old(storage)
      ensures old(Docs("users")).Some? && FirstIndex(old(Docs("users")).value, EmailIs(email)).None? ==>
        r == Ok(NewUser("user-" + NatText(nowMs), email, name, stamp)) &&
        storage == Written(Written(old(storage), prefix + "users", Encode(old(Docs("users")).value + [r.value]), usersWritten),
                           prefix + "currentUser", FObj(r.value), currentWritten)
      ensures r.Ok? && currentWritten ==> GetCurrentUser() == FObj(r.value)
      ensures !currentWritten ==> GetCurrentUser() == old(GetCurrentUser())
    {
      var users := Docs("users");
      if users.None? {
        r, usersWritten, currentWritten := Err(TypeError), false, false;
        return;
      }
      if FirstIndex(users.value, EmailIs(email)).Some? {
        r, usersWritten, currentWritten := Err(Thrown(UserExists)), false, false;
        return;
      }
      var user := NewUser("user-" + NatText(nowMs), email, name, stamp);
      UsersWriteKeepsSession(storage, Encode(users.value + [user]), true);
      usersWritten := SetItem("users", Encode(users.value + [user]));
      currentWritten := SetItem("currentUser", FObj(user));
      r := Ok(user);
    }

    /** `signIn(email, password)`: the first user with that email becomes the current user; the password is ignored. */
    method SignIn(email: string, password: string) returns (r: Result<Record>, ghost written: bool)
      modifies this
      ensures old(Docs("users")).None? ==> r == Err(TypeError) && storage == old(storage)
      ensures old(Docs("users")).Some? && FirstIndex(old(Docs("users")).value, EmailIs(email)).None? ==>
        r == Err(Thrown(UserNotFound)) && storage == old(storage)
      ensures old(Docs("users")).Some? && FirstIndex(old(Docs("users")).value, EmailIs(email)).Some? ==>
        r == Ok(old(Docs("users")).value[FirstIndex(old(Docs("users")).value, EmailIs(email)).value]) &&
        storage == Written(old(storage), prefix + "currentUser", FObj(r.value), written)
      ensures r.Ok? && written ==> GetCurrentUser() == FObj(r.value)
      ensures !written ==> GetCurrentUser() == old(GetCurrentUser())
    {
      var users := Docs("users");
      if users.None? {
        r, written := Err(TypeError), false;
        return;
      }
      var index := FirstIndex(users.value, EmailIs(email));
      if index.None? {
        r, written := Err(Thrown(UserNotFound)), false;
        return;
      }
      var user := users.value[index.value];
      written := SetItem("currentUser", FObj(user));
      r := Ok(user);
    }

    /** `signOut()`: removes the current user; reports true whether or not the removal happened. */
    method SignOut() returns (r: bool, ghost removed: bool)
      modifies this
      ensures r
      ensures storage == if removed then old(storage) - {prefix + "currentUser"} else old(storage)
      ensures removed ==> GetCurrentUser() == FNull
      ensures !removed ==> GetCurrentUser() == old(GetCurrentUser())
    {
      removed := RemoveItem("currentUser");
      r := true;
    }
  }

  // ---------------------------------------------------------------------------
  // Properties relating several operations

  /** A record appended under an id no earlier record has is the one getDoc finds. */
  lemma FindAfterAdd(items: seq<Record>, rec: Record, id: Option<Field>)
    requires forall i :: 0 <= i < |items| ==> !HasId(items[i], id)
    requires HasId(rec, id)
    ensures FirstIndex(items + [rec], IdIs(id)) == Some(|items|)
    ensures Find(items + [rec], IdIs(id)) == Some(rec)
  {
    FirstIndexAppend(items, rec, IdIs(id));
  }

  /** Writing the users collection leaves the stored current user as it was. */
  lemma UsersWriteKeepsSession(storage: map<string, Slot>, v: Field, ok: bool)
    ensures Read(Written(storage, Prefix + "users", v, ok), Prefix + "currentUser") == Read(storage, Prefix + "currentUser")
  {
    assert (Prefix + "users")[|Prefix|] != (Prefix + "currentUser")[|Prefix|];
  }

  /** deleteDoc keeps exactly the records without the id, and deleting again changes nothing. */
  lemma DeleteEffect(items: seq<Record>, id: Option<Field>)
    ensures forall x :: x in Filter(items, IdIsNot(id)) <==> x in items && !HasId(x, id)
    ensures Filter(Filter(items, IdIsNot(id)), IdIsNot(id)) == Filter(items, IdIsNot(id))
  {
    forall x ensures x in Filter(items, IdIsNot(id)) <==> x in items && !HasId(x, id) {
      FilterMembers(items, IdIsNot(id), x);
    }
    FilterIdempotent(items, IdIsNot(id));
  }

  /**
   * The array updateDoc writes back: unless the data brings a different id,
   * the overlaid record keeps the id, so looking the id up again finds it at
   * the same position, and every other record is as it was.
   */
  lemma UpdateKeepsId(items: seq<Record>, id: Option<Field>, data: Record, stamp: string)
    requires FirstIndex(items, IdIs(id)).Some?
    requires "id" !in data || HasId(data, id)
    ensures
      var i := FirstIndex(items, IdIs(id)).value;
      var updated := items[i := Overlay(items[i], data, stamp)];
      |updated| == |items| &&
      FirstIndex(updated, IdIs(id)) == Some(i) &&
      Find(updated, IdIs(id)) == Some(Overlay(items[i], data, stamp)) &&
      forall j :: 0 <= j < |items| && j != i ==> updated[j] == items[j]
  {
    var i := FirstIndex(items, IdIs(id)).value;
    var rec := Overlay(items[i], data, stamp);
    var updated := items[i := rec];
    assert Prop(rec, "id") == if "id" in data then Prop(data, "id") else Prop(items[i], "id");
    assert IdIs(id)(updated[i]);
    forall j | 0 <= j < i ensures !IdIs(id)(updated[j]) {
      assert updated[j] == items[j];
    }
  }

  /** No two users share an email. */
  ghost predicate EmailsDistinct(users: seq<Record>) {
    forall i, j, e :: 0 <= i < j < |users| && HasEmail(users[i], e) ==> !HasEmail(users[j], e)
  }

  /** signUp only appends a user whose email is not taken, so it keeps emails distinct. */
  lemma SignUpKeepsEmailsDistinct(users: seq<Record>, email: string, user: Record)
    requires EmailsDistinct(users)
    requires FirstIndex(users, EmailIs(email)).None?
    requires "email" in user && user["email"] == FStr(email)
    ensures EmailsDistinct(users + [user])
  {
    var all := users + [user];
    forall i, j, e | 0 <= i < j < |all| && HasEmail(all[i], e) ensures !HasEmail(all[j], e) {
      if j == |users| {
        assert all[i] == users[i];
        assert !EmailIs(email)(users[i]);
        assert e != email;
      }
    }
  }

  /** After a sign-up whose writes happened, signing in with that email finds the new user. */
  lemma SignInAfterSignUp(users: seq<Record>, email: string, user: Record)
    requires FirstIndex(users, EmailIs(email)).None?
    requires HasEmail(user, email)
    ensures FirstIndex(users + [user], EmailIs(email)) == Some(|users|)
    ensures (users + [user])[|users|] == user
  {
    FirstIndexAppend(users, user, EmailIs(email));
  }
}
