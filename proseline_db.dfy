/**
 * The client-global `proseline` database (db/proseline.js): a `projects`
 * store of project records keyed by their `projectDiscoveryKey`, and a
 * `user` store holding the user's signing identity, subscription and
 * introduction.  The IndexedDB stores are maps updated atomically; the
 * page-bus events the writes emit are recorded in order.
 */
module ProselineDb {
  import opened Wrappers

  /** A JavaScript value as the stores hold it; only strings and numbers are valid IndexedDB keys here. */
  datatype Value =
    | Text(text: string)
    | Number(number: int)
    | Flag(flag: bool)
    | Record(fields: map<string, Value>)

  /** A project record: its own properties. */
  type Project = map<string, Value>

  datatype DbError = AssertionError | DataError

  datatype BusEvent = AddedProject(key: Value) | OverwroteProject(key: Value) | DeletedProject(key: Value)

  const DATABASE_VERSION: int := 2
  const DISCOVERY_KEY: string := "projectDiscoveryKey"
  const READ_KEY: string := "projectReadKey"

  predicate ValidKey(key: Value) {
    key.Text? || key.Number?
  }

  // ----- the schema -----

  /** The object stores a database created by this code has at a given version. */
  function StoresAt(version: int): set<string> {
    (if version >= 1 then {"projects"} else {}) + (if version >= 2 then {"user"} else {})
  }

  /** `_upgrade`: the stores an upgrade from `oldVersion` creates. */
  function CreatedStores(oldVersion: int): set<string> {
    (if oldVersion < 1 then {"projects"} else {}) + (if oldVersion < 2 then {"user"} else {})
  }

  /** An upgrade from any earlier version creates only stores that are missing, and leaves both stores present. */
  lemma UpgradeSpec(oldVersion: int)
    requires oldVersion < DATABASE_VERSION
    ensures CreatedStores(oldVersion) !! StoresAt(oldVersion)
    ensures StoresAt(oldVersion) + CreatedStores(oldVersion) == StoresAt(DATABASE_VERSION) == {"projects", "user"}
  {
  }

  // ----- the projects store -----

  /** `putProject` / `overwriteProject` on the store: both fields are asserted, then the record is put under its key. */
  function PutRecord(store: map<Value, Project>, project: Project): (r: Result<map<Value, Project>, DbError>)
    ensures r.Failure? <==>
      DISCOVERY_KEY !in project || READ_KEY !in project || !ValidKey(project[DISCOVERY_KEY])
  {
    if DISCOVERY_KEY !in project || READ_KEY !in project then Failure(AssertionError)
    else if !ValidKey(project[DISCOVERY_KEY]) then Failure(DataError)
    else Success(store[project[DISCOVERY_KEY] := project])
  }

  /** `getProject`. */
  function GetRecord(store: map<Value, Project>, key: Value): Result<Option<Project>, DbError> {
    if !ValidKey(key) then Failure(DataError)
    else if key in store then Success(Some(store[key]))
    else Success(None)
  }

  /** `deleteProject`: deleting a key with no record succeeds too. */
  function DeleteRecord(store: map<Value, Project>, key: Value): Result<map<Value, Project>, DbError> {
    if !ValidKey(key) then Failure(DataError) else Success(store - {key})
  }

  /** A missing field is an assertion failure that leaves the store as it is. */
  lemma PutProjectRequiresKeys(store: map<Value, Project>, project: Project)
    requires DISCOVERY_KEY !in project || READ_KEY !in project
    ensures PutRecord(store, project) == Failure(AssertionError)
  {
  }

  /** A stored record is read back under its discovery key, and every other record is unchanged. */
  lemma PutThenGet(store: map<Value, Project>, project: Project, other: Value)
    requires PutRecord(store, project).Success?
    ensures GetRecord(PutRecord(store, project).value, project[DISCOVERY_KEY]) == Success(Some(project))
    ensures other != project[DISCOVERY_KEY] ==>
      GetRecord(PutRecord(store, project).value, other) == GetRecord(store, other)
  {
  }

  /** Overwriting replaces the record under the same key, whatever was there. */
  lemma OverwriteReplaces(store: map<Value, Project>, first: Project, second: Project)
    requires PutRecord(store, first).Success?
    requires PutRecord(store, second).Success? && second[DISCOVERY_KEY] == first[DISCOVERY_KEY]
    ensures PutRecord(PutRecord(store, first).value, second) == PutRecord(store, second)
  {
    var k := first[DISCOVERY_KEY];
    assert store[k := first][k := second] == store[k := second];
  }

  /** After a delete the key has no record, and every other record is unchanged. */
  lemma DeleteThenGet(store: map<Value, Project>, key: Value, other: Value)
    requires ValidKey(key)
    ensures GetRecord(DeleteRecord(store, key).value, key) == Success(None)
    ensures other != key ==> GetRecord(DeleteRecord(store, key).value, other) == GetRecord(store, other)
  {
  }

  // ----- the user store -----

  /** The identity `getUserIdentity` creates from a newly made key pair, both halves hex-encoded. */
  function IdentityRecord(publicKeyHex: string, secretKeyHex: string): Value {
    Record(map["publicKey" := Text(publicKeyHex), "secretKey" := Text(secretKeyHex)])
  }

  /** `getUserIdentity` on the store: the stored identity, or a new one that is stored. */
  function GetOrCreateIdentity(user: map<string, Value>, created: Value): (Value, map<string, Value>) {
    if "identity" in user then (user["identity"], user) else (created, user["identity" := created])
  }

  /** Only the first call creates an identity; every later call returns that same identity and writes nothing. */
  lemma GetOrCreateIdentityStable(user: map<string, Value>, created: Value, later: Value)
    ensures var (identity, user') := GetOrCreateIdentity(user, created);
      && ("identity" !in user ==> identity == created)
      && ("identity" in user ==> user' == user)
      && GetOrCreateIdentity(user', later) == (identity, user')
  {
  }

  /** Subscription and introduction are separate keys of the user store: each setter round-trips and leaves the other. */
  lemma UserSettingsRoundTrip(user: map<string, Value>, subscription: Value, intro: Value)
    ensures var u := user["subscription" := subscription];
      && u["subscription"] == subscription
      && ("intro" in u <==> "intro" in user)
      && ("intro" in user ==> u["intro"] == user["intro"])
      && ("identity" in u <==> "identity" in user)
    ensures var u := user["intro" := intro];
      && u["intro"] == intro
      && ("subscription" in u <==> "subscription" in user)
      && ("subscription" in user ==> u["subscription"] == user["subscription"])
  {
  }

  // ----- the database object -----

  class Proseline {
    var stores: set<string>
    var projects: map<Value, Project>
    var user: map<string, Value>
    /** The page-bus events emitted after successful writes. */
    var events: seq<BusEvent>

    ghost predicate Valid()
      reads this
    {
      stores == StoresAt(DATABASE_VERSION)
    }

    /** Opening the database at version 2 over one that was at `oldVersion`, running the upgrade when it is older. */
    constructor (oldVersion: int, existingProjects: map<Value, Project>, existingUser: map<string, Value>)
      requires oldVersion <= DATABASE_VERSION
      ensures Valid()
      ensures projects == (if oldVersion >= 1 then existingProjects else map[])
      ensures user == (if oldVersion >= 2 then existingUser else map[])
      ensures events == []
    {
      stores := StoresAt(oldVersion);
      projects := if oldVersion >= 1 then existingProjects else map[];
      user := if oldVersion >= 2 then existingUser else map[];
      events := [];
      new;
      if oldVersion < DATABASE_VERSION {
        Upgrade(oldVersion);
        UpgradeSpec(oldVersion);
      }
    }

    /** `_upgrade`: create `projects` below version 1 and `user` below version 2. */
    method Upgrade(oldVersion: int)
      requires stores == StoresAt(oldVersion)
      modifies this
      ensures stores == old(stores) + CreatedStores(oldVersion)
      ensures projects == old(projects) && user == old(user) && events == old(events)
    {
      if oldVersion < 1 {
        stores := stores + {"projects"};
      }
      if oldVersion < 2 {
        stores := stores + {"user"};
      }
    }

    /** `putProject`: store the record and announce `added project`. */
    method PutProject(project: Project) returns (r: Outcome<DbError>)
      requires Valid()
      modifies this
      ensures Valid() && user == old(user)
      ensures match PutRecord(old(projects), project)
        case Failure(e) => r == Fail(e) && projects == old(projects) && events == old(events)
        case Success(s) =>
          r == Pass && projects == s && events == old(events) + [AddedProject(project[DISCOVERY_KEY])]
    {
      match PutRecord(projects, project)
      case Failure(e) =>
        r := Fail(e);
      case Success(s) =>
        projects := s;
        events := events + [AddedProject(project[DISCOVERY_KEY])];
        r := Pass;
    }

    /** `overwriteProject`: the same write, announced as `overwrote project`. */
    method OverwriteProject(project: Project) returns (r: Outcome<DbError>)
      requires Valid()
      modifies this
      ensures Valid() && user == old(user)
      ensures match PutRecord(old(projects), project)
        case Failure(e) => r == Fail(e) && projects == old(projects) && events == old(events)
        case Success(s) =>
          r == Pass && projects == s && events == old(events) + [OverwroteProject(project[DISCOVERY_KEY])]
    {
      match PutRecord(projects, project)
      case Failure(e) =>
        r := Fail(e);
      case Success(s) =>
        projects := s;
        events := events + [OverwroteProject(project[DISCOVERY_KEY])];
        r := Pass;
    }

    method GetProject(key: Value) returns (r: Result<Option<Project>, DbError>)
      requires Valid()
      ensures r == GetRecord(projects, key)
      ensures r.Success? && r.value.Some? ==> key in projects && r.value.value == projects[key]
    {
      r := GetRecord(projects, key);
    }

    /** `deleteProject`: remove the record and announce `deleted project`, whether or not there was one. */
    method DeleteProject(key: Value) returns (r: Outcome<DbError>)
      requires Valid()
      modifies this
      ensures Valid() && user == old(user)
      ensures match DeleteRecord(old(projects), key)
        case Failure(e) => r == Fail(e) && projects == old(projects) && events == old(events)
        case Success(s) => r == Pass && projects == s && events == old(events) + [DeletedProject(key)]
    {
      match DeleteRecord(projects, key)
      case Failure(e) =>
        r := Fail(e);
      case Success(s) =>
        projects := s;
        events := events + [DeletedProject(key)];
        r := Pass;
    }

    /** `getUserIdentity`, with `crypto.makeSigningKeyPair` supplied as the hex-encoded pair. */
    method GetUserIdentity(publicKeyHex: string, secretKeyHex: string) returns (identity: Value)
      requires Valid()
      modifies this
      ensures Valid() && projects == old(projects) && events == old(events)
      ensures (identity, user) == GetOrCreateIdentity(old(user), IdentityRecord(publicKeyHex, secretKeyHex))
    {
      if "identity" in user {
        return user["identity"];
      }
      identity := IdentityRecord(publicKeyHex, secretKeyHex);
      user := user["identity" := identity];
    }

    method GetSubscription() returns (r: Option<Value>)
      requires Valid()
      ensures "subscription" in user ==> r == Some(user["subscription"])
      ensures "subscription" !in user ==> r == None
    {
      r := if "subscription" in user then Some(user["subscription"]) else None;
    }

    method SetSubscription(subscription: Value)
      requires Valid()
      modifies this
      ensures Valid() && projects == old(projects) && events == old(events)
      ensures user == old(user)["subscription" := subscription]
    {
      user := user["subscription" := subscription];
    }

    method GetIntro() returns (r: Option<Value>)
      requires Valid()
      ensures "intro" in user ==> r == Some(user["intro"])
      ensures "intro" !in user ==> r == None
    {
      r := if "intro" in user then Some(user["intro"]) else None;
    }

    method SetIntro(intro: Value)
      requires Valid()
      modifies this
      ensures Valid() && projects == old(projects) && events == old(events)
      ensures user == old(user)["intro" := intro]
    {
      user := user["intro" := intro];
    }
  }
}
