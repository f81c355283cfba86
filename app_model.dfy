/**
 * The project lifecycle handlers and list reductions of model.js.
 *
 * The handlers (`create project`, `join project`, `leave project`,
 * `rename`, `persist`, and `loadProject`) read and write the `projects`
 * store of the client-global database, keyed here by `discoveryKey`; the
 * answers of the database and of the crypto library they call are handler
 * parameters.  The reductions (`push mark`, `push note`, `push brief`,
 * `project intro`) are functions from the old lists to the new ones.
 */
module AppModel {
  import opened Wrappers

  /** A project key pair as the handlers receive it: a string, or an object with both halves. */
  datatype KeyPair = KeyPairText(text: string) | KeyPairObject(publicKey: string, secretKey: string)

  /** A record of the `projects` store; a tombstone has `deleted` set and no encryption key or persistence flag. */
  datatype ProjectRecord = ProjectRecord(
    deleted: bool,
    discoveryKey: string,
    replicationKey: string,
    title: string,
    projectKeyPair: KeyPair,
    encryptionKey: Option<string>,
    persistent: Option<bool>)

  datatype AppError =
    | AssertionError
    | TypeError
    /** The database refuses to look up a missing (`null`) key. */
    | InvalidKey
    | Message(text: string)
    /** An error a collaborator (database, crypto) reported. */
    | Failed(cause: string)

  /** The argument of `createProject`. */
  datatype CreateData = CreateData(
    replicationKey: Option<string>,
    discoveryKey: Option<string>,
    encryptionKey: Option<string>,
    projectKeyPair: Option<KeyPair>,
    title: Option<string>,
    persistent: Option<bool>)

  /** What `crypto.replicationKey()` (twice) and `crypto.keyPair()` return for a new project. */
  datatype Generated = Generated(replicationKey: string, encryptionKey: string, publicKey: string, secretKey: string)

  /** The argument of the `join project` handler. */
  datatype JoinData = JoinData(replicationKey: string, encryptionKey: string, projectKeyPair: KeyPair, title: Option<string>)

  /** The project part of the application state. */
  datatype View = View(
    discoveryKey: Option<string>,
    replicationKey: Option<string>,
    encryptionKey: Option<string>,
    projectKeyPair: Option<KeyPair>,
    title: Option<string>,
    persistent: Option<bool>)

  /** JavaScript truthiness of an optional string. */
  predicate Truthy(s: Option<string>) {
    s.Some? && s.value != ""
  }

  predicate IsLive(projects: map<string, ProjectRecord>, discoveryKey: string) {
    discoveryKey in projects && !projects[discoveryKey].deleted
  }

  // ----- createProject -----

  /**
   * The record `createProject` puts: the keys supplied with a replication
   * key (the other three must then be present, the key pair an object), or
   * newly generated ones with the discovery key hashed from the
   * replication key; the title defaults to `untitled` and persistence is a
   * boolean.
   */
  function NewProject(data: CreateData, generated: Generated, hash: string -> string, untitled: string): (r: Result<ProjectRecord, AppError>)
    ensures r.Failure? <==> (Truthy(data.replicationKey) &&
      (data.discoveryKey.None? || data.encryptionKey.None? || data.projectKeyPair.None? || !data.projectKeyPair.value.KeyPairObject?))
    ensures r.Failure? ==> r.error == AssertionError
    ensures r.Success? ==>
      && !r.value.deleted
      && r.value.title == (if Truthy(data.title) then data.title.value else untitled)
      && r.value.persistent == Some(data.persistent == Some(true))
      && r.value.encryptionKey.Some?
      && r.value.projectKeyPair.KeyPairObject?
    ensures r.Success? && !Truthy(data.replicationKey) ==>
      && r.value.replicationKey == generated.replicationKey
      && r.value.discoveryKey == hash(generated.replicationKey)
      && r.value.encryptionKey == Some(generated.encryptionKey)
    ensures r.Success? && Truthy(data.replicationKey) ==>
      && r.value.replicationKey == data.replicationKey.value
      && r.value.discoveryKey == data.discoveryKey.value
      && r.value.encryptionKey == data.encryptionKey
      && r.value.projectKeyPair == data.projectKeyPair.value
  {
    var title := if Truthy(data.title) then data.title.value else untitled;
    var persistent := data.persistent == Some(true);
    if Truthy(data.replicationKey) then
      if data.discoveryKey.None? || data.encryptionKey.None? || data.projectKeyPair.None? then Failure(AssertionError)
      else if !data.projectKeyPair.value.KeyPairObject? then Failure(AssertionError)
      else Success(ProjectRecord(false, data.discoveryKey.value, data.replicationKey.value, title,
                                 data.projectKeyPair.value, data.encryptionKey, Some(persistent)))
    else
      var replicationKey := generated.replicationKey;
      Success(ProjectRecord(false, hash(replicationKey), replicationKey, title,
                            KeyPairObject(generated.publicKey, generated.secretKey),
                            Some(generated.encryptionKey), Some(persistent)))
  }

  // ----- leave project -----

  /** The stub `leave project` writes over a record. */
  function Tombstone(project: ProjectRecord): (r: ProjectRecord)
    ensures r.deleted && r.encryptionKey.None? && r.persistent.None?
    ensures r.discoveryKey == project.discoveryKey && r.replicationKey == project.replicationKey
    ensures r.title == project.title && r.projectKeyPair == project.projectKeyPair
  {
    ProjectRecord(true, project.discoveryKey, project.replicationKey, project.title, project.projectKeyPair, None, None)
  }

  /** The `clear project` reduction: the keys are cleared; title and persistence stay. */
  function ClearProject(view: View): View {
    view.(discoveryKey := None, replicationKey := None, encryptionKey := None, projectKeyPair := None)
  }

  /** The `project` reduction's project fields. */
  function LoadedView(project: ProjectRecord): View {
    View(Some(project.discoveryKey), Some(project.replicationKey), project.encryptionKey,
         Some(project.projectKeyPair), Some(project.title), project.persistent)
  }

  /** A left project is no longer live, keeps its keys and title, and a later join re-creates it. */
  lemma TombstoneEndsLife(projects: map<string, ProjectRecord>, discoveryKey: string)
    requires discoveryKey in projects && projects[discoveryKey].discoveryKey == discoveryKey
    ensures var p := Tombstone(projects[discoveryKey]);
      !IsLive(projects[discoveryKey := p], discoveryKey) && p.title == projects[discoveryKey].title
    ensures var p := Tombstone(projects[discoveryKey]);
      forall k :: k != discoveryKey ==> (IsLive(projects[discoveryKey := p], k) <==> IsLive(projects, k))
  {
  }

  // ----- loadProject -----

  /**
   * The outcome of `loadProject`: a failed read, then reading `deleted`
   * of a missing record (a TypeError), then the tombstone check.
   */
  function LoadOutcome(projects: map<string, ProjectRecord>, discoveryKey: string, loadError: Option<string>): (r: Outcome<AppError>)
    ensures r.Pass? <==> loadError.None? && IsLive(projects, discoveryKey)
    ensures loadError.None? && discoveryKey in projects && projects[discoveryKey].deleted ==>
      r == Fail(Message("deleted project"))
  {
    if loadError.Some? then Fail(Failed(loadError.value))
    else if discoveryKey !in projects then Fail(TypeError)
    else if projects[discoveryKey].deleted then Fail(Message("deleted project"))
    else Pass
  }

  // ----- join project -----

  /** What `join project` does after reading the store: load the live project, or create one first. */
  datatype JoinStep = Redirect | Create(project: ProjectRecord)

  /**
   * `join project` up to the creation of the project, with the key pair
   * checked to be an object, the kind `createProject` requires and the
   * join link supplies.
   */
  function JoinAction(data: JoinData, projects: map<string, ProjectRecord>, generated: Generated,
                      hash: string -> string, discoveryKeyOf: string -> string, untitled: string): Result<JoinStep, AppError>
  {
    if !data.projectKeyPair.KeyPairObject? then Failure(AssertionError)
    else
      var discoveryKey := discoveryKeyOf(data.replicationKey);
      if IsLive(projects, discoveryKey) then Success(Redirect)
      else
        var created := NewProject(
          CreateData(Some(data.replicationKey), Some(discoveryKey), Some(data.encryptionKey),
                     Some(data.projectKeyPair), data.title, None),
          generated, hash, untitled);
        match created
        case Failure(e) => Failure(e)
        case Success(p) => Success(Create(p))
  }

  /**
   * A join with an object key pair skips creation exactly when a live
   * project exists; otherwise, over a tombstone or nothing, it re-creates
   * the project under the derived discovery key with the supplied keys,
   * reusing the supplied title.
   */
  lemma JoinActionSpec(data: JoinData, projects: map<string, ProjectRecord>, generated: Generated,
                       hash: string -> string, discoveryKeyOf: string -> string, untitled: string)
    requires data.projectKeyPair.KeyPairObject? && data.replicationKey != ""
    ensures var discoveryKey := discoveryKeyOf(data.replicationKey);
      var r := JoinAction(data, projects, generated, hash, discoveryKeyOf, untitled);
      && (IsLive(projects, discoveryKey) <==> r == Success(Redirect))
      && (!IsLive(projects, discoveryKey) ==>
            && r.Success? && r.value.Create?
            && r.value.project.discoveryKey == discoveryKey
            && r.value.project.replicationKey == data.replicationKey
            && r.value.project.encryptionKey == Some(data.encryptionKey)
            && r.value.project.projectKeyPair == data.projectKeyPair
            && r.value.project.title == (if Truthy(data.title) then data.title.value else untitled)
            && r.value.project.persistent == Some(false))
  {
  }

  /** `join project` as written: the key pair is asserted to be a string before `createProject` asserts it is an object. */
  function JoinActionAsWritten(data: JoinData, projects: map<string, ProjectRecord>, generated: Generated,
                               hash: string -> string, discoveryKeyOf: string -> string, untitled: string): Result<JoinStep, AppError>
  {
    if !data.projectKeyPair.KeyPairText? then Failure(AssertionError)
    else
      var discoveryKey := discoveryKeyOf(data.replicationKey);
      if IsLive(projects, discoveryKey) then Success(Redirect)
      else
        var created := NewProject(
          CreateData(Some(data.replicationKey), Some(discoveryKey), Some(data.encryptionKey),
                     Some(data.projectKeyPair), data.title, None),
          generated, hash, untitled);
        match created
        case Failure(e) => Failure(e)
        case Success(p) => Success(Create(p))
  }

  /**
   * As written, a join never creates a project: an object key pair (what
   * the join link sends) fails the first assertion, and a string key pair
   * fails the second whenever creation is needed.
   */
  lemma JoinAsWrittenNeverCreates(data: JoinData, projects: map<string, ProjectRecord>, generated: Generated,
                                  hash: string -> string, discoveryKeyOf: string -> string, untitled: string)
    requires data.replicationKey != ""
    ensures var r := JoinActionAsWritten(data, projects, generated, hash, discoveryKeyOf, untitled);
      && (data.projectKeyPair.KeyPairObject? ==> r == Failure(AssertionError))
      && (!IsLive(projects, discoveryKeyOf(data.replicationKey)) ==> r == Failure(AssertionError))
  {
  }

  // ----- the handlers -----

  class Client {
    /** `crypto.hash`. */
    const hash: string -> string
    /** `crypto.discoveryKey`. */
    const discoveryKeyOf: string -> string
    /** The `UNTITLED` title. */
    const untitled: string

    /** The `projects` store of the `proseline` database. */
    var projects: map<string, ProjectRecord>
    /** Project databases in which `createLogKeyPair(true)` completed. */
    var logKeyPairs: set<string>
    /** The project databases passed to `IndexedDB.deleteDatabase`, in order. */
    var deletedDatabases: seq<string>
    var view: View

    /** Every record is stored under its own discovery key. */
    ghost predicate Valid()
      reads this
    {
      forall k :: k in projects ==> projects[k].discoveryKey == k
    }

    constructor (hash: string -> string, discoveryKeyOf: string -> string, untitled: string, projects: map<string, ProjectRecord>)
      requires forall k :: k in projects ==> projects[k].discoveryKey == k
      ensures Valid()
      ensures this.hash == hash && this.discoveryKeyOf == discoveryKeyOf && this.untitled == untitled
      ensures this.projects == projects && logKeyPairs == {} && deletedDatabases == []
      ensures view == View(None, None, None, None, None, None)
    {
      this.hash := hash;
      this.discoveryKeyOf := discoveryKeyOf;
      this.untitled := untitled;
      this.projects := projects;
      logKeyPairs := {};
      deletedDatabases := [];
      view := View(None, None, None, None, None, None);
    }

    /**
     * `createProject`: build the record, put it, and only once the put has
     * succeeded create the project's default log key pair.
     */
    method CreateProject(data: CreateData, generated: Generated, putError: Option<string>, keyPairError: Option<string>)
      returns (r: Result<ProjectRecord, AppError>)
      requires Valid()
      modifies this
      ensures Valid()
      ensures view == old(view) && deletedDatabases == old(deletedDatabases)
      ensures match NewProject(data, generated, hash, untitled)
        case Failure(e) => r == Failure(e) && projects == old(projects) && logKeyPairs == old(logKeyPairs)
        case Success(p) =>
          if putError.Some? then
            r == Failure(Failed(putError.value)) && projects == old(projects) && logKeyPairs == old(logKeyPairs)
          else if keyPairError.Some? then
            r == Failure(Failed(keyPairError.value)) && projects == old(projects)[p.discoveryKey := p]
            && logKeyPairs == old(logKeyPairs)
          else
            r == Success(p) && projects == old(projects)[p.discoveryKey := p]
            && logKeyPairs == old(logKeyPairs) + {p.discoveryKey}
    {
      var built := NewProject(data, generated, hash, untitled);
      match built
      case Failure(e) =>
        r := Failure(e);
      case Success(p) =>
        if putError.Some? {
          return Failure(Failed(putError.value));
        }
        projects := projects[p.discoveryKey := p];
        if keyPairError.Some? {
          return Failure(Failed(keyPairError.value));
        }
        logKeyPairs := logKeyPairs + {p.discoveryKey};
        r := Success(p);
    }

    /** `loadProject`: on success the state shows the stored project. */
    method LoadProject(discoveryKey: string, loadError: Option<string>) returns (r: Outcome<AppError>)
      requires Valid()
      modifies this
      ensures Valid()
      ensures r == LoadOutcome(projects, discoveryKey, loadError)
      ensures r.Pass? ==> view == LoadedView(projects[discoveryKey])
      ensures r.Fail? ==> view == old(view)
      ensures projects == old(projects) && logKeyPairs == old(logKeyPairs) && deletedDatabases == old(deletedDatabases)
    {
      r := LoadOutcome(projects, discoveryKey, loadError);
      if r.Pass? {
        view := LoadedView(projects[discoveryKey]);
      }
    }

    /**
     * `join project`: derive the discovery key, read the store, create the
     * project unless a live one exists, then load it.
     */
    method JoinProject(data: JoinData, generated: Generated, getError: Option<string>,
                       putError: Option<string>, keyPairError: Option<string>, loadError: Option<string>)
      returns (r: Outcome<AppError>)
      requires Valid()
      modifies this
      ensures Valid()
      ensures deletedDatabases == old(deletedDatabases)
      ensures r.Pass? ==> var discoveryKey := discoveryKeyOf(data.replicationKey);
        discoveryKey in projects && view == LoadedView(projects[discoveryKey])
      ensures r.Fail? ==> view == old(view)
      ensures var discoveryKey := discoveryKeyOf(data.replicationKey);
        match JoinAction(data, old(projects), generated, hash, discoveryKeyOf, untitled)
        case Failure(e) =>
          r == Fail(e) && projects == old(projects) && logKeyPairs == old(logKeyPairs) && view == old(view)
        case Success(step) =>
          if getError.Some? then
            r == Fail(Failed(getError.value)) && projects == old(projects) && logKeyPairs == old(logKeyPairs)
            && view == old(view)
          else match step
            case Redirect =>
              projects == old(projects) && logKeyPairs == old(logKeyPairs)
              && r == LoadOutcome(projects, discoveryKey, loadError)
            case Create(p) =>
              if putError.Some? then
                r == Fail(Failed(putError.value)) && projects == old(projects) && logKeyPairs == old(logKeyPairs)
              else
                projects == old(projects)[p.discoveryKey := p]
                && if keyPairError.Some? then
                     r == Fail(Failed(keyPairError.value)) && logKeyPairs == old(logKeyPairs)
                   else
                     logKeyPairs == old(logKeyPairs) + {p.discoveryKey}
                     && r == LoadOutcome(projects, discoveryKey, loadError)
    {
      var action := JoinAction(data, projects, generated, hash, discoveryKeyOf, untitled);
      if action.Failure? {
        return Fail(action.error);
      }
      if getError.Some? {
        return Fail(Failed(getError.value));
      }
      var discoveryKey := discoveryKeyOf(data.replicationKey);
      if !IsLive(projects, discoveryKey) {
        var created := CreateProject(
          CreateData(Some(data.replicationKey), Some(discoveryKey), Some(data.encryptionKey),
                     Some(data.projectKeyPair), data.title, None),
          generated, putError, keyPairError);
        if created.Failure? {
          return Fail(created.error);
        }
      }
      r := LoadProject(discoveryKey, loadError);
    }

    /**
     * `leave project`: in parallel, overwrite the record with its tombstone
     * and delete the project's database; on success, clear the project
     * from the state.
     */
    method LeaveProject(discoveryKey: string, getError: Option<string>, overwriteError: Option<string>)
      returns (r: Outcome<AppError>)
      requires Valid()
      modifies this
      ensures Valid()
      ensures deletedDatabases == old(deletedDatabases) + [discoveryKey] && logKeyPairs == old(logKeyPairs)
      ensures getError.Some? ==> r == Fail(Failed(getError.value)) && projects == old(projects)
      ensures getError.None? && discoveryKey !in old(projects) ==> r == Fail(TypeError) && projects == old(projects)
      ensures getError.None? && discoveryKey in old(projects) && overwriteError.Some? ==>
        r == Fail(Failed(overwriteError.value)) && projects == old(projects)
      ensures getError.None? && discoveryKey in old(projects) && overwriteError.None? ==>
        r == Pass && projects == old(projects)[discoveryKey := Tombstone(old(projects)[discoveryKey])]
      ensures r.Pass? ==> view == ClearProject(old(view))
      ensures r.Fail? ==> view == old(view)
    {
      deletedDatabases := deletedDatabases + [discoveryKey];
      if getError.Some? {
        return Fail(Failed(getError.value));
      }
      if discoveryKey !in projects {
        return Fail(TypeError);
      }
      var stub := Tombstone(projects[discoveryKey]);
      if overwriteError.Some? {
        return Fail(Failed(overwriteError.value));
      }
      projects := projects[stub.discoveryKey := stub];
      view := ClearProject(view);
      r := Pass;
    }

    /** `rename`: refuse a missing or deleted project, otherwise change only its title. */
    method Rename(newTitle: string, getError: Option<string>, overwriteError: Option<string>) returns (r: Outcome<AppError>)
      requires Valid()
      modifies this
      ensures Valid()
      ensures logKeyPairs == old(logKeyPairs) && deletedDatabases == old(deletedDatabases)
      ensures r.Fail? ==> projects == old(projects) && view == old(view)
      ensures getError.Some? ==> r == Fail(Failed(getError.value))
      ensures getError.None? && old(view).discoveryKey.None? ==> r == Fail(InvalidKey)
      ensures old(view).discoveryKey.Some? && getError.None? ==>
        var key := old(view).discoveryKey.value;
          && (key !in old(projects) ==> r == Fail(Message("no project to rename")))
          && (key in old(projects) && old(projects)[key].deleted ==> r == Fail(Message("deleted project")))
          && (IsLive(old(projects), key) && overwriteError.None? ==>
                r == Pass && projects == old(projects)[key := old(projects)[key].(title := newTitle)]
                && view == old(view).(title := Some(newTitle)))
      ensures overwriteError.Some? ==> r.Fail?
      ensures getError.None? && overwriteError.Some? && old(view).discoveryKey.Some?
              && IsLive(old(projects), old(view).discoveryKey.value) ==>
        r == Fail(Failed(overwriteError.value))
    {
      if getError.Some? {
        return Fail(Failed(getError.value));
      }
      if view.discoveryKey.None? {
        return Fail(InvalidKey);
      }
      var key := view.discoveryKey.value;
      if key !in projects {
        return Fail(Message("no project to rename"));
      }
      var project := projects[key];
      if project.deleted {
        return Fail(Message("deleted project"));
      }
      project := project.(title := newTitle);
      if overwriteError.Some? {
        return Fail(Failed(overwriteError.value));
      }
      projects := projects[project.discoveryKey := project];
      view := view.(title := Some(newTitle));
      r := Pass;
    }

    /** `persist`: refuse a missing or deleted project, otherwise set only its persistence flag. */
    method Persist(getError: Option<string>, overwriteError: Option<string>) returns (r: Outcome<AppError>)
      requires Valid()
      modifies this
      ensures Valid()
      ensures logKeyPairs == old(logKeyPairs) && deletedDatabases == old(deletedDatabases)
      ensures r.Fail? ==> projects == old(projects) && view == old(view)
      ensures getError.Some? ==> r == Fail(Failed(getError.value))
      ensures getError.None? && old(view).discoveryKey.None? ==> r == Fail(InvalidKey)
      ensures old(view).discoveryKey.Some? && getError.None? ==>
        var key := old(view).discoveryKey.value;
          && (key !in old(projects) ==> r == Fail(Message("no project")))
          && (key in old(projects) && old(projects)[key].deleted ==> r == Fail(Message("deleted project")))
          && (IsLive(old(projects), key) && overwriteError.None? ==>
                r == Pass && projects == old(projects)[key := old(projects)[key].(persistent := Some(true))]
                && view == old(view).(persistent := Some(true)))
      ensures overwriteError.Some? ==> r.Fail?
      ensures getError.None? && overwriteError.Some? && old(view).discoveryKey.Some?
              && IsLive(old(projects), old(view).discoveryKey.value) ==>
        r == Fail(Failed(overwriteError.value))
    {
      if getError.Some? {
        return Fail(Failed(getError.value));
      }
      if view.discoveryKey.None? {
        return Fail(InvalidKey);
      }
      var key := view.discoveryKey.value;
      if key !in projects {
        return Fail(Message("no project"));
      }
      var project := projects[key];
      if project.deleted {
        return Fail(Message("deleted project"));
      }
      project := project.(persistent := Some(true));
      if overwriteError.Some? {
        return Fail(Failed(overwriteError.value));
      }
      projects := projects[project.discoveryKey := project];
      view := view.(persistent := Some(true));
      r := Pass;
    }
  }

  // ----- the list reductions -----

  datatype Mark = Mark(logPublicKey: string, identifier: string, name: string, draft: string)
  datatype Note = Note(draft: string, text: string)
  datatype Brief = Brief(digest: string, notesCount: int)
  /** An intro entry; `logPublicKey` is its envelope's. */
  datatype Intro = Intro(logPublicKey: string, name: string, device: string)
  datatype Activity = MarkActivity(mark: Mark) | NoteActivity(note: Note) | IntroActivity(intro: Intro)

  /** Two marks with the same writer and identifier are versions of one mark. */
  predicate SameMark(a: Mark, b: Mark) {
    a.logPublicKey == b.logPublicKey && a.identifier == b.identifier
  }

  /** The old marks that the filter in `replacingPriorMarks` keeps. */
  function KeepOthers(oldMarks: seq<Mark>, newMark: Mark): (r: seq<Mark>)
    ensures |r| <= |oldMarks|
    ensures forall m :: m in r <==> m in oldMarks && !SameMark(m, newMark)
  {
    if oldMarks == [] then []
    else if SameMark(oldMarks[0], newMark) then KeepOthers(oldMarks[1..], newMark)
    else [oldMarks[0]] + KeepOthers(oldMarks[1..], newMark)
  }

  /** `replacingPriorMarks`: the new mark first, then the old marks that are not versions of it. */
  function ReplacingPriorMarks(newMark: Mark, oldMarks: seq<Mark>): seq<Mark> {
    [newMark] + KeepOthers(oldMarks, newMark)
  }

  /** The filter keeps the old order: it distributes over concatenation. */
  lemma {:induction false} KeepOthersConcat(a: seq<Mark>, b: seq<Mark>, newMark: Mark)
    ensures KeepOthers(a + b, newMark) == KeepOthers(a, newMark) + KeepOthers(b, newMark)
  {
    if a == [] {
      assert a + b == b;
    } else {
      assert (a + b)[1..] == a[1..] + b;
      KeepOthersConcat(a[1..], b, newMark);
    }
  }

  lemma {:induction false} KeepOthersNone(oldMarks: seq<Mark>, newMark: Mark)
    requires forall i :: 0 <= i < |oldMarks| ==> !SameMark(oldMarks[i], newMark)
    ensures KeepOthers(oldMarks, newMark) == oldMarks
  {
    if oldMarks != [] {
      KeepOthersNone(oldMarks[1..], newMark);
    }
  }

  /**
   * After a mark is pushed, it is the first and only version of itself in
   * the list, every other old mark is still there, and a mark with no
   * earlier version is simply prepended; pushing it again changes nothing.
   */
  lemma ReplacingPriorMarksSpec(newMark: Mark, oldMarks: seq<Mark>)
    ensures var r := ReplacingPriorMarks(newMark, oldMarks);
      && r[0] == newMark
      && (forall i :: 0 < i < |r| ==> !SameMark(r[i], newMark))
      && (forall m :: m in oldMarks && !SameMark(m, newMark) ==> m in r)
      && (forall m :: m in r ==> m == newMark || m in oldMarks)
    ensures (forall i :: 0 <= i < |oldMarks| ==> !SameMark(oldMarks[i], newMark)) ==>
      ReplacingPriorMarks(newMark, oldMarks) == [newMark] + oldMarks
    ensures ReplacingPriorMarks(newMark, ReplacingPriorMarks(newMark, oldMarks)) == ReplacingPriorMarks(newMark, oldMarks)
  {
    var kept := KeepOthers(oldMarks, newMark);
    var r := ReplacingPriorMarks(newMark, oldMarks);
    forall i | 0 < i < |r|
      ensures !SameMark(r[i], newMark)
    {
      assert r[i] == kept[i - 1];
      assert r[i] in kept;
    }
    if forall i :: 0 <= i < |oldMarks| ==> !SameMark(oldMarks[i], newMark) {
      KeepOthersNone(oldMarks, newMark);
    }
    assert SameMark(newMark, newMark);
    assert r == [newMark] + kept;
    assert KeepOthers(r, newMark) == KeepOthers(kept, newMark) by {
      assert r[1..] == kept;
    }
    assert forall i :: 0 <= i < |kept| ==> !SameMark(kept[i], newMark) by {
      forall i | 0 <= i < |kept|
        ensures !SameMark(kept[i], newMark)
      {
        assert kept[i] in kept;
      }
    }
    KeepOthersNone(kept, newMark);
  }

  datatype MarkLists = MarkLists(marks: seq<Mark>, projectMarks: seq<Mark>, activity: seq<Activity>)

  /** `push mark`: replace prior versions in both lists, a list not yet loaded becoming `[mark]`, and prepend the activity. */
  function PushMark(mark: Mark, marks: Option<seq<Mark>>, projectMarks: Option<seq<Mark>>, activity: seq<Activity>): (r: MarkLists)
    ensures |r.marks| >= 1 && r.marks[0] == mark
    ensures |r.projectMarks| >= 1 && r.projectMarks[0] == mark
    ensures marks.Some? ==> r.marks == ReplacingPriorMarks(mark, marks.value)
    ensures projectMarks.Some? ==> r.projectMarks == ReplacingPriorMarks(mark, projectMarks.value)
    ensures marks.None? ==> r.marks == [mark]
    ensures projectMarks.None? ==> r.projectMarks == [mark]
    ensures r.activity == [MarkActivity(mark)] + activity
  {
    MarkLists(
      if marks.Some? then ReplacingPriorMarks(mark, marks.value) else [mark],
      if projectMarks.Some? then ReplacingPriorMarks(mark, projectMarks.value) else [mark],
      [MarkActivity(mark)] + activity)
  }

  /** The briefs after `push note`: the count of every brief of the note's draft goes up by one. */
  function CountNote(briefs: seq<Brief>, draft: string): (r: seq<Brief>)
    ensures |r| == |briefs|
    ensures forall i :: 0 <= i < |r| ==> r[i].digest == briefs[i].digest
    ensures forall i :: 0 <= i < |r| ==>
      r[i].notesCount == briefs[i].notesCount + (if briefs[i].digest == draft then 1 else 0)
  {
    if briefs == [] then []
    else
      var b := briefs[0];
      [if b.digest == draft then b.(notesCount := b.notesCount + 1) else b] + CountNote(briefs[1..], draft)
  }

  function TotalNotes(briefs: seq<Brief>): int {
    if briefs == [] then 0 else briefs[0].notesCount + TotalNotes(briefs[1..])
  }

  function BriefsOf(briefs: seq<Brief>, draft: string): nat {
    if briefs == [] then 0 else (if briefs[0].digest == draft then 1 else 0) + BriefsOf(briefs[1..], draft)
  }

  /** Counting a note raises the total by the number of briefs of its draft: by one when exactly one brief matches. */
  lemma {:induction false} CountNoteTotal(briefs: seq<Brief>, draft: string)
    ensures TotalNotes(CountNote(briefs, draft)) == TotalNotes(briefs) + BriefsOf(briefs, draft)
  {
    if briefs != [] {
      CountNoteTotal(briefs[1..], draft);
      assert CountNote(briefs, draft)[1..] == CountNote(briefs[1..], draft);
    }
  }

  datatype NoteLists = NoteLists(notes: seq<Note>, activity: seq<Activity>, draftBriefs: seq<Brief>)

  /** `push note`: append the note, prepend the activity and count it on its draft's briefs; unloaded lists throw. */
  function PushNote(note: Note, notes: Option<seq<Note>>, draftBriefs: Option<seq<Brief>>, activity: seq<Activity>): (r: Result<NoteLists, AppError>)
    ensures r.Failure? <==> notes.None? || draftBriefs.None?
    ensures r.Failure? ==> r.error == TypeError
    ensures r.Success? ==>
      && r.value.notes == notes.value + [note]
      && r.value.activity == [NoteActivity(note)] + activity
      && r.value.draftBriefs == CountNote(draftBriefs.value, note.draft)
      && TotalNotes(r.value.draftBriefs) == TotalNotes(draftBriefs.value) + BriefsOf(draftBriefs.value, note.draft)
  {
    if notes.None? || draftBriefs.None? then Failure(TypeError)
    else
      CountNoteTotal(draftBriefs.value, note.draft);
      Success(NoteLists(notes.value + [note], [NoteActivity(note)] + activity, CountNote(draftBriefs.value, note.draft)))
  }

  /** `push brief`: append, a list not yet loaded counting as empty. */
  function PushBrief(brief: Brief, draftBriefs: Option<seq<Brief>>): (r: seq<Brief>)
    ensures |r| >= 1 && r[|r| - 1] == brief
    ensures draftBriefs.Some? ==> r[..|r| - 1] == draftBriefs.value
    ensures draftBriefs.None? ==> r == [brief]
  {
    (if draftBriefs.Some? then draftBriefs.value else []) + [brief]
  }

  datatype IntroLists = IntroLists(intros: map<string, Intro>, activity: seq<Activity>)

  /** `project intro`: record the intro under its writer's key and prepend the activity; with no intros loaded it throws. */
  function ProjectIntro(intro: Intro, intros: Option<map<string, Intro>>, activity: seq<Activity>): (r: Result<IntroLists, AppError>)
    ensures r.Failure? <==> intros.None?
    ensures r.Success? ==>
      && r.value.intros.Keys == intros.value.Keys + {intro.logPublicKey}
      && r.value.intros[intro.logPublicKey] == intro
      && (forall k :: k in intros.value && k != intro.logPublicKey ==> r.value.intros[k] == intros.value[k])
      && r.value.activity == [IntroActivity(intro)] + activity
  {
    if intros.None? then Failure(TypeError)
    else Success(IntroLists(intros.value[intro.logPublicKey := intro], [IntroActivity(intro)] + activity))
  }
}
