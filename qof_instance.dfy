/**
 * QofInstance: the base persistable entity, its registration in a book's
 * per-type collections, the mock backend of the instance test suite, and the
 * edit / commit protocol run on them in place.
 *
 * A null QofInstance* is a null `Instance?`. The protocol methods are proved
 * against the value-level state machine of module EditProtocol.
 */
module QofInstance {
  import opened Wrappers
  import opened EditProtocol

  /** A GncGUID, abstracted to a number; 0 plays the part of guid_null(). */
  type Guid = nat
  const NullGuid: Guid := 0

  type Time64 = int

  /** A KvpFrame, known only by its identity. */
  datatype FrameRef = FrameRef(id: nat)

  class Instance {
    var guid: Guid
    var eType: string
    var book: Book?
    var collection: Collection?
    var slots: Option<FrameRef>
    var editLevel: int
    var dirty: bool
    var infant: bool
    var destroying: bool
    var lastUpdate: Time64

    /** g_object_new(QOF_TYPE_INSTANCE): a fresh guid, an empty slot frame, level 0, an infant. */
    constructor (id: Guid, frame: FrameRef)
      requires id != NullGuid
      ensures guid == id && guid != NullGuid
      ensures book == null && collection == null && eType == ""
      ensures slots == Some(frame)
      ensures lastUpdate == 0
      ensures Flags() == FreshFlags
    {
      guid := id;
      eType := "";
      book := null;
      collection := null;
      slots := Some(frame);
      editLevel := 0;
      dirty := false;
      infant := true;
      destroying := false;
      lastUpdate := 0;
    }

    /** The edit-protocol fields of the instance, as one value. */
    function Flags(): (f: EditFlags)
      reads this
    {
      EditFlags(editLevel, dirty, infant, destroying)
    }

    /** qof_instance_set_slots: replaces the frame and always marks the instance dirty. */
    method SetSlots(frame: Option<FrameRef>)
      modifies this`slots, this`dirty
      ensures slots == frame
      ensures dirty
    {
      slots := frame;
      dirty := true;
    }

    /** qof_instance_set_dirty: marks the instance itself dirty; its collection is not touched. */
    method SetDirty()
      modifies this`dirty
      ensures dirty
    {
      dirty := true;
    }

    /** qof_instance_set_dirty_flag. */
    method SetDirtyFlag(flag: bool)
      modifies this`dirty
      ensures dirty == flag
    {
      dirty := flag;
    }

    /** qof_instance_mark_clean. */
    method MarkClean()
      modifies this`dirty
      ensures !dirty
    {
      dirty := false;
    }

    /** qof_instance_set_destroying. */
    method SetDestroying(flag: bool)
      modifies this`destroying
      ensures destroying == flag
    {
      destroying := flag;
    }

    /** qof_instance_set_book: only the back-reference; no registration. */
    method SetBook(b: Book?)
      modifies this`book
      ensures book == b
    {
      book := b;
    }

    /** qof_instance_set_collection: only the back-reference; no registration. */
    method SetCollection(c: Collection?)
      modifies this`collection
      ensures collection == c
    {
      collection := c;
    }

    /** qof_instance_set_last_update. */
    method SetLastUpdate(t: Time64)
      modifies this`lastUpdate
      ensures lastUpdate == t
    {
      lastUpdate := t;
    }

    /** qof_instance_increase_editlevel. */
    method IncreaseEditLevel()
      modifies this`editLevel
      ensures editLevel == old(editLevel) + 1
    {
      editLevel := editLevel + 1;
    }

    /** qof_instance_decrease_editlevel: no clamp here; the level may go negative. */
    method DecreaseEditLevel()
      modifies this`editLevel
      ensures editLevel == old(editLevel) - 1
    {
      editLevel := editLevel - 1;
    }

    /** qof_instance_reset_editlevel. */
    method ResetEditLevel()
      modifies this`editLevel
      ensures editLevel == 0
    {
      editLevel := 0;
    }

    /**
     * qof_instance_set_guid: takes on a new identity and re-keys the
     * collection it belongs to, if any, under that identity.
     */
    method SetGuid(g: Guid)
      modifies this`guid, collection
      ensures guid == g
      ensures collection == old(collection)
      ensures collection != null ==> collection.entities == (old(collection.entities) - {old(guid)})[g := this]
      ensures collection != null ==> collection.Lookup(g) == this
    {
      var col := collection;
      if col != null {
        col.entities := col.entities - {guid};
      }
      guid := g;
      if col != null {
        col.Insert(this);
      }
    }
  }

  /** The registry of one entity type: identity to instance. */
  class Collection {
    const eType: string
    var entities: map<Guid, Instance>

    /** qof_collection_new. */
    constructor (t: string)
      ensures eType == t
      ensures entities == map[]
    {
      eType := t;
      entities := map[];
    }

    /** qof_collection_lookup_entity: the instance registered under `g`, or null. */
    function Lookup(g: Guid): (r: Instance?)
      reads this
      ensures r != null <==> g in entities
      ensures r != null ==> entities[g] == r
    {
      if g in entities then entities[g] else null
    }

    /** qof_collection_insert_entity: registers `inst` under its current identity. */
    method Insert(inst: Instance)
      modifies this`entities
      ensures entities == old(entities)[inst.guid := inst]
      ensures Lookup(inst.guid) == inst
    {
      entities := entities[inst.guid := inst];
    }
  }

  /** A QofBook: the collections created so far, one per type, and the backend, if any. */
  class Book {
    var collections: map<string, Collection>
    var backend: MockBackend?

    /** Every collection is filed under its own type. */
    ghost predicate Valid()
      reads this
    {
      forall t :: t in collections ==> collections[t].eType == t
    }

    /** qof_book_new. */
    constructor ()
      ensures Valid()
      ensures collections == map[]
      ensures backend == null
    {
      collections := map[];
      backend := null;
    }

    /** qof_book_set_backend. */
    method SetBackend(be: MockBackend?)
      modifies this`backend
      ensures backend == be
    {
      backend := be;
    }

    /** qof_book_get_collection: the collection for `t`, created empty on first use and stable after. */
    method GetCollection(t: string) returns (col: Collection)
      requires Valid()
      modifies this`collections
      ensures Valid()
      ensures t in collections && collections[t] == col && col.eType == t
      ensures t in old(collections) ==> collections == old(collections)
      ensures t !in old(collections) ==> fresh(col) && col.entities == map[]
                                         && collections == old(collections)[t := col]
    {
      if t in collections {
        col := collections[t];
      } else {
        col := new Collection(t);
        collections := collections[t := col];
      }
    }
  }

  /**
   * The test suite's shared commit_test record: what the mock backend and the
   * three completion callbacks observed.
   */
  class CommitTest {
    var inst: Instance?
    var commitCalled: bool
    var onErrorCalled: bool
    var onFreeCalled: bool
    var onDoneCalled: bool
    var err: BackendError

    constructor ()
      ensures inst == null && err == NoErr
      ensures !commitCalled && !onErrorCalled && !onFreeCalled && !onDoneCalled
    {
      inst := null;
      commitCalled, onErrorCalled, onFreeCalled, onDoneCalled := false, false, false, false;
      err := NoErr;
    }

    /** on_error: it insists on being handed the error the backend last recorded. */
    method OnError(i: Instance, e: BackendError)
      requires e == err
      modifies this`onErrorCalled
      ensures onErrorCalled
    {
      onErrorCalled := true;
    }

    /** on_done. */
    method OnDone(i: Instance)
      modifies this`onDoneCalled
      ensures onDoneCalled
    {
      onDoneCalled := true;
    }

    /** on_free. */
    method OnFree(i: Instance)
      modifies this`onFreeCalled
      ensures onFreeCalled
    {
      onFreeCalled := true;
    }
  }

  /** QofInstMockBackend: a backend whose commit cleans the instance and reports an injected error. */
  class MockBackend {
    const log: CommitTest
    var injected: BackendError
    var lastError: BackendError

    constructor (log: CommitTest)
      ensures this.log == log
      ensures injected == NoErr && lastError == NoErr
    {
      this.log := log;
      injected := NoErr;
      lastError := NoErr;
    }

    /** begin: remembers the instance. */
    method Begin(inst: Instance)
      modifies log`inst
      ensures log.inst == inst
    {
      log.inst := inst;
    }

    /** set_error: the backend's error slot, mirrored into the shared record. */
    method SetError(e: BackendError)
      modifies this`lastError, log`err
      ensures lastError == e && log.err == e
    {
      lastError := e;
      log.err := e;
    }

    /** commit: marks a dirty instance clean, then reports the injected error. */
    method Commit(inst: Instance)
      modifies this`lastError, log`commitCalled, log`err, inst`dirty
      ensures log.commitCalled
      ensures !inst.dirty
      ensures lastError == injected && log.err == injected
    {
      log.commitCalled := true;
      if inst.dirty {
        inst.MarkClean();
      }
      SetError(injected);
    }

    /** inject_error: the error every later commit will report. */
    method InjectError(e: BackendError)
      modifies this`injected
      ensures injected == e
    {
      injected := e;
    }
  }

  /** qof_book_get_backend of the instance's book; null without an instance, a book or a backend. */
  function BackendOf(inst: Instance?): (r: MockBackend?)
    reads inst, if inst != null then {inst.book} else {}
    ensures r != null <==> inst != null && inst.book != null && inst.book.backend != null
    ensures r != null ==> r == inst.book.backend
  {
    if inst == null || inst.book == null then null else inst.book.backend
  }

  /** What the mock's commit will leave behind: a clean instance and the injected error. */
  function HookOf(be: MockBackend?): (r: Option<CommitHook>)
    reads be
    ensures r.Some? <==> be != null
    ensures r.Some? ==> !r.value.dirtyAfter && r.value.err == be.injected
  {
    if be == null then None else Some(CommitHook(false, be.injected))
  }

  /**
   * qof_begin_edit. Only the outermost call (level not positive) opens a
   * session; it then calls the backend's begin with the instance if the
   * book has a backend, and marks the instance dirty otherwise.
   */
  method BeginEdit(inst: Instance?) returns (outermost: bool)
    modifies inst, if BackendOf(inst) != null then {BackendOf(inst).log} else {}
    ensures inst == null ==> !outermost
    ensures inst != null ==> inst.editLevel == BeginStep(old(inst.editLevel)).level
                             && outermost == BeginStep(old(inst.editLevel)).outermost
    ensures inst != null ==> unchanged(inst`guid, inst`eType, inst`book, inst`collection, inst`slots, inst`lastUpdate,
                                       inst`infant, inst`destroying)
    ensures inst != null && outermost && old(BackendOf(inst)) == null ==> inst.dirty
    ensures inst != null && (!outermost || old(BackendOf(inst)) != null) ==> inst.dirty == old(inst.dirty)
    ensures old(BackendOf(inst)) != null && outermost ==> old(BackendOf(inst)).log.inst == inst
    ensures old(BackendOf(inst)) != null && !outermost ==> unchanged(old(BackendOf(inst)).log)
    ensures var be := old(BackendOf(inst));
            be != null ==> unchanged(be.log`commitCalled, be.log`onErrorCalled, be.log`onDoneCalled,
                                     be.log`onFreeCalled, be.log`err)
  {
    if inst == null {
      return false;
    }
    inst.editLevel := inst.editLevel + 1;
    if 1 < inst.editLevel {
      return false;
    }
    if 0 >= inst.editLevel {
      inst.editLevel := 1;
    }
    var be := BackendOf(inst);
    if be != null {
      be.Begin(inst);
    } else {
      inst.dirty := true;
    }
    return true;
  }

  /**
   * qof_commit_edit. True exactly when the edit is fully closed; a level
   * driven below zero is reported through `unbalanced` (the level it reached)
   * and reset to zero.
   */
  method CommitEdit(inst: Instance?) returns (closed: bool, unbalanced: Option<int>)
    modifies inst
    ensures inst == null ==> !closed && unbalanced == None
    ensures inst != null ==> inst.editLevel == CommitStep(old(inst.editLevel)).level
                             && closed == CommitStep(old(inst.editLevel)).closed
                             && unbalanced == CommitStep(old(inst.editLevel)).unbalanced
    ensures inst != null ==> unchanged(inst`guid, inst`eType, inst`book, inst`collection, inst`slots, inst`lastUpdate,
                                       inst`dirty, inst`infant, inst`destroying)
  {
    unbalanced := None;
    if inst == null {
      return false, None;
    }
    inst.editLevel := inst.editLevel - 1;
    if 0 < inst.editLevel {
      return false, None;
    }
    if 0 > inst.editLevel {
      unbalanced := Some(inst.editLevel);
      inst.editLevel := 0;
    }
    closed := true;
  }

  /**
   * qof_commit_edit_part2. Without a backend nothing is persisted and the
   * flags stay as they were; with one, the backend's commit runs and its error
   * decides between on_error (and clearing destroying) and success (the
   * instance is no longer an infant); on success on_free or on_done follows
   * according to destroying. The callbacks record into `log`, the same record
   * the mock backend writes to.
   */
  method CommitEditPart2(inst: Instance, cbs: Callbacks, log: CommitTest) returns (ok: bool)
    requires BackendOf(inst) != null ==> BackendOf(inst).log == log
    modifies inst`dirty, inst`infant, inst`destroying
    modifies log`commitCalled, log`onErrorCalled, log`onDoneCalled, log`onFreeCalled, log`err
    modifies if BackendOf(inst) != null then {BackendOf(inst)} else {}
    ensures var r := FinalizeStep(old(inst.Flags()), old(HookOf(BackendOf(inst))), cbs);
            && ok == r.ok
            && inst.Flags() == r.flags
            && log.commitCalled == (old(log.commitCalled) || r.committed)
            && log.onErrorCalled == (old(log.onErrorCalled) || r.dispatch.ErrorCallback?)
            && log.onDoneCalled == (old(log.onDoneCalled) || r.dispatch == DoneCallback)
            && log.onFreeCalled == (old(log.onFreeCalled) || r.dispatch == FreeCallback)
    ensures old(BackendOf(inst)) == null ==> log.err == old(log.err)
    ensures old(BackendOf(inst)) != null ==>
              var be := old(BackendOf(inst));
              log.err == be.lastError == be.injected == old(be.injected)
  {
    var be := BackendOf(inst);
    if be != null {
      be.Commit(inst);
      var err := be.lastError;
      if err != NoErr {
        inst.destroying := false;
        if cbs.onError {
          log.OnError(inst, err);
        }
        return false;
      }
      inst.infant := false;
    }
    if inst.destroying {
      if cbs.onFree {
        log.OnFree(inst);
      }
      return true;
    }
    if cbs.onDone {
      log.OnDone(inst);
    }
    return true;
  }

  /**
   * qof_instance_init_data: gives the instance a new identity, its type, the
   * book, and that book's collection for the type, and registers it there.
   * Without a book nothing happens.
   */
  method InitData(inst: Instance, t: string, book: Book?, newGuid: Guid)
    requires inst.book == null
    requires book != null ==> book.Valid()
    requires newGuid != NullGuid && newGuid != inst.guid
    requires book != null && t in book.collections ==> newGuid !in book.collections[t].entities
    modifies inst, book, if book != null && t in book.collections then {book.collections[t]} else {}
    ensures book == null ==> unchanged(inst)
    ensures book != null ==> book.Valid() && t in book.collections
    ensures book != null ==> inst.book == book && inst.collection == book.collections[t] && inst.eType == t
    ensures book != null ==> inst.guid == newGuid && inst.guid != old(inst.guid)
    ensures book != null ==> inst.collection.Lookup(inst.guid) == inst
    ensures book != null ==> book.collections == old(book.collections)[t := inst.collection]
    ensures book != null && t in old(book.collections) ==> inst.collection == old(book.collections[t])
    ensures book != null ==> book.backend == old(book.backend)
    ensures book != null ==>
              inst.collection.entities ==
              (if t in old(book.collections) then old(book.collections[t].entities) else map[])[newGuid := inst]
    ensures inst.Flags() == old(inst.Flags())
    ensures inst.slots == old(inst.slots) && inst.lastUpdate == old(inst.lastUpdate)
  {
    if book == null {
      return;
    }
    inst.book := book;
    var col := book.GetCollection(t);
    inst.eType := t;
    inst.guid := newGuid;
    inst.collection := col;
    col.Insert(inst);
  }

  /**
   * qof_instance_version_cmp: a null instance is older than any instance and
   * equal to another null; otherwise instances are ordered by last update.
   */
  function VersionCmp(left: Instance?, right: Instance?): (r: int)
    reads left, right
    ensures -1 <= r <= 1
    ensures r == 0 <==> (left == null && right == null)
                        || (left != null && right != null && left.lastUpdate == right.lastUpdate)
    ensures r == -1 <==> (left == null && right != null)
                         || (left != null && right != null && left.lastUpdate < right.lastUpdate)
  {
    if left == null && right == null then 0
    else if left == null then -1
    else if right == null then 1
    else if left.lastUpdate < right.lastUpdate then -1
    else if left.lastUpdate > right.lastUpdate then 1
    else 0
  }

  /** Swapping the arguments of VersionCmp negates the result. */
  lemma VersionCmpAntisymmetric(a: Instance?, b: Instance?)
    ensures VersionCmp(a, b) == -VersionCmp(b, a)
  {
  }

  /** VersionCmp is a transitive order, so it can sort instances. */
  lemma VersionCmpTransitive(a: Instance?, b: Instance?, c: Instance?)
    requires VersionCmp(a, b) <= 0 && VersionCmp(b, c) <= 0
    ensures VersionCmp(a, c) <= 0
    ensures VersionCmp(a, b) < 0 || VersionCmp(b, c) < 0 ==> VersionCmp(a, c) < 0
  {
  }

  /** qof_instance_get_book: null for a null instance, else the instance's book. */
  function GetBook(inst: Instance?): (r: Book?)
    reads inst
    ensures inst == null ==> r == null
    ensures inst != null ==> r == inst.book
  {
    if inst == null then null else inst.book
  }

  /** qof_instance_get_guid: no guid at all for a null instance, else the instance's own. */
  function GetGuid(inst: Instance?): (r: Option<Guid>)
    reads inst
    ensures r.None? <==> inst == null
    ensures inst != null ==> r.value == inst.guid
  {
    if inst == null then None else Some(inst.guid)
  }

  /** qof_entity_get_guid, the older getter: the null guid for a null instance. */
  function EntityGetGuid(inst: Instance?): (r: Guid)
    reads inst
    ensures inst == null ==> r == NullGuid
    ensures inst != null ==> r == inst.guid && Some(r) == GetGuid(inst)
  {
    if inst == null then NullGuid else inst.guid
  }

  /** qof_instance_get_dirty: false for a null instance, else the instance's own flag. */
  function IsDirty(inst: Instance?): (r: bool)
    reads inst
    ensures inst == null ==> !r
    ensures inst != null ==> r == inst.dirty
  {
    inst != null && inst.dirty
  }

  /** The entity type an instance is filed under: its collection's type, none without a collection. */
  function FiledType(inst: Instance): (t: string)
    reads inst, inst.collection
    ensures inst.collection != null ==> t == inst.collection.eType
    ensures inst.collection == null ==> t == ""
  {
    if inst.collection == null then "" else inst.collection.eType
  }

  /**
   * qof_instance_get_display_name. `hook` is what the type's get_display_name
   * returns when one is installed; `address` stands for the printed pointer.
   * Without a hook the name is "Object", the type of the instance's
   * collection and the address, separated by single spaces.
   */
  function DisplayName(inst: Instance?, hook: Option<string>, address: string): (r: Option<string>)
    reads inst, if inst != null then {inst.collection} else {}
    ensures r.Some? <==> inst != null
    ensures inst != null && hook.Some? ==> r == hook
    ensures inst != null && hook.None? ==>
              |r.value| == |"Object "| + |FiledType(inst)| + 1 + |address|
              && r.value[..|"Object "|] == "Object "
              && r.value[|"Object "|..|"Object "| + |FiledType(inst)|] == FiledType(inst)
              && r.value[|r.value| - |address| - 1..] == " " + address
  {
    if inst == null then None
    else match hook
      case Some(name) => Some(name)
      case None => Some("Object " + FiledType(inst) + " " + address)
  }

  /**
   * The default display name tells entity types apart: two instances printed
   * at the same address but filed under different types never share a name.
   */
  lemma DefaultNamesTellTypesApart(a: Instance, b: Instance, address: string)
    requires FiledType(a) != FiledType(b)
    ensures DisplayName(a, None, address) != DisplayName(b, None, address)
  {
  }
}
