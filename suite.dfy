/**
 * The cases of the qofinstance test suite, restated on the model on fresh
 * fixtures, one method per case: its postcondition states the values that
 * case checks; the remaining checks of the case are assertions in the body.
 */
module QofInstanceSuite {
  import opened Wrappers
  import opened EditProtocol
  import opened QofInstance

  /** test_instance_set_get_book: get_book returns the book that was set, and null for a null instance. */
  method SetGetBook() returns (same: bool, nullBook: bool)
    ensures same && nullBook
  {
    var inst := new Instance(1, FrameRef(0));
    var book := new Book();
    inst.SetBook(book);
    same := GetBook(inst) == book;
    nullBook := GetBook(null) == null;
  }

  /**
   * test_instance_set_get_guid: on a null instance get_guid gives nothing and
   * the older getter the null guid; a new guid replaces the one the instance
   * was created with and both getters return it.
   */
  method SetGetGuid() returns (nullGuid: Option<Guid>, nullEntityGuid: Guid, hadOther: bool, got: Option<Guid>, entityGot: Guid)
    ensures nullGuid == None && nullEntityGuid == NullGuid
    ensures hadOther
    ensures got == Some(2) && entityGot == 2
  {
    nullGuid, nullEntityGuid := GetGuid(null), EntityGetGuid(null);
    var inst := new Instance(1, FrameRef(0));
    var newGuid: Guid := 2;
    hadOther := GetGuid(inst).Some? && GetGuid(inst) != Some(newGuid);
    inst.SetGuid(newGuid);
    got, entityGot := GetGuid(inst), EntityGetGuid(inst);
  }

  /** test_instance_new_destroy: the state of a newly constructed instance. */
  method NewInstance() returns (level: int, dirty: bool, infant: bool, destroying: bool, hasGuid: bool)
    ensures level == 0 && !dirty && infant && !destroying && hasGuid
  {
    var inst := new Instance(7, FrameRef(0));
    assert inst.book == null && inst.collection == null && inst.slots.Some?;
    assert inst.lastUpdate == 0;
    level, dirty, infant, destroying := inst.editLevel, inst.dirty, inst.infant, inst.destroying;
    hasGuid := inst.guid != NullGuid;
  }

  /**
   * test_instance_init_data: init gives a new identity, sets book, collection
   * and type, and the collection finds the instance under its identity.
   */
  method InitDataRegisters() returns (sameBook: bool, newGuid: bool, sameCollection: bool, found: bool)
    ensures sameBook && newGuid && sameCollection && found
  {
    var inst := new Instance(1, FrameRef(0));
    var book := new Book();
    var before := inst.guid;
    assert inst.book == null && inst.collection == null;
    InitData(inst, "test type", book, 2);
    sameBook := inst.book == book;
    newGuid := inst.guid != before;
    var col := book.GetCollection("test type");
    sameCollection := col == inst.collection;
    assert inst.eType == "test type";
    found := col.Lookup(inst.guid) == inst;
  }

  /** test_instance_get_set_slots: every set_slots leaves the instance dirty and get_slots returns what was set. */
  method GetSetSlots() returns (dirtyAfter: seq<bool>, slotsAfter: seq<Option<FrameRef>>)
    ensures dirtyAfter == [true, true, true]
    ensures slotsAfter == [Some(FrameRef(0)), Some(FrameRef(1)), None]
  {
    var inst := new Instance(1, FrameRef(0));
    var frame := inst.slots;
    inst.SetSlots(frame);
    var d0, s0 := inst.dirty, inst.slots;
    inst.SetSlots(Some(FrameRef(1)));
    var d1, s1 := inst.dirty, inst.slots;
    inst.SetSlots(None);
    var d2, s2 := inst.dirty, inst.slots;
    dirtyAfter, slotsAfter := [d0, d1, d2], [s0, s1, s2];
  }

  /** test_instance_version_cmp: the six comparisons and their results. */
  method VersionCompare() returns (results: seq<int>)
    ensures results == [0, -1, 1, -1, 1, 0]
  {
    var left := new Instance(1, FrameRef(0));
    var right := new Instance(2, FrameRef(1));
    var r0 := VersionCmp(null, null);
    var r1 := VersionCmp(null, right);
    var r2 := VersionCmp(left, null);
    left.SetLastUpdate(0);
    right.SetLastUpdate(1);
    var r3 := VersionCmp(left, right);
    left.SetLastUpdate(1);
    right.SetLastUpdate(0);
    var r4 := VersionCmp(left, right);
    left.SetLastUpdate(1);
    right.SetLastUpdate(1);
    var r5 := VersionCmp(left, right);
    results := [r0, r1, r2, r3, r4, r5];
  }

  /** test_instance_get_set_dirty: get_dirty of null is false; set_dirty makes the instance dirty. */
  method GetSetDirty() returns (nullDirty: bool, before: bool, after: bool)
    ensures !nullDirty && !before && after
  {
    var inst := new Instance(1, FrameRef(0));
    var col := new Collection("test type");
    inst.SetCollection(col);
    nullDirty := IsDirty(null);
    before := IsDirty(inst);
    inst.SetDirty();
    after := IsDirty(inst);
    inst.SetCollection(null);
  }

  /** test_instance_display_name: the default name without a hook, the hook's name with one. */
  method DisplayNames(address: string) returns (plain: Option<string>, hooked: Option<string>)
    ensures plain == Some("Object " + "test type" + " " + address)
    ensures hooked == Some("Mock display name " + address)
  {
    var inst := new Instance(1, FrameRef(0));
    var col := new Collection("test type");
    inst.SetCollection(col);
    plain := DisplayName(inst, None, address);
    hooked := DisplayName(inst, Some("Mock display name " + address), address);
  }

  /**
   * The fixture of test_instance_begin_edit and test_instance_commit_edit_part2:
   * a book whose backend is the mock, and a new instance that is not yet in the book.
   */
  method MockFixture() returns (inst: Instance, book: Book, be: MockBackend, log: CommitTest)
    ensures fresh(inst) && fresh(book) && fresh(be) && fresh(log)
    ensures book.backend == be && be.log == log && be.injected == NoErr
    ensures inst.book == null && inst.collection == null && inst.guid == 1 && inst.Flags() == FreshFlags
    ensures book.Valid() && book.collections == map[]
    ensures log.inst == null && !log.commitCalled
    ensures !log.onErrorCalled && !log.onFreeCalled && !log.onDoneCalled
  {
    log := new CommitTest();
    be := new MockBackend(log);
    book := new Book();
    book.SetBackend(be);
    inst := new Instance(1, FrameRef(0));
  }

  // test_instance_begin_edit

  /** "Test when instance is null". */
  method BeginEditNull() returns (result: bool)
    ensures !result
  {
    result := BeginEdit(null);
  }

  /** "Test when instance's editlevel is >= 1": only the level moves, from 1 to 2. */
  method BeginEditNested() returns (result: bool, level: int, dirty: bool, begun: bool)
    ensures !result && level == 2 && !dirty && !begun
  {
    var inst, book, be, log := MockFixture();
    inst.eType := "test type";
    inst.IncreaseEditLevel();
    result := BeginEdit(inst);
    level, dirty, begun := inst.editLevel, inst.dirty, log.inst != null;
  }

  /** "Test when instance's editlevel is <= 0 and backend not set": the instance becomes dirty. */
  method BeginEditWithoutBackend() returns (result: bool, level: int, dirty: bool)
    ensures result && level == 1 && dirty
  {
    var inst, book, be, log := MockFixture();
    inst.eType := "test type";
    result := BeginEdit(inst);
    level, dirty := inst.editLevel, inst.dirty;
  }

  /** "Test when instance's editlevel is <= 0 and backend is set": the backend's begin sees the instance; dirty stays false. */
  method BeginEditWithBackend() returns (result: bool, level: int, dirty: bool, begun: bool)
    ensures result && level == 1 && !dirty && begun
  {
    var inst, book, be, log := MockFixture();
    inst.eType := "test type";
    inst.SetDirtyFlag(false);
    inst.SetBook(book);
    assert BackendOf(inst) == be;
    result := BeginEdit(inst);
    level, dirty, begun := inst.editLevel, inst.dirty, log.inst == inst;
  }

  /** test_instance_begin_edit as one sequence on one fixture, in the test's own order. */
  method BeginEditSequence() returns (results: seq<bool>, levels: seq<int>, dirty: seq<bool>, begun: bool)
    ensures results == [false, false, true, true]
    ensures levels == [2, 1, 1]
    ensures dirty == [true, false]
    ensures begun
  {
    var inst, book, be, log := MockFixture();
    inst.eType := "test type";
    var r0 := BeginEdit(null);
    inst.IncreaseEditLevel();
    var r1 := BeginEdit(inst);
    var l1 := inst.editLevel;
    inst.ResetEditLevel();
    var r2 := BeginEdit(inst);
    var l2, d2 := inst.editLevel, inst.dirty;
    inst.ResetEditLevel();
    inst.SetDirtyFlag(false);
    inst.SetBook(book);
    assert BackendOf(inst) == be;
    var r3 := BeginEdit(inst);
    var l3, d3 := inst.editLevel, inst.dirty;
    results, levels, dirty := [r0, r1, r2, r3], [l1, l2, l3], [d2, d3];
    begun := log.inst == inst;
  }

  /**
   * An instance initialised into a book that has the mock backend: its
   * outermost begin_edit reaches that backend and leaves the instance clean.
   */
  method InitThenBeginEdit() returns (result: bool, begun: bool, dirty: bool)
    ensures result && begun && !dirty
  {
    var inst, book, be, log := MockFixture();
    InitData(inst, "test type", book, 2);
    assert BackendOf(inst) == be;
    result := BeginEdit(inst);
    begun, dirty := log.inst == inst, inst.dirty;
  }

  // test_instance_commit_edit

  /** "Test when instance set to null". */
  method CommitEditNull() returns (result: bool, unbalanced: Option<int>)
    ensures !result && unbalanced == None
  {
    result, unbalanced := CommitEdit(null);
  }

  /** "Test when instance's editlevel >= 2", then "= 1": 2 to 1 is still open, 1 to 0 closes. */
  method CommitEditNested() returns (results: seq<bool>, levels: seq<int>)
    ensures results == [false, true]
    ensures levels == [1, 0]
  {
    var inst := new Instance(1, FrameRef(0));
    inst.IncreaseEditLevel();
    inst.IncreaseEditLevel();
    var r1, w1 := CommitEdit(inst);
    var l1 := inst.editLevel;
    var r2, w2 := CommitEdit(inst);
    var l2 := inst.editLevel;
    results, levels := [r1, r2], [l1, l2];
  }

  /** test_instance_commit_edit as one sequence on one instance, in the test's own order. */
  method CommitEditSequence() returns (results: seq<bool>, levels: seq<int>, unbalanced: seq<Option<int>>)
    ensures results == [false, false, true, true]
    ensures levels == [1, 0, 0]
    ensures unbalanced == [None, None, None, Some(-2)]
  {
    var r0, u0 := CommitEdit(null);
    var inst := new Instance(1, FrameRef(0));
    inst.IncreaseEditLevel();
    inst.IncreaseEditLevel();
    assert inst.editLevel == 2;
    var r1, u1 := CommitEdit(inst);
    var l1 := inst.editLevel;
    var r2, u2 := CommitEdit(inst);
    var l2 := inst.editLevel;
    inst.DecreaseEditLevel();
    assert inst.editLevel == -1;
    var r3, u3 := CommitEdit(inst);
    var l3 := inst.editLevel;
    results, levels, unbalanced := [r0, r1, r2, r3], [l1, l2, l3], [u0, u1, u2, u3];
  }

  /** "Test when instance's editlevel < 0": -1 drops to -2, is reported as such, and is reset to 0. */
  method CommitEditUnbalanced() returns (result: bool, level: int, unbalanced: Option<int>)
    ensures result && level == 0 && unbalanced == Some(-2)
  {
    var inst := new Instance(1, FrameRef(0));
    inst.DecreaseEditLevel();
    assert inst.editLevel == -1;
    result, unbalanced := CommitEdit(inst);
    level := inst.editLevel;
  }

  // test_instance_commit_edit_part2; the instance starts dirty, as the test sets it

  /** "Test when instance's backend not set, callbacks not set": a silent success. */
  method Part2NoBackendNoCallbacks() returns (result: bool, dirty: bool, infant: bool, anyCalled: bool)
    ensures result && dirty && infant && !anyCalled
  {
    var inst, book, be, log := MockFixture();
    inst.SetDirtyFlag(true);
    assert HookOf(BackendOf(inst)) == None;
    result := CommitEditPart2(inst, Callbacks(false, false, false), log);
    dirty, infant := inst.dirty, inst.infant;
    anyCalled := log.commitCalled || log.onErrorCalled || log.onFreeCalled || log.onDoneCalled;
  }

  /** Backend not set, destroying: only on_free runs; nothing is committed. */
  method Part2NoBackendDestroying() returns (result: bool, dirty: bool, infant: bool, called: seq<bool>)
    ensures result && dirty && infant
    ensures called == [false, false, true, false]
  {
    var inst, book, be, log := MockFixture();
    inst.SetDirtyFlag(true);
    inst.SetDestroying(true);
    assert HookOf(BackendOf(inst)) == None;
    result := CommitEditPart2(inst, Callbacks(true, true, true), log);
    dirty, infant := inst.dirty, inst.infant;
    called := [log.commitCalled, log.onErrorCalled, log.onFreeCalled, log.onDoneCalled];
  }

  /** Backend not set, not destroying: only on_done runs; nothing is committed. */
  method Part2NoBackendDone() returns (result: bool, dirty: bool, infant: bool, called: seq<bool>)
    ensures result && dirty && infant
    ensures called == [false, false, false, true]
  {
    var inst, book, be, log := MockFixture();
    inst.SetDirtyFlag(true);
    inst.SetDestroying(false);
    assert HookOf(BackendOf(inst)) == None;
    result := CommitEditPart2(inst, Callbacks(true, true, true), log);
    dirty, infant := inst.dirty, inst.infant;
    called := [log.commitCalled, log.onErrorCalled, log.onFreeCalled, log.onDoneCalled];
  }

  /** "Test when instance's backend is set, all cb set, no error produced". */
  method Part2BackendSucceeds() returns (result: bool, dirty: bool, infant: bool, called: seq<bool>)
    ensures result && !dirty && !infant
    ensures called == [true, false, false, true]
  {
    var inst, book, be, log := MockFixture();
    inst.SetDirtyFlag(true);
    inst.SetBook(book);
    inst.SetDestroying(false);
    assert HookOf(BackendOf(inst)) == Some(CommitHook(false, NoErr));
    result := CommitEditPart2(inst, Callbacks(true, true, true), log);
    dirty, infant := inst.dirty, inst.infant;
    called := [log.commitCalled, log.onErrorCalled, log.onFreeCalled, log.onDoneCalled];
  }

  /**
   * "Test when instance's backend is set, all cb set, error produced": a
   * destructive commit fails with ERR_BACKEND_NO_HANDLER; on_error alone runs
   * and the instance is no longer marked for destruction.
   */
  method Part2BackendFails() returns (result: bool, dirty: bool, destroying: bool, called: seq<bool>)
    ensures !result && !dirty && !destroying
    ensures called == [true, true, false, false]
  {
    var inst, book, be, log := MockFixture();
    inst.SetBook(book);
    be.InjectError(NoHandler);
    inst.SetDirtyFlag(true);
    inst.SetDestroying(true);
    assert HookOf(BackendOf(inst)) == Some(CommitHook(false, NoHandler));
    result := CommitEditPart2(inst, Callbacks(true, true, true), log);
    dirty, destroying := inst.dirty, inst.destroying;
    called := [log.commitCalled, log.onErrorCalled, log.onFreeCalled, log.onDoneCalled];
  }
}
