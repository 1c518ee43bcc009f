# QofInstance edit / commit protocol in Dafny

This project models the core of GnuCash's QOF engine: the `QofInstance`
base entity and the protocol that brackets changes to it.

- `qof_begin_edit` opens nested edit sessions.
- `qof_commit_edit` closes them, and clamps an unbalanced call back to level 0.
- `qof_commit_edit_part2` finalizes the commit. It asks the book's backend to
  commit, and then calls one of the caller's `on_error` / `on_done` / `on_free`
  callbacks.
- `qof_instance_version_cmp` orders instances by their last update.
- Books hold per-type collections that map identities to instances.
- `QofInstMockBackend` is the test backend. It remembers the instance it
  was begun with. Its commit cleans the instance and reports an injected error.

The behaviour is taken from the instance test suite, including its mock
backend and its callbacks.

Files:

- `wrappers.dfy`: module `Wrappers`, the `Option` type.
- `edit_protocol.dfy`: module `EditProtocol`. The protocol as pure functions
  over an instance's edit level and its dirty / infant / destroying flags. It
  also holds the lemmas about runs of calls: nested begins only count, N begins
  and N commits balance, and every surplus commit is clamped and reported.
- `qof_instance.dfy`: module `QofInstance`. Classes `Instance`, `Collection`,
  `Book`, `MockBackend` and `CommitTest`, the test's shared record of what the
  backend and the callbacks saw. The protocol runs as methods that change
  these objects in place. Each method's postcondition ties the new state to
  the `EditProtocol` function of the old state. A null `QofInstance*` is a
  null `Instance?`.
- `suite.dfy`: module `QofInstanceSuite`. The book, guid, slots, dirty,
  version, init, display-name, begin, commit and part-2 cases of the instance
  tests are restated on fresh fixtures, one method per case; the begin and
  commit tests are also replayed whole, in their own order, on one fixture.
  Each method's postcondition states the values its case checks.

Without a backend, the outermost `begin_edit` marks the instance dirty
(test-qofinstance.cpp:475-480). With one, it calls the backend's `begin` and
leaves `dirty` alone (test-qofinstance.cpp:482-490).

## Model

| member | source | states |
|---|---|---|
| `EditProtocol.BeginStep` | libgnucash/engine/test/test-qofinstance.cpp:469-490 | begin_edit opens a session exactly when the level was not positive, and the level then becomes 1; a nested call only increments the level; afterwards the level is always at least 1 |
| `EditProtocol.CommitStep` | libgnucash/engine/test/test-qofinstance.cpp:512-533 | commit_edit returns true exactly when the level reaches 0 (the old level was at most 1); a level above 1 only decrements; the level never rests negative; the unbalanced diagnostic is raised exactly when the decrement goes below 0, and it carries that level (-2 from -1) |
| `EditProtocol.CommitUndoesBegin` | libgnucash/engine/test/test-qofinstance.cpp:512-523 | from a level that is not negative, one commit_edit undoes one begin_edit: the level is restored, the commit closes exactly when the begin opened, and nothing is reported |
| `EditProtocol.NestedBeginsOnlyCount` | libgnucash/engine/test/test-qofinstance.cpp:469-473 | inside an open session, n begin_edit calls raise the level by n and every one of them returns false |
| `EditProtocol.CommitsUnwind` | libgnucash/engine/test/test-qofinstance.cpp:512-523 | up to `level` commit_edit calls lower the level by one each and report nothing, and only the call that reaches 0 returns true |
| `EditProtocol.BalancedSession` | libgnucash/engine/test/test-qofinstance.cpp:469-523 | N begin_edit calls from level 0 followed by N commit_edit calls: only the first begin and only the last commit return true, and the level ends at 0 with no diagnostic |
| `EditProtocol.BeginTimes` | libgnucash/engine/test/test-qofinstance.cpp:469-490 | a run of n begin_edit calls returns n results, and after at least one call the level is above where it started and at least 1 |
| `EditProtocol.CommitTimes` | libgnucash/engine/test/test-qofinstance.cpp:512-533 | a run of n commit_edit calls returns n results, never leaves the level negative, and raises at most one diagnostic per call |
| `EditProtocol.SurplusCommitsAreDiagnosed` | libgnucash/engine/test/test-qofinstance.cpp:525-533 | after more commits than the level, the level is 0 and every surplus commit raised a diagnostic; every call from the one that reaches 0 onward returns true, the clamped ones included, and no earlier call does |
| `EditProtocol.DoneOrFree` | libgnucash/engine/test/test-qofinstance.cpp:580-603 | on_free is chosen exactly for a destroying instance, on_done exactly otherwise, each only when supplied; never on_error |
| `EditProtocol.FinalizeStep` | libgnucash/engine/test/test-qofinstance.cpp:567-632 | commit_edit_part2 returns true exactly when there is no backend or its commit reported no error; without a backend the flags are left exactly as they were; with one, dirty is whatever the backend's commit left; infant is cleared exactly by a successful backend commit; destroying is cleared exactly on failure; on_error fires exactly on failure (when supplied), with the backend's error; on_free / on_done fire exactly on success, chosen by destroying; the edit level is untouched |
| `EditProtocol.RetryAfterFailedDeletion` | libgnucash/engine/test/test-qofinstance.cpp:619-632 | after a failed destructive commit, the next successful commit calls on_done rather than on_free and leaves the instance clean and no longer an infant |
| `QofInstance.Instance.constructor` | libgnucash/engine/test/test-qofinstance.cpp:209-229 | a new instance has a non-null guid, no book, no collection, no type, a slot frame, last update 0, edit level 0, is not dirty, is an infant and is not being destroyed |
| `QofInstance.Instance.SetSlots` | libgnucash/engine/test/test-qofinstance.cpp:290-305 | after set_slots, get_slots returns exactly the frame given (the same one, another one, or none) and the instance is dirty |
| `QofInstance.Instance.SetDirty` | libgnucash/engine/test/test-qofinstance.cpp:373-380 | set_dirty leaves the instance dirty and changes nothing else |
| `QofInstance.Instance.SetDirtyFlag` | libgnucash/engine/test/test-qofinstance.cpp:485 | set_dirty_flag stores the given flag |
| `QofInstance.Instance.MarkClean` | libgnucash/engine/test/test-qofinstance.cpp:80-81 | mark_clean leaves the instance clean |
| `QofInstance.Instance.SetDestroying` | libgnucash/engine/test/test-qofinstance.cpp:581 | set_destroying stores the given flag |
| `QofInstance.Instance.SetBook` | libgnucash/engine/test/test-qofinstance.cpp:154-156 | get_book afterwards returns the book that was set |
| `QofInstance.Instance.SetCollection` | libgnucash/engine/test/test-qofinstance.cpp:367-368 | get_collection afterwards returns the collection that was set |
| `QofInstance.Instance.SetLastUpdate` | libgnucash/engine/test/test-qofinstance.cpp:333-334 | set_last_update stores the given time |
| `QofInstance.Instance.IncreaseEditLevel` | libgnucash/engine/test/test-qofinstance.cpp:513-515 | the level goes up by exactly one |
| `QofInstance.Instance.DecreaseEditLevel` | libgnucash/engine/test/test-qofinstance.cpp:529-530 | the level goes down by exactly one, with no clamp (0 becomes -1) |
| `QofInstance.Instance.ResetEditLevel` | libgnucash/engine/test/test-qofinstance.cpp:476 | the level becomes 0 |
| `QofInstance.Instance.SetGuid` | libgnucash/engine/test/test-qofinstance.cpp:182-187 | the instance takes the new guid; a collection it belongs to drops the old key and finds the instance under the new one |
| `QofInstance.Collection.constructor` | libgnucash/engine/test/test-qofinstance.cpp:366 | a new collection has the given type and no entities |
| `QofInstance.Collection.Lookup` | libgnucash/engine/test/test-qofinstance.cpp:273 | lookup returns an instance exactly when one is registered under the guid, and then that instance; otherwise null |
| `QofInstance.Collection.Insert` | libgnucash/engine/test/test-qofinstance.cpp:263-273 | the instance is registered under its current guid and found by lookup; other entries are kept |
| `QofInstance.Book.constructor` | libgnucash/engine/test/test-qofinstance.cpp:150 | a new book has no collections and no backend |
| `QofInstance.Book.SetBackend` | libgnucash/engine/test/test-qofinstance.cpp:459 | the book's backend becomes the given one (or none) |
| `QofInstance.Book.GetCollection` | libgnucash/engine/test/test-qofinstance.cpp:269-271 | returns the book's collection for the type, of that type; creates it empty on first use; later calls return the same collection and change nothing |
| `QofInstance.CommitTest.constructor` | libgnucash/engine/test/test-qofinstance.cpp:39-50 | the shared record starts with no instance, no error and every flag false |
| `QofInstance.CommitTest.OnError` | libgnucash/engine/test/test-qofinstance.cpp:99-105 | on_error may only be called with the error the backend last set, and records that it ran |
| `QofInstance.CommitTest.OnDone` | libgnucash/engine/test/test-qofinstance.cpp:106-112 | on_done records that it ran |
| `QofInstance.CommitTest.OnFree` | libgnucash/engine/test/test-qofinstance.cpp:113-119 | on_free records that it ran |
| `QofInstance.MockBackend.constructor` | libgnucash/engine/test/test-qofinstance.cpp:56-58 | the mock starts with no injected error and no last error, wired to the shared record |
| `QofInstance.MockBackend.Begin` | libgnucash/engine/test/test-qofinstance.cpp:65-69 | begin records the instance |
| `QofInstance.MockBackend.SetError` | libgnucash/engine/test/test-qofinstance.cpp:70-73 | set_error stores the error in the backend's slot and in the shared record |
| `QofInstance.MockBackend.Commit` | libgnucash/engine/test/test-qofinstance.cpp:74-84 | commit records that it ran, leaves the instance clean, and sets the injected error as the last error |
| `QofInstance.MockBackend.InjectError` | libgnucash/engine/test/test-qofinstance.cpp:86-88 | the injected error becomes the given one |
| `QofInstance.BackendOf` | libgnucash/engine/test/test-qofinstance.cpp:459-486 | the backend an instance's edits reach is its book's backend: there is one exactly when the instance, its book and the book's backend all exist |
| `QofInstance.HookOf` | libgnucash/engine/test/test-qofinstance.cpp:79-82 | a commit through the mock always leaves the instance clean and reports the mock's injected error; without a backend there is no commit |
| `QofInstance.BeginEdit` | libgnucash/engine/test/test-qofinstance.cpp:465-490 | null gives false; otherwise the level and the result are those of `BeginStep`; the outermost call marks the instance dirty when the book has no backend, and otherwise hands the instance to the backend's begin and leaves dirty alone; a nested call touches neither; nothing else about the instance changes, and the backend's begin records only the instance: the commit, callback and error fields of the shared record keep their values |
| `QofInstance.CommitEdit` | libgnucash/engine/test/test-qofinstance.cpp:508-533 | null gives false and no diagnostic; otherwise the level, the result and the unbalanced diagnostic are those of `CommitStep`; nothing else about the instance changes |
| `QofInstance.CommitEditPart2` | libgnucash/engine/test/test-qofinstance.cpp:567-632 | the result and the new flags are those of `FinalizeStep`, given the book's backend (a commit that leaves the instance clean and reports the injected error); the backend's commit runs exactly when there is a backend; each callback's flag is set exactly when `FinalizeStep` dispatches to it; the backend's last error is the injected one |
| `QofInstance.InitData` | libgnucash/engine/test/test-qofinstance.cpp:256-273 | with a book: the instance gets the new guid (different from the old), the book, the type, and the book's collection for the type, and the collection finds the instance under its guid; the book gains at most that collection, and a collection it already had for the type is the one used; the book's backend is kept; without a book nothing changes; the edit flags never change |
| `QofInstance.VersionCmp` | libgnucash/engine/test/test-qofinstance.cpp:320-352 | the result is -1, 0 or 1; 0 exactly for two nulls or equal last updates; -1 exactly for a null left against a non-null right, or an earlier left |
| `QofInstance.VersionCmpAntisymmetric` | libgnucash/engine/test/test-qofinstance.cpp:324-344 | swapping the arguments negates the result |
| `QofInstance.VersionCmpTransitive` | libgnucash/engine/test/test-qofinstance.cpp:332-352 | the order is transitive, and strictly so when one step is strict |
| `QofInstance.GetBook` | libgnucash/engine/test/test-qofinstance.cpp:153-160 | get_book is null for a null instance and otherwise the instance's book |
| `QofInstance.GetGuid` | libgnucash/engine/test/test-qofinstance.cpp:169-185 | get_guid gives no guid exactly for a null instance, and otherwise the instance's own |
| `QofInstance.EntityGetGuid` | libgnucash/engine/test/test-qofinstance.cpp:170-186 | the older getter gives the null guid for a null instance, and otherwise the same guid as get_guid |
| `QofInstance.IsDirty` | libgnucash/engine/test/test-qofinstance.cpp:370-380 | get_dirty is false for a null instance and otherwise the instance's own flag |
| `QofInstance.FiledType` | libgnucash/engine/test/test-qofinstance.cpp:410-414 | the type an instance is filed under is its collection's type; none without a collection |
| `QofInstance.DisplayName` | libgnucash/engine/test/test-qofinstance.cpp:410-428 | a name exactly for a non-null instance: the hook's result when a hook is installed, else "Object ", then the type of the instance's collection, then a space and the address |
| `QofInstance.DefaultNamesTellTypesApart` | libgnucash/engine/test/test-qofinstance.cpp:410-421 | two instances printed at the same address but filed under different types never get the same default name |
| `QofInstanceSuite.SetGetBook` | libgnucash/engine/test/test-qofinstance.cpp:145-163 | get_book returns the book that was set, and null for a null instance |
| `QofInstanceSuite.SetGetGuid` | libgnucash/engine/test/test-qofinstance.cpp:165-191 | on null, get_guid gives nothing and the older getter the null guid; a new instance has a guid other than the new one; after set_guid both getters return the new guid |
| `QofInstanceSuite.NewInstance` | libgnucash/engine/test/test-qofinstance.cpp:217-226 | a new instance has a guid, level 0, is clean, an infant and not being destroyed |
| `QofInstanceSuite.InitDataRegisters` | libgnucash/engine/test/test-qofinstance.cpp:256-273 | after init the book is set, the guid has changed, the instance's collection is the book's collection for the type, and that collection finds the instance |
| `QofInstanceSuite.GetSetSlots` | libgnucash/engine/test/test-qofinstance.cpp:290-305 | the same frame, another frame and none are each read back as set, and the instance is dirty after each |
| `QofInstanceSuite.VersionCompare` | libgnucash/engine/test/test-qofinstance.cpp:320-352 | the six comparisons give 0, -1, 1, -1, 1, 0 |
| `QofInstanceSuite.GetSetDirty` | libgnucash/engine/test/test-qofinstance.cpp:370-380 | get_dirty of null is false; the instance is clean before set_dirty and dirty after |
| `QofInstanceSuite.DisplayNames` | libgnucash/engine/test/test-qofinstance.cpp:401-436 | for an instance placed in a "test type" collection, without a hook the name is "Object test type <address>"; with the mock hook it is the hook's name |
| `QofInstanceSuite.MockFixture` | libgnucash/engine/test/test-qofinstance.cpp:549-554 | the fixture is a book whose backend is a fresh mock, and a new instance outside the book |
| `QofInstanceSuite.BeginEditNull` | libgnucash/engine/test/test-qofinstance.cpp:465-467 | begin_edit of null returns false |
| `QofInstanceSuite.BeginEditNested` | libgnucash/engine/test/test-qofinstance.cpp:469-473 | at level 1, begin_edit returns false, the level is 2, the instance stays clean and the backend's begin is not called |
| `QofInstanceSuite.BeginEditWithoutBackend` | libgnucash/engine/test/test-qofinstance.cpp:475-480 | at level 0 without a backend, begin_edit returns true, the level is 1 and the instance is dirty |
| `QofInstanceSuite.BeginEditWithBackend` | libgnucash/engine/test/test-qofinstance.cpp:482-490 | at level 0 with a backend, begin_edit returns true, the level is 1, the instance stays clean, and the backend's begin saw the instance |
| `QofInstanceSuite.BeginEditSequence` | libgnucash/engine/test/test-qofinstance.cpp:447-497 | the whole begin-edit test on one fixture: null gives false; from level 1 false at level 2; after a reset, true at level 1 and dirty without a backend; after another reset with the book set, true at level 1, clean, and the mock's begin saw the instance |
| `QofInstanceSuite.InitThenBeginEdit` | libgnucash/engine/test/test-qofinstance.cpp:256-273 | an instance initialised into a book with the mock backend: its outermost begin_edit returns true, reaches that backend, and leaves the instance clean |
| `QofInstanceSuite.CommitEditSequence` | libgnucash/engine/test/test-qofinstance.cpp:499-537 | the whole commit-edit test on one instance: null gives false; from level 2 false at 1, then true at 0; from -1 true at 0 with the diagnostic carrying -2 |
| `QofInstanceSuite.CommitEditNull` | libgnucash/engine/test/test-qofinstance.cpp:508-510 | commit_edit of null returns false |
| `QofInstanceSuite.CommitEditNested` | libgnucash/engine/test/test-qofinstance.cpp:512-523 | from level 2, commit_edit returns false at level 1, then true at level 0 |
| `QofInstanceSuite.CommitEditUnbalanced` | libgnucash/engine/test/test-qofinstance.cpp:525-533 | from level -1, commit_edit returns true, the level is 0, and the diagnostic reports -2 |
| `QofInstanceSuite.Part2NoBackendNoCallbacks` | libgnucash/engine/test/test-qofinstance.cpp:567-578 | without a backend or callbacks, part 2 returns true, the instance stays dirty and an infant, and nothing is called |
| `QofInstanceSuite.Part2NoBackendDestroying` | libgnucash/engine/test/test-qofinstance.cpp:580-590 | without a backend while destroying, part 2 returns true, dirty and infant are unchanged, and only on_free runs |
| `QofInstanceSuite.Part2NoBackendDone` | libgnucash/engine/test/test-qofinstance.cpp:592-603 | without a backend and not destroying, part 2 returns true, dirty and infant are unchanged, and only on_done runs |
| `QofInstanceSuite.Part2BackendSucceeds` | libgnucash/engine/test/test-qofinstance.cpp:605-617 | with a backend that succeeds, part 2 returns true, the instance is clean and no longer an infant, the backend's commit ran, and only on_done runs |
| `QofInstanceSuite.Part2BackendFails` | libgnucash/engine/test/test-qofinstance.cpp:619-632 | with a backend failing with ERR_BACKEND_NO_HANDLER, part 2 returns false, the instance is clean and no longer marked for destruction, the commit ran, and only on_error runs |

## Left out

- EditProtocol.FinalizeStep: the success rule (infant cleared, on_done / on_free dispatched) is stated for any dirty flag the backend's commit leaves behind. The tests only run commits through the mock, which always leaves the instance clean. So a successful commit that leaves the instance dirty is never exercised and stays the model's generalisation.
- The commit_edit_part2 test is restated case by case on fresh fixtures rather than replayed as one sequence, so the instance's state carried from one case to the next (it is no longer an infant at line 619) is not followed.
- src/gnc/Session.hpp is not part of this model. It is a Qt wrapper that forwards every call to a `qof_session_*` function and has no logic of its own.
- GObject type checks, reference counting and object destruction are not modelled. A null instance is a null reference, and Dafny's non-null types stand in for `QOF_IS_INSTANCE`.
- The GLib logging of the unbalanced-commit diagnostic is not modelled. `CommitEdit` returns the level the diagnostic reports (`Some(-2)`), not the message text.
- GUID generation and its string encoding are not modelled, because they are random and belong to an external library. A guid is a number, with 0 as the null guid, and callers pass fresh guids in.
- QofInstance.InitData: the caller supplies the new guid and must guarantee that it is fresh. The implementation's retry on a duplicate guid is not shown, so it is not modelled.
- QofInstance.InitData: the type-mismatch error path cannot arise here. `Book.Valid` keeps every collection filed under its own type.
- KvpFrame contents are not modelled. A frame is known only by its identity.
- Collection and book dirtiness are not modelled (`qof_collection_is_dirty`, marking a book's session dirty). Line 379 shows that the collection flag does not follow `set_dirty`.
- QofInstance.DisplayName: the pointer printed by `%p` is an `address` parameter. An installed `get_display_name` hook is given as the string it returns.
- The version, version-check and idata fields of a new instance (lines 227-229) are not modelled. Nothing in the protocol uses them.
- QofInstance.DisplayName: the tests only name an instance that is in a collection. For an instance with no collection, the model prints an empty type.
- The mock's no-op `session_begin`, `session_end`, `load`, `sync`, `safe_sync` and `rollback` (lines 59-64, 85) are not modelled, and neither is `mock_backend_begin` (lines 438-445), which no test installs.
- The sanity assertions that the callbacks and the mock's `commit` make about instance and backend identity (lines 77-78, 110, 117) are not modelled. The `m_commit_with_err_called` flag is never set in the source, so it is not modelled either. `on_error`'s check that it receives the recorded error is kept, as the precondition of `CommitTest.OnError`.
- QofInstance.CommitEditPart2: the backend is the mock. Its commit always leaves the instance clean and reports its injected error. `EditProtocol.FinalizeStep` itself accepts any commit outcome. The implementation's popping and re-pushing of the backend's error stack is not shown, so the protocol reads the last-error slot directly.
- QofInstance.CommitEditPart2: its requirement that the backend's record is the callbacks' record stands for the test's single global `commit_test`.
- Callbacks are function pointers in the source. Here they are presence flags that dispatch to the test's three callbacks.
