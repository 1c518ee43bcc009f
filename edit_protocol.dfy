/**
 * The QofInstance edit protocol as a state machine over values: what
 * qof_begin_edit, qof_commit_edit and qof_commit_edit_part2 do to the edit
 * level and the dirty / infant / destroying flags of one instance, which
 * completion callback part 2 dispatches, and what it returns.
 *
 * The imperative model in module QofInstance is proved against these functions.
 */
module EditProtocol {
  import opened Wrappers

  /** QofBackendError, reduced to the codes the protocol tells apart. */
  datatype BackendError = NoErr | NoHandler | OtherError(code: nat)

  /** The fields of an instance that the edit protocol reads and writes. */
  datatype EditFlags = EditFlags(editLevel: int, dirty: bool, infant: bool, destroying: bool)

  /** The flags of a newly constructed instance. */
  const FreshFlags := EditFlags(0, false, true, false)

  // ---------------------------------------------------------------------
  // qof_begin_edit and qof_commit_edit on a non-null instance
  // ---------------------------------------------------------------------

  /** New edit level, and whether the call opened a new top-level session. */
  datatype BeginResult = BeginResult(level: int, outermost: bool)

  /**
   * qof_begin_edit: increment the level; a call that leaves the level above 1
   * is nested and returns false; otherwise the level becomes (at least) 1 and
   * the call is the outermost entry.
   */
  function BeginStep(level: int): (r: BeginResult)
    ensures r.outermost <==> level <= 0
    ensures r.level >= 1
    ensures r.outermost ==> r.level == 1
    ensures !r.outermost ==> r.level == level + 1
  {
    var bumped := level + 1;
    if 1 < bumped then BeginResult(bumped, false)
    else BeginResult(if bumped <= 0 then 1 else bumped, true)
  }

  /**
   * New edit level, whether the edit is now fully closed, and the
   * "unbalanced call - resetting (was N)" diagnostic, carrying N, when one is raised.
   */
  datatype CommitResult = CommitResult(level: int, closed: bool, unbalanced: Option<int>)

  /**
   * qof_commit_edit: decrement the level; a positive result is still nested;
   * a negative one is reported and clamped to zero.
   */
  function CommitStep(level: int): (r: CommitResult)
    ensures r.level >= 0
    ensures r.closed <==> r.level == 0
    ensures r.closed <==> level <= 1
    ensures !r.closed ==> r.level == level - 1
    ensures r.unbalanced.Some? <==> level <= 0
    ensures r.unbalanced.Some? ==> r.unbalanced.value == level - 1 < 0
  {
    var dropped := level - 1;
    if 0 < dropped then CommitResult(dropped, false, None)
    else if dropped < 0 then CommitResult(0, true, Some(dropped))
    else CommitResult(0, true, None)
  }

  /** A begin_edit on a level that is not negative is undone by one commit_edit. */
  lemma CommitUndoesBegin(level: int)
    requires level >= 0
    ensures CommitStep(BeginStep(level).level).level == level
    ensures CommitStep(BeginStep(level).level).closed == BeginStep(level).outermost
    ensures CommitStep(BeginStep(level).level).unbalanced == None
  {
  }

  // ---------------------------------------------------------------------
  // Runs of calls
  // ---------------------------------------------------------------------

  /** The outcome of several begin_edit calls: the final level and the value each call returned, in order. */
  datatype BeginRun = BeginRun(level: int, results: seq<bool>)

  /**
   * The outcome of several commit_edit calls: the final level, the value each
   * call returned, in order, and how many unbalanced-call diagnostics were raised.
   */
  datatype Trace = Trace(level: int, results: seq<bool>, warnings: nat)

  /** `n` successive begin_edit calls starting at `level`: the level only rises, and stays open. */
  function BeginTimes(level: int, n: nat): (t: BeginRun)
    ensures |t.results| == n
    ensures n > 0 ==> t.level >= 1 && t.level > level
    decreases n
  {
    if n == 0 then BeginRun(level, [])
    else
      var s := BeginStep(level);
      var rest := BeginTimes(s.level, n - 1);
      BeginRun(rest.level, [s.outermost] + rest.results)
  }

  /** `n` successive commit_edit calls starting at `level`: the level never rests negative, at most one diagnostic per call. */
  function CommitTimes(level: int, n: nat): (t: Trace)
    ensures |t.results| == n
    ensures n > 0 ==> t.level >= 0
    ensures t.warnings <= n
    decreases n
  {
    if n == 0 then Trace(level, [], 0)
    else
      var s := CommitStep(level);
      var rest := CommitTimes(s.level, n - 1);
      Trace(rest.level, [s.closed] + rest.results,
            rest.warnings + if s.unbalanced.Some? then 1 else 0)
  }

  /** Inside an open session, begin_edit only counts: every call returns false. */
  lemma {:induction false} NestedBeginsOnlyCount(level: int, n: nat)
    requires level >= 1
    ensures BeginTimes(level, n).level == level + n
    ensures forall i :: 0 <= i < n ==> !BeginTimes(level, n).results[i]
    decreases n
  {
    if n > 0 {
      NestedBeginsOnlyCount(level + 1, n - 1);
    }
  }

  /**
   * Up to `level` commit_edit calls unwind the level one step each, raise no
   * diagnostic, and only the call that reaches level 0 returns true.
   */
  lemma {:induction false} CommitsUnwind(level: int, n: nat)
    requires n <= level
    ensures CommitTimes(level, n).level == level - n
    ensures CommitTimes(level, n).warnings == 0
    ensures forall i :: 0 <= i < n ==> CommitTimes(level, n).results[i] == (i == level - 1)
    decreases n
  {
    if n > 0 {
      CommitsUnwind(level - 1, n - 1);
    }
  }

  /**
   * N begin_edit calls from level 0 followed by N commit_edit calls: only the
   * first begin opens a session, only the last commit closes it, and the
   * level ends at 0 without any diagnostic.
   */
  lemma {:induction false} BalancedSession(n: nat)
    requires n >= 1
    ensures BeginTimes(0, n).level == n
    ensures forall i :: 0 <= i < n ==> BeginTimes(0, n).results[i] == (i == 0)
    ensures CommitTimes(n, n).level == 0
    ensures CommitTimes(n, n).warnings == 0
    ensures forall i :: 0 <= i < n ==> CommitTimes(n, n).results[i] == (i == n - 1)
  {
    NestedBeginsOnlyCount(1, n - 1);
    CommitsUnwind(n, n);
  }

  /**
   * More commit_edit calls than the level: the level still ends at 0, every
   * surplus call is reported (the clamp always diagnoses), and every call from
   * the one that reaches level 0 onward returns true, the clamped ones included.
   */
  lemma {:induction false} SurplusCommitsAreDiagnosed(level: int, n: nat)
    requires 0 <= level <= n
    ensures CommitTimes(level, n).level == 0
    ensures CommitTimes(level, n).warnings == n - level
    ensures forall i :: 0 <= i < n ==> CommitTimes(level, n).results[i] == (i >= level - 1)
    decreases n
  {
    if n > 0 {
      var next := if level > 0 then level - 1 else 0;
      SurplusCommitsAreDiagnosed(next, n - 1);
      var t := CommitTimes(level, n);
      var rest := CommitTimes(next, n - 1);
      assert t.results == [CommitStep(level).closed] + rest.results;
      forall i | 0 < i < n
        ensures t.results[i] == (i >= level - 1)
      {
        assert t.results[i] == rest.results[i - 1];
      }
    }
  }

  // ---------------------------------------------------------------------
  // qof_commit_edit_part2
  // ---------------------------------------------------------------------

  /** Which of the caller's on_error / on_done / on_free callbacks were supplied (non-null). */
  datatype Callbacks = Callbacks(onError: bool, onDone: bool, onFree: bool)

  /** The callback part 2 invokes, if any. */
  datatype Dispatch = NoCallback | ErrorCallback(err: BackendError) | DoneCallback | FreeCallback

  /** What the backend's commit hook leaves behind: the instance's dirty flag and the error it recorded. */
  datatype CommitHook = CommitHook(dirtyAfter: bool, err: BackendError)

  /** New flags, the callback invoked, the return value, and whether the backend's commit ran. */
  datatype FinalizeResult = FinalizeResult(flags: EditFlags, dispatch: Dispatch, ok: bool, committed: bool)

  /** on_free for an instance being destroyed, on_done otherwise, each only if supplied. */
  function DoneOrFree(destroying: bool, cbs: Callbacks): (d: Dispatch)
    ensures d == FreeCallback <==> destroying && cbs.onFree
    ensures d == DoneCallback <==> !destroying && cbs.onDone
    ensures !d.ErrorCallback?
  {
    if destroying then (if cbs.onFree then FreeCallback else NoCallback)
    else (if cbs.onDone then DoneCallback else NoCallback)
  }

  /**
   * qof_commit_edit_part2. `hook` is None when the instance's book has no
   * backend, otherwise what the backend's commit left behind.
   */
  function FinalizeStep(f: EditFlags, hook: Option<CommitHook>, cbs: Callbacks): (r: FinalizeResult)
    ensures r.committed <==> hook.Some?
    ensures r.ok <==> hook.None? || hook.value.err == NoErr
    ensures hook.None? ==> r.flags == f
    ensures hook.Some? ==> r.flags.dirty == hook.value.dirtyAfter
    ensures r.flags.editLevel == f.editLevel
    ensures r.flags.infant <==> f.infant && !(r.committed && r.ok)
    ensures r.flags.destroying <==> f.destroying && r.ok
    ensures r.dispatch.ErrorCallback? <==> !r.ok && cbs.onError
    ensures r.dispatch.ErrorCallback? ==> hook.Some? && r.dispatch.err == hook.value.err != NoErr
    ensures r.dispatch == FreeCallback <==> r.ok && f.destroying && cbs.onFree
    ensures r.dispatch == DoneCallback <==> r.ok && !f.destroying && cbs.onDone
  {
    match hook
    case None =>
      FinalizeResult(f, DoneOrFree(f.destroying, cbs), true, false)
    case Some(h) =>
      var committed := f.(dirty := h.dirtyAfter);
      if h.err != NoErr then
        FinalizeResult(committed.(destroying := false),
                       if cbs.onError then ErrorCallback(h.err) else NoCallback, false, true)
      else
        FinalizeResult(committed.(infant := false), DoneOrFree(f.destroying, cbs), true, true)
  }

  /**
   * A failed destructive commit is not left half-deleted: the commit that
   * follows it, once the backend succeeds, reports on_done rather than on_free.
   */
  lemma RetryAfterFailedDeletion(f: EditFlags, failure: BackendError, dirtyAfter: bool, cbs: Callbacks)
    requires failure != NoErr
    requires cbs.onDone
    ensures var failed := FinalizeStep(f, Some(CommitHook(dirtyAfter, failure)), cbs);
            var retried := FinalizeStep(failed.flags, Some(CommitHook(false, NoErr)), cbs);
            !failed.ok && retried.ok && retried.dispatch == DoneCallback
            && !retried.flags.infant && !retried.flags.dirty
  {
  }
}
