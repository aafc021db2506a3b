/**
 * The container's `check`: whether the children are evaluated in the current
 * execution mode, and what the container does with a failed or errored
 * outcome under its `onFail`/`onError` policies.
 *
 * The executor, the UI and log sinks and the listener are explicit: the mode
 * is the `updatesDatabase` input, the sinks and the listener calls are the
 * emitted `Event`s, and the AND of the children is the `ChildOutcome` input.
 */
module PreconditionCheck {
  import opened Wrappers
  import opened PreconditionOptions
  import opened PreconditionContainerState

  /** A child that evaluated to false, with its description. */
  datatype FailedPrecondition = FailedPrecondition(message: string)

  /** A child whose check could not be completed, with its cause. */
  datatype ErrorPrecondition = ErrorPrecondition(cause: string)

  /** `PreconditionFailedException`: a message and the failed children. */
  datatype FailedException = FailedException(message: string, failed: seq<FailedPrecondition>)

  /** `PreconditionErrorException`: a message and the errored children. */
  datatype ErrorException = ErrorException(message: string, errors: seq<ErrorPrecondition>)

  /** How the AND of the children came out: it held, or it threw one of the two exceptions. */
  datatype ChildOutcome =
    | AllHold
    | ChildrenFailed(failure: FailedException)
    | ChildrenErrored(error: ErrorException)

  /** What `check` throws. `NullPointer` is the dereference of a null policy field. */
  datatype Raised = Failed(failure: FailedException) | Errored(error: ErrorException) | NullPointer

  /** The body of a warning or log line: the size of the list, or the `onFailMessage` text. */
  datatype Summary = Counted(size: nat) | Overridden(text: string)

  /** An observable side effect of `check`, in the order it happens. */
  datatype Event =
    | UiWarningSent(ranOn: string, summary: Summary)
    | FailWarningLogged(ranOn: string, summary: Summary)
    | ErrorWarningLogged(summary: Summary)
    | ErrorInfoLogged(summary: Summary)
    | ListenerFailed(failure: FailedException, failOption: FailOption)
    | ListenerErrored(error: ErrorException, errorOption: ErrorOption)

  /** What one of the two exception handlers does: rethrow something or not, and the events. */
  datatype Handled = Handled(raised: Option<Raised>, events: seq<Event>)

  /** The result of `check`, and whether the children were evaluated at all. */
  datatype CheckResult = CheckResult(raised: Option<Raised>, events: seq<Event>, childrenEvaluated: bool) {

    /** The check passed: nothing was thrown. */
    predicate Passed() {
      raised.None?
    }
  }

  /** The label of what the check ran on: the change set, else `String.valueOf` of the change log. */
  function RanOn(changeLog: Option<string>, changeSet: Option<string>): (ranOn: string)
    ensures changeSet.Some? ==> ranOn == changeSet.value
    ensures changeSet.None? ==> ranOn == (if changeLog.Some? then changeLog.value else "null")
  {
    match changeSet
    case Some(s) => s
    case None => changeLog.GetOr("null")
  }

  /** The failure `check` raises in SQL-output mode when `onSqlOutput` is FAIL. */
  function SqlModeFailure(): (e: FailedException)
    ensures e.message == "Unexpected precondition in updateSQL mode with onUpdateSQL value: " + SqlOutputKey(Fail)
    ensures |e.failed| == 1 && e.failed[0].message == e.message
  {
    var message := "Unexpected precondition in updateSQL mode with onUpdateSQL value: " + SqlOutputKey(Fail);
    FailedException(message, [FailedPrecondition(message)])
  }

  /** The failure thrown in place of `e` when `onFailMessage` is set. */
  function OverrideFailure(message: string): FailedException {
    FailedException(message, [FailedPrecondition(message)])
  }

  /** The failed-path message: the size of the failed list, unless `onFailMessage` replaces it. */
  function FailSummary(c: Container, e: FailedException): Summary {
    match c.onFailMessage
    case Some(m) => Overridden(m)
    case None => Counted(|e.failed|)
  }

  /** The catch block for a failed outcome `e`. */
  function OnFailed(c: Container, ranOn: string, listener: bool, e: FailedException): (h: Handled)
    // Only WARN swallows the failure; a null onFail cannot even be compared.
    ensures h.raised.None? <==> c.onFail == Some(Warn)
    ensures c.onFail.None? ==> h == Handled(Some(NullPointer), [])
    // WARN: a UI warning and a log warning naming ranOn, then the listener if there is one.
    ensures c.onFail == Some(Warn) ==>
      && |h.events| == (if listener then 3 else 2)
      && h.events[0] == UiWarningSent(ranOn, FailSummary(c, e))
      && h.events[1] == FailWarningLogged(ranOn, FailSummary(c, e))
      && (listener ==> h.events[2] == ListenerFailed(e, Warn))
    // The summary is the override text when there is one, the list size otherwise.
    ensures c.onFailMessage.Some? ==> FailSummary(c, e) == Overridden(c.onFailMessage.value)
    ensures c.onFailMessage.None? ==> FailSummary(c, e) == Counted(|e.failed|)
    // HALT, CONTINUE, MARK_RAN: rethrow silently, the original or one carrying the override.
    ensures c.onFail.Some? && c.onFail != Some(Warn) ==> h.events == []
    ensures c.onFail.Some? && c.onFail != Some(Warn) && c.onFailMessage.None? ==>
      h.raised == Some(Failed(e))
    ensures c.onFail.Some? && c.onFail != Some(Warn) && c.onFailMessage.Some? ==>
      h.raised.Some? && h.raised.value.Failed? &&
      h.raised.value.failure.message == c.onFailMessage.value &&
      |h.raised.value.failure.failed| == 1
  {
    var summary := FailSummary(c, e);
    match c.onFail
    case None => Handled(Some(NullPointer), [])
    case Some(Warn) =>
      Handled(None, [UiWarningSent(ranOn, summary), FailWarningLogged(ranOn, summary)]
                    + (if listener then [ListenerFailed(e, Warn)] else []))
    case Some(_) =>
      match c.onFailMessage
      case None => Handled(Some(Failed(e)), [])
      case Some(m) => Handled(Some(Failed(OverrideFailure(m))), [])
  }

  /** The catch block for an errored outcome `e`. */
  function OnErrored(c: Container, listener: bool, e: ErrorException): (h: Handled)
    // Only WARN swallows the error: CONTINUE rethrows it too.
    ensures h.raised.None? <==> c.onError == Some(Warn)
    ensures c.onError.None? ==> h == Handled(Some(NullPointer), [])
    // CONTINUE: an info line, then the original, whatever onErrorMessage says.
    ensures c.onError == Some(Continue) ==>
      h == Handled(Some(Errored(e)), [ErrorInfoLogged(Counted(|e.errors|))])
    // WARN: a log warning, then the listener if there is one.
    ensures c.onError == Some(Warn) ==>
      && |h.events| == (if listener then 2 else 1)
      && h.events[0] == ErrorWarningLogged(Counted(|e.errors|))
      && (listener ==> h.events[1] == ListenerErrored(e, Warn))
    // HALT, MARK_RAN: rethrow silently, with the override message if set.
    ensures c.onError == Some(Halt) || c.onError == Some(MarkRan) ==>
      h.events == [] &&
      h.raised == Some(Errored(if c.onErrorMessage.None? then e
                              else ErrorException(c.onErrorMessage.value, e.errors)))
    // Whatever is rethrown carries the same errored children.
    ensures h.raised.Some? && h.raised.value.Errored? ==> h.raised.value.error.errors == e.errors
  {
    var summary := Counted(|e.errors|);
    match c.onError
    case None => Handled(Some(NullPointer), [])
    case Some(Continue) => Handled(Some(Errored(e)), [ErrorInfoLogged(summary)])
    case Some(Warn) =>
      Handled(None, [ErrorWarningLogged(summary)]
                    + (if listener then [ListenerErrored(e, Warn)] else []))
    case Some(_) =>
      match c.onErrorMessage
      case None => Handled(Some(Errored(e)), [])
      case Some(m) => Handled(Some(Errored(ErrorException(m, e.errors))), [])
  }

  /** Whether the children are evaluated: always when updating the database, else only under TEST. */
  predicate EvaluatesChildren(c: Container, updatesDatabase: bool) {
    updatesDatabase || c.onSqlOutput == Some(Test)
  }

  /** The failed-outcome handler is reached: by the SQL-mode FAIL, or by failed children. */
  predicate ReachesFailHandler(c: Container, updatesDatabase: bool, children: ChildOutcome) {
    || (!updatesDatabase && c.onSqlOutput == Some(Fail))
    || (EvaluatesChildren(c, updatesDatabase) && children.ChildrenFailed?)
  }

  /** The errored-outcome handler is reached: only by errored children. */
  predicate ReachesErrorHandler(c: Container, updatesDatabase: bool, children: ChildOutcome) {
    EvaluatesChildren(c, updatesDatabase) && children.ChildrenErrored?
  }

  /**
   * `check`. The SQL-mode FAIL exception is thrown inside the `try`, so it
   * goes through the same failed-outcome handler as failed children.
   */
  function Check(c: Container, updatesDatabase: bool, changeLog: Option<string>,
                 changeSet: Option<string>, listener: bool, children: ChildOutcome): (r: CheckResult)
    ensures r.childrenEvaluated <==> EvaluatesChildren(c, updatesDatabase)
    ensures !updatesDatabase && c.onSqlOutput == Some(Ignore) ==> r.Passed()
    ensures r.childrenEvaluated && children.AllHold? ==> r.Passed()
    ensures !updatesDatabase && c.onSqlOutput.None? ==> r.raised == Some(NullPointer) && r.events == []
    ensures !updatesDatabase && c.onSqlOutput == Some(Ignore) ==> r.events == []
    ensures r.childrenEvaluated && children.AllHold? ==> r.events == []
    ensures !updatesDatabase && c.onSqlOutput == Some(Fail) ==>
      Handled(r.raised, r.events) == OnFailed(c, RanOn(changeLog, changeSet), listener, SqlModeFailure())
    ensures r.childrenEvaluated && children.ChildrenFailed? ==>
      Handled(r.raised, r.events) == OnFailed(c, RanOn(changeLog, changeSet), listener, children.failure)
    ensures r.childrenEvaluated && children.ChildrenErrored? ==>
      Handled(r.raised, r.events) == OnErrored(c, listener, children.error)
    // A failure is thrown only from the failed path, an error only from the errored path.
    ensures r.raised.Some? && r.raised.value.Failed? ==> ReachesFailHandler(c, updatesDatabase, children)
    ensures r.raised.Some? && r.raised.value.Errored? ==> ReachesErrorHandler(c, updatesDatabase, children)
    // A container whose policy fields are all set never dereferences null.
    ensures Settled(c) ==> r.raised != Some(NullPointer)
  {
    var evaluated := EvaluatesChildren(c, updatesDatabase);
    var outcome :=
      if evaluated then children
      else if c.onSqlOutput == Some(Fail) then ChildrenFailed(SqlModeFailure())
      else AllHold;
    if !updatesDatabase && c.onSqlOutput.None? then
      CheckResult(Some(NullPointer), [], false)
    else
      var h :=
        match outcome
        case AllHold => Handled(None, [])
        case ChildrenFailed(e) => OnFailed(c, RanOn(changeLog, changeSet), listener, e)
        case ChildrenErrored(e) => OnErrored(c, listener, e);
      CheckResult(h.raised, h.events, evaluated)
  }
}

module PreconditionCheckLemmas {
  import opened Wrappers
  import opened PreconditionOptions
  import opened PreconditionContainerState
  import opened PreconditionCheck

  /** When the children are not evaluated, their outcome cannot influence the check. */
  lemma UnevaluatedChildrenAreIrrelevant(c: Container, updatesDatabase: bool, changeLog: Option<string>,
                                         changeSet: Option<string>, listener: bool,
                                         o1: ChildOutcome, o2: ChildOutcome)
    requires !EvaluatesChildren(c, updatesDatabase)
    ensures Check(c, updatesDatabase, changeLog, changeSet, listener, o1)
         == Check(c, updatesDatabase, changeLog, changeSet, listener, o2)
  {
  }

  /** In database-updating mode `onSqlOutput` plays no part at all. */
  lemma UpdateModeIgnoresSqlOutput(c: Container, o: Option<SqlOutputOption>, changeLog: Option<string>,
                                   changeSet: Option<string>, listener: bool, children: ChildOutcome)
    ensures Check(c, true, changeLog, changeSet, listener, children)
         == Check(c.(onSqlOutput := o), true, changeLog, changeSet, listener, children)
  {
  }

  /** Under TEST, SQL-output mode checks exactly as database-updating mode does. */
  lemma SqlTestModeIsUpdateMode(c: Container, changeLog: Option<string>, changeSet: Option<string>,
                                listener: bool, children: ChildOutcome)
    requires c.onSqlOutput == Some(Test)
    ensures Check(c, false, changeLog, changeSet, listener, children)
         == Check(c, true, changeLog, changeSet, listener, children)
  {
  }

  /** The listener is told only on a WARN path, only with WARN, and only when there is one. */
  lemma ListenerOnlyOnWarn(c: Container, updatesDatabase: bool, changeLog: Option<string>,
                           changeSet: Option<string>, listener: bool, children: ChildOutcome, i: nat)
    requires i < |Check(c, updatesDatabase, changeLog, changeSet, listener, children).events|
    ensures var ev := Check(c, updatesDatabase, changeLog, changeSet, listener, children).events[i];
      && (ev.ListenerFailed? ==> listener && c.onFail == Some(Warn) && ev.failOption == Warn)
      && (ev.ListenerErrored? ==> listener && c.onError == Some(Warn) && ev.errorOption == Warn)
  {
  }

  /** CONTINUE on error rethrows the original error even when `onErrorMessage` is set. */
  lemma ErrorContinueIgnoresMessage(c: Container, m: Option<string>, updatesDatabase: bool,
                                    changeLog: Option<string>, changeSet: Option<string>,
                                    listener: bool, e: ErrorException)
    requires c.onError == Some(Continue) && EvaluatesChildren(c, updatesDatabase)
    ensures var r := Check(c.(onErrorMessage := m), updatesDatabase, changeLog, changeSet, listener,
                           ChildrenErrored(e));
      r.raised == Some(Errored(e)) && r.events == [ErrorInfoLogged(Counted(|e.errors|))]
  {
  }

  /** In SQL-output mode under FAIL with `onFail` WARN the check passes with a warning on `ranOn`. */
  lemma SqlFailSwallowedByWarn(c: Container, changeLog: Option<string>, changeSet: Option<string>,
                               listener: bool, children: ChildOutcome)
    requires c.onSqlOutput == Some(Fail) && c.onFail == Some(Warn) && c.onFailMessage.None?
    ensures var r := Check(c, false, changeLog, changeSet, listener, children);
      && r.Passed() && !r.childrenEvaluated
      && r.events[0] == UiWarningSent(RanOn(changeLog, changeSet), Counted(1))
  {
  }

  /**
   * The check passes exactly when the children are skipped (IGNORE), when
   * they hold, or when a WARN policy absorbs the outcome that was reached.
   */
  lemma CheckPassesExactly(c: Container, updatesDatabase: bool, changeLog: Option<string>,
                           changeSet: Option<string>, listener: bool, children: ChildOutcome)
    ensures Check(c, updatesDatabase, changeLog, changeSet, listener, children).Passed() <==>
      || (!updatesDatabase && c.onSqlOutput == Some(Ignore))
      || (EvaluatesChildren(c, updatesDatabase) && children.AllHold?)
      || (ReachesFailHandler(c, updatesDatabase, children) && c.onFail == Some(Warn))
      || (ReachesErrorHandler(c, updatesDatabase, children) && c.onError == Some(Warn))
  {
    var r := Check(c, updatesDatabase, changeLog, changeSet, listener, children);
    if !updatesDatabase && c.onSqlOutput.None? {
      assert !r.Passed();
    } else if ReachesFailHandler(c, updatesDatabase, children) {
      assert r.Passed() <==> c.onFail == Some(Warn);
    } else if ReachesErrorHandler(c, updatesDatabase, children) {
      assert r.Passed() <==> c.onError == Some(Warn);
    } else if EvaluatesChildren(c, updatesDatabase) {
      assert children.AllHold?;
    } else {
      assert c.onSqlOutput.value != Fail && c.onSqlOutput.value != Test;
    }
  }
}
