/**
 * Carrying out a plan against the GitHub API: each operation becomes one or
 * two mutator calls, the operations run one after another, and the first
 * failure is logged and rethrown. The dry run only logs.
 */
module Apply {
  import opened Wrappers
  import opened Strings
  import opened Plan
  import opened ActionsCore
  import opened ApplyMessages
  import opened Seqs

  datatype MutatorCall =
    | CreateAutolink(owner: string, repo: string, keyPrefix: string, urlTemplate: string)
    | DeleteAutolink(owner: string, repo: string, autolinkId: int)

  /** What a failed call throws; only its `message` is read. */
  datatype ApiError = ApiError(message: string)

  /**
   * The GitHub client: the mutator calls it has received, in order, and how
   * the API answers the n-th call (`None` for success).
   */
  class GitHub {
    const respond: (int, MutatorCall) -> Option<ApiError>
    var calls: seq<MutatorCall>

    constructor (respond: (int, MutatorCall) -> Option<ApiError>)
      ensures this.respond == respond && calls == []
    {
      this.respond := respond;
      calls := [];
    }

    method Perform(call: MutatorCall) returns (failure: Option<ApiError>)
      modifies this`calls
      ensures calls == old(calls) + [call]
      ensures failure == respond(|old(calls)|, call)
    {
      failure := respond(|calls|, call);
      calls := calls + [call];
    }
  }

  /** The mutator calls an operation stands for; an update is a delete and then a create. */
  function OpCalls(owner: string, repo: string, op: AutolinkOp): seq<MutatorCall> {
    match op
    case Create(keyPrefix, urlTemplate) => [CreateAutolink(owner, repo, keyPrefix, urlTemplate)]
    case Update(id, keyPrefix, urlTemplate) => [DeleteAutolink(owner, repo, id), CreateAutolink(owner, repo, keyPrefix, urlTemplate)]
    case Delete(id, _) => [DeleteAutolink(owner, repo, id)]
  }

  /** The calls an operation made, and the error that stopped it if one did. */
  datatype Issued = Issued(made: seq<MutatorCall>, failure: Option<ApiError>)

  /**
   * What GitHub makes of an operation whose first call is call number `n`:
   * each call is made only once the one before it succeeded.
   */
  function OpOutcome(respond: (int, MutatorCall) -> Option<ApiError>, n: int, owner: string, repo: string,
                     op: AutolinkOp): Issued
  {
    match op
    case Create(keyPrefix, urlTemplate) =>
      var create := CreateAutolink(owner, repo, keyPrefix, urlTemplate);
      Issued([create], respond(n, create))
    case Update(id, keyPrefix, urlTemplate) =>
      var delete, create := DeleteAutolink(owner, repo, id), CreateAutolink(owner, repo, keyPrefix, urlTemplate);
      if respond(n, delete).Some? then Issued([delete], respond(n, delete))
      else Issued([delete, create], respond(n + 1, create))
    case Delete(id, _) =>
      var delete := DeleteAutolink(owner, repo, id);
      Issued([delete], respond(n, delete))
  }

  /**
   * The calls made are a non-empty prefix of the operation's calls, all but
   * the last of them succeeded, the outcome is the answer to the last one,
   * and with no failure every call was made.
   */
  lemma OpOutcomeShape(respond: (int, MutatorCall) -> Option<ApiError>, n: int, owner: string, repo: string,
                       op: AutolinkOp)
    ensures var r, calls := OpOutcome(respond, n, owner, repo, op), OpCalls(owner, repo, op);
      && 1 <= |r.made| <= |calls| && r.made == calls[..|r.made|]
      && r.failure == respond(n + |r.made| - 1, r.made[|r.made| - 1])
      && (forall k | 0 <= k < |r.made| - 1 :: respond(n + k, r.made[k]).None?)
      && (r.failure.None? ==> r.made == calls)
  {
  }

  /** The info line `applyAutolinkOp` writes before calling GitHub. */
  function Announce(op: AutolinkOp): string {
    match op
    case Create(keyPrefix, _) => "Creating autolink for " + keyPrefix
    case Update(_, keyPrefix, _) => "Updating autolink for " + keyPrefix
    case Delete(_, keyPrefix) => "Deleting obsolete autolink: " + keyPrefix
  }

  /** The error line `applyAutolinkPlan` writes for the operation that failed. */
  function FailureLine(op: AutolinkOp, message: string): string {
    "Failed to apply " + Kind(op) + " operation for " + op.keyPrefix + ": " + message
  }

  /** What a run of the plan logs: an operation announced, or an operation's failure reported. */
  datatype Event = Announced(op: AutolinkOp) | Reported(op: AutolinkOp, error: ApiError)

  /** The log line of one event. */
  function Line(event: Event): LogEntry {
    match event
    case Announced(op) => Info(Announce(op))
    case Reported(op, error) => Error(FailureLine(op, error.message))
  }

  /** The log lines of a run's events, in order. */
  function Lines(events: seq<Event>): (log: seq<LogEntry>)
    ensures |log| == |events| && forall k | 0 <= k < |events| :: log[k] == Line(events[k])
  {
    Map(Line, events)
  }

  /** Where a run of the plan stands: calls made, events logged, operations applied, and the failure if any. */
  datatype Progress = Progress(made: seq<MutatorCall>, events: seq<Event>, applied: nat, failure: Option<ApiError>)

  /** The run after one more operation, whose calls went as `issued` says. */
  function ApplyStep(progress: Progress, op: AutolinkOp, issued: Issued): Progress {
    if issued.failure.Some? then
      Progress(progress.made + issued.made, progress.events + [Announced(op), Reported(op, issued.failure.value)],
               progress.applied, issued.failure)
    else
      Progress(progress.made + issued.made, progress.events + [Announced(op)], progress.applied + 1, None)
  }

  /** The loop over the first `n` operations; once an operation has failed nothing further happens. */
  function RunUpTo(respond: (int, MutatorCall) -> Option<ApiError>, start: int, owner: string, repo: string,
                   ops: seq<AutolinkOp>, n: nat): Progress
    requires n <= |ops|
  {
    if n == 0 then Progress([], [], 0, None)
    else
      var before := RunUpTo(respond, start, owner, repo, ops, n - 1);
      if before.failure.Some? then before else NextStep(respond, start, owner, repo, before, ops[n - 1])
  }

  /** The run after `op`, whose first call is the one after those of `before`. */
  function NextStep(respond: (int, MutatorCall) -> Option<ApiError>, start: int, owner: string, repo: string,
                    before: Progress, op: AutolinkOp): Progress
  {
    ApplyStep(before, op, OpOutcome(respond, start + |before.made|, owner, repo, op))
  }

  /** The whole loop over `ops`, its first call being call number `start`. */
  function PlanRun(respond: (int, MutatorCall) -> Option<ApiError>, start: int, owner: string, repo: string,
                   ops: seq<AutolinkOp>): Progress
  {
    RunUpTo(respond, start, owner, repo, ops, |ops|)
  }

  /** `applyAutolinkOp`: announce the operation, then make its calls, stopping at a failure. */
  method ApplyAutolinkOp(github: GitHub, coreLib: CoreLib, owner: string, repo: string, operation: AutolinkOp)
    returns (failure: Option<ApiError>)
    modifies github`calls, coreLib`log
    ensures var issued := OpOutcome(github.respond, |old(github.calls)|, owner, repo, operation);
      github.calls == old(github.calls) + issued.made && failure == issued.failure
    ensures coreLib.log == old(coreLib.log) + [Info(Announce(operation))]
  {
    match operation
    case Create(keyPrefix, urlTemplate) =>
      coreLib.Info("Creating autolink for " + keyPrefix);
      failure := github.Perform(CreateAutolink(owner, repo, keyPrefix, urlTemplate));
    case Update(id, keyPrefix, urlTemplate) =>
      coreLib.Info("Updating autolink for " + keyPrefix);
      failure := github.Perform(DeleteAutolink(owner, repo, id));
      if failure.None? {
        failure := github.Perform(CreateAutolink(owner, repo, keyPrefix, urlTemplate));
      }
    case Delete(id, keyPrefix) =>
      coreLib.Info("Deleting obsolete autolink: " + keyPrefix);
      failure := github.Perform(DeleteAutolink(owner, repo, id));
  }

  /** After a failure the rest of the operations change nothing. */
  lemma {:induction false} RunStopsAfterFailure(respond: (int, MutatorCall) -> Option<ApiError>, start: int,
                                               owner: string, repo: string, ops: seq<AutolinkOp>, i: nat, n: nat)
    requires i <= n <= |ops| && RunUpTo(respond, start, owner, repo, ops, i).failure.Some?
    ensures RunUpTo(respond, start, owner, repo, ops, n) == RunUpTo(respond, start, owner, repo, ops, i)
    decreases n
  {
    if i < n {
      RunStopsAfterFailure(respond, start, owner, repo, ops, i, n - 1);
    }
  }

  /**
   * The calls made and lines logged, and the result, are those of `run`: the
   * count of applied operations, or the failure that stopped it.
   */
  predicate Reflects(run: Progress, calls0: seq<MutatorCall>, calls: seq<MutatorCall>,
                     log0: seq<LogEntry>, log: seq<LogEntry>, result: Result<nat, ApiError>)
  {
    && calls == calls0 + run.made
    && log == log0 + Lines(run.events)
    && result == (if run.failure.Some? then Failure(run.failure.value) else Success(run.applied))
  }

  /** The run over one more operation, spelt out field by field. */
  lemma RunUpToNext(respond: (int, MutatorCall) -> Option<ApiError>, start: int, owner: string, repo: string,
                    ops: seq<AutolinkOp>, i: nat)
    requires i < |ops| && RunUpTo(respond, start, owner, repo, ops, i).failure.None?
    ensures var run, next := RunUpTo(respond, start, owner, repo, ops, i), RunUpTo(respond, start, owner, repo, ops, i + 1);
      var issued := OpOutcome(respond, start + |run.made|, owner, repo, ops[i]);
      && next.made == run.made + issued.made
      && next.failure == issued.failure
      && next.events == run.events + [Announced(ops[i])]
                       + (if issued.failure.Some? then [Reported(ops[i], issued.failure.value)] else [])
      && next.applied == run.applied + (if issued.failure.Some? then 0 else 1)
  {
    var run := RunUpTo(respond, start, owner, repo, ops, i);
    assert RunUpTo(respond, start, owner, repo, ops, i + 1) == NextStep(respond, start, owner, repo, run, ops[i]);
  }

  /** The line announcing `op` is the line of its event. */
  lemma AnnouncementLogged(log0: seq<LogEntry>, log: seq<LogEntry>, events: seq<Event>, op: AutolinkOp)
    requires log == log0 + Lines(events) + [Info(Announce(op))]
    ensures log == log0 + Lines(events + [Announced(op)])
  {
    MapAppend(Line, events, [Announced(op)]);
    MapSingle(Line, Announced(op));
    AppendOne(log0, Lines(events), Line(Announced(op)));
  }

  /** The announcement and the error line of a failed `op` are the lines of its two events. */
  lemma FailureLogged(log0: seq<LogEntry>, log: seq<LogEntry>, events: seq<Event>, op: AutolinkOp, error: ApiError)
    requires log == log0 + Lines(events) + [Info(Announce(op))] + [Error(FailureLine(op, error.message))]
    ensures log == log0 + Lines(events + [Announced(op), Reported(op, error)])
  {
    var announced, reported := Announced(op), Reported(op, error);
    MapAppend(Line, events, [announced, reported]);
    MapPair(Line, announced, reported);
    AppendTwo(log0, Lines(events), Line(announced), Line(reported));
  }

  /** An operation whose calls all succeed extends the run by those calls and its announcement. */
  lemma RunSucceeds(respond: (int, MutatorCall) -> Option<ApiError>, start: int, owner: string, repo: string,
                    ops: seq<AutolinkOp>, i: nat, calls0: seq<MutatorCall>, log0: seq<LogEntry>,
                    callsBefore: seq<MutatorCall>, logBefore: seq<LogEntry>,
                    calls: seq<MutatorCall>, log: seq<LogEntry>, applied: nat)
    requires i < |ops| && start == |calls0| && RunUpTo(respond, start, owner, repo, ops, i).failure.None?
    requires Reflects(RunUpTo(respond, start, owner, repo, ops, i), calls0, callsBefore, log0, logBefore, Success(applied))
    requires var issued := OpOutcome(respond, |callsBefore|, owner, repo, ops[i]);
      issued.failure.None? && calls == callsBefore + issued.made
    requires log == logBefore + [Info(Announce(ops[i]))]
    ensures RunUpTo(respond, start, owner, repo, ops, i + 1).failure.None?
    ensures Reflects(RunUpTo(respond, start, owner, repo, ops, i + 1), calls0, calls, log0, log, Success(applied + 1))
  {
    var run := RunUpTo(respond, start, owner, repo, ops, i);
    RunUpToNext(respond, start, owner, repo, ops, i);
    assert |callsBefore| == start + |run.made|;
    var next := RunUpTo(respond, start, owner, repo, ops, i + 1);
    assert next.events == run.events + [Announced(ops[i])];
    var issued := OpOutcome(respond, |callsBefore|, owner, repo, ops[i]);
    Concat(calls0, run.made, issued.made);
    AnnouncementLogged(log0, log, run.events, ops[i]);
  }


  /** An operation with a failing call extends the run by its calls, its announcement and its error. */
  lemma StepFails(respond: (int, MutatorCall) -> Option<ApiError>, start: int, owner: string, repo: string,
                  ops: seq<AutolinkOp>, i: nat, calls0: seq<MutatorCall>, log0: seq<LogEntry>,
                  callsBefore: seq<MutatorCall>, logBefore: seq<LogEntry>,
                  calls: seq<MutatorCall>, log: seq<LogEntry>, applied: nat, error: ApiError)
    requires i < |ops| && start == |calls0| && RunUpTo(respond, start, owner, repo, ops, i).failure.None?
    requires Reflects(RunUpTo(respond, start, owner, repo, ops, i), calls0, callsBefore, log0, logBefore, Success(applied))
    requires var issued := OpOutcome(respond, |callsBefore|, owner, repo, ops[i]);
      issued.failure == Some(error) && calls == callsBefore + issued.made
    requires log == logBefore + [Info(Announce(ops[i]))] + [Error(FailureLine(ops[i], error.message))]
    ensures RunUpTo(respond, start, owner, repo, ops, i + 1).failure == Some(error)
    ensures Reflects(RunUpTo(respond, start, owner, repo, ops, i + 1), calls0, calls, log0, log, Failure(error))
  {
    var run := RunUpTo(respond, start, owner, repo, ops, i);
    RunUpToNext(respond, start, owner, repo, ops, i);
    assert |callsBefore| == start + |run.made|;
    var next := RunUpTo(respond, start, owner, repo, ops, i + 1);
    assert next.failure == Some(error);
    assert next.events == run.events + [Announced(ops[i]), Reported(ops[i], error)];
    var issued := OpOutcome(respond, |callsBefore|, owner, repo, ops[i]);
    Concat(calls0, run.made, issued.made);
    FailureLogged(log0, log, run.events, ops[i], error);
  }

  /** An operation with a failing call ends the run: its calls and both log lines are the last. */
  lemma RunFails(respond: (int, MutatorCall) -> Option<ApiError>, start: int, owner: string, repo: string,
                 ops: seq<AutolinkOp>, i: nat, calls0: seq<MutatorCall>, log0: seq<LogEntry>,
                 callsBefore: seq<MutatorCall>, logBefore: seq<LogEntry>,
                 calls: seq<MutatorCall>, log: seq<LogEntry>, applied: nat, error: ApiError)
    requires i < |ops| && start == |calls0| && RunUpTo(respond, start, owner, repo, ops, i).failure.None?
    requires Reflects(RunUpTo(respond, start, owner, repo, ops, i), calls0, callsBefore, log0, logBefore, Success(applied))
    requires var issued := OpOutcome(respond, |callsBefore|, owner, repo, ops[i]);
      issued.failure == Some(error) && calls == callsBefore + issued.made
    requires log == logBefore + [Info(Announce(ops[i]))] + [Error(FailureLine(ops[i], error.message))]
    ensures Reflects(PlanRun(respond, start, owner, repo, ops), calls0, calls, log0, log, Failure(error))
  {
    StepFails(respond, start, owner, repo, ops, i, calls0, log0, callsBefore, logBefore, calls, log, applied, error);
    RunStopsAfterFailure(respond, start, owner, repo, ops, i + 1, |ops|);
  }



  /**
   * `applyAutolinkPlan`: the operations in order; the count of applied ones,
   * or the first failure, logged and rethrown.
   */
  method ApplyAutolinkPlan(github: GitHub, coreLib: CoreLib, owner: string, repo: string, operations: seq<AutolinkOp>)
    returns (result: Result<nat, ApiError>)
    modifies github`calls, coreLib`log
    ensures Reflects(PlanRun(github.respond, |old(github.calls)|, owner, repo, operations),
                     old(github.calls), github.calls, old(coreLib.log), coreLib.log, result)
  {
    ghost var respond, start := github.respond, |github.calls|;
    ghost var calls0, log0 := github.calls, coreLib.log;
    var operationsApplied := 0;
    for i := 0 to |operations|
      invariant RunUpTo(respond, start, owner, repo, operations, i).failure.None?
      invariant Reflects(RunUpTo(respond, start, owner, repo, operations, i),
                         calls0, github.calls, log0, coreLib.log, Success(operationsApplied))
    {
      var operation := operations[i];
      ghost var callsBefore, logBefore := github.calls, coreLib.log;
      var failure := ApplyAutolinkOp(github, coreLib, owner, repo, operation);
      if failure.Some? {
        coreLib.Error(FailureLine(operation, failure.value.message));
        RunFails(respond, start, owner, repo, operations, i, calls0, log0, callsBefore, logBefore,
                 github.calls, coreLib.log, operationsApplied, failure.value);
        return Failure(failure.value);
      }
      RunSucceeds(respond, start, owner, repo, operations, i, calls0, log0, callsBefore, logBefore,
                  github.calls, coreLib.log, operationsApplied);
      operationsApplied := operationsApplied + 1;
    }
    return Success(operationsApplied);
  }

  /** The line the dry run writes for one operation. */
  function DryRunLine(op: AutolinkOp): string {
    match op
    case Create(keyPrefix, urlTemplate) => "[DRY RUN] Would create autolink for " + keyPrefix + " -> " + urlTemplate
    case Update(id, keyPrefix, urlTemplate) =>
      "[DRY RUN] Would update autolink " + IntToString(id) + " for " + keyPrefix + " -> " + urlTemplate
    case Delete(id, keyPrefix) => "[DRY RUN] Would delete autolink " + IntToString(id) + " for " + keyPrefix
  }

  /** One info line per operation, in order. */
  function DryRunLog(ops: seq<AutolinkOp>): (log: seq<LogEntry>)
    ensures |log| == |ops|
    ensures forall k | 0 <= k < |ops| :: log[k] == Info(DryRunLine(ops[k]))
  {
    if ops == [] then [] else DryRunLog(ops[..|ops| - 1]) + [Info(DryRunLine(ops[|ops| - 1]))]
  }

  /** `applyAutolinkPlanDryRun`: the header, one line per operation, and the number of operations. */
  method ApplyAutolinkPlanDryRun(coreLib: CoreLib, operations: seq<AutolinkOp>) returns (count: nat)
    modifies coreLib`log
    ensures coreLib.log == old(coreLib.log) + [Info("=== DRY RUN MODE ===")] + DryRunLog(operations)
    ensures count == |operations|
  {
    coreLib.Info("=== DRY RUN MODE ===");
    for i := 0 to |operations|
      invariant coreLib.log == old(coreLib.log) + [Info("=== DRY RUN MODE ===")] + DryRunLog(operations[..i])
    {
      var op := operations[i];
      match op
      case Create(keyPrefix, urlTemplate) =>
        coreLib.Info("[DRY RUN] Would create autolink for " + keyPrefix + " -> " + urlTemplate);
      case Update(id, keyPrefix, urlTemplate) =>
        coreLib.Info("[DRY RUN] Would update autolink " + IntToString(id) + " for " + keyPrefix + " -> " + urlTemplate);
      case Delete(id, keyPrefix) =>
        coreLib.Info("[DRY RUN] Would delete autolink " + IntToString(id) + " for " + keyPrefix);
      assert operations[..i + 1][..i] == operations[..i];
    }
    assert operations[..|operations|] == operations;
    return |operations|;
  }
}
