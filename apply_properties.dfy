/** What a run of the plan against GitHub amounts to, for every way the API can answer. */
module ApplyProperties {
  import opened Wrappers
  import opened Strings
  import opened Plan
  import opened ActionsCore
  import opened ApplyMessages
  import opened Apply

  /** Every call the operations stand for, in order. */
  function AllCalls(owner: string, repo: string, ops: seq<AutolinkOp>): seq<MutatorCall> {
    if ops == [] then [] else AllCalls(owner, repo, ops[..|ops| - 1]) + OpCalls(owner, repo, ops[|ops| - 1])
  }

  /** One announcement per operation, in order. */
  function Announcements(ops: seq<AutolinkOp>): seq<Event> {
    if ops == [] then [] else Announcements(ops[..|ops| - 1]) + [Announced(ops[|ops| - 1])]
  }

  /**
   * A run over a prefix that met no failure went through every operation
   * of it, making every call and announcing every operation.
   */
  lemma {:induction false} RunUpToCompletes(respond: (int, MutatorCall) -> Option<ApiError>, start: int,
                                           owner: string, repo: string, ops: seq<AutolinkOp>, n: nat)
    requires n <= |ops| && RunUpTo(respond, start, owner, repo, ops, n).failure.None?
    ensures var r := RunUpTo(respond, start, owner, repo, ops, n);
      r.applied == n && r.made == AllCalls(owner, repo, ops[..n]) && r.events == Announcements(ops[..n])
    decreases n
  {
    if n > 0 {
      var before := RunUpTo(respond, start, owner, repo, ops, n - 1);
      assert before.failure.None?;
      RunUpToCompletes(respond, start, owner, repo, ops, n - 1);
      RunUpToNext(respond, start, owner, repo, ops, n - 1);
      OpOutcomeShape(respond, start + |before.made|, owner, repo, ops[n - 1]);
      assert ops[..n][..n - 1] == ops[..n - 1] && ops[..n][n - 1] == ops[n - 1];
    }
  }

  /** A step that fails leaves the count of applied operations alone; one that succeeds adds one. */
  lemma RunUpToCount(respond: (int, MutatorCall) -> Option<ApiError>, start: int,
                     owner: string, repo: string, ops: seq<AutolinkOp>, i: nat)
    requires i < |ops| && RunUpTo(respond, start, owner, repo, ops, i).failure.None?
    ensures var run, next := RunUpTo(respond, start, owner, repo, ops, i), RunUpTo(respond, start, owner, repo, ops, i + 1);
      next.applied == run.applied + (if next.failure.Some? then 0 else 1)
  {
    var run := RunUpTo(respond, start, owner, repo, ops, i);
    assert RunUpTo(respond, start, owner, repo, ops, i + 1) == NextStep(respond, start, owner, repo, run, ops[i]);
  }

  /** A run over a prefix that met no failure applied every operation of it. */
  lemma {:induction false} RunUpToApplied(respond: (int, MutatorCall) -> Option<ApiError>, start: int,
                                         owner: string, repo: string, ops: seq<AutolinkOp>, n: nat)
    requires n <= |ops| && RunUpTo(respond, start, owner, repo, ops, n).failure.None?
    ensures RunUpTo(respond, start, owner, repo, ops, n).applied == n
    decreases n
  {
    if n > 0 {
      assert RunUpTo(respond, start, owner, repo, ops, n - 1).failure.None?;
      RunUpToApplied(respond, start, owner, repo, ops, n - 1);
      RunUpToCount(respond, start, owner, repo, ops, n - 1);
    }
  }

  /**
   * A run over a prefix that met a failure stopped at the operation
   * numbered by its count of applied ones, right after the operations
   * before it all went through.
   */
  lemma {:induction false} RunUpToStops(respond: (int, MutatorCall) -> Option<ApiError>, start: int,
                                       owner: string, repo: string, ops: seq<AutolinkOp>, n: nat)
    requires n <= |ops| && RunUpTo(respond, start, owner, repo, ops, n).failure.Some?
    ensures var r := RunUpTo(respond, start, owner, repo, ops, n);
      && r.applied < n
      && RunUpTo(respond, start, owner, repo, ops, r.applied).failure.None?
      && r == RunUpTo(respond, start, owner, repo, ops, r.applied + 1)
    decreases n
  {
    var r := RunUpTo(respond, start, owner, repo, ops, n);
    var before := RunUpTo(respond, start, owner, repo, ops, n - 1);
    if before.failure.Some? {
      assert r == before;
      RunUpToStops(respond, start, owner, repo, ops, n - 1);
    } else {
      RunUpToApplied(respond, start, owner, repo, ops, n - 1);
      RunUpToCount(respond, start, owner, repo, ops, n - 1);
      assert r.applied + 1 == n;
    }
  }

  /** With no failure every operation was applied, every call made and every operation announced. */
  lemma PlanRunCompletes(respond: (int, MutatorCall) -> Option<ApiError>, start: int,
                         owner: string, repo: string, ops: seq<AutolinkOp>)
    requires PlanRun(respond, start, owner, repo, ops).failure.None?
    ensures var r := PlanRun(respond, start, owner, repo, ops);
      r.applied == |ops| && r.made == AllCalls(owner, repo, ops) && r.events == Announcements(ops)
  {
    RunUpToCompletes(respond, start, owner, repo, ops, |ops|);
    assert ops[..|ops|] == ops;
  }

  /**
   * `r` stopped at operation `k`: the operations before it made all their
   * calls, it made the calls up to the refused one and nothing after it was
   * called, and the events end with its announcement and its failure.
   */
  predicate StoppedAt(respond: (int, MutatorCall) -> Option<ApiError>, start: int,
                      owner: string, repo: string, ops: seq<AutolinkOp>, r: Progress, k: nat)
  {
    && k < |ops|
    && r.failure.Some?
    && var before := AllCalls(owner, repo, ops[..k]);
       var failing := OpOutcome(respond, start + |before|, owner, repo, ops[k]);
       && failing.failure == r.failure
       && r.made == before + failing.made
       && r.events == Announcements(ops[..k]) + [Announced(ops[k]), Reported(ops[k], r.failure.value)]
  }

  lemma FailingStep(respond: (int, MutatorCall) -> Option<ApiError>, start: int,
                    owner: string, repo: string, ops: seq<AutolinkOp>, k: nat)
    requires k < |ops| && RunUpTo(respond, start, owner, repo, ops, k).failure.None?
    requires RunUpTo(respond, start, owner, repo, ops, k + 1).failure.Some?
    ensures StoppedAt(respond, start, owner, repo, ops, RunUpTo(respond, start, owner, repo, ops, k + 1), k)
  {
    RunUpToCompletes(respond, start, owner, repo, ops, k);
    RunUpToNext(respond, start, owner, repo, ops, k);
  }

  /** A failure stops the run at the operation numbered by the count of applied ones. */
  lemma PlanRunStopsAtFirstFailure(respond: (int, MutatorCall) -> Option<ApiError>, start: int,
                                   owner: string, repo: string, ops: seq<AutolinkOp>)
    requires PlanRun(respond, start, owner, repo, ops).failure.Some?
    ensures var r := PlanRun(respond, start, owner, repo, ops);
      StoppedAt(respond, start, owner, repo, ops, r, r.applied)
  {
    var r := PlanRun(respond, start, owner, repo, ops);
    RunUpToStops(respond, start, owner, repo, ops, |ops|);
    FailingStep(respond, start, owner, repo, ops, r.applied);
  }

  /** When GitHub accepts every call, every operation is applied and every call made. */
  lemma PlanRunAllAccepted(respond: (int, MutatorCall) -> Option<ApiError>, start: int,
                           owner: string, repo: string, ops: seq<AutolinkOp>)
    requires forall n: int, call: MutatorCall :: respond(n, call).None?
    ensures var r := PlanRun(respond, start, owner, repo, ops);
      r.failure.None? && r.applied == |ops| && r.made == AllCalls(owner, repo, ops)
  {
    var r := PlanRun(respond, start, owner, repo, ops);
    if r.failure.Some? {
      PlanRunStopsAtFirstFailure(respond, start, owner, repo, ops);
      var before := AllCalls(owner, repo, ops[..r.applied]);
      OpOutcomeShape(respond, start + |before|, owner, repo, ops[r.applied]);
      assert false;
    }
    PlanRunCompletes(respond, start, owner, repo, ops);
  }

  /** An update whose delete is refused never creates the replacement, so the old autolink stays. */
  lemma UpdateStopsAfterRefusedDelete(respond: (int, MutatorCall) -> Option<ApiError>, n: int,
                                      owner: string, repo: string, op: AutolinkOp)
    requires op.Update? && respond(n, DeleteAutolink(owner, repo, op.autolinkId)).Some?
    ensures var r := OpOutcome(respond, n, owner, repo, op);
      r.made == [DeleteAutolink(owner, repo, op.autolinkId)] && r.failure.Some?
      && forall call | call in r.made :: !call.CreateAutolink?
  {
  }

  lemma CreateLineSplits()
    ensures "[DRY RUN] Would create autolink for " == "[DRY RUN] Would " + "create" + " " + "autolink for "
  {
  }

  lemma UpdateLineSplits()
    ensures "[DRY RUN] Would update autolink " == "[DRY RUN] Would " + "update" + " " + "autolink "
  {
  }

  lemma DeleteLineSplits()
    ensures "[DRY RUN] Would delete autolink " == "[DRY RUN] Would " + "delete" + " " + "autolink "
  {
  }

  lemma Regroup4(h: string, a: string, b: string, c: string, d: string)
    ensures h + a + b + c + d == h + (a + b + c + d)
  {
  }

  lemma Regroup6(h: string, a: string, b: string, c: string, d: string, e: string, f: string)
    ensures h + a + b + c + d + e + f == h + (a + b + c + d + e + f)
  {
  }

  /** Each dry-run line is the verb of the operation followed by its description. */
  lemma DryRunLineDescribes(op: AutolinkOp)
    ensures DryRunLine(op) == "[DRY RUN] Would " + Kind(op) + " " + DescribeOp(op)
  {
    var head := "[DRY RUN] Would " + Kind(op) + " ";
    match op
    case Create(keyPrefix, urlTemplate) =>
      CreateLineSplits();
      Regroup4(head, "autolink for ", keyPrefix, " -> ", urlTemplate);
    case Update(id, keyPrefix, urlTemplate) =>
      UpdateLineSplits();
      Regroup6(head, "autolink ", IntToString(id), " for ", keyPrefix, " -> ", urlTemplate);
    case Delete(id, keyPrefix) =>
      DeleteLineSplits();
      Regroup4(head, "autolink ", IntToString(id), " for ", keyPrefix);
  }

  /** The dry run's k-th line after the header describes the k-th operation. */
  lemma DryRunLogDescribes(ops: seq<AutolinkOp>, k: nat)
    requires k < |ops|
    ensures DryRunLog(ops)[k] == Info("[DRY RUN] Would " + Kind(ops[k]) + " " + DescribeOp(ops[k]))
  {
    DryRunLineDescribes(ops[k]);
  }
}
