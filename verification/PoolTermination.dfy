/**
  Termination of Invoke under concurrency. Whatever the other processes and config syncs do, each
  step of a process brings it nearer to its end; it can always go on until it has ended; and it
  ends without its lease when its completing transactions commit.
 */
module PoolTermination {
  import opened Prelude
  import opened PoolModel
  import opened PoolInvariants
  import opened PoolRetry
  import opened PoolSystem
  import opened PoolTheorems

  /** The process that takes a step; Begin creates its process. */
  function ProcOf(step: Step): Option<nat> {
    match step
    case Sync(_) => None
    case Begin(p, _, _, _, _, _) => Some(p)
    case Succeed(p, _, _, _) => Some(p)
    case ProviderFails(p, _, _, _) => Some(p)
    case InternalFailure(p, _, _, _) => Some(p)
    case BackoffInterrupted(p, _, _) => Some(p)
    case Retry(p, _, _, _) => Some(p)
    case Finish(p, _, _) => Some(p)
  }

  /** A transaction that ends an attempt or closes the invocation, and does not commit. */
  predicate LosesCompletion(step: Step) {
    match step
    case Succeed(_, _, _, commits) => !commits
    case ProviderFails(_, _, _, commits) => !commits
    case InternalFailure(_, _, _, commits) => !commits
    case Finish(_, _, commits) => !commits
    case _ => false
  }

  predicate Ended(p: Process) {
    p.phase.Returned? || p.phase.Abandoned?
  }

  /** How many steps the process can still take. */
  function Left(p: Process): int {
    match p.phase
    case Holding(_, k, _) => 2 * (p.policy.maxAttempts - k) + 2
    case Waiting(_, k, _, _) => 2 * (p.policy.maxAttempts - k) + 1
    case Finishing(_, _, _) => 1
    case Returned(_, _) => 0
    case Abandoned(_, _) => 0
  }

  lemma LeftIsNatural(db: Db, p: Process)
    requires ProcessOk(db, p)
    ensures Left(p) >= 0 && (Left(p) == 0 <==> Ended(p))
  {
  }

  // One step -------------------------------------------------------------------------------

  lemma OthersStand(s: System, step: Step, p: nat)
    requires Enabled(s, step) && p in s.procs && ProcOf(step) != Some(p)
    ensures p in Apply(s, step).procs && Apply(s, step).procs[p] == s.procs[p]
  {
  }

  /** What became of the process: same policy, fewer steps left, given up only on a lost completion. */
  ghost predicate Advanced(p: Process, step: Step, p': Process) {
    && p'.policy == p.policy && Left(p') < Left(p)
    && (p'.phase.Abandoned? ==> LosesCompletion(step))
  }

  lemma AttemptInRange(db: Db, p: Process)
    requires ProcessOk(db, p)
    ensures p.phase.Holding? ==> p.phase.attempt <= p.policy.maxAttempts
    ensures p.phase.Waiting? ==> p.phase.attempt < p.policy.maxAttempts
  {
  }

  /** Where a completion leads. */
  function AfterCompletion(p: Process, step: Step): Phase
    requires (step.Succeed? || step.ProviderFails? || step.InternalFailure?) && p.phase.Holding?
  {
    if !step.commits then Abandoned(InvocationOf(p.phase), p.phase.slept)
    else
      match step
      case Succeed(_, _, _, _) => Returned(p.phase.reservation.invocationId, p.phase.slept)
      case ProviderFails(_, e, _, _) => AfterFailure(p, e)
      case InternalFailure(_, message, _, _) => Finishing(p.phase.reservation.invocationId, p.phase.slept, InternalError(message))
  }

  lemma CompletionLeads(s: System, step: Step)
    requires SystemOk(s) && Enabled(s, step) && (step.Succeed? || step.ProviderFails? || step.InternalFailure?)
    ensures step.proc in Apply(s, step).procs
    ensures Apply(s, step).procs[step.proc] == s.procs[step.proc].(phase := AfterCompletion(s.procs[step.proc], step))
  {
    var p := s.procs[step.proc];
    assert ProcessOk(s.db, p);
    match step
    case Succeed(_, output, now, _) => HolderCanComplete(s.db, p.phase.reservation, output, InternalError(""), now);
    case ProviderFails(_, e, now, _) => HolderCanComplete(s.db, p.phase.reservation, None, e, now);
    case InternalFailure(_, message, now, _) => HolderCanComplete(s.db, p.phase.reservation, None, InternalError(message), now);
  }

  lemma CompletionAdvances(p: Process, step: Step)
    requires (step.Succeed? || step.ProviderFails? || step.InternalFailure?) && p.phase.Holding? && p.phase.attempt <= p.policy.maxAttempts
    ensures Advanced(p, step, p.(phase := AfterCompletion(p, step)))
  {
  }

  lemma HolderAdvances(s: System, step: Step)
    requires SystemOk(s) && Enabled(s, step) && (step.Succeed? || step.ProviderFails? || step.InternalFailure?)
    ensures step.proc in Apply(s, step).procs && Advanced(s.procs[step.proc], step, Apply(s, step).procs[step.proc])
  {
    AttemptInRange(s.db, s.procs[step.proc]);
    CompletionLeads(s, step);
    CompletionAdvances(s.procs[step.proc], step);
  }

  /** After waiting comes the next attempt or the closing of the invocation. */
  lemma WaitingLeads(s: System, step: Step)
    requires Enabled(s, step) && (step.Retry? || step.BackoffInterrupted?)
    ensures step.proc in Apply(s, step).procs
    ensures var p, p' := s.procs[step.proc], Apply(s, step).procs[step.proc];
      p' == p.(phase := p'.phase) && (p'.phase.Finishing? || (p'.phase.Holding? && p'.phase.attempt == p.phase.attempt + 1))
  {
  }

  lemma PhaseAdvances(p: Process, step: Step, p': Process)
    requires p' == p.(phase := p'.phase)
    requires if p.phase.Waiting? then p.phase.attempt < p.policy.maxAttempts
               && (p'.phase.Finishing? || (p'.phase.Holding? && p'.phase.attempt == p.phase.attempt + 1))
             else p.phase.Finishing? && step.Finish? && (if step.commits then p'.phase.Returned? else p'.phase.Abandoned?)
    ensures Advanced(p, step, p')
  {
  }

  lemma WaiterAdvances(s: System, step: Step)
    requires SystemOk(s) && Enabled(s, step) && (step.Retry? || step.BackoffInterrupted?)
    ensures step.proc in Apply(s, step).procs && Advanced(s.procs[step.proc], step, Apply(s, step).procs[step.proc])
  {
    AttemptInRange(s.db, s.procs[step.proc]);
    WaitingLeads(s, step);
    PhaseAdvances(s.procs[step.proc], step, Apply(s, step).procs[step.proc]);
  }

  lemma FinishingLeads(s: System, step: Step)
    requires SystemOk(s) && Enabled(s, step) && step.Finish?
    ensures step.proc in Apply(s, step).procs
    ensures var p, p' := s.procs[step.proc], Apply(s, step).procs[step.proc];
      p' == p.(phase := p'.phase) && (if step.commits then p'.phase.Returned? else p'.phase.Abandoned?)
  {
    assert ProcessOk(s.db, s.procs[step.proc]);
  }

  lemma FinisherAdvances(s: System, step: Step)
    requires SystemOk(s) && Enabled(s, step) && step.Finish?
    ensures step.proc in Apply(s, step).procs && Advanced(s.procs[step.proc], step, Apply(s, step).procs[step.proc])
  {
    FinishingLeads(s, step);
    PhaseAdvances(s.procs[step.proc], step, Apply(s, step).procs[step.proc]);
  }

  lemma OwnStepAdvances(s: System, step: Step, p: nat)
    requires SystemOk(s) && Enabled(s, step) && p in s.procs && ProcOf(step) == Some(p)
    ensures p in Apply(s, step).procs && Advanced(s.procs[p], step, Apply(s, step).procs[p])
  {
    match step
    case Succeed(_, _, _, _) => HolderAdvances(s, step);
    case ProviderFails(_, _, _, _) => HolderAdvances(s, step);
    case InternalFailure(_, _, _, _) => HolderAdvances(s, step);
    case BackoffInterrupted(_, _, _) => WaiterAdvances(s, step);
    case Retry(_, _, _, _) => WaiterAdvances(s, step);
    case Finish(_, _, _) => FinisherAdvances(s, step);
  }

  /** A process that has not ended can take a step, without losing a completion. */
  lemma CanGoOn(s: System, p: nat) returns (step: Step)
    requires SystemOk(s) && p in s.procs && !Ended(s.procs[p])
    ensures ProcOf(step) == Some(p) && Enabled(s, step) && !LosesCompletion(step)
  {
    var phase := s.procs[p].phase;
    if phase.Holding? {
      step := Succeed(p, None, 0, true);
    } else if phase.Waiting? {
      step := BackoffInterrupted(p, 0, "");
    } else {
      step := Finish(p, 0, true);
    }
  }

  lemma EndedIsEnd(s: System, p: nat, step: Step)
    requires p in s.procs && Ended(s.procs[p]) && ProcOf(step) == Some(p)
    ensures !Enabled(s, step)
  {
  }

  // Whole runs -----------------------------------------------------------------------------

  ghost function OwnSteps(steps: seq<Step>, p: nat, a: nat, b: nat): nat
    requires a <= b <= |steps|
  {
    if a == b then 0 else OwnSteps(steps, p, a, b - 1) + if ProcOf(steps[b - 1]) == Some(p) then 1 else 0
  }

  /** No completing transaction of p between a and b fails to commit. */
  ghost predicate CompletionsCommit(steps: seq<Step>, p: nat, a: nat, b: nat)
    requires a <= b <= |steps|
  {
    forall k | a <= k < b && ProcOf(steps[k]) == Some(p) :: !LosesCompletion(steps[k])
  }

  /** Process p, k steps of its own after it was first. */
  ghost predicate Progressed(first: Process, k: nat, p: Process, committed: bool) {
    && p.policy == first.policy && k + Left(p) <= Left(first)
    && (committed && !first.phase.Abandoned? ==> !p.phase.Abandoned?)
  }

  lemma ProgressedOneMore(first: Process, k: nat, p: Process, committed: bool, step: Step, own: bool, p': Process, committed': bool)
    requires Progressed(first, k, p, committed) && (committed' ==> committed && (own ==> !LosesCompletion(step)))
    requires if own then Advanced(p, step, p') else p' == p
    ensures Progressed(first, k + if own then 1 else 0, p', committed')
  {
  }

  lemma StepProgresses(s: System, step: Step, p: nat)
    requires SystemOk(s) && Enabled(s, step) && p in s.procs
    ensures p in Apply(s, step).procs
    ensures if ProcOf(step) == Some(p) then Advanced(s.procs[p], step, Apply(s, step).procs[p]) else Apply(s, step).procs[p] == s.procs[p]
  {
    if ProcOf(step) == Some(p) {
      OwnStepAdvances(s, step, p);
    } else {
      OthersStand(s, step, p);
    }
  }

  lemma {:induction false} RunProgresses(states: seq<System>, steps: seq<Step>, p: nat, a: nat, b: nat)
    requires IsRun(states, steps) && a <= b < |states| && p in states[a].procs
    ensures p in states[b].procs
    ensures Progressed(states[a].procs[p], OwnSteps(steps, p, a, b), states[b].procs[p], CompletionsCommit(steps, p, a, b))
    decreases b
  {
    if a < b {
      RunProgresses(states, steps, p, a, b - 1);
      EveryStateOk(states, steps, b - 1);
      assert StepAt(states, steps, b - 1);
      StepProgresses(states[b - 1], steps[b - 1], p);
      ProgressedOneMore(states[a].procs[p], OwnSteps(steps, p, a, b - 1), states[b - 1].procs[p], CompletionsCommit(steps, p, a, b - 1),
                        steps[b - 1], ProcOf(steps[b - 1]) == Some(p), states[b].procs[p], CompletionsCommit(steps, p, a, b));
    }
  }

  lemma BeginLeft(states: seq<System>, steps: seq<Step>, b: nat, after: nat, p: nat)
    requires IsRun(states, steps) && after == b + 1 <= |steps| && steps[b].Begin? && steps[b].proc == p && p in states[after].procs
    ensures states[after].procs[p].policy == steps[b].policy && Left(states[after].procs[p]) == 2 * steps[b].policy.maxAttempts
    ensures !states[after].procs[p].phase.Abandoned?
  {
    assert StepAt(states, steps, b);
  }

  /** p has ended exactly when it has no step left to take. */
  ghost predicate EndsWhenOutOfSteps(s: System, p: nat)
    requires p in s.procs
  {
    Ended(s.procs[p]) <==> forall step | ProcOf(step) == Some(p) :: !Enabled(s, step)
  }

  lemma EndsExactly(s: System, p: nat)
    requires SystemOk(s) && p in s.procs
    ensures EndsWhenOutOfSteps(s, p)
  {
    if Ended(s.procs[p]) {
      forall step | ProcOf(step) == Some(p) ensures !Enabled(s, step) { EndedIsEnd(s, p, step); }
    } else {
      var step := CanGoOn(s, p);
    }
  }

  /**
    In every interleaving, a process that got its reservation at step b takes at most
    2 * MaxAttempts steps of its own; until it has ended there is one it can take; it ends Returned,
    with no running attempt and a final invocation status, if its completions commit. All along its
    attempts and its sleep are bounded.
   */
  lemma RetryTerminationAndRelease(states: seq<System>, steps: seq<Step>, b: nat, after: nat, j: nat, p: nat)
    requires IsRun(states, steps) && after == b + 1 <= j < |states| && steps[b].Begin? && steps[b].proc == p && p in states[after].procs
    ensures p in states[j].procs && OwnSteps(steps, p, after, j) <= 2 * steps[b].policy.maxAttempts
    ensures OwnSteps(steps, p, after, j) == 2 * steps[b].policy.maxAttempts ==> Ended(states[j].procs[p])
    ensures EndsWhenOutOfSteps(states[j], p)
    ensures CompletionsCommit(steps, p, after, j) && Ended(states[j].procs[p]) ==> states[j].procs[p].phase.Returned?
    ensures BoundedAndReleased(states[j].db, states[j].procs[p])
  {
    BeginLeft(states, steps, b, after, p);
    RunProgresses(states, steps, p, after, j);
    EveryStateOk(states, steps, j);
    LeftIsNatural(states[j].db, states[j].procs[p]);
    EndsExactly(states[j], p);
    ProcessIsBounded(states[j].db, states[j].procs[p]);
  }
}
