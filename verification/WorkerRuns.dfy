/** What stored results mean, and how often a job is retried, over all runs of all workers. */
module WorkerRuns {
  import opened Jobs
  import opened BrokerSpec
  import opened BrokerHistory
  import opened BrokerOrder
  import opened Retry
  import opened WorkerSpec

  lemma {:induction false} NowConcat(w: World, a: seq<Step>, b: seq<Step>)
    ensures Now(w, a + b) == Now(Now(w, a), b)
    ensures AllowedRun(w, a + b) <==> AllowedRun(w, a) && AllowedRun(Now(w, a), b)
  {
    hide Act, Enabled, Allowed;
    if b == [] {
      assert a + b == a;
    } else {
      NowConcat(w, a, Front(b));
      assert Front(a + b) == a + Front(b);
    }
  }

  lemma {:induction false} WorldPreserves(w: World, steps: seq<Step>)
    requires Inv(w.broker) && ProcsOk(w) && AllowedRun(w, steps)
    ensures Preserves(w.broker, Now(w, steps).broker)
  {
    hide Inv, ProcsOk, Act, Preserves;
    if steps == [] {
      PreservesSelf(w.broker);
    } else {
      WorldPreserves(w, Front(steps));
      RunIsSound(w, Front(steps));
      BrokerStep(Now(w, Front(steps)), Last(steps));
      PreservesTransitive(w.broker, Now(w, Front(steps)).broker, Now(w, steps).broker);
    }
  }

  lemma InitialSound()
    ensures Inv(INITIAL.broker) && ProcsOk(INITIAL)
  {
    EmptyInv();
  }

  // ---------------------------------------------------------------- result coherence

  predicate IsDead(s: State, id: Uuid) {
    id in s.jobs && s.jobs[id].place.Dead?
  }

  predicate IsAcked(s: State, id: Uuid) {
    id in s.jobs && s.jobs[id].place.Acked?
  }

  predicate HoldsSuccess(results: map<Uuid, JobResult>, id: Uuid) {
    id in results && results[id].Success?
  }

  /** A stored failure belongs to a dead job; a process about to store a failure has buried its job;
      one about to acknowledge has stored its success, which only a burial by another claim could
      have been overwritten after. */
  ghost predicate Coherent(w: World) {
    && (forall id | id in w.results && w.results[id].Failure? :: IsDead(w.broker, id))
    && (forall t | t in w.procs && w.procs[t].pc.StoringFailure? :: IsDead(w.broker, w.procs[t].id))
    && (forall t | t in w.procs && w.procs[t].backend && w.procs[t].pc.Acking? ::
          HoldsSuccess(w.results, w.procs[t].id) || IsDead(w.broker, w.procs[t].id))
  }

  lemma DeadStays(s: State, n: State, id: Uuid)
    requires Preserves(s, n)
    ensures IsDead(s, id) ==> IsDead(n, id)
    ensures IsAcked(s, id) ==> IsAcked(n, id)
  {
  }

  lemma BuriedIsDead(s: State, id: Uuid, token: Uuid, reason: string)
    ensures Settling(s, id, token, Bury(reason)).answer.Settled? ==>
              IsDead(Settling(s, id, token, Bury(reason)).next, id)
  {
  }

  lemma StepKeepsCoherent(w: World, step: Step)
    requires Inv(w.broker) && Coherent(w) && Allowed(w, step)
    ensures Coherent(Act(w, step))
  {
    hide Inv, IsDead, HoldsSuccess;
    var n := Act(w, step);
    BrokerStep(w, step);
    forall id ensures IsDead(w.broker, id) ==> IsDead(n.broker, id) {
      DeadStays(w.broker, n.broker, id);
    }
    if step.Settle? && w.procs[step.token].pc.Burying? {
      BuriedIsDead(w.broker, w.procs[step.token].id, step.token, w.procs[step.token].pc.reason);
    }
    hide Preserves, Apply, Legal, Settling;
    StoresFollow(w, step);
  }

  /** The only writes of results: success over anything, failure for a dead job. */
  lemma StoresFollow(w: World, step: Step)
    requires Coherent(w) && Allowed(w, step)
    ensures var n := Act(w, step);
            && (forall id | HoldsSuccess(w.results, id) :: HoldsSuccess(n.results, id) || IsDead(w.broker, id))
            && (forall id | id in n.results && n.results[id].Failure? :: IsDead(w.broker, id))
            && (step.Store? && w.procs[step.token].pc.StoringSuccess? ==>
                 HoldsSuccess(n.results, w.procs[step.token].id))
  {
    hide IsDead, Apply, Legal, Settling, Popping;
  }

  lemma {:induction false} RunIsCoherent(w: World, steps: seq<Step>)
    requires Inv(w.broker) && ProcsOk(w) && Coherent(w) && AllowedRun(w, steps)
    ensures Coherent(Now(w, steps))
  {
    hide Inv, ProcsOk, Act, Coherent;
    if steps != [] {
      RunIsCoherent(w, Front(steps));
      RunIsSound(w, Front(steps));
      StepKeepsCoherent(Now(w, Front(steps)), Last(steps));
    }
  }

  /** A stored failure is terminal: the job is on the dead list and was never acknowledged before. */
  lemma FailureMeansDead(earlier: seq<Step>, later: seq<Step>, id: Uuid)
    requires AllowedRun(INITIAL, earlier + later)
    requires var w := Now(INITIAL, earlier + later); id in w.results && w.results[id].Failure?
    ensures IsDead(Now(INITIAL, earlier + later).broker, id)
    ensures !IsAcked(Now(INITIAL, earlier).broker, id)
  {
    hide Inv, ProcsOk, Preserves, Act, Enabled, Allowed;
    InitialSound();
    RunIsCoherent(INITIAL, earlier + later);
    NowConcat(INITIAL, earlier, later);
    RunIsSound(INITIAL, earlier);
    WorldPreserves(Now(INITIAL, earlier), later);
    DeadStays(Now(INITIAL, earlier).broker, Now(INITIAL, earlier + later).broker, id);
  }

  /** Every claim's worker stores results. */
  predicate AllStore(steps: seq<Step>) {
    forall i | 0 <= i < |steps| && steps[i].Claim? :: steps[i].backend
  }

  ghost predicate AckedHoldSuccess(w: World) {
    && (forall t | t in w.procs :: w.procs[t].backend)
    && (forall id | IsAcked(w.broker, id) :: HoldsSuccess(w.results, id))
  }

  lemma AckedBySettle(s: State, op: Op, id: Uuid)
    requires Inv(s) && Legal(s, op) && !IsAcked(s, id) && IsAcked(Apply(s, op).next, id)
    ensures op.Settle? && op.id == id && op.how.Ack? && !IsDead(s, id)
  {
    hide Inv;
    match op
    case Recover(_, order) => RequeueAllKeepsInv(s, order);
    case Promote(_, order) => RequeueAllKeepsInv(s, order);
    case Tick(_) =>
    case Enqueue(_, _) =>
    case Pop(_, _, _) =>
    case Settle(_, _, _) =>
  }

  /** Only a process at Acking acknowledges a job, and then the job was not dead. */
  lemma NewlyAcked(w: World, step: Step, id: Uuid)
    requires Inv(w.broker) && Allowed(w, step) && !IsAcked(w.broker, id) && IsAcked(Act(w, step).broker, id)
    ensures step.Settle? && w.procs[step.token].pc.Acking? && w.procs[step.token].id == id && !IsDead(w.broker, id)
  {
    hide Inv, IsAcked, IsDead;
    BrokerStep(w, step);
    AckedBySettle(w.broker, OpOf(w, step).value, id);
  }

  lemma StepKeepsAckedSuccess(w: World, step: Step)
    requires Inv(w.broker) && Coherent(w) && AckedHoldSuccess(w) && Allowed(w, step)
    requires step.Claim? ==> step.backend
    ensures AckedHoldSuccess(Act(w, step))
  {
    hide Inv;
    var n := Act(w, step);
    StoresFollow(w, step);
    BackendsStay(w, step);
    forall id | IsAcked(n.broker, id) ensures HoldsSuccess(n.results, id) {
      if !IsAcked(w.broker, id) {
        NewlyAcked(w, step, id);
      }
    }
  }

  lemma BackendsStay(w: World, step: Step)
    requires AckedHoldSuccess(w) && Allowed(w, step) && (step.Claim? ==> step.backend)
    ensures forall t | t in Act(w, step).procs :: Act(w, step).procs[t].backend
  {
    hide Apply, Legal, Settling, Popping;
  }

  lemma {:induction false} RunKeepsAckedSuccess(w: World, steps: seq<Step>)
    requires Inv(w.broker) && ProcsOk(w) && Coherent(w) && AckedHoldSuccess(w) && AllowedRun(w, steps)
              && AllStore(steps)
    ensures AckedHoldSuccess(Now(w, steps))
  {
    hide Inv, ProcsOk, Act, Coherent, AckedHoldSuccess;
    if steps != [] {
      assert AllStore(Front(steps)) && (Last(steps).Claim? ==> Last(steps).backend);
      RunKeepsAckedSuccess(w, Front(steps));
      RunIsCoherent(w, Front(steps));
      RunIsSound(w, Front(steps));
      StepKeepsAckedSuccess(Now(w, Front(steps)), Last(steps));
    }
  }

  /** Once an acknowledgement succeeded, the stored result is a success from then on, when every
      worker stores its results in the one backend. */
  lemma AckedStaysSuccess(earlier: seq<Step>, later: seq<Step>, id: Uuid)
    requires AllowedRun(INITIAL, earlier + later) && AllStore(earlier + later)
    requires IsAcked(Now(INITIAL, earlier).broker, id)
    ensures IsAcked(Now(INITIAL, earlier + later).broker, id)
    ensures HoldsSuccess(Now(INITIAL, earlier + later).results, id)
  {
    hide Inv, ProcsOk, Preserves, Act, Enabled, Allowed, Coherent;
    InitialSound();
    assert Coherent(INITIAL) by { InitialCoherent(); }
    RunKeepsAckedSuccess(INITIAL, earlier + later);
    NowConcat(INITIAL, earlier, later);
    RunIsSound(INITIAL, earlier);
    WorldPreserves(Now(INITIAL, earlier), later);
    DeadStays(Now(INITIAL, earlier).broker, Now(INITIAL, earlier + later).broker, id);
  }

  /** Once acknowledged, a job stays so and its result is never a failure. */
  lemma AckedIsNeverFailure(earlier: seq<Step>, later: seq<Step>, id: Uuid)
    requires AllowedRun(INITIAL, earlier + later) && IsAcked(Now(INITIAL, earlier).broker, id)
    ensures var w := Now(INITIAL, earlier + later);
            IsAcked(w.broker, id) && !(id in w.results && w.results[id].Failure?)
  {
    hide Inv, ProcsOk, Preserves, Act, Enabled, Allowed;
    InitialSound();
    NowConcat(INITIAL, earlier, later);
    RunIsSound(INITIAL, earlier);
    WorldPreserves(Now(INITIAL, earlier), later);
    DeadStays(Now(INITIAL, earlier).broker, Now(INITIAL, earlier + later).broker, id);
    var w := Now(INITIAL, earlier + later);
    if id in w.results && w.results[id].Failure? {
      FailureMeansDead(earlier, later, id);
    }
  }

  lemma InitialCoherent()
    ensures Coherent(INITIAL)
  {
  }

  // ---------------------------------------------------------------- retry budget

  /** The step puts the job aside for another attempt. */
  predicate Nacks(w: World, step: Step, id: Uuid) {
    && step.Settle? && Enabled(w, step) && w.procs[step.token].pc.Nacking? && w.procs[step.token].id == id
    && Owns(w.broker, id, step.token)
  }

  function NackCount(w: World, steps: seq<Step>, id: Uuid): nat {
    if steps == [] then 0
    else NackCount(w, Front(steps), id) + One(Nacks(Now(w, Front(steps)), Last(steps), id))
  }

  function DelayOf(w: World, step: Step, id: Uuid): nat {
    if Nacks(w, step, id) then w.procs[step.token].pc.delay else 0
  }

  /** The sum of the delays asked for. */
  function Backoff(w: World, steps: seq<Step>, id: Uuid): nat {
    if steps == [] then 0
    else
      Backoff(w, Front(steps), id)
      + DelayOf(Now(w, Front(steps)), Last(steps), id)
  }

  lemma {:induction false} NackConcat(w: World, a: seq<Step>, b: seq<Step>, id: Uuid)
    ensures NackCount(w, a + b, id) == NackCount(w, a, id) + NackCount(Now(w, a), b, id)
    ensures Backoff(w, a + b, id) == Backoff(w, a, id) + Backoff(Now(w, a), b, id)
  {
    hide Act, Enabled, Nacks, Allowed;
    if b == [] {
      assert a + b == a;
    } else {
      NackConcat(w, a, Front(b), id);
      NowConcat(w, a, Front(b));
      assert Front(a + b) == a + Front(b);
    }
  }

  /** All workers share one policy. */
  predicate AllFollow(steps: seq<Step>, policy: Policy) {
    forall i | 0 <= i < |steps| && steps[i].Claim? :: steps[i].policy == policy
  }

  ghost predicate ProcsFollow(w: World, policy: Policy) {
    forall t | t in w.procs :: w.procs[t].policy == policy
  }

  /** The claim numbers of a job that are behind it. */
  function NumbersBehind(s: State, id: Uuid): nat {
    if id !in s.jobs then 0
    else if s.jobs[id].place.InFlight? && s.jobs[id].count > 0 then s.jobs[id].count - 1
    else s.jobs[id].count
  }

  // ---------------------------------------------------------------- backoff

  /** What a retry leaves of the job: the delay is one that the policy permits for this claim number, and
      the job is due exactly that long after the settle, or ready at once if the delay is zero. */
  ghost predicate BacksOff(w: World, step: Step, id: Uuid, s: State)
    requires Nacks(w, step, id)
  {
    var p := w.procs[step.token];
    && Permitted(p.policy, p.attempts, p.pc.delay)
    && Raw(p.policy, p.attempts) / 2 <= p.pc.delay <= Raw(p.policy, p.attempts)
    && id in s.jobs && s.jobs[id].place == if p.pc.delay == 0 then Pending else Delayed(step.now + p.pc.delay)
  }

  lemma NackBacksOff(w: World, step: Step, id: Uuid)
    requires Allowed(w, step) && ProcsOk(w) && Nacks(w, step, id)
    ensures BacksOff(w, step, id, Act(w, step).broker)
  {
    var p := w.procs[step.token];
    assert ProcOk(w.broker, step.token, p);
    PermittedBand(p.policy, p.attempts, p.pc.delay);
    SettleMoves(w.broker, id, step.token, HowOf(p.pc, step.now));
    hide Settling, Permitted, Raw;
  }

  /** The operations that a run of the workers performs on the broker. */
  lemma {:induction false} BrokerRun(w: World, steps: seq<Step>) returns (ops: seq<Op>)
    requires Inv(w.broker) && ProcsOk(w) && AllowedRun(w, steps)
    ensures LegalRun(w.broker, ops) && After(w.broker, ops) == Now(w, steps).broker
  {
    hide Inv, ProcsOk, Act, Preserves, Legal, Apply;
    ops := [];
    if steps != [] {
      var m, last := Now(w, Front(steps)), Last(steps);
      ops := BrokerRun(w, Front(steps));
      RunIsSound(w, Front(steps));
      BrokerStep(m, last);
      if OpOf(m, last).Some? {
        RunSnoc(w.broker, ops, OpOf(m, last).value);
        ops := ops + [OpOf(m, last).value];
      }
    }
  }

  /** Over all runs of all workers a retry backs off, and the job stays aside until its delay is over: no
      sooner than the lower end of the band after the settle. */
  lemma RetryWaits(earlier: seq<Step>, step: Step, later: seq<Step>, id: Uuid)
    requires AllowedRun(INITIAL, earlier + [step] + later) && Nacks(Now(INITIAL, earlier), step, id)
    ensures BacksOff(Now(INITIAL, earlier), step, id, Now(INITIAL, earlier + [step]).broker)
    ensures var p, n := Now(INITIAL, earlier).procs[step.token], Now(INITIAL, earlier + [step] + later).broker;
            p.pc.delay > 0 ==>
              id in n.jobs
              && (n.jobs[id].place == Delayed(step.now + p.pc.delay)
                  || step.now + Raw(p.policy, p.attempts) / 2 <= step.now + p.pc.delay <= n.clock)
  {
    hide Inv, ProcsOk, Act, Legal, Apply, Preserves, Permitted, Raw, Nacks;
    InitialSound();
    NowConcat(INITIAL, earlier + [step], later);
    NowConcat(INITIAL, earlier, [step]);
    var w, n := Now(INITIAL, earlier), Now(INITIAL, earlier + [step]);
    assert Front(earlier + [step]) == earlier && Last(earlier + [step]) == step;
    RunIsSound(INITIAL, earlier);
    RunIsSound(INITIAL, earlier + [step]);
    NackBacksOff(w, step, id);
    NacksIsEnabled(w, step, id);
    if w.procs[step.token].pc.delay > 0 {
      var ops := BrokerRun(n, later);
      RunHonoursDelay(n.broker, ops, id);
    }
  }

  lemma NacksIsEnabled(w: World, step: Step, id: Uuid)
    requires Nacks(w, step, id)
    ensures step.Settle? && Enabled(w, step) && step.token in w.procs && w.procs[step.token].pc.Nacking?
  {
  }

  // ---------------------------------------------------------------- retry counts

  /** The number of retries that the policy allows, as far as the claim numbers have got. */
  function RetriesSoFar(s: State, id: Uuid, policy: Policy): u32 {
    Min(NumbersBehind(s, id), SaturatingPred(policy.maxAttempts))
  }

  lemma SpentGrows(s: State, op: Op, id: Uuid)
    requires Inv(s) && Legal(s, op)
    ensures NumbersBehind(s, id) <= NumbersBehind(Apply(s, op).next, id)
  {
    hide Inv;
    match op
    case Recover(_, order) => RequeueAllKeepsInv(s, order);
    case Promote(_, order) => RequeueAllKeepsInv(s, order);
    case Pop(queue, _, _) => if At(s.pending, queue) != [] { Listed(s, queue, At(s.pending, queue)[0]); }
    case Tick(_) =>
    case Enqueue(_, _) =>
    case Settle(_, _, _) =>
  }

  /** A retry uses up the claim number that the process was given, which is below the limit. */
  lemma NackSpends(w: World, step: Step, id: Uuid)
    requires Allowed(w, step) && ProcsOk(w) && Nacks(w, step, id)
    ensures var p := w.procs[step.token];
            && NumbersBehind(Act(w, step).broker, id) == NumbersBehind(w.broker, id) + 1 == p.attempts
            && p.attempts < p.policy.maxAttempts && p.pc.delay <= Raw(p.policy, p.attempts)
  {
    var p := w.procs[step.token];
    assert ProcOk(w.broker, step.token, p);
    PermittedBand(p.policy, p.attempts, p.pc.delay);
  }

  lemma {:induction false} BudgetMonotone(p: Policy, a: u32, b: u32)
    requires a <= b
    ensures BackoffBudget(p, a) <= BackoffBudget(p, b)
    decreases b
  {
    if a < b {
      BudgetMonotone(p, a, b - 1);
    }
  }

  lemma FollowersStay(w: World, step: Step, policy: Policy)
    requires ProcsFollow(w, policy) && Allowed(w, step) && (step.Claim? ==> step.policy == policy)
    ensures ProcsFollow(Act(w, step), policy)
  {
    hide Apply, Legal, Settling, Popping;
  }

  lemma {:induction false} BudgetKept(steps: seq<Step>, id: Uuid, policy: Policy)
    requires AllowedRun(INITIAL, steps) && AllFollow(steps, policy)
    ensures var w := Now(INITIAL, steps);
            && ProcsFollow(w, policy)
            && NackCount(INITIAL, steps, id) <= RetriesSoFar(w.broker, id, policy)
            && Backoff(INITIAL, steps, id) <= BackoffBudget(policy, RetriesSoFar(w.broker, id, policy) + 1)
  {
    hide Inv, ProcsOk, Act, NumbersBehind, Nacks, ProcsFollow, Raw, BackoffBudget, Preserves, Legal;
    NobodyYet(policy);
    if steps != [] {
      var front, last := Front(steps), Last(steps);
      var w := Now(INITIAL, front);
      assert AllFollow(front, policy) && (last.Claim? ==> last.policy == policy);
      BudgetKept(front, id, policy);
      InitialSound();
      RunIsSound(INITIAL, front);
      FollowersStay(w, last, policy);
      BrokerStep(w, last);
      if OpOf(w, last).Some? {
        SpentGrows(w.broker, OpOf(w, last).value, id);
      }
      var k, n := RetriesSoFar(w.broker, id, policy), RetriesSoFar(Act(w, last).broker, id, policy);
      BudgetMonotone(policy, k + 1, n + 1);
      if Nacks(w, last, id) {
        NackSpends(w, last, id);
        PolicyOf(w, last, id, policy);
        BudgetStep(policy, n + 1);
      }
    }
  }

  lemma NobodyYet(policy: Policy)
    ensures ProcsFollow(INITIAL, policy)
  {
  }

  lemma PolicyOf(w: World, step: Step, id: Uuid, policy: Policy)
    requires ProcsFollow(w, policy) && Nacks(w, step, id)
    ensures w.procs[step.token].policy == policy
  {
  }

  lemma BudgetStep(p: Policy, limit: u32)
    requires 1 < limit
    ensures BackoffBudget(p, limit) == BackoffBudget(p, limit - 1) + Raw(p, limit - 1)
  {
  }

  /** Over any run of any workers that share a policy, with any lapses and crashes, a job is retried
      at most max_attempts - 1 times, and the delays asked for stay within the backoff budget. */
  lemma RetryBudget(steps: seq<Step>, id: Uuid, policy: Policy)
    requires AllowedRun(INITIAL, steps) && AllFollow(steps, policy)
    ensures NackCount(INITIAL, steps, id) <= SaturatingPred(policy.maxAttempts)
    ensures Backoff(INITIAL, steps, id) <= BackoffBudget(policy, policy.maxAttempts)
    ensures policy.maxDelay <= U64_MAX ==> Backoff(INITIAL, steps, id) <= DocumentedBudget(policy, policy.maxAttempts)
  {
    hide AllowedRun, ProcsFollow, NumbersBehind, BackoffBudget, DocumentedBudget;
    BudgetKept(steps, id, policy);
    if policy.maxDelay <= U64_MAX {
      BudgetIsDocumented(policy, policy.maxAttempts);
    }
    if policy.maxAttempts == 0 {
      BudgetBase(policy);
    } else {
      BudgetMonotone(policy, RetriesSoFar(Now(INITIAL, steps).broker, id, policy) + 1, policy.maxAttempts);
    }
  }

  lemma BudgetBase(p: Policy)
    ensures BackoffBudget(p, 0) == 0 && BackoffBudget(p, 1) == 0
  {
  }
}
