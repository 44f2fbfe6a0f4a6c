/** What a quiet drain leaves in the result backend: for each job, what its last attempt came to. */
module DrainResults {
  import opened Jobs
  import opened BrokerSpec
  import opened BrokerHistory
  import opened WorkerSpec
  import opened WorkerRuns
  import opened Drain
  import Retry

  function ResultOf(outcome: Outcome): JobResult {
    match outcome
    case Succeeded(payload) => Success(payload)
    case Unknown(_, message) => Failure(message)
    case Failed(message) => Failure(message)
  }

  /** What the handler of a job comes to at its latest claim. */
  function LastOutcome(oracle: Oracle, id: Uuid, count: nat): Outcome {
    oracle(id, Min(count, U32_MAX))
  }

  predicate HasResult(results: map<Uuid, JobResult>, id: Uuid, result: JobResult) {
    id in results && results[id] == result
  }

  /** A process carries the outcome of the claim that it works on. */
  predicate SpeaksFor(p: Proc, count: nat, oracle: Oracle) {
    var outcome := LastOutcome(oracle, p.id, count);
    && p.backend && p.attempts == Min(count, U32_MAX)
    && match p.pc
       case Running => true
       case StoringSuccess(payload) => outcome == Succeeded(payload)
       case Acking => outcome.Succeeded?
       case Nacking(_) => outcome.Failed?
       case Burying(_, message) => ResultOf(outcome) == Failure(message)
       case StoringFailure(message) => ResultOf(outcome) == Failure(message)
  }

  ghost predicate ProcFaithful(w: World, t: Uuid, oracle: Oracle)
    requires t in w.procs
  {
    var p := w.procs[t];
    && p.id in w.broker.jobs && SpeaksFor(p, w.broker.jobs[p.id].count, oracle)
    && (p.pc.Acking? ==> HasResult(w.results, p.id, ResultOf(LastOutcome(oracle, p.id, w.broker.jobs[p.id].count))))
  }

  /** A process is about to store the failure of the job. */
  ghost predicate AboutToTell(w: World, id: Uuid) {
    exists t :: t in w.procs && w.procs[t].id == id && w.procs[t].pc.StoringFailure?
  }

  predicate Ended(s: State, id: Uuid) {
    id in s.jobs && Terminal(s.jobs[id].place)
  }

  /** A job that ended since the base state has its result, or is about to get it. */
  ghost predicate JobFaithful(w: World, base: State, id: Uuid, oracle: Oracle)
    requires id in w.broker.jobs
  {
    Ended(w.broker, id) && !Ended(base, id) ==>
      AboutToTell(w, id) || HasResult(w.results, id, ResultOf(LastOutcome(oracle, id, w.broker.jobs[id].count)))
  }

  ghost predicate Faithful(w: World, base: State, oracle: Oracle) {
    && (forall t | t in w.procs :: ProcFaithful(w, t, oracle))
    && (forall id | id in w.broker.jobs :: JobFaithful(w, base, id, oracle))
  }

  lemma AtRestFaithful(w: World, oracle: Oracle)
    requires w.procs == map[]
    ensures Faithful(w, w.broker, oracle)
  {
  }

  /** A step that leaves all jobs and processes but these alone, and the results of all jobs but this. */
  lemma FaithfulFrame(w: World, n: World, base: State, oracle: Oracle, focus: Uuid, t: Uuid)
    requires Faithful(w, base, oracle) && OnlyTouches(w, n, focus, t)
    requires forall id | id != focus :: id in n.results <==> id in w.results
    requires forall id | id != focus && id in w.results :: n.results[id] == w.results[id]
    requires forall u | u in w.procs && u != t && w.procs[u].id == focus ::
               && focus in w.broker.jobs && n.broker.jobs[focus] == w.broker.jobs[focus] && !w.procs[u].pc.Acking?
    requires t in w.procs ==> w.procs[t].id == focus
    requires t in n.procs ==> ProcFaithful(n, t, oracle)
    requires focus in n.broker.jobs ==> JobFaithful(n, base, focus, oracle)
    ensures Faithful(n, base, oracle)
  {
    hide SpeaksFor, LastOutcome, ResultOf, Ended;
    forall u | u in n.procs && u != t ensures ProcFaithful(n, u, oracle) {
      assert ProcFaithful(w, u, oracle);
    }
    forall id | id in n.broker.jobs && id != focus ensures JobFaithful(n, base, id, oracle) {
      assert JobFaithful(w, base, id, oracle);
      if AboutToTell(w, id) {
        var u :| u in w.procs && w.procs[u].id == id && w.procs[u].pc.StoringFailure?;
        assert u in n.procs && n.procs[u] == w.procs[u];
      }
      assert Ended(n.broker, id) == Ended(w.broker, id) by { EndedSame(w.broker, n.broker, id); }
    }
  }

  lemma EndedSame(s: State, n: State, id: Uuid)
    requires id in s.jobs && id in n.jobs && s.jobs[id] == n.jobs[id]
    ensures Ended(s, id) == Ended(n, id)
  {
  }

  // ---------------------------------------------------------------- each kind of step

  lemma OutsideFaithful(w: World, step: Step, base: State, cfg: Setting, oracle: Oracle)
    requires Quiet(w, cfg) && QuietStep(w, step, cfg, oracle) && Faithful(w, base, oracle) && step.Outside?
    ensures Faithful(Act(w, step), base, oracle)
  {
    hide Quiet, QuietStep, SpeaksFor, HasResult, Act;
    StepEnabled(w, step, cfg, oracle);
    OutsideQuiet(w, step, cfg, oracle);
    var n := Act(w, step);
    assert n.broker.jobs == w.broker.jobs;
    forall t | t in n.procs ensures ProcFaithful(n, t, oracle) {
      assert ProcFaithful(w, t, oracle);
    }
    forall id | id in n.broker.jobs ensures JobFaithful(n, base, id, oracle) {
      assert JobFaithful(w, base, id, oracle);
    }
  }

  lemma ClaimFaithful(w: World, step: Step, base: State, cfg: Setting, oracle: Oracle)
    requires Quiet(w, cfg) && QuietStep(w, step, cfg, oracle) && Faithful(w, base, oracle) && step.Claim?
    requires Grants(w, step) ==> step.backend
    ensures Faithful(Act(w, step), base, oracle)
  {
    hide Quiet, QuietStep, Faithful, OnlyTouches, HasResult;
    StepEnabled(w, step, cfg, oracle);
    ClaimQuiet(w, step, cfg, oracle);
    if At(w.broker.pending, step.queue) != [] {
      var id := At(w.broker.pending, step.queue)[0];
      SoleHolder(w, id, step.token, cfg);
      TokenIsNew(w, step, cfg, oracle);
      FaithfulFrame(w, Act(w, step), base, oracle, id, step.token);
    }
  }

  lemma TokenIsNew(w: World, step: Step, cfg: Setting, oracle: Oracle)
    requires Quiet(w, cfg) && QuietStep(w, step, cfg, oracle) && step.Claim?
    ensures step.token !in w.procs
  {
    hide Inv;
    if step.token in w.procs {
      ProcHolds(w, step.token, cfg);
    }
  }

  /** A process that still holds its claim is the only one on its job, and the job has not ended. */
  lemma HolderIsAlone(w: World, t: Uuid, cfg: Setting)
    requires Quiet(w, cfg) && t in w.procs && !w.procs[t].pc.StoringFailure?
    ensures var id := w.procs[t].id;
            Owns(w.broker, id, t) && !Ended(w.broker, id) && forall u | u in w.procs && u != t :: w.procs[u].id != id
  {
    hide Quiet;
    ProcHolds(w, t, cfg);
    SoleHolder(w, w.procs[t].id, t, cfg);
  }

  /** A step of one process that leaves the broker alone. */
  lemma TouchesOne(w: World, n: World, t: Uuid, cfg: Setting)
    requires Quiet(w, cfg) && t in w.procs && n.broker == w.broker
    requires forall u | u != t :: u in n.procs <==> u in w.procs
    requires forall u | u != t && u in w.procs :: n.procs[u] == w.procs[u]
    ensures OnlyTouches(w, n, w.procs[t].id, t)
  {
    hide Quiet, Inv, ProcsOk;
    QuietSound(w, cfg);
    TokenNowhereElse(w, t);
  }

  lemma HandleFaithful(w: World, step: Step, base: State, cfg: Setting, oracle: Oracle)
    requires Quiet(w, cfg) && QuietStep(w, step, cfg, oracle) && Faithful(w, base, oracle) && step.Handle?
    ensures Faithful(Act(w, step), base, oracle)
  {
    hide Quiet, OnlyTouches, HasResult, Retry.Permitted, JobFaithful;
    assert ProcFaithful(w, step.token, oracle) && JobFaithful(w, base, w.procs[step.token].id, oracle);
    hide Faithful;
    var n := Act(w, step);
    HolderIsAlone(w, step.token, cfg);
    TouchesOne(w, n, step.token, cfg);
    NotEndedFaithful(n, base, w.procs[step.token].id, oracle);
    FaithfulFrame(w, n, base, oracle, w.procs[step.token].id, step.token);
  }

  lemma NotEndedFaithful(w: World, base: State, id: Uuid, oracle: Oracle)
    requires id in w.broker.jobs && !Ended(w.broker, id)
    ensures JobFaithful(w, base, id, oracle)
  {
  }

  lemma StoreFaithful(w: World, step: Step, base: State, cfg: Setting, oracle: Oracle)
    requires Quiet(w, cfg) && QuietStep(w, step, cfg, oracle) && Faithful(w, base, oracle) && step.Store?
    ensures Faithful(Act(w, step), base, oracle)
  {
    hide Quiet, OnlyTouches;
    assert ProcFaithful(w, step.token, oracle);
    hide Faithful;
    var n, p := Act(w, step), w.procs[step.token];
    TouchesOne(w, n, step.token, cfg);
    if p.pc.StoringSuccess? {
      HolderIsAlone(w, step.token, cfg);
      NotEndedFaithful(n, base, p.id, oracle);
    } else {
      DeadIsNotAcked(w, step.token, cfg);
    }
    FaithfulFrame(w, n, base, oracle, p.id, step.token);
  }

  /** Nobody is about to acknowledge a job that a process has buried. */
  lemma DeadIsNotAcked(w: World, t: Uuid, cfg: Setting)
    requires Quiet(w, cfg) && t in w.procs && w.procs[t].pc.StoringFailure?
    ensures forall u | u in w.procs && w.procs[u].id == w.procs[t].id :: !w.procs[u].pc.Acking?
  {
    hide Inv, ProcsOk;
    assert Holds(w, t, cfg);
    forall u | u in w.procs && w.procs[u].id == w.procs[t].id ensures !w.procs[u].pc.Acking? {
      assert Holds(w, u, cfg);
    }
  }

  lemma SettleFaithful(w: World, step: Step, base: State, cfg: Setting, oracle: Oracle)
    requires Quiet(w, cfg) && QuietStep(w, step, cfg, oracle) && Faithful(w, base, oracle) && step.Settle?
    ensures Faithful(Act(w, step), base, oracle)
  {
    hide Quiet, OnlyTouches, Settling, Legal;
    assert ProcFaithful(w, step.token, oracle);
    hide Faithful;
    var n, p := Act(w, step), w.procs[step.token];
    HolderIsAlone(w, step.token, cfg);
    SettleQuiet(w, step, cfg, oracle);
    SettleOwned(w.broker, p.id, step.token, HowOf(p.pc, step.now));
    assert step.token in n.procs ==> AboutToTell(n, p.id);
    FaithfulFrame(w, n, base, oracle, p.id, step.token);
  }

  lemma StepKeepsFaithful(w: World, step: Step, base: State, cfg: Setting, oracle: Oracle)
    requires Quiet(w, cfg) && QuietStep(w, step, cfg, oracle) && Faithful(w, base, oracle) && !step.Crash?
    requires Grants(w, step) ==> step.backend
    ensures Faithful(Act(w, step), base, oracle)
  {
    hide Quiet, QuietStep, Faithful, Act, Grants;
    match step
    case Outside(_) => OutsideFaithful(w, step, base, cfg, oracle);
    case Claim(_, _, _, _, _) => ClaimFaithful(w, step, base, cfg, oracle);
    case Handle(_, _, _) => HandleFaithful(w, step, base, cfg, oracle);
    case Store(_) => StoreFaithful(w, step, base, cfg, oracle);
    case Settle(_, _) => SettleFaithful(w, step, base, cfg, oracle);
    case Crash(_) =>
  }

  // ---------------------------------------------------------------- without a backend

  ghost predicate Silent(w: World) {
    forall t | t in w.procs ::
      !w.procs[t].backend && !w.procs[t].pc.StoringSuccess? && !w.procs[t].pc.StoringFailure?
  }

  lemma StepKeepsSilent(w: World, step: Step)
    requires Allowed(w, step) && Silent(w) && (Grants(w, step) ==> !step.backend)
    ensures Silent(Act(w, step)) && Act(w, step).results == w.results
  {
    hide Apply, Settling, Legal;
  }

  /** Workers without a backend store nothing. */
  lemma {:induction false} NothingStored(w: World, steps: seq<Step>)
    requires Silent(w) && AllowedRun(w, steps) && GrantsBacked(w, steps, false)
    ensures Silent(Now(w, steps)) && Now(w, steps).results == w.results
  {
    hide Silent, Act, Grants, Legal;
    if steps != [] {
      NothingStored(w, Front(steps));
      StepKeepsSilent(Now(w, Front(steps)), Last(steps));
    }
  }

  // ---------------------------------------------------------------- whole drains

  /** Every claim that was granted came from a worker that does, or does not, store results. */
  predicate GrantsBacked(w: World, steps: seq<Step>, backend: bool) {
    steps == []
    || (GrantsBacked(w, Front(steps), backend)
        && (Grants(Now(w, Front(steps)), Last(steps)) ==> Last(steps).backend == backend))
  }

  lemma {:induction false} RunIsFaithful(w: World, steps: seq<Step>, cfg: Setting, oracle: Oracle)
    requires Quiet(w, cfg) && w.procs == map[] && QuietRun(w, steps, cfg, oracle) && NoCrash(steps)
    requires GrantsBacked(w, steps, true)
    ensures Faithful(Now(w, steps), w.broker, oracle)
  {
    hide Quiet, QuietStep, Faithful, Act, Grants;
    if steps == [] {
      AtRestFaithful(w, oracle);
    } else {
      assert NoCrash(Front(steps)) && !Last(steps).Crash?;
      RunIsFaithful(w, Front(steps), cfg, oracle);
      DrainPotential(w, Front(steps), cfg, oracle);
      StepKeepsFaithful(Now(w, Front(steps)), Last(steps), w.broker, cfg, oracle);
      StepEnabled(Now(w, Front(steps)), Last(steps), cfg, oracle);
    }
  }

  /** After a drain without crashes that stores results, every job that was ready has one: the outcome of
      its last attempt, a success if it was acknowledged and a failure if it was buried. */
  lemma DrainStores(w: World, steps: seq<Step>, cfg: Setting, oracle: Oracle, id: Uuid)
    requires Quiet(w, cfg) && w.procs == map[] && QuietRun(w, steps, cfg, oracle) && NoCrash(steps)
    requires GrantsBacked(w, steps, true)
    requires var n := Now(w, steps); n.procs == map[] && forall q | q in cfg.queues :: At(n.broker.pending, q) == []
    requires id in w.broker.jobs && IsReady(w.broker.jobs[id], cfg)
    ensures var n := Now(w, steps);
            && id in n.broker.jobs
            && HasResult(n.results, id, ResultOf(LastOutcome(oracle, id, n.broker.jobs[id].count)))
            && (LastOutcome(oracle, id, n.broker.jobs[id].count).Succeeded? <==> n.broker.jobs[id].place.Acked?)
  {
    hide Quiet, QuietRun, NoCrash, GrantsBacked, Now, Alone, Sum, AttemptsAlone, HasResult, LastOutcome, ResultOf;
    DrainOutcome(w, steps, cfg, oracle);
    RunIsFaithful(w, steps, cfg, oracle);
    AloneEndsAs(cfg.policy, oracle, id, w.broker.jobs[id].count);
    assert JobFaithful(Now(w, steps), w.broker, id, oracle);
    hide Faithful;
  }

  /** Retrying alone ends acknowledged exactly when its last outcome is a success. */
  lemma {:induction false} AloneEndsAs(policy: Retry.Policy, oracle: Oracle, id: Uuid, count: nat)
    ensures var f := Alone(policy, oracle, id, count);
            && Terminal(f.place)
            && (f.place.Acked? <==> LastOutcome(oracle, id, f.count).Succeeded?)
    decreases policy.maxAttempts - count
  {
    var attempt := Min(count + 1, U32_MAX);
    if oracle(id, attempt).Failed? && attempt < policy.maxAttempts {
      AloneEndsAs(policy, oracle, id, count + 1);
    }
  }
}
