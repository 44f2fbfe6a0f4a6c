/** Draining with zero delays and no lapse: the outcome does not depend on the schedule. */
module Drain {
  import opened Jobs
  import opened BrokerSpec
  import opened BrokerHistory
  import opened Retry
  import opened WorkerSpec
  import opened WorkerRuns

  /** What is fixed during a drain: the queues, the policy, and a time that no clock reading passes
      while every lease and delay outlasts it. */
  datatype Setting = Setting(queues: set<string>, policy: Policy, horizon: Time)

  /** Handlers whose outcome is a function of the job and the attempt number. */
  type Oracle = (Uuid, u32) -> Outcome

  datatype Fate = Fate(place: Place, count: nat)

  // ---------------------------------------------------------------- the sequential reference

  /** Retrying one job on its own, one attempt after the other, from a claim count. */
  function Alone(policy: Policy, oracle: Oracle, id: Uuid, count: nat): (f: Fate)
    ensures count < f.count && Terminal(f.place)
    ensures f.count - count <= if count < policy.maxAttempts then policy.maxAttempts - count else 1
    decreases policy.maxAttempts - count
  {
    var attempt := Min(count + 1, U32_MAX);
    match oracle(id, attempt)
    case Succeeded(_) => Fate(Acked, count + 1)
    case Unknown(reason, _) => Fate(Dead(reason), count + 1)
    case Failed(message) =>
      if attempt < policy.maxAttempts then Alone(policy, oracle, id, count + 1) else Fate(Dead(message), count + 1)
  }

  // ---------------------------------------------------------------- quiet runs

  predicate QuietStep(w: World, step: Step, cfg: Setting, oracle: Oracle) {
    && Allowed(w, step)
    && match step
       case Outside(op) => (op.Tick? && op.to <= cfg.horizon) || op.Recover? || op.Promote?
       case Claim(queue, _, expiry, policy, _) => queue in cfg.queues && cfg.horizon < expiry && policy == cfg.policy
       case Handle(token, outcome, _) => outcome == oracle(w.procs[token].id, w.procs[token].attempts)
       case _ => true
  }

  /** A process still holds its claim, unless it has buried the job already. */
  ghost predicate Holds(w: World, t: Uuid, cfg: Setting)
    requires t in w.procs
  {
    var p := w.procs[t];
    && (if p.pc.StoringFailure? then IsDead(w.broker, p.id)
        else Owns(w.broker, p.id, t) && w.broker.jobs[p.id].job.queue in cfg.queues)
    && p.policy == cfg.policy
    && (p.pc.Nacking? ==> p.pc.delay == 0)
  }

  /** The policy asks for no delay at all. */
  predicate ZeroDelays(p: Policy) {
    p.baseDelay == 0 || p.maxDelay == 0
  }

  ghost predicate Quiet(w: World, cfg: Setting) {
    && Inv(w.broker) && ProcsOk(w) && ZeroDelays(cfg.policy)
    && w.broker.clock <= cfg.horizon
    && (forall id | id in w.broker.jobs && w.broker.jobs[id].place.InFlight? ::
         cfg.horizon < w.broker.jobs[id].place.expiry)
    && (forall id | id in w.broker.jobs && w.broker.jobs[id].place.Delayed? ::
         cfg.horizon < w.broker.jobs[id].place.due)
    && (forall t | t in w.procs :: Holds(w, t, cfg))
  }

  // ---------------------------------------------------------------- prediction

  /** Where a process will leave its job, given what it does next. */
  function ProcFate(pc: Pc, e: Entry, id: Uuid, cfg: Setting, oracle: Oracle): (f: Fate)
    ensures e.count <= f.count
  {
    match pc
    case Running => if e.count > 0 then Alone(cfg.policy, oracle, id, e.count - 1) else Fate(e.place, e.count)
    case StoringSuccess(_) => Fate(Acked, e.count)
    case Acking => Fate(Acked, e.count)
    case Nacking(_) => Alone(cfg.policy, oracle, id, e.count)
    case Burying(reason, _) => Fate(Dead(reason), e.count)
    case StoringFailure(_) => Fate(e.place, e.count)
  }

  /** Where the drain will leave a job. */
  function Predict(e: Entry, procs: map<Uuid, Proc>, id: Uuid, cfg: Setting, oracle: Oracle): (f: Fate)
    ensures e.count <= f.count
  {
    match e.place
    case Pending => if e.job.queue in cfg.queues then Alone(cfg.policy, oracle, id, e.count) else Fate(e.place, e.count)
    case InFlight(t, _) =>
      if t in procs && procs[t].id == id then ProcFate(procs[t].pc, e, id, cfg, oracle) else Fate(e.place, e.count)
    case _ => Fate(e.place, e.count)
  }

  lemma NoBackoff(p: Policy, attempt: u32)
    requires ZeroDelays(p)
    ensures Raw(p, attempt) == 0
  {
  }

  lemma EmptyOrHasMember<T>(s: seq<T>)
    ensures s == [] || exists x :: x in s
  {
    if s != [] {
      assert s[0] in s;
    }
  }

  lemma NothingLapses(w: World, cfg: Setting, op: Op)
    requires Quiet(w, cfg) && Legal(w.broker, op) && (op.Recover? || op.Promote?)
    ensures Apply(w.broker, op).next == w.broker
  {
    hide Inv, ProcsOk, Holds;
    EmptyOrHasMember(op.order);
  }

  /** The world in which exactly one job and one process may have changed. */
  ghost predicate OnlyTouches(w: World, n: World, focus: Uuid, t: Uuid) {
    && n.broker.jobs.Keys == w.broker.jobs.Keys
    && (forall id | id in w.broker.jobs && id != focus :: n.broker.jobs[id] == w.broker.jobs[id])
    && (forall u | u != t :: u in n.procs <==> u in w.procs)
    && (forall u | u != t && u in w.procs :: n.procs[u] == w.procs[u])
    && (forall id | id in w.broker.jobs && id != focus && w.broker.jobs[id].place.InFlight? ::
         w.broker.jobs[id].place.token != t)
  }

  /** The step moves no prediction. */
  ghost predicate SameFates(w: World, n: World, cfg: Setting, oracle: Oracle) {
    && n.broker.jobs.Keys == w.broker.jobs.Keys
    && (forall id | id in w.broker.jobs ::
          Predict(n.broker.jobs[id], n.procs, id, cfg, oracle) == Predict(w.broker.jobs[id], w.procs, id, cfg, oracle))
  }

  lemma TouchedFates(w: World, n: World, focus: Uuid, t: Uuid, cfg: Setting, oracle: Oracle)
    requires OnlyTouches(w, n, focus, t)
    requires focus in w.broker.jobs ==>
               Predict(n.broker.jobs[focus], n.procs, focus, cfg, oracle)
                   == Predict(w.broker.jobs[focus], w.procs, focus, cfg, oracle)
    ensures SameFates(w, n, cfg, oracle)
  {
    hide Alone, ProcFate;
  }

  lemma TokenHere(s: State, id: Uuid, t: Uuid)
    requires Inv(s) && t in s.issued && id in s.jobs && s.jobs[id].place.InFlight? && s.jobs[id].place.token == t
    ensures s.issued[t] == id
  {
    TokenIsIssued(s, id, t);
  }

  lemma NewTokenNowhere(s: State, t: Uuid)
    requires Inv(s) && t !in s.issued
    ensures forall id | id in s.jobs && s.jobs[id].place.InFlight? :: s.jobs[id].place.token != t
  {
  }

  lemma TokenNowhereElse(w: World, t: Uuid)
    requires Inv(w.broker) && ProcsOk(w) && t in w.procs
    ensures forall id | id in w.broker.jobs && id != w.procs[t].id && w.broker.jobs[id].place.InFlight? ::
              w.broker.jobs[id].place.token != t
  {
    hide Inv;
    assert ProcOk(w.broker, t, w.procs[t]);
    forall id | id in w.broker.jobs && w.broker.jobs[id].place.InFlight? && w.broker.jobs[id].place.token == t
      ensures id == w.procs[t].id
    {
      TokenHere(w.broker, id, t);
    }
  }

  // ---------------------------------------------------------------- each kind of step

  lemma OutsideQuiet(w: World, step: Step, cfg: Setting, oracle: Oracle)
    requires Quiet(w, cfg) && QuietStep(w, step, cfg, oracle) && step.Outside?
    ensures SameFates(w, Act(w, step), cfg, oracle)
    ensures Act(w, step) == w.(broker := w.broker.(clock := Act(w, step).broker.clock))
              && Act(w, step).broker.clock <= cfg.horizon
  {
    hide Inv, ProcsOk, Holds, Predict;
    if !step.op.Tick? {
      NothingLapses(w, cfg, step.op);
    }
  }

  lemma ClaimQuiet(w: World, step: Step, cfg: Setting, oracle: Oracle)
    requires Quiet(w, cfg) && QuietStep(w, step, cfg, oracle) && step.Claim?
    ensures SameFates(w, Act(w, step), cfg, oracle)
    ensures var n := Act(w, step);
            if At(w.broker.pending, step.queue) == [] then n == w
            else
              var id := At(w.broker.pending, step.queue)[0];
              && id in w.broker.jobs && w.broker.jobs[id].place.Pending? && w.broker.jobs[id].job.queue == step.queue
              && OnlyTouches(w, n, id, step.token)
              && n.broker.jobs[id] == w.broker.jobs[id].(count := w.broker.jobs[id].count + 1,
                   place := InFlight(step.token, step.expiry))
              && step.token in n.procs && n.procs[step.token].id == id && n.procs[step.token].pc.Running?
                   && n.procs[step.token].policy == cfg.policy
              && n.broker.clock == w.broker.clock
  {
    hide Inv, ProcsOk, Holds, Alone;
    if At(w.broker.pending, step.queue) != [] {
      var id := At(w.broker.pending, step.queue)[0];
      Listed(w.broker, step.queue, id);
      NewTokenNowhere(w.broker, step.token);
      TouchedFates(w, Act(w, step), id, step.token, cfg, oracle);
    }
  }

  lemma HandleQuiet(w: World, step: Step, cfg: Setting, oracle: Oracle)
    requires Quiet(w, cfg) && QuietStep(w, step, cfg, oracle) && step.Handle?
    ensures SameFates(w, Act(w, step), cfg, oracle)
    ensures step.delay == 0 || !Act(w, step).procs[step.token].pc.Nacking?
  {
    hide Inv;
    var p := w.procs[step.token];
    assert ProcOk(w.broker, step.token, p) && Holds(w, step.token, cfg);
    TokenNowhereElse(w, step.token);
    NoBackoff(p.policy, p.attempts);
    PermittedBand(p.policy, p.attempts, step.delay);
    hide Raw, Permitted, ProcsOk, Holds;
    TouchedFates(w, Act(w, step), p.id, step.token, cfg, oracle);
  }

  lemma StoreQuiet(w: World, step: Step, cfg: Setting, oracle: Oracle)
    requires Quiet(w, cfg) && QuietStep(w, step, cfg, oracle) && step.Store?
    ensures SameFates(w, Act(w, step), cfg, oracle)
  {
    hide Inv, Alone;
    var p := w.procs[step.token];
    assert ProcOk(w.broker, step.token, p) && Holds(w, step.token, cfg);
    TokenNowhereElse(w, step.token);
    hide ProcsOk, Holds;
    TouchedFates(w, Act(w, step), p.id, step.token, cfg, oracle);
  }

  lemma SettleQuiet(w: World, step: Step, cfg: Setting, oracle: Oracle)
    requires Quiet(w, cfg) && QuietStep(w, step, cfg, oracle) && step.Settle?
    ensures SameFates(w, Act(w, step), cfg, oracle)
    ensures var n, p := Act(w, step), w.procs[step.token];
            && OnlyTouches(w, n, p.id, step.token) && p.id in n.broker.jobs
            && !n.broker.jobs[p.id].place.InFlight? && !n.broker.jobs[p.id].place.Delayed?
            && (step.token in n.procs ==> n.procs[step.token] == p.(pc := n.procs[step.token].pc)
                                          && n.procs[step.token].pc.StoringFailure? && IsDead(n.broker, p.id))
            && n.broker.clock == w.broker.clock
  {
    hide Inv, Alone, Quiet, ProcsOk;
    var p := w.procs[step.token];
    ProcHolds(w, step.token, cfg);
    QuietSound(w, cfg);
    TokenNowhereElse(w, step.token);
    SettleOwned(w.broker, p.id, step.token, HowOf(p.pc, step.now));
    hide Settling, Legal;
    TouchedFates(w, Act(w, step), p.id, step.token, cfg, oracle);
  }

  /** What a settle by the owner changes. */
  lemma SettleOwned(s: State, id: Uuid, token: Uuid, how: How)
    requires Owns(s, id, token)
    ensures var r := Settling(s, id, token, how);
            && r.answer.Settled? && r.next.jobs.Keys == s.jobs.Keys && r.next.clock == s.clock
            && (forall i | i in s.jobs && i != id :: r.next.jobs[i] == s.jobs[i])
            && r.next.jobs[id] == s.jobs[id].(place := match how
                                                       case Ack => Acked
                                                       case Retry(None) => Pending
                                                       case Retry(Some(due)) => Delayed(due)
                                                       case Bury(reason) => Dead(reason))
  {
  }

  lemma QuietSound(w: World, cfg: Setting)
    requires Quiet(w, cfg)
    ensures Inv(w.broker) && ProcsOk(w) && ZeroDelays(cfg.policy)
  {
  }

  lemma CrashQuiet(w: World, step: Step, cfg: Setting, oracle: Oracle)
    requires Quiet(w, cfg) && QuietStep(w, step, cfg, oracle) && step.Crash?
    ensures var n, id := Act(w, step), w.procs[step.token].id;
            && OnlyTouches(w, n, id, step.token) && id in w.broker.jobs && n.broker == w.broker
            && Predict(n.broker.jobs[id], n.procs, id, cfg, oracle).count
               <= Predict(w.broker.jobs[id], w.procs, id, cfg, oracle).count
  {
    hide Inv, Alone;
    assert ProcOk(w.broker, step.token, w.procs[step.token]);
    TokenNowhereElse(w, step.token);
    hide ProcsOk, Holds;
  }

  // ---------------------------------------------------------------- quiet stays quiet

  lemma QuietFrame(w: World, n: World, focus: Uuid, t: Uuid, cfg: Setting)
    requires Quiet(w, cfg) && OnlyTouches(w, n, focus, t) && Inv(n.broker) && ProcsOk(n)
    requires n.broker.clock <= cfg.horizon
    requires focus in n.broker.jobs && n.broker.jobs[focus].place.InFlight? ==>
              cfg.horizon < n.broker.jobs[focus].place.expiry
    requires focus in n.broker.jobs && n.broker.jobs[focus].place.Delayed? ==>
              cfg.horizon < n.broker.jobs[focus].place.due
    requires n.broker.jobs == w.broker.jobs || forall u | u in w.procs && u != t :: w.procs[u].id != focus
    requires t in n.procs ==> Holds(n, t, cfg)
    ensures Quiet(n, cfg)
  {
    hide Inv, ProcsOk;
    forall u | u in n.procs ensures Holds(n, u, cfg) {
      if u != t {
        assert Holds(w, u, cfg);
      }
    }
  }

  lemma SoleHolder(w: World, id: Uuid, t: Uuid, cfg: Setting)
    requires Quiet(w, cfg) && id in w.broker.jobs
    requires w.broker.jobs[id].place.Pending? || Owns(w.broker, id, t)
    ensures forall u | u in w.procs && u != t :: w.procs[u].id != id
  {
    hide Inv, ProcsOk;
    forall u | u in w.procs && u != t ensures w.procs[u].id != id {
      assert Holds(w, u, cfg);
    }
  }

  lemma OwnStepQuiet(w: World, step: Step, cfg: Setting, oracle: Oracle)
    requires Quiet(w, cfg) && QuietStep(w, step, cfg, oracle) && !step.Outside? && !step.Claim?
    requires Inv(Act(w, step).broker) && ProcsOk(Act(w, step))
    ensures Quiet(Act(w, step), cfg)
  {
    hide Inv, ProcsOk, Apply, Settling, Popping, Quiet, Legal;
    var n, t := Act(w, step), step.token;
    var p := w.procs[t];
    QuietSound(w, cfg);
    ProcHolds(w, t, cfg);
    TokenNowhereElse(w, t);
    QuietTimes(w, p.id, cfg);
    match step
    case Handle(_, _, _) => HandleQuiet(w, step, cfg, oracle); QuietFrame(w, n, p.id, t, cfg);
    case Store(_) => QuietFrame(w, n, p.id, t, cfg);
    case Settle(_, _) =>
      SettleQuiet(w, step, cfg, oracle);
      SoleHolder(w, p.id, t, cfg);
      hide Act;
      QuietFrame(w, n, p.id, t, cfg);
    case Crash(_) => CrashQuiet(w, step, cfg, oracle); QuietFrame(w, n, p.id, t, cfg);
  }

  lemma QuietStays(w: World, step: Step, cfg: Setting, oracle: Oracle)
    requires Quiet(w, cfg) && QuietStep(w, step, cfg, oracle)
    ensures Quiet(Act(w, step), cfg)
  {
    hide Inv, ProcsOk, Preserves, Apply, Settling, Popping, Quiet, Legal;
    var n := Act(w, step);
    QuietSound(w, cfg);
    BrokerStep(w, step);
    ProcsStayOk(w, step);
    match step
    case Outside(_) =>
      OutsideQuiet(w, step, cfg, oracle);
      QuietClock(w, n, cfg);
    case Claim(queue, token, _, _, _) =>
      ClaimQuiet(w, step, cfg, oracle);
      if At(w.broker.pending, queue) != [] {
        var id := At(w.broker.pending, queue)[0];
        SoleHolder(w, id, token, cfg);
        QuietTimes(w, id, cfg);
        hide Act, OnlyTouches;
        QuietFrame(w, n, id, token, cfg);
      }
    case _ => OwnStepQuiet(w, step, cfg, oracle);
  }

  lemma QuietClock(w: World, n: World, cfg: Setting)
    requires Quiet(w, cfg) && Inv(n.broker) && n.broker.clock <= cfg.horizon
              && n == w.(broker := w.broker.(clock := n.broker.clock)) && ProcsOk(n)
    ensures Quiet(n, cfg)
  {
    hide Inv, ProcsOk;
    forall t | t in n.procs ensures Holds(n, t, cfg) {
      assert Holds(w, t, cfg);
    }
  }

  lemma ProcHolds(w: World, t: Uuid, cfg: Setting)
    requires Quiet(w, cfg) && t in w.procs
    ensures Holds(w, t, cfg) && ProcOk(w.broker, t, w.procs[t])
  {
    hide Inv;
  }

  lemma QuietTimes(w: World, id: Uuid, cfg: Setting)
    requires Quiet(w, cfg)
    ensures w.broker.clock <= cfg.horizon
    ensures id in w.broker.jobs && w.broker.jobs[id].place.InFlight? ==> cfg.horizon < w.broker.jobs[id].place.expiry
    ensures id in w.broker.jobs && w.broker.jobs[id].place.Delayed? ==> cfg.horizon < w.broker.jobs[id].place.due
  {
    hide Inv, ProcsOk;
  }

  // ---------------------------------------------------------------- potential

  ghost function Sum(m: map<Uuid, nat>): nat
    decreases |m|
  {
    if m == map[] then 0 else var k :| k in m; m[k] + Sum(m - {k})
  }

  lemma {:induction false} SumWithout(m: map<Uuid, nat>, k: Uuid)
    requires k in m
    ensures Sum(m) == m[k] + Sum(m - {k})
    decreases |m|
  {
    var j :| j in m && Sum(m) == m[j] + Sum(m - {j});
    if j != k {
      SumWithout(m - {j}, k);
      SumWithout(m - {k}, j);
      assert m - {j} - {k} == m - {k} - {j};
    }
  }

  lemma SumUpdate(m: map<Uuid, nat>, k: Uuid, v: nat)
    requires k in m
    ensures Sum(m[k := v]) + m[k] == Sum(m) + v
  {
    SumWithout(m, k);
    SumWithout(m[k := v], k);
    assert m[k := v] - {k} == m - {k};
  }

  /** The claims that each job still has ahead of it. */
  ghost function ClaimsLeft(w: World, cfg: Setting, oracle: Oracle): map<Uuid, nat> {
    map id | id in w.broker.jobs ::
      Predict(w.broker.jobs[id], w.procs, id, cfg, oracle).count - w.broker.jobs[id].count
  }

  /** The claims that the drain still has ahead of it. */
  ghost function Potential(w: World, cfg: Setting, oracle: Oracle): nat {
    Sum(ClaimsLeft(w, cfg, oracle))
  }

  predicate Grants(w: World, step: Step) {
    step.Claim? && At(w.broker.pending, step.queue) != []
  }

  lemma CountsStay(w: World, step: Step, cfg: Setting, oracle: Oracle)
    requires Quiet(w, cfg) && QuietStep(w, step, cfg, oracle) && !Grants(w, step) && !step.Crash?
    ensures ClaimsLeft(Act(w, step), cfg, oracle) == ClaimsLeft(w, cfg, oracle)
  {
    hide Inv, ProcsOk, Quiet, Legal, Predict;
    var n := Act(w, step);
    FatesStay(w, step, cfg, oracle);
    if step.Outside? {
      OutsideQuiet(w, step, cfg, oracle);
    } else if step.Claim? {
      ClaimQuiet(w, step, cfg, oracle);
    } else if step.Settle? {
      ProcHolds(w, step.token, cfg);
      SettleOwned(w.broker, w.procs[step.token].id, step.token, HowOf(w.procs[step.token].pc, step.now));
      hide Settling;
    }
    hide Act, Apply, Popping;
    assert forall id | id in w.broker.jobs :: n.broker.jobs[id].count == w.broker.jobs[id].count;
  }

  /** No schedule changes where a job will end up. */
  lemma FatesStay(w: World, step: Step, cfg: Setting, oracle: Oracle)
    requires Quiet(w, cfg) && QuietStep(w, step, cfg, oracle) && !step.Crash?
    ensures SameFates(w, Act(w, step), cfg, oracle)
  {
    hide Quiet, QuietStep, SameFates, Act;
    match step
    case Outside(_) => OutsideQuiet(w, step, cfg, oracle);
    case Claim(_, _, _, _, _) => ClaimQuiet(w, step, cfg, oracle);
    case Handle(_, _, _) => HandleQuiet(w, step, cfg, oracle);
    case Store(_) => StoreQuiet(w, step, cfg, oracle);
    case Settle(_, _) => SettleQuiet(w, step, cfg, oracle);
    case Crash(_) =>
  }

  /** Every granted claim uses up one unit of potential; nothing else does, short of a crash. */
  lemma PotentialFalls(w: World, step: Step, cfg: Setting, oracle: Oracle)
    requires Quiet(w, cfg) && QuietStep(w, step, cfg, oracle)
    ensures Potential(Act(w, step), cfg, oracle) + One(Grants(w, step)) <= Potential(w, cfg, oracle)
    ensures !step.Crash? ==> Potential(Act(w, step), cfg, oracle) + One(Grants(w, step)) == Potential(w, cfg, oracle)
  {
    hide Quiet, Legal, Sum, Predict, Act;
    var n := Act(w, step);
    var before, after := ClaimsLeft(w, cfg, oracle), ClaimsLeft(n, cfg, oracle);
    if Grants(w, step) {
      ClaimQuiet(w, step, cfg, oracle);
      var id := At(w.broker.pending, step.queue)[0];
      assert after == before[id := before[id] - 1];
      SumUpdate(before, id, before[id] - 1);
    } else if step.Crash? {
      CrashQuiet(w, step, cfg, oracle);
      var id := w.procs[step.token].id;
      CrashOthers(w, n, id, step.token, cfg, oracle);
      assert after == before[id := after[id]];
      SumUpdate(before, id, after[id]);
    } else {
      CountsStay(w, step, cfg, oracle);
    }
  }

  lemma CrashOthers(w: World, n: World, focus: Uuid, t: Uuid, cfg: Setting, oracle: Oracle)
    requires OnlyTouches(w, n, focus, t)
    ensures forall id | id in w.broker.jobs && id != focus ::
              n.broker.jobs[id] == w.broker.jobs[id]
              && Predict(n.broker.jobs[id], n.procs, id, cfg, oracle)
                   == Predict(w.broker.jobs[id], w.procs, id, cfg, oracle)
  {
    hide Alone, ProcFate;
  }

  // ---------------------------------------------------------------- whole drains

  ghost predicate QuietRun(w: World, steps: seq<Step>, cfg: Setting, oracle: Oracle) {
    steps == [] || (QuietRun(w, Front(steps), cfg, oracle) && QuietStep(Now(w, Front(steps)), Last(steps), cfg, oracle))
  }

  function GrantCount(w: World, steps: seq<Step>): nat {
    if steps == [] then 0 else GrantCount(w, Front(steps)) + One(Grants(Now(w, Front(steps)), Last(steps)))
  }

  predicate NoCrash(steps: seq<Step>) {
    forall i | 0 <= i < |steps| :: !steps[i].Crash?
  }

  /** The claims granted never exceed the initial potential, even with crashes. */
  lemma {:induction false} DrainPotential(w: World, steps: seq<Step>, cfg: Setting, oracle: Oracle)
    requires Quiet(w, cfg) && QuietRun(w, steps, cfg, oracle)
    ensures Quiet(Now(w, steps), cfg)
    ensures GrantCount(w, steps) + Potential(Now(w, steps), cfg, oracle) <= Potential(w, cfg, oracle)
    ensures NoCrash(steps) ==>
              && GrantCount(w, steps) + Potential(Now(w, steps), cfg, oracle) == Potential(w, cfg, oracle)
              && SameFates(w, Now(w, steps), cfg, oracle)
  {
    hide Quiet, Potential, Act, Grants, Predict, Allowed;
    if steps != [] {
      var m := Now(w, Front(steps));
      DrainPotential(w, Front(steps), cfg, oracle);
      QuietStays(m, Last(steps), cfg, oracle);
      PotentialFalls(m, Last(steps), cfg, oracle);
      StepEnabled(m, Last(steps), cfg, oracle);
      if NoCrash(steps) {
        assert NoCrash(Front(steps)) && !Last(steps).Crash?;
        FatesStay(m, Last(steps), cfg, oracle);
      }
    }
  }

  lemma StepEnabled(w: World, step: Step, cfg: Setting, oracle: Oracle)
    requires QuietStep(w, step, cfg, oracle)
    ensures Enabled(w, step)
  {
  }

  /** Ready in one of the queues to drain. */
  predicate IsReady(e: Entry, cfg: Setting) {
    e.place.Pending? && e.job.queue in cfg.queues
  }

  /** The claims that retrying each ready job on its own would take. */
  ghost function AttemptsAlone(w: World, cfg: Setting, oracle: Oracle): map<Uuid, nat> {
    map id | id in w.broker.jobs && IsReady(w.broker.jobs[id], cfg) ::
      Alone(cfg.policy, oracle, id, w.broker.jobs[id].count).count - w.broker.jobs[id].count
  }

  lemma {:induction false} SumOfZeros(m: map<Uuid, nat>)
    requires forall k | k in m :: m[k] == 0
    ensures Sum(m) == 0
    decreases |m|
  {
    if m != map[] {
      var k :| k in m;
      SumWithout(m, k);
      SumOfZeros(m - {k});
    }
  }

  /** Entries that are zero do not matter. */
  lemma {:induction false} SumRestrict(m: map<Uuid, nat>, part: map<Uuid, nat>)
    requires part.Keys <= m.Keys
    requires forall k | k in m :: m[k] == if k in part then part[k] else 0
    ensures Sum(m) == Sum(part)
    decreases |part|
  {
    if part == map[] {
      SumOfZeros(m);
    } else {
      var k :| k in part;
      SumWithout(part, k);
      SumWithout(m, k);
      SumRestrict(m - {k}, part - {k});
    }
  }

  /** Before any claim of its own, a worker's potential is what the ready jobs need on their own. */
  lemma PotentialAtRest(w: World, cfg: Setting, oracle: Oracle)
    requires w.procs == map[]
    ensures Potential(w, cfg, oracle) == Sum(AttemptsAlone(w, cfg, oracle))
  {
    hide Alone, Sum;
    SumRestrict(ClaimsLeft(w, cfg, oracle), AttemptsAlone(w, cfg, oracle));
  }

  /** Scheduling independence: whatever the interleaving, a drain without crashes that leaves no
      process and nothing ready has left every ready job exactly where retrying it alone leaves it,
      every other job where it was, and has made as many claims as all of these retries together. */
  lemma DrainOutcome(w: World, steps: seq<Step>, cfg: Setting, oracle: Oracle)
    requires Quiet(w, cfg) && w.procs == map[] && QuietRun(w, steps, cfg, oracle) && NoCrash(steps)
    requires var n := Now(w, steps); n.procs == map[] && forall q | q in cfg.queues :: At(n.broker.pending, q) == []
    ensures var n := Now(w, steps);
            && n.broker.jobs.Keys == w.broker.jobs.Keys
            && forall id | id in w.broker.jobs ::
                 var e := w.broker.jobs[id];
                 Fate(n.broker.jobs[id].place, n.broker.jobs[id].count)
                 == if IsReady(e, cfg) then Alone(cfg.policy, oracle, id, e.count) else Fate(e.place, e.count)
    ensures GrantCount(w, steps) == Sum(AttemptsAlone(w, cfg, oracle))
  {
    hide Quiet, QuietRun, GrantCount, Now, Alone, Sum, AttemptsAlone;
    DrainPotential(w, steps, cfg, oracle);
    var n := Now(w, steps);
    QuietSound(n, cfg);
    forall id | id in n.broker.jobs ensures !IsReady(n.broker.jobs[id], cfg) {
      Listed(n.broker, n.broker.jobs[id].job.queue, id);
    }
    QuietJobs(w, steps, cfg, oracle);
    PotentialAtRest(w, cfg, oracle);
    PotentialAtRest(n, cfg, oracle);
    NothingToDo(n, cfg, oracle);
    hide Inv, Potential, ProcFate;
  }

  lemma NothingToDo(w: World, cfg: Setting, oracle: Oracle)
    requires forall id | id in w.broker.jobs :: !IsReady(w.broker.jobs[id], cfg)
    ensures Sum(AttemptsAlone(w, cfg, oracle)) == 0
  {
    assert AttemptsAlone(w, cfg, oracle) == map[];
  }

  lemma QuietJobs(w: World, steps: seq<Step>, cfg: Setting, oracle: Oracle)
    requires Quiet(w, cfg) && QuietRun(w, steps, cfg, oracle)
    ensures Preserves(w.broker, Now(w, steps).broker)
  {
    QuietSound(w, cfg);
    QuietIsAllowed(w, steps, cfg, oracle);
    WorldPreserves(w, steps);
  }

  lemma {:induction false} QuietIsAllowed(w: World, steps: seq<Step>, cfg: Setting, oracle: Oracle)
    requires QuietRun(w, steps, cfg, oracle)
    ensures AllowedRun(w, steps)
  {
    hide Allowed, Now;
    if steps != [] {
      QuietIsAllowed(w, Front(steps), cfg, oracle);
    }
  }

  /** The claims of a drain are bounded by the attempts that the policy allows each ready job. */
  lemma AttemptsBounded(w: World, cfg: Setting, oracle: Oracle, m: map<Uuid, nat>)
    requires m.Keys == AttemptsAlone(w, cfg, oracle).Keys
    requires forall id | id in m ::
               var count := w.broker.jobs[id].count;
               m[id] == if count < cfg.policy.maxAttempts then cfg.policy.maxAttempts - count else 1
    ensures Sum(AttemptsAlone(w, cfg, oracle)) <= Sum(m)
  {
    SumLe(AttemptsAlone(w, cfg, oracle), m);
  }

  lemma {:induction false} SumLe(a: map<Uuid, nat>, b: map<Uuid, nat>)
    requires a.Keys == b.Keys && forall k | k in a :: a[k] <= b[k]
    ensures Sum(a) <= Sum(b)
    decreases |a|
  {
    if a != map[] {
      var k :| k in a;
      SumWithout(a, k);
      SumWithout(b, k);
      SumLe(a - {k}, b - {k});
    } else {
      assert b == map[];
    }
  }
}
