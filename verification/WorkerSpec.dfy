/** Many workers on one broker and one result backend: each claim is processed step by step, and may
    be cut short between any two steps. */
module WorkerSpec {
  import opened Jobs
  import opened BrokerSpec
  import opened BrokerHistory
  import opened Retry

  /** What running the handler gives. A panic is a failure with its message. */
  datatype Outcome =
    | Unknown(reason: string, message: string)
    | Succeeded(payload: seq<byte>)
    | Failed(message: string)

  datatype JobResult = Success(payload: seq<byte>) | Failure(message: string)

  /** Where the processing of a claim stands: what it does next. */
  datatype Pc =
    | Running
    | StoringSuccess(payload: seq<byte>)
    | Acking
    | Nacking(delay: Duration)
    | Burying(reason: string, message: string)
    | StoringFailure(message: string)

  /** A claim being processed. `attempts` is what the broker reported; `backend` says whether the
      worker stores results. */
  datatype Proc = Proc(id: Uuid, attempts: u32, policy: Policy, backend: bool, pc: Pc)

  datatype World = World(broker: State, results: map<Uuid, JobResult>, procs: map<Uuid, Proc>)

  datatype Step =
    | Outside(op: Op)
    | Claim(queue: string, token: Uuid, expiry: Time, policy: Policy, backend: bool)
    | Handle(token: Uuid, outcome: Outcome, delay: Duration)
    | Store(token: Uuid)
    | Settle(token: Uuid, now: Time)
    | Crash(token: Uuid)

  const INITIAL := World(EMPTY, map[], map[])

  /** What follows the handler's outcome. */
  function AfterHandler(p: Proc, outcome: Outcome, delay: Duration): Pc {
    match outcome
    case Unknown(reason, message) => Burying(reason, message)
    case Succeeded(payload) => if p.backend then StoringSuccess(payload) else Acking
    case Failed(message) => if p.attempts < p.policy.maxAttempts then Nacking(delay) else Burying(message, message)
  }

  function HowOf(pc: Pc, now: Time): How
    requires pc.Acking? || pc.Nacking? || pc.Burying?
  {
    match pc
    case Acking => Ack
    case Nacking(delay) => Retry(if delay == 0 then None else Some(now + delay))
    case Burying(reason, _) => Bury(reason)
  }

  /** The process is at a step of the given kind. */
  predicate Enabled(w: World, step: Step) {
    match step
    case Handle(token, _, _) => token in w.procs && w.procs[token].pc.Running?
    case Store(token) => token in w.procs && (w.procs[token].pc.StoringSuccess? || w.procs[token].pc.StoringFailure?)
    case Settle(token, _) =>
      token in w.procs && (w.procs[token].pc.Acking? || w.procs[token].pc.Nacking? || w.procs[token].pc.Burying?)
    case Crash(token) => token in w.procs
    case Outside(op) => !op.Pop? && !op.Settle?
    case Claim(_, _, _, _, _) => true
  }

  /** The broker operation that a step performs, if any. */
  function OpOf(w: World, step: Step): Option<Op>
    requires Enabled(w, step)
  {
    match step
    case Outside(op) => Some(op)
    case Claim(queue, token, expiry, _, _) => Some(Pop(queue, token, expiry))
    case Settle(token, now) => Some(Op.Settle(w.procs[token].id, token, HowOf(w.procs[token].pc, now)))
    case _ => None
  }

  function Act(w: World, step: Step): World
    requires Enabled(w, step)
  {
    match step
    case Outside(op) => w.(broker := Apply(w.broker, op).next)
    case Claim(queue, token, expiry, policy, backend) =>
      var r := Popping(w.broker, queue, token, expiry);
      (match r.answer
       case Claimed(id, _, count) =>
         World(r.next, w.results, w.procs[token := Proc(id, Min(count, U32_MAX), policy, backend, Running)])
       case _ => w)
    case Handle(token, outcome, delay) =>
      var p := w.procs[token];
      w.(procs := w.procs[token := p.(pc := AfterHandler(p, outcome, delay))])
    case Store(token) =>
      var p := w.procs[token];
      (match p.pc
       case StoringSuccess(payload) =>
         w.(results := w.results[p.id := Success(payload)], procs := w.procs[token := p.(pc := Acking)])
       case StoringFailure(message) =>
         w.(results := w.results[p.id := Failure(message)], procs := w.procs - {token})
       case _ => w)
    case Settle(token, now) =>
      var p := w.procs[token];
      var r := Settling(w.broker, p.id, token, HowOf(p.pc, now));
      // Losing the claim is not an error: the process just ends. A failure is stored only by the
      // process that moved the job to the dead list.
      if p.pc.Burying? && r.answer.Settled? && p.backend
      then World(r.next, w.results, w.procs[token := p.(pc := StoringFailure(p.pc.message))])
      else World(r.next, w.results, w.procs - {token})
    case Crash(token) => w.(procs := w.procs - {token})
  }

  predicate Allowed(w: World, step: Step) {
    && Enabled(w, step)
    && (OpOf(w, step).Some? ==> Legal(w.broker, OpOf(w, step).value))
    && (step.Handle? ==> Permitted(w.procs[step.token].policy, w.procs[step.token].attempts, step.delay))
  }

  /** The world after a run; steps that are not enabled change nothing. */
  function Now(w: World, steps: seq<Step>): World {
    if steps == [] then w
    else
      var before := Now(w, Front(steps));
      if Enabled(before, Last(steps)) then Act(before, Last(steps)) else before
  }

  ghost predicate AllowedRun(w: World, steps: seq<Step>) {
    steps == [] || (AllowedRun(w, Front(steps)) && Allowed(Now(w, Front(steps)), Last(steps)))
  }

  // ---------------------------------------------------------------- claims and their owners

  /** A process works on the job that its token was issued for; while it owns the claim, it knows
      the job's claim count. */
  predicate ProcOk(s: State, t: Uuid, p: Proc) {
    && t in s.issued && s.issued[t] == p.id && p.id in s.jobs
    && (Owns(s, p.id, t) ==> 1 <= s.jobs[p.id].count && p.attempts == Min(s.jobs[p.id].count, U32_MAX))
    && (p.pc.Nacking? ==> p.attempts < p.policy.maxAttempts && Permitted(p.policy, p.attempts, p.pc.delay))
  }

  ghost predicate ProcsOk(w: World) {
    forall t | t in w.procs :: ProcOk(w.broker, t, w.procs[t])
  }

  lemma BrokerStep(w: World, step: Step)
    requires Inv(w.broker) && Allowed(w, step)
    ensures Inv(Act(w, step).broker) && Preserves(w.broker, Act(w, step).broker)
    ensures Act(w, step).broker == if OpOf(w, step).Some? then Apply(w.broker, OpOf(w, step).value).next else w.broker
  {
    hide Inv;
    if OpOf(w, step).Some? {
      ApplyKeepsInv(w.broker, OpOf(w, step).value);
      StepPreserves(w.broker, OpOf(w, step).value);
    }
    hide Preserves;
    PreservesSelf(w.broker);
  }

  lemma PreservesSelf(s: State)
    ensures Preserves(s, s)
  {
  }

  /** While a claim is held, the job's entry does not move. */
  lemma OwnedEntryStays(s: State, op: Op, id: Uuid, token: Uuid)
    requires Inv(s) && Legal(s, op)
    ensures Owns(s, id, token) && Owns(Apply(s, op).next, id, token) ==> Apply(s, op).next.jobs[id] == s.jobs[id]
  {
    hide Inv;
    match op
    case Recover(_, order) => RequeueAllKeepsInv(s, order);
    case Promote(_, order) => RequeueAllKeepsInv(s, order);
    case Pop(queue, _, _) => if At(s.pending, queue) != [] { Listed(s, queue, At(s.pending, queue)[0]); }
    case Tick(_) =>
    case Enqueue(_, _) =>
    case Settle(_, _, _) =>
  }

  lemma ProcStaysOk(s: State, op: Op, t: Uuid, p: Proc)
    requires Inv(s) && Legal(s, op) && ProcOk(s, t, p)
    ensures ProcOk(Apply(s, op).next, t, p)
  {
    hide Inv;
    StepPreserves(s, op);
    StepMovesOwner(s, op, p.id, t);
    OwnedEntryStays(s, op, p.id, t);
    hide Apply;
  }

  lemma ProcsStayOk(w: World, step: Step)
    requires Inv(w.broker) && ProcsOk(w) && Allowed(w, step)
    ensures ProcsOk(Act(w, step))
  {
    hide Inv, ProcOk;
    var op, n := OpOf(w, step), Act(w, step);
    forall t | t in w.procs ensures ProcOk(n.broker, t, w.procs[t]) {
      if op.Some? {
        ProcStaysOk(w.broker, op.value, t, w.procs[t]);
      }
    }
    match step
    case Claim(queue, token, expiry, policy, backend) => NewProcOk(w.broker, queue, token, expiry, policy, backend);
    case Handle(token, outcome, delay) => MovedProcOk(w.broker, token, w.procs[token],
        AfterHandler(w.procs[token], outcome, delay), delay);
    case Store(token) => MovedProcOk(w.broker, token, w.procs[token], Acking, 0);
    case Settle(token, now) =>
      if w.procs[token].pc.Burying? {
        MovedProcOk(n.broker, token, w.procs[token], StoringFailure(w.procs[token].pc.message), 0);
      }
    case Outside(_) =>
    case Crash(_) =>
  }

  lemma NewProcOk(s: State, queue: string, token: Uuid, expiry: Time, policy: Policy, backend: bool)
    requires Inv(s)
    ensures var r := Popping(s, queue, token, expiry);
            r.answer.Claimed? ==> ProcOk(r.next, token,
                Proc(r.answer.id, Min(r.answer.count, U32_MAX), policy, backend, Running))
  {
  }

  lemma MovedProcOk(s: State, t: Uuid, p: Proc, pc: Pc, delay: Duration)
    requires ProcOk(s, t, p)
    requires pc.Nacking? ==>
               p.attempts < p.policy.maxAttempts && pc.delay == delay && Permitted(p.policy, p.attempts, delay)
    ensures ProcOk(s, t, p.(pc := pc))
  {
  }

  lemma {:induction false} RunIsSound(w: World, steps: seq<Step>)
    requires Inv(w.broker) && ProcsOk(w) && AllowedRun(w, steps)
    ensures Inv(Now(w, steps).broker) && ProcsOk(Now(w, steps))
  {
    hide Inv, ProcsOk, Act, Preserves;
    if steps != [] {
      RunIsSound(w, Front(steps));
      BrokerStep(Now(w, Front(steps)), Last(steps));
      ProcsStayOk(Now(w, Front(steps)), Last(steps));
    }
  }
}
