/** The processing of one claim as straight-line code, when nothing else interferes. */
module WorkerProcess {
  import opened Jobs
  import opened BrokerSpec
  import opened BrokerHistory
  import opened Retry
  import opened WorkerSpec

  /** The failure ends the job: its task is unknown, or no attempt is left. */
  predicate IsTerminal(outcome: Outcome, attempts: u32, policy: Policy) {
    outcome.Unknown? || (outcome.Failed? && policy.maxAttempts <= attempts)
  }

  function ReasonOf(outcome: Outcome): string
    requires !outcome.Succeeded?
  {
    if outcome.Unknown? then outcome.reason else outcome.message
  }

  /** The processing of a claim by itself. */
  function Solo(broker: State, results: map<Uuid, JobResult>, token: Uuid, p: Proc): World {
    World(broker, results, map[token := p])
  }

  lemma OneMore(w: World, steps: seq<Step>, step: Step)
    requires AllowedRun(w, steps) && Allowed(Now(w, steps), step)
    ensures Enabled(Now(w, steps), step)
    ensures AllowedRun(w, steps + [step]) && Now(w, steps + [step]) == Act(Now(w, steps), step)
  {
    hide Act;
    assert Front(steps + [step]) == steps && Last(steps + [step]) == step;
  }

  lemma SoloHandle(broker: State, results: map<Uuid, JobResult>, token: Uuid, p: Proc, outcome: Outcome,
      delay: Duration)
    requires p.pc.Running? && Permitted(p.policy, p.attempts, delay)
    ensures var w, step := Solo(broker, results, token, p), Handle(token, outcome, delay);
            Allowed(w, step) && Act(w, step) == Solo(broker, results, token, p.(pc := AfterHandler(p, outcome, delay)))
  {
    hide Permitted, AfterHandler;
    assert forall q: Proc :: map[token := p][token := q] == map[token := q];
  }

  lemma SoloStore(broker: State, results: map<Uuid, JobResult>, token: Uuid, p: Proc)
    requires p.pc.StoringSuccess? || p.pc.StoringFailure?
    ensures var w := Solo(broker, results, token, p);
            && Allowed(w, Store(token))
            && Act(w, Store(token)) == match p.pc
                                       case StoringSuccess(payload) =>
                                           Solo(broker, results[p.id := Success(payload)], token, p.(pc := Acking))
                                       case StoringFailure(message) =>
                                           World(broker, results[p.id := Failure(message)], map[])
                                       case _ => w
  {
    assert map[token := p] - {token} == map[];
    assert map[token := p][token := p.(pc := Acking)] == map[token := p.(pc := Acking)];
  }

  lemma SoloSettle(broker: State, results: map<Uuid, JobResult>, token: Uuid, p: Proc, now: Time)
    requires p.pc.Acking? || p.pc.Nacking? || p.pc.Burying?
    ensures var w, reply := Solo(broker, results, token, p), Settling(broker, p.id, token, HowOf(p.pc, now));
            && Allowed(w, Step.Settle(token, now))
            && Act(w, Step.Settle(token, now)) == if p.pc.Burying? && reply.answer.Settled? && p.backend
                                                  then Solo(reply.next, results, token,
                                                      p.(pc := StoringFailure(p.pc.message)))
                                                  else World(reply.next, results, map[])
  {
    hide Settling;
    assert map[token := p] - {token} == map[];
    assert forall q: Proc :: map[token := p][token := q] == map[token := q];
  }

  /** How the claim is settled. */
  function HowSettled(p: Proc, outcome: Outcome, delay: Duration, now: Time): How {
    if outcome.Succeeded? then Ack
    else if IsTerminal(outcome, p.attempts, p.policy) then Bury(ReasonOf(outcome))
    else Retry(if delay == 0 then None else Some(now + delay))
  }

  /** The results afterwards; `owns` says whether the claim was still held. */
  function Stored(results: map<Uuid, JobResult>, p: Proc, outcome: Outcome, owns: bool): map<Uuid, JobResult> {
    if !p.backend then results
    else if outcome.Succeeded? then results[p.id := Success(outcome.payload)]
    else if IsTerminal(outcome, p.attempts, p.policy) && owns then results[p.id := Failure(outcome.message)]
    else results
  }

  /** Up to and including the store of a success. */
  lemma RunToSettle(broker: State, results: map<Uuid, JobResult>, token: Uuid, p: Proc, outcome: Outcome,
      delay: Duration)
    returns (steps: seq<Step>)
    requires p.pc.Running? && Permitted(p.policy, p.attempts, delay)
    ensures var start := Solo(broker, results, token, p);
            && AllowedRun(start, steps)
            && Now(start, steps) == Solo(broker, Stored(results, p, outcome, false), token,
                                         p.(pc := if outcome.Succeeded? then Acking
                                             else AfterHandler(p, outcome, delay)))
  {
    hide AllowedRun, Now, Act, Allowed, Permitted;
    var start := Solo(broker, results, token, p);
    RunStarts(start);
    SoloHandle(broker, results, token, p, outcome, delay);
    OneMore(start, [], Handle(token, outcome, delay));
    steps := [] + [Handle(token, outcome, delay)];
    if outcome.Succeeded? && p.backend {
      SoloStore(broker, results, token, p.(pc := StoringSuccess(outcome.payload)));
      OneMore(start, steps, Store(token));
      steps := steps + [Store(token)];
    }
  }

  /** The whole processing is a run of the step machine. */
  lemma SoloRun(broker: State, results: map<Uuid, JobResult>, token: Uuid, p: Proc, outcome: Outcome, delay: Duration,
      now: Time)
    returns (steps: seq<Step>)
    requires p.pc.Running? && Permitted(p.policy, p.attempts, delay)
    ensures var start, reply := Solo(broker, results, token, p),
              Settling(broker, p.id, token, HowSettled(p, outcome, delay, now));
            && AllowedRun(start, steps)
            && Now(start, steps) == World(reply.next, Stored(results, p, outcome, Owns(broker, p.id, token)), map[])
  {
    hide AllowedRun, Now, Act, Allowed, Permitted, Settling, Owns;
    var start := Solo(broker, results, token, p);
    var how := HowSettled(p, outcome, delay, now);
    steps := RunToSettle(broker, results, token, p, outcome, delay);
    var q := p.(pc := if outcome.Succeeded? then Acking else AfterHandler(p, outcome, delay));
    var stored := Stored(results, p, outcome, false);
    assert HowOf(q.pc, now) == how;
    SoloSettle(broker, stored, token, q, now);
    SettleMoves(broker, p.id, token, how);
    OneMore(start, steps, Step.Settle(token, now));
    steps := steps + [Step.Settle(token, now)];
    if q.pc.Burying? && Owns(broker, p.id, token) && p.backend {
      var b := Settling(broker, p.id, token, how).next;
      SoloStore(b, stored, token, q.(pc := StoringFailure(q.pc.message)));
      OneMore(start, steps, Store(token));
      steps := steps + [Store(token)];
    }
  }

  /** Success: store, then acknowledge. Failure with attempts left: retry, store nothing. Terminal
      failure: bury, and store the failure only if the claim was still held. Losing the claim is no
      error and leaves the broker alone. */
  method ProcessOne(broker: State, results: map<Uuid, JobResult>, token: Uuid, p: Proc, outcome: Outcome, now: Time)
    returns (b: State, r: map<Uuid, JobResult>, delay: Duration, ghost steps: seq<Step>)
    requires p.pc.Running?
    // It is a run of the step machine.
    ensures AllowedRun(Solo(broker, results, token, p), steps)
    ensures Now(Solo(broker, results, token, p), steps) == World(b, r, map[])
    // The delay is one that the policy permits for this claim.
    ensures Permitted(p.policy, p.attempts, delay)
    ensures Raw(p.policy, p.attempts) / 2 <= delay <= Raw(p.policy, p.attempts)
    ensures !p.policy.jitter ==> delay == Raw(p.policy, p.attempts)
    // The holder moves the job, and only it; anyone else moves nothing.
    ensures !Owns(broker, p.id, token) ==> b == broker
    ensures Owns(broker, p.id, token) ==>
              && OtherJobsSame(broker, b, p.id)
              && b.jobs[p.id].job == broker.jobs[p.id].job && b.jobs[p.id].count == broker.jobs[p.id].count
              && b.jobs[p.id].place ==
                 match outcome
                 case Succeeded(_) => Acked
                 case Unknown(reason, _) => Dead(reason)
                 case Failed(message) =>
                   if p.policy.maxAttempts <= p.attempts then Dead(message)
                   else if delay == 0 then Pending
                   else Delayed(now + delay)
    // A success is stored in any case, a failure only when it is terminal and the claim was held.
    ensures r ==
            match outcome
            case Succeeded(payload) => if p.backend then results[p.id := Success(payload)] else results
            case Unknown(_, message) =>
              if p.backend && Owns(broker, p.id, token) then results[p.id := Failure(message)] else results
            case Failed(message) =>
              if p.backend && Owns(broker, p.id, token) && p.policy.maxAttempts <= p.attempts
              then results[p.id := Failure(message)] else results
  {
    hide AllowedRun, Now, Permitted, Raw, Settling;
    b, r := broker, results;
    delay := DelayForAttempt(p.policy, p.attempts);
    PermittedBand(p.policy, p.attempts, delay);
    SettleMoves(broker, p.id, token, HowSettled(p, outcome, delay, now));
    steps := SoloRun(broker, results, token, p, outcome, delay, now);
    match outcome
    case Unknown(reason, message) =>
      var reply := Settling(b, p.id, token, Bury(reason));
      b := reply.next;
      if reply.answer.Settled? && p.backend {
        r := r[p.id := Failure(message)];
      }
    case Succeeded(payload) =>
      if p.backend {
        r := r[p.id := Success(payload)];
      }
      b := Settling(b, p.id, token, Ack).next;
    case Failed(message) =>
      if p.attempts < p.policy.maxAttempts {
        b := Settling(b, p.id, token, Retry(if delay == 0 then None else Some(now + delay))).next;
      } else {
        var reply := Settling(b, p.id, token, Bury(message));
        b := reply.next;
        if reply.answer.Settled? && p.backend {
          r := r[p.id := Failure(message)];
        }
      }
  }

  lemma RunStarts(w: World)
    ensures AllowedRun(w, []) && Now(w, []) == w
  {
  }
}
