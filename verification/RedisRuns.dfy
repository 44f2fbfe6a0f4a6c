/** Whole runs of the Redis broker: the refinement theorem and what it gives. */
module RedisRuns {
  import opened Jobs
  import opened BrokerSpec
  import opened BrokerHistory
  import opened BrokerOrder
  import opened RedisSpec
  import opened RedisRefinement

  /** The system after an interleaving of steps. */
  function Reached(steps: seq<Step>): System {
    if steps == [] then START else Perform(Reached(Front(steps)), Last(steps)).0
  }

  ghost predicate PossibleRun(steps: seq<Step>) {
    steps == [] || (PossibleRun(Front(steps)) && Possible(Reached(Front(steps)), Last(steps)))
  }

  /** The answers that the calls of an interleaving received, in order. */
  function AnswersOf(steps: seq<Step>): seq<Answer> {
    if steps == [] then []
    else
      AnswersOf(Front(steps))
      + match Perform(Reached(Front(steps)), Last(steps)).1
        case None => []
        case Some(answer) => [answer]
  }

  /** The operations of the contract that an interleaving amounts to, in order. */
  function Counterpart(steps: seq<Step>): seq<Op> {
    if steps == [] then []
    else
      Counterpart(Front(steps))
      + match Meaning(Reached(Front(steps)), Last(steps))
        case None => []
        case Some(op) => [op]
  }

  /** The answers of a run of the contract, in order. */
  function SpecAnswers(ops: seq<Op>): seq<Answer> {
    if ops == [] then []
    else
      SpecAnswers(Front(ops))
      + match Observed(AnswerOf(EMPTY, ops))
        case None => []
        case Some(answer) => [answer]
  }

  /** Refinement: every interleaving of Redis commands, with calls cut short at any point and mirror
      writes arbitrarily late, gives the answers of a legal run of the contract and ends related to it. */
  lemma {:induction false} Refinement(steps: seq<Step>)
    requires PossibleRun(steps)
    ensures var ops := Counterpart(steps);
            && LegalRun(EMPTY, ops)
            && Rel(Reached(steps), After(EMPTY, ops))
            && AnswersOf(steps) == SpecAnswers(ops)
  {
    hide Rel, Legal, Possible, Perform, Apply, Observed, Meaning;
    if steps == [] {
      StartRel();
    } else {
      var front, last := Front(steps), Last(steps);
      Refinement(front);
      StepSimulates(Reached(front), After(EMPTY, Counterpart(front)), last);
      match Meaning(Reached(front), last)
      case None =>
        assert Counterpart(steps) == Counterpart(front) && AnswersOf(steps) == AnswersOf(front);
      case Some(op) =>
        RunSnoc(EMPTY, Counterpart(front), op);
        assert Front(Counterpart(front) + [op]) == Counterpart(front);
    }
  }

  // ---------------------------------------------------------------- structure of the database

  /** Every id in a pending or dead list, a lease member or a delayed member has a body in that queue. */
  lemma BodiesPresent(steps: seq<Step>, q: string, id: Uuid)
    requires PossibleRun(steps)
    ensures var r := Reached(steps).store;
            (id in At(r.pending, q) || id in At(r.dead, q)
             || (exists t :: Lease(q, id, t) in r.lease) || Wait(q, id) in r.delayed)
            ==> id in r.bodies && r.bodies[id].id == id && r.bodies[id].queue == q
  {
    hide Inv, CountRel, ReasonRel;
    Refinement(steps);
    hide PossibleRun, LegalRun;
    var r, a := Reached(steps).store, After(EMPTY, Counterpart(steps));
    hide After, Reached, Counterpart;
    Listed(a, q, id);
    if id in a.jobs && id in r.bodies {
      SameJobId(a, id, r.bodies[id]);
    }
  }

  /** The branches for a missing body are never taken: a claim that finds a ready id hands it out, a
      settle that frees a lease succeeds, and both sweeps push every member back. */
  lemma NoBodyIsMissing(steps: seq<Step>, q: string, id: Uuid, token: Uuid, expiry: Time, how: How)
    requires PossibleRun(steps)
    ensures var r := Reached(steps).store;
            && (ClaimScript(r, q, token, expiry).1 == None <==> At(r.pending, q) == [])
            && (SettleScript(r, q, id, token, how).1 <==> Lease(q, id, token) in r.lease)
            && (Lease(q, id, token) in r.lease ==>
                  At(RecoverOne(r, Lease(q, id, token)).pending, q) == At(r.pending, q) + [id])
            && (Wait(q, id) in r.delayed ==> At(PromoteOne(r, Wait(q, id)).pending, q) == At(r.pending, q) + [id])
  {
    hide PossibleRun, Reached;
    var r := Reached(steps).store;
    BodiesPresent(steps, q, id);
    if At(r.pending, q) != [] {
      BodiesPresent(steps, q, At(r.pending, q)[0]);
    }
  }

  /** Two bodies that the database ever holds for one id agree on everything but `attempts`. */
  lemma BodiesAgree(steps: seq<Step>, more: seq<Step>, id: Uuid)
    requires PossibleRun(steps) && PossibleRun(steps + more)
    requires id in Reached(steps).store.bodies && id in Reached(steps + more).store.bodies
    ensures SameJob(Reached(steps).store.bodies[id], Reached(steps + more).store.bodies[id])
  {
    LaterPreserves(steps, more);
    hide Inv, LeaseRel, DelayRel, CountRel, ReasonRel, Preserves;
    PreservesJob(After(EMPTY, Counterpart(steps)), After(EMPTY, Counterpart(steps + more)), id);
  }

  lemma PreservesJob(s: State, n: State, id: Uuid)
    requires Preserves(s, n) && id in s.jobs
    ensures id in n.jobs && n.jobs[id].job == s.jobs[id].job
    ensures Terminal(s.jobs[id].place) ==> n.jobs[id] == s.jobs[id]
  {
  }

  lemma {:induction false} CounterpartGrows(steps: seq<Step>, more: seq<Step>) returns (ops: seq<Op>)
    requires PossibleRun(steps + more)
    ensures PossibleRun(steps) && Counterpart(steps + more) == Counterpart(steps) + ops
  {
    hide Possible, Perform, Meaning;
    if more == [] {
      assert steps + more == steps;
      ops := [];
    } else {
      assert Front(steps + more) == steps + Front(more) && Last(steps + more) == Last(more);
      ops := CounterpartGrows(steps, Front(more));
      match Meaning(Reached(steps + Front(more)), Last(more))
      case None =>
      case Some(op) => ops := ops + [op];
    }
  }

  lemma LaterPreserves(steps: seq<Step>, more: seq<Step>)
    requires PossibleRun(steps + more)
    ensures var s, n := After(EMPTY, Counterpart(steps)), After(EMPTY, Counterpart(steps + more));
            Rel(Reached(steps), s) && Rel(Reached(steps + more), n) && Preserves(s, n)
  {
    hide PossibleRun, LegalRun, Rel, Preserves, After, Reached, Counterpart, Inv;
    var ops := CounterpartGrows(steps, more);
    Refinement(steps);
    Refinement(steps + more);
    var s := After(EMPTY, Counterpart(steps));
    RunConcat(EMPTY, Counterpart(steps), ops);
    RelInv(Reached(steps), s);
    RunPreserves(s, ops);
  }

  // ---------------------------------------------------------------- conservation

  ghost predicate PendingAt(r: Store, q: string, i: int, id: Uuid) {
    0 <= i < |At(r.pending, q)| && At(r.pending, q)[i] == id
  }

  ghost predicate DeadAt(r: Store, q: string, i: int, id: Uuid) {
    0 <= i < |At(r.dead, q)| && At(r.dead, q)[i] == id
  }

  /** Conservation: an accepted job that was not acknowledged is in exactly one list, lease or delayed
      member, once; any other id is in none. */
  lemma StoredOnce(steps: seq<Step>, id: Uuid)
    requires PossibleRun(steps)
    ensures var r, a := Reached(steps).store, After(EMPTY, Counterpart(steps));
            && One(exists q, i :: PendingAt(r, q, i, id)) + One(exists q, t :: Lease(q, id, t) in r.lease)
               + One(exists q :: Wait(q, id) in r.delayed) + One(exists q, i :: DeadAt(r, q, i, id))
               == One(id in a.jobs && !a.jobs[id].place.Acked?)
            && (forall q, i, p, j | PendingAt(r, q, i, id) && PendingAt(r, p, j, id) :: q == p && i == j)
            && (forall q, i, p, j | DeadAt(r, q, i, id) && DeadAt(r, p, j, id) :: q == p && i == j)
            && (forall q, t, p, u | Lease(q, id, t) in r.lease && Lease(p, id, u) in r.lease :: q == p && t == u)
            && (forall q, p | Wait(q, id) in r.delayed && Wait(p, id) in r.delayed :: q == p)
  {
    hide LegalRun, PossibleRun, After, Counterpart, Reached, Inv, BodyRel, CountRel, ReasonRel;
    Refinement(steps);
    var r, a := Reached(steps).store, After(EMPTY, Counterpart(steps));
    ListedOnce(r, a, id);
    if id in a.jobs && a.jobs[id].place.InFlight? {
      assert Lease(a.jobs[id].job.queue, id, a.jobs[id].place.token) in r.lease;
    }
    if id in a.jobs && a.jobs[id].place.Delayed? {
      assert Wait(a.jobs[id].job.queue, id) in r.delayed;
    }
    hide PendingAt, DeadAt;
  }

  lemma ListedOnce(r: Store, a: State, id: Uuid)
    requires Inv(a) && r.pending == a.pending && r.dead == a.dead
    ensures (exists q, i :: PendingAt(r, q, i, id)) <==> id in a.jobs && a.jobs[id].place.Pending?
    ensures (exists q, i :: DeadAt(r, q, i, id)) <==> id in a.jobs && a.jobs[id].place.Dead?
    ensures forall q, i, p, j | PendingAt(r, q, i, id) && PendingAt(r, p, j, id) :: q == p && i == j
    ensures forall q, i, p, j | DeadAt(r, q, i, id) && DeadAt(r, p, j, id) :: q == p && i == j
  {
    forall q
      ensures NoDup(At(a.pending, q)) && NoDup(At(a.dead, q))
      ensures id in At(a.pending, q) <==> id in a.jobs && a.jobs[id].place.Pending? && a.jobs[id].job.queue == q
      ensures id in At(a.dead, q) <==> id in a.jobs && a.jobs[id].place.Dead? && a.jobs[id].job.queue == q
    {
      Listed(a, q, id);
    }
    hide Inv;
    forall q, i | PendingAt(r, q, i, id) ensures id in At(a.pending, q) {
    }
    forall q, i | DeadAt(r, q, i, id) ensures id in At(a.dead, q) {
    }
    if id in a.jobs && a.jobs[id].place.Pending? {
      var q := a.jobs[id].job.queue;
      var i :| 0 <= i < |At(a.pending, q)| && At(a.pending, q)[i] == id;
      assert PendingAt(r, q, i, id);
    }
    if id in a.jobs && a.jobs[id].place.Dead? {
      var q := a.jobs[id].job.queue;
      var i :| 0 <= i < |At(a.dead, q)| && At(a.dead, q)[i] == id;
      assert DeadAt(r, q, i, id);
    }
  }

  // ---------------------------------------------------------------- bodies and counters

  lemma ReachedNext(steps: seq<Step>, step: Step)
    requires PossibleRun(steps + [step])
    ensures PossibleRun(steps) && Possible(Reached(steps), step)
    ensures Reached(steps + [step]) == Perform(Reached(steps), step).0
    ensures Rel(Reached(steps), After(EMPTY, Counterpart(steps)))
    ensures Rel(Reached(steps + [step]), After(EMPTY, Counterpart(steps + [step])))
  {
    hide Possible, Perform, Rel;
    assert Front(steps + [step]) == steps && Last(steps + [step]) == step;
    Refinement(steps);
    Refinement(steps + [step]);
  }

  /** The step is the late write of the job's body. */
  predicate Mirrors(c: System, step: Step, id: Uuid) {
    step.Mirror? && step.call in c.calls && c.calls[step.call].Unmirrored? && c.calls[step.call].job.id == id
  }

  /** The step makes the database confirm the acknowledgement of the job. */
  predicate Acks(c: System, step: Step, id: Uuid) {
    && step.Finish? && step.call in c.calls && c.calls[step.call].Fetched?
    && c.calls[step.call].id == id && c.calls[step.call].how.Ack? && Perform(c, step).1 == Some(Settled)
  }

  /** Exactly which steps write bodies, and what: a send of a new job stores it as it came, one under a
      taken key leaves no body of its id, a mirror stores the claimed job, and an acknowledgement deletes
      the body. */
  lemma BodiesWritten(c: System, step: Step)
    requires Possible(c, step)
    ensures var before, after := c.store.bodies, Perform(c, step).0.store.bodies;
            if step.Send? && !BlankKey(step.job)
            then after ==
                   if KeyTaken(c.store, step.job) then before - {step.job.id} else before[step.job.id := step.job]
            else if step.Mirror? then after == before[c.calls[step.call].job.id := c.calls[step.call].job]
            else if step.Finish? && Acks(c, step, c.calls[step.call].id) then after == before - {c.calls[step.call].id}
            else after == before
  {
    hide Range, MaySend;
    match step
    case Send(job) => SentBodies(c.store, job); hide EnqueueScript;
    case Recovery(_, leases) => RecoverChanges(c.store, leases); hide RecoverScript;
    case Promotion(_, waits) => PromoteChanges(c.store, waits); hide PromoteScript;
    case Take(_, queue, token, expiry) =>
    case Finish(call) =>
      var k := c.calls[call];
      SettleChanges(c.store, k.queue, k.id, k.token, k.how);
      hide SettleScript;
    case _ =>
  }

  lemma SentBodies(r: Store, job: Job)
    ensures var n := EnqueueScript(r, job).0;
            if BlankKey(job) then n == r
            else if KeyTaken(r, job) then n.bodies == r.bodies - {job.id} && n.pending == r.pending && n.keys == r.keys
            else
              && n.bodies == r.bodies[job.id := job]
              && At(n.pending, job.queue) == At(r.pending, job.queue) + [job.id]
              && n.keys == if job.key.Some? then r.keys[job.key.value := job.id] else r.keys
  {
    assert r.bodies[job.id := job] - {job.id} == r.bodies - {job.id};
  }

  /** No step of the second part is a late write of the job's body. */
  predicate NoMirrorOf(earlier: seq<Step>, later: seq<Step>, id: Uuid) {
    later == []
    || (NoMirrorOf(earlier, Front(later), id) && !Mirrors(Reached(earlier + Front(later)), Last(later), id))
  }

  lemma {:induction false} BodyStaysAway(earlier: seq<Step>, later: seq<Step>, id: Uuid)
    requires PossibleRun(earlier + later) && NoMirrorOf(earlier, later, id)
    requires id in Reached(earlier).accepted && id !in Reached(earlier).store.bodies
    ensures id in Reached(earlier + later).accepted && id !in Reached(earlier + later).store.bodies
  {
    hide Possible, Perform, Mirrors, Rel;
    if later == [] {
      assert earlier + later == earlier;
    } else {
      var front := earlier + Front(later);
      assert earlier + later == front + [Last(later)];
      ReachedNext(front, Last(later));
      BodyStaysAway(earlier, Front(later), id);
      StepWritesNoBody(Reached(front), Last(later), id);
    }
  }

  lemma StepWritesNoBody(c: System, step: Step, id: Uuid)
    requires Possible(c, step) && !Mirrors(c, step, id) && id in c.accepted && id !in c.store.bodies
    ensures id in Perform(c, step).0.accepted && id !in Perform(c, step).0.store.bodies
  {
    BodiesWritten(c, step);
    hide EnqueueScript, RecoverScript, PromoteScript, ClaimScript, SettleScript, Range, Tracked;
  }

  /** An acknowledged job leaves nothing behind: its counter is gone for good, and its body is gone until
      a late mirror write brings it back. */
  lemma AckDropsBodyAndCounter(earlier: seq<Step>, step: Step, later: seq<Step>, id: Uuid)
    requires PossibleRun(earlier + [step] + later) && Acks(Reached(earlier), step, id)
    ensures var r := Reached(earlier + [step] + later).store;
            id !in r.attempts && (NoMirrorOf(earlier + [step], later, id) ==> id !in r.bodies)
  {
    hide Possible, PossibleRun, Perform, LegalRun, Reached, After, Counterpart, Rel, Preserves, NoMirrorOf;
    LaterPreserves(earlier + [step], later);
    ReachedIsPossible(earlier + [step], later);
    ReachedNext(earlier, step);
    AckEnds(Reached(earlier), After(EMPTY, Counterpart(earlier)), step, id);
    CounterEnds(Reached(earlier + [step]), After(EMPTY, Counterpart(earlier + [step])),
                Reached(earlier + [step] + later), After(EMPTY, Counterpart(earlier + [step] + later)), id);
    if NoMirrorOf(earlier + [step], later, id) {
      BodyStaysAway(earlier + [step], later, id);
    }
  }

  lemma ReachedIsPossible(steps: seq<Step>, more: seq<Step>)
    requires PossibleRun(steps + more)
    ensures PossibleRun(steps)
  {
    var ops := CounterpartGrows(steps, more);
  }

  lemma AckEnds(c: System, a: State, step: Step, id: Uuid)
    requires Rel(c, a) && Possible(c, step) && Acks(c, step, id)
    ensures var n := Perform(c, step).0; id in n.accepted && id !in n.store.bodies && id !in n.store.attempts
  {
    hide Inv, LeaseRel, DelayRel, BodyRel, CountRel, ReasonRel;
    var k := c.calls[step.call];
    assert CallRel(k, a.jobs);
    SettleChanges(c.store, k.queue, k.id, k.token, k.how);
    hide SettleScript;
  }

  /** A job without a counter that was accepted and ended, or will never be claimed again, gets none. */
  lemma CounterEnds(c: System, a: State, d: System, b: State, id: Uuid)
    requires Rel(c, a) && Rel(d, b) && Preserves(a, b)
    requires id in c.accepted && id !in c.store.attempts && id !in c.store.bodies
    ensures id !in d.store.attempts
  {
    hide Inv, LeaseRel, DelayRel, ReasonRel, CallRel;
    assert id in a.jobs && a.jobs[id].place.Acked?;
    PreservesJob(a, b, id);
  }

  /** A dead-lettered job has no counter in any later state. */
  lemma DeadHasNoCounter(steps: seq<Step>, more: seq<Step>, q: string, id: Uuid)
    requires PossibleRun(steps + more) && id in At(Reached(steps).store.dead, q)
    ensures id !in Reached(steps + more).store.attempts
  {
    hide PossibleRun, After, Reached, Counterpart, Inv, LeaseRel, DelayRel, BodyRel, ReasonRel, Preserves;
    LaterPreserves(steps, more);
    Listed(After(EMPTY, Counterpart(steps)), q, id);
    PreservesJob(After(EMPTY, Counterpart(steps)), After(EMPTY, Counterpart(steps + more)), id);
  }

  // ---------------------------------------------------------------- claims

  /** The number of claims of a job that a run has granted. */
  function TakesOf(steps: seq<Step>, id: Uuid): nat {
    if steps == [] then 0
    else
      var answer := Perform(Reached(Front(steps)), Last(steps)).1;
      TakesOf(Front(steps), id) + One(answer.Some? && answer.value.Claimed? && answer.value.id == id)
  }

  lemma {:induction false} TakesCounted(steps: seq<Step>, id: Uuid)
    requires PossibleRun(steps)
    ensures var a := After(EMPTY, Counterpart(steps));
            TakesOf(steps, id) == if id in a.jobs then a.jobs[id].count else 0
  {
    hide Possible, Perform, Rel, Simulated, Apply, Legal, Meaning;
    if steps != [] {
      var front, last := Front(steps), Last(steps);
      assert steps == front + [last];
      TakesCounted(front, id);
      Refinement(front);
      var c, a := Reached(front), After(EMPTY, Counterpart(front));
      StepSimulates(c, a, last);
      StepCounts(c, a, last, id);
      match Meaning(c, last)
      case None => assert Counterpart(steps) == Counterpart(front);
      case Some(op) =>
        RunSnoc(EMPTY, Counterpart(front), op);
        assert Counterpart(steps) == Counterpart(front) + [op];
    }
  }

  lemma StepCounts(c: System, a: State, step: Step, id: Uuid)
    requires Rel(c, a) && Simulated(c, a, step)
    ensures var answer, op := Perform(c, step).1, Meaning(c, step);
            var n := if op.Some? then Apply(a, op.value).next else a;
            (if id in n.jobs then n.jobs[id].count else 0)
            == (if id in a.jobs then a.jobs[id].count else 0)
                + One(answer.Some? && answer.value.Claimed? && answer.value.id == id)
  {
    hide Perform, Inv, LeaseRel, DelayRel, BodyRel, CountRel, ReasonRel, CallRel, Legal;
    var op := Meaning(c, step);
    if op.Some? {
      if id in a.jobs {
        StepCountsClaims(a, op.value, id);
      } else {
        AbsentStaysUncounted(a, op.value, id);
      }
      StartsAtZero(c, step);
      hide Apply, Meaning;
    }
  }

  lemma StartsAtZero(c: System, step: Step)
    ensures Meaning(c, step).Some? && Meaning(c, step).value.Enqueue? ==> Meaning(c, step).value.start == 0
  {
  }

  lemma AbsentStaysUncounted(a: State, op: Op, id: Uuid)
    requires Inv(a) && Legal(a, op) && id !in a.jobs
    ensures var r := Apply(a, op);
            && !(r.answer.Claimed? && r.answer.id == id)
            && (id in r.next.jobs ==> op.Enqueue? && r.next.jobs[id].count == op.start)
  {
    hide Inv;
    match op
    case Recover(_, order) => RequeueAllKeepsInv(a, order);
    case Promote(_, order) => RequeueAllKeepsInv(a, order);
    case Pop(queue, token, expiry) => PopTakes(a, queue, token, expiry); hide Popping;
    case Enqueue(job, start) => EnqueueStores(a, job, start); hide Enqueueing;
    case Tick(_) =>
    case Settle(i, token, how) => SettleMoves(a, i, token, how); hide Settling;
  }

  /** What a granted claim leaves for its caller, and for the late mirror write. */
  lemma TakeReturns(c: System, a: State, step: Step, id: Uuid)
    requires Rel(c, a) && Possible(c, step) && step.Take?
    requires Perform(c, step).1.Some? && Perform(c, step).1.value.Claimed? && Perform(c, step).1.value.id == id
    ensures var d := Perform(c, step).0;
            && id in a.jobs && a.jobs[id].job.queue == step.queue
            && Perform(c, step).1 == Some(Claimed(id, step.token, a.jobs[id].count + 1))
            && step.call in d.calls && d.calls[step.call].Unmirrored?
            && SameJob(d.calls[step.call].job, a.jobs[id].job)
            && d.calls[step.call].job.attempts == Cast32(a.jobs[id].count + 1)
            && d.store.lease == c.store.lease[Lease(step.queue, id, step.token) := step.expiry]
  {
    hide Inv, LeaseRel, DelayRel, BodyRel, ReasonRel, CountRel;
    ClaimSimulates(c.store, a, step.queue, step.token, step.expiry);
    PopTakes(a, step.queue, step.token, step.expiry);
    Listed(a, step.queue, id);
    hide Popping;
  }

  lemma SendIsAccepted(steps: seq<Step>, job: Job)
    requires PossibleRun(steps + [Send(job)]) && !BlankKey(job) && !KeyTaken(Reached(steps).store, job)
    ensures var a := After(EMPTY, Counterpart(steps + [Send(job)]));
            && job.id in a.jobs && a.jobs[job.id].job == job
            && Perform(Reached(steps), Send(job)).1 == Some(Accepted(job.id))
  {
    hide Possible, Perform, Rel, Simulated, Apply, Legal, Enqueueing, Inv;
    ReachedNext(steps, Send(job));
    var c, a := Reached(steps), After(EMPTY, Counterpart(steps));
    StepSimulates(c, a, Send(job));
    KeysMatch(c, a, job);
    EnqueueStores(a, job, 0);
    RunSnoc(EMPTY, Counterpart(steps), Enqueue(job, 0));
    assert Counterpart(steps + [Send(job)]) == Counterpart(steps) + [Enqueue(job, 0)] by {
      assert Front(steps + [Send(job)]) == steps && Last(steps + [Send(job)]) == Send(job);
    }
    SentAnswer(c, a, job);
  }

  lemma SentAnswer(c: System, a: State, job: Job)
    requires Simulated(c, a, Send(job))
    ensures Apply(a, Enqueue(job, 0)) == Enqueueing(a, job, 0)
    ensures Perform(c, Send(job)).1 == Observed(Enqueueing(a, job, 0).answer)
  {
    hide Rel, Perform, Legal;
  }

  /** From send to claim: whatever happens in between, a claim of an accepted job hands out the very job
      that was sent, from its own queue, numbered by the claims granted before; the first is number one. */
  lemma ClaimReturnsSent(earlier: seq<Step>, job: Job, middle: seq<Step>, take: Step)
    requires !BlankKey(job) && !KeyTaken(Reached(earlier).store, job) && take.Take?
    requires PossibleRun(earlier + [Send(job)] + middle + [take])
    requires var answer := Perform(Reached(earlier + [Send(job)] + middle), take).1;
             answer.Some? && answer.value.Claimed? && answer.value.id == job.id
    ensures var before := earlier + [Send(job)] + middle;
            var c, n := Reached(before + [take]), TakesOf(before, job.id) + 1;
            && take.queue == job.queue
            && Perform(Reached(before), take).1 == Some(Claimed(job.id, take.token, n))
            && take.call in c.calls && c.calls[take.call].Unmirrored?
            && SameJob(c.calls[take.call].job, job) && c.calls[take.call].job.attempts == Cast32(n)
  {
    hide Possible, PossibleRun, Perform, Rel, Reached, After, Counterpart, LegalRun, TakesOf, Preserves, KeyTaken,
         BlankKey;
    var before := earlier + [Send(job)] + middle;
    ReachedNext(before, take);
    ReachedIsPossible(earlier + [Send(job)], middle);
    SendIsAccepted(earlier, job);
    LaterPreserves(earlier + [Send(job)], middle);
    PreservesJob(After(EMPTY, Counterpart(earlier + [Send(job)])), After(EMPTY, Counterpart(before)), job.id);
    TakesCounted(before, job.id);
    TakeReturns(Reached(before), After(EMPTY, Counterpart(before)), take, job.id);
  }

  /** Nothing but its mirror write or a lost connection ends a claim call. */
  lemma {:induction false} CallStays(earlier: seq<Step>, later: seq<Step>, call: nat)
    requires PossibleRun(earlier + later) && call in Reached(earlier).calls && Reached(earlier).calls[call].Unmirrored?
    requires Mirror(call) !in later && Crash(call) !in later
    ensures call in Reached(earlier + later).calls
    ensures Reached(earlier + later).calls[call] == Reached(earlier).calls[call]
  {
    hide Possible, Perform, Rel;
    if later == [] {
      assert earlier + later == earlier;
    } else {
      var front := earlier + Front(later);
      assert earlier + later == front + [Last(later)];
      assert Last(later) in later && forall x | x in Front(later) :: x in later;
      ReachedNext(front, Last(later));
      CallStays(earlier, Front(later), call);
      OtherCallsStay(Reached(front), Last(later), call);
    }
  }

  lemma OtherCallsStay(c: System, step: Step, call: nat)
    requires Possible(c, step) && step != Mirror(call) && step != Crash(call)
    requires call in c.calls && c.calls[call].Unmirrored?
    ensures call in Perform(c, step).0.calls && Perform(c, step).0.calls[call] == c.calls[call]
  {
    hide EnqueueScript, RecoverScript, PromoteScript, ClaimScript, SettleScript, Range, MaySend;
  }

  /** However late, the mirror write of a claim leaves the body with that claim's number, cast to 32 bits. */
  lemma MirrorWritesCount(earlier: seq<Step>, take: Step, later: seq<Step>, id: Uuid, n: nat)
    requires take.Take? && PossibleRun(earlier + [take] + later + [Mirror(take.call)])
    requires Perform(Reached(earlier), take).1 == Some(Claimed(id, take.token, n))
    requires Mirror(take.call) !in later && Crash(take.call) !in later
    ensures var bodies := Reached(earlier + [take] + later + [Mirror(take.call)]).store.bodies;
            id in bodies && bodies[id].attempts == Cast32(n)
  {
    hide Possible, PossibleRun, Perform, Rel, Reached, After, Counterpart, LegalRun;
    var before, mirror := earlier + [take] + later, Mirror(take.call);
    ReachedNext(before, mirror);
    ReachedIsPossible(earlier + [take], later);
    ReachedNext(earlier, take);
    var a := After(EMPTY, Counterpart(earlier));
    TakeReturns(Reached(earlier), a, take, id);
    TakenJobId(Reached(earlier), a, Reached(earlier + [take]).calls[take.call].job, id);
    CallStays(earlier + [take], later, take.call);
    BodiesWritten(Reached(before), mirror);
  }

  lemma TakenJobId(c: System, a: State, job: Job, id: Uuid)
    requires Rel(c, a) && id in a.jobs && SameJob(job, a.jobs[id].job)
    ensures job.id == id
  {
    SameJobId(a, id, job);
  }

  // ---------------------------------------------------------------- dead letters

  /** A dead letter never goes away: whenever its body and reason are read, they are those of the
      contract, up to `attempts`. */
  lemma DeadLetterStays(steps: seq<Step>, more: seq<Step>, q: string, id: Uuid)
    requires PossibleRun(steps + more) && id in At(Reached(steps).store.dead, q)
    ensures var a, n := After(EMPTY, Counterpart(steps)), Reached(steps + more).store;
            && id in a.jobs && a.jobs[id].place.Dead? && a.jobs[id].job.queue == q
            && id in n.bodies && SameJob(n.bodies[id], a.jobs[id].job)
            && id in n.reasons && n.reasons[id] == a.jobs[id].place.reason
            && At(Reached(steps).store.dead, q) <= At(n.dead, q)
  {
    hide PossibleRun, After, Reached, Counterpart, Inv, LeaseRel, DelayRel, CountRel;
    LaterPreserves(steps, more);
    Listed(After(EMPTY, Counterpart(steps)), q, id);
  }

  /** Listing skips nothing and keeps the order of burial. */
  lemma {:induction false} LettersAre(bodies: map<Uuid, Job>, reasons: map<Uuid, string>, ids: seq<Uuid>)
    requires forall id | id in ids :: id in bodies && id in reasons
    ensures |Letters(bodies, reasons, ids)| == |ids|
    ensures forall i | 0 <= i < |ids| :: Letters(bodies, reasons, ids)[i] == Letter(bodies[ids[i]], reasons[ids[i]])
  {
    if ids != [] {
      assert ids == Front(ids) + [Last(ids)];
      LettersAre(bodies, reasons, Front(ids));
    }
  }

  /** Redis lists the dead letters that the contract lists, in the same order, up to `attempts`. */
  lemma DeadListAgrees(steps: seq<Step>, q: string)
    requires PossibleRun(steps)
    ensures var r, a := Reached(steps).store, After(EMPTY, Counterpart(steps));
            var letters, ids := Letters(r.bodies, r.reasons, At(r.dead, q)), At(a.dead, q);
            && |letters| == |ids|
            && (forall i | 0 <= i < |ids| ::
                  ids[i] in a.jobs && a.jobs[ids[i]].place == Dead(letters[i].reason)
                  && SameJob(letters[i].job, a.jobs[ids[i]].job))
  {
    hide PossibleRun, LegalRun, After, Reached, Counterpart, Inv, LeaseRel, DelayRel, CountRel;
    Refinement(steps);
    var r, a := Reached(steps).store, After(EMPTY, Counterpart(steps));
    forall id | id in At(a.dead, q) ensures id in a.jobs && a.jobs[id].place.Dead? {
      Listed(a, q, id);
    }
    LettersAre(r.bodies, r.reasons, At(r.dead, q));
    hide Letters;
    assert forall i | 0 <= i < |At(a.dead, q)| :: At(a.dead, q)[i] in At(a.dead, q);
  }

  // ---------------------------------------------------------------- producer keys

  /** A key is only ever added together with a body, and no key or body that was there changes. */
  ghost predicate OnlyAddsNamed(keys: map<string, Uuid>, bodies: map<Uuid, Job>, keys': map<string, Uuid>,
      bodies': map<Uuid, Job>) {
    && (forall k | k in keys' :: (k in keys && keys'[k] == keys[k]) || keys'[k] in bodies')
    && (forall k | k in keys :: k in keys' && keys'[k] == keys[k])
    && (forall id | id in bodies :: id in bodies' && bodies'[id] == bodies[id])
  }

  lemma StoredFirst(keys: map<string, Uuid>, bodies: map<Uuid, Job>, job: Job, key: string)
    requires job.id !in bodies
    ensures bodies[job.id := job] - {job.id} == bodies
    ensures OnlyAddsNamed(keys, bodies, keys, bodies) && OnlyAddsNamed(keys, bodies, keys, bodies[job.id := job])
    ensures key !in keys ==> OnlyAddsNamed(keys, bodies, keys[key := job.id], bodies[job.id := job])
  {
  }

  /** Body first: for an id without a body, no prefix of the script's commands maps a new key to a job
      without a body, or touches a key or body that was there. */
  lemma NoKeyWithoutBody(r: Store, job: Job, key: string, n: nat)
    requires job.id !in r.bodies
    ensures var p := KeyedEnqueuePrefix(r, job, key, n); OnlyAddsNamed(r.keys, r.bodies, p.keys, p.bodies)
  {
    hide OnlyAddsNamed, Append, At;
    StoredFirst(r.keys, r.bodies, job, key);
  }

  /** In every reachable database a new id has no body, so the script may fail anywhere. */
  lemma NewKeyHasBody(steps: seq<Step>, job: Job, key: string, n: nat)
    requires PossibleRun(steps) && job.id !in Reached(steps).accepted
    ensures var r := Reached(steps).store;
            var p := KeyedEnqueuePrefix(r, job, key, n);
            job.id !in r.bodies && OnlyAddsNamed(r.keys, r.bodies, p.keys, p.bodies)
  {
    hide PossibleRun, LegalRun, Reached, After, Counterpart, Inv, LeaseRel, DelayRel, CountRel, ReasonRel,
         KeyedEnqueuePrefix, OnlyAddsNamed;
    Refinement(steps);
    NoKeyWithoutBody(Reached(steps).store, job, key, n);
  }

  /** In every reachable database: a send under a taken key simulates the contract, which ignores it,
      if and only if the id is not tracked. */
  lemma ResendHarmlessIff(steps: seq<Step>, job: Job)
    requires PossibleRun(steps) && !BlankKey(job) && KeyTaken(Reached(steps).store, job)
    ensures var r, a := Reached(steps).store, After(EMPTY, Counterpart(steps));
            && SeenKey(a, job)
            && (StoreRel(EnqueueScript(r, job).0, Enqueueing(a, job, 0).next) <==> !Tracked(r, job.id))
  {
    hide PossibleRun, LegalRun, Reached, After, Counterpart, Tracked, EnqueueScript, Enqueueing;
    Refinement(steps);
    KeysMatch(Reached(steps), After(EMPTY, Counterpart(steps)), job);
    TrackedIff(Reached(steps).store, After(EMPTY, Counterpart(steps)), job.id);
    ResendSimulatesIff(Reached(steps).store, After(EMPTY, Counterpart(steps)), job);
  }

  lemma KeysMatch(c: System, a: State, job: Job)
    requires Rel(c, a)
    ensures StoreRel(c.store, a) && (KeyTaken(c.store, job) <==> SeenKey(a, job))
  {
  }

  /** The harm: a send that hits a ready job, under whatever taken key, loses it. The claim that reaches
      the job answers nothing and drops it, and the job is nowhere after that. */
  lemma ResendLosesReadyJob(steps: seq<Step>, job: Job, q: string, token: Uuid, expiry: Time)
    requires PossibleRun(steps) && !BlankKey(job) && KeyTaken(Reached(steps).store, job)
    requires At(Reached(steps).store.pending, q) != [] && At(Reached(steps).store.pending, q)[0] == job.id
    ensures var (n, reply) := ClaimScript(EnqueueScript(Reached(steps).store, job).0, q, token, expiry);
            reply == None && !Tracked(n, job.id)
  {
    hide PossibleRun, LegalRun, Reached, After, Counterpart, BodyRel, CountRel, ReasonRel;
    Refinement(steps);
    var r, a := Reached(steps).store, After(EMPTY, Counterpart(steps));
    var n := r.(bodies := r.bodies - {job.id}, pending := r.pending[q := At(r.pending, q)[1..]]);
    assert r.bodies[job.id := job] - {job.id} == r.bodies - {job.id};
    PoppedIsGone(r, a, q);
    hide StoreRel, Inv, Tracked;
    assert ClaimScript(EnqueueScript(r, job).0, q, token, expiry) == (n, None);
    TrackedIgnoresBodies(r.(pending := r.pending[q := At(r.pending, q)[1..]]), n, job.id);
  }

  lemma TrackedIgnoresBodies(r: Store, n: Store, id: Uuid)
    requires n == r.(bodies := n.bodies)
    ensures Tracked(r, id) <==> Tracked(n, id)
  {
  }

  lemma PoppedIsGone(r: Store, a: State, q: string)
    requires StoreRel(r, a) && At(r.pending, q) != []
    ensures !Tracked(r.(pending := r.pending[q := At(r.pending, q)[1..]]), At(r.pending, q)[0])
  {
    var id := At(r.pending, q)[0];
    var n := r.(pending := r.pending[q := At(r.pending, q)[1..]]);
    assert NoDup(At(a.pending, q));
    NoDupTail(At(a.pending, q));
    Listed(a, q, id);
    forall p ensures id !in At(n.pending, p) && id !in At(n.dead, p) {
      Listed(a, p, id);
    }
    hide Inv, BodyRel, CountRel, ReasonRel;
  }

  /** A run in which it happens: a producer that sends the very same keyed job twice is told twice that
      it was accepted, and the job is lost. */
  lemma SameJobTwiceIsLost(job: Job, token: Uuid, expiry: Time)
    requires job.key.Some? && !BlankKey(job)
    ensures PossibleRun([Send(job)]) && AnswersOf([Send(job), Send(job)]) == [Accepted(job.id), Accepted(job.id)]
    ensures var (n, reply) := ClaimScript(Reached([Send(job), Send(job)]).store, job.queue, token, expiry);
            reply == None && !Tracked(n, job.id)
  {
    hide Tracked, ClaimScript, BlankKey, MaySend;
    var once, twice := [Send(job)], [Send(job), Send(job)];
    assert Front(once) == [] && Front(twice) == once && Last(twice) == Send(job);
    assert Reached([]) == START;
    FirstMayBeSent(job);
    assert AnswersOf(once) == [Accepted(job.id)] && Reached(once).store.keys[job.key.value] == job.id;
    assert AnswersOf(twice) == AnswersOf(once) + [Accepted(job.id)];
    ResendLosesReadyJob(once, job, job.queue, token, expiry);
  }

  lemma FirstMayBeSent(job: Job)
    ensures MaySend(START, job)
  {
  }
}
