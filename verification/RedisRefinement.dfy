/** Every interleaving of Redis broker calls behaves like the delivery contract. */
module RedisRefinement {
  import opened Jobs
  import opened BrokerSpec
  import opened BrokerHistory
  import opened RedisSpec

  // ---------------------------------------------------------------- the simulation relation

  /** Lease members are the claims in flight, each once. */
  ghost predicate LeaseRel(lease: map<Lease, Time>, jobs: map<Uuid, Entry>) {
    && (forall m | m in lease ::
          m.id in jobs && jobs[m.id].place == InFlight(m.token, lease[m]) && jobs[m.id].job.queue == m.queue)
    && (forall id | id in jobs && jobs[id].place.InFlight? ::
          Lease(jobs[id].job.queue, id, jobs[id].place.token) in lease)
  }

  ghost predicate DelayRel(delayed: map<Wait, Time>, jobs: map<Uuid, Entry>) {
    && (forall m | m in delayed ::
          m.id in jobs && jobs[m.id].place == Delayed(delayed[m]) && jobs[m.id].job.queue == m.queue)
    && (forall id | id in jobs && jobs[id].place.Delayed? :: Wait(jobs[id].job.queue, id) in delayed)
  }

  /** Every body is that of an accepted job, up to `attempts`, and every unacknowledged job has one.
      (An acknowledged job may have one too: a late mirror write can bring it back.) */
  ghost predicate BodyRel(bodies: map<Uuid, Job>, jobs: map<Uuid, Entry>) {
    && (forall id | id in bodies :: id in jobs && SameJob(bodies[id], jobs[id].job))
    && (forall id | id in jobs && !jobs[id].place.Acked? :: id in bodies)
  }

  /** Every counter is that of a job that has not ended; ending drops it. */
  ghost predicate CountRel(attempts: map<Uuid, nat>, jobs: map<Uuid, Entry>) {
    && (forall id | id in attempts :: id in jobs && !Terminal(jobs[id].place))
    && (forall id | id in jobs && !Terminal(jobs[id].place) :: Count(attempts, id) == jobs[id].count)
  }

  /** The reasons are those of the dead jobs. */
  ghost predicate ReasonRel(reasons: map<Uuid, string>, jobs: map<Uuid, Entry>) {
    && (forall id | id in reasons :: id in jobs && jobs[id].place.Dead?)
    && (forall id | id in jobs && jobs[id].place.Dead? :: id in reasons && reasons[id] == jobs[id].place.reason)
  }

  ghost predicate StoreRel(r: Store, a: State) {
    && Inv(a)
    && r.pending == a.pending && r.dead == a.dead && r.keys == a.keys
    && LeaseRel(r.lease, a.jobs)
    && DelayRel(r.delayed, a.jobs)
    && BodyRel(r.bodies, a.jobs)
    && CountRel(r.attempts, a.jobs)
    && ReasonRel(r.reasons, a.jobs)
  }

  /** What a call remembers stays true, because jobs never change. */
  ghost predicate CallRel(k: Call, jobs: map<Uuid, Entry>) {
    match k
    case Fetched(id, _, _, queue) => id in jobs && jobs[id].job.queue == queue
    case Unmirrored(job) => job.id in jobs && SameJob(job, jobs[job.id].job)
  }

  ghost predicate Rel(c: System, a: State) {
    && StoreRel(c.store, a)
    && (forall i | i in c.calls :: CallRel(c.calls[i], a.jobs))
    && c.clock == a.clock
    && a.jobs.Keys == c.accepted
    && a.issued.Keys <= c.usedTokens
  }

  lemma RelInv(c: System, a: State)
    requires Rel(c, a)
    ensures Inv(a)
  {
  }

  lemma StartRel()
    ensures Rel(START, EMPTY)
  {
    EmptyInv();
  }

  // ---------------------------------------------------------------- scripts

  lemma SameJobId(a: State, id: Uuid, body: Job)
    requires Inv(a) && id in a.jobs && SameJob(body, a.jobs[id].job)
    ensures body.id == id && body.queue == a.jobs[id].job.queue
  {
    assert Accepts(a.jobs)[id] == a.jobs[id].job;
    assert body.id == body.(attempts := 0).id && body.queue == body.(attempts := 0).queue;
  }

  // How each part of the relation follows one entry of the contract's state.

  ghost function LeaseAfter(lease: map<Lease, Time>, jobs: map<Uuid, Entry>, id: Uuid, e: Entry): map<Lease, Time> {
    var kept := if id in jobs && jobs[id].place.InFlight?
                then lease - {Lease(jobs[id].job.queue, id, jobs[id].place.token)} else lease;
    if e.place.InFlight? then kept[Lease(e.job.queue, id, e.place.token) := e.place.expiry] else kept
  }

  lemma LeaseFollows(lease: map<Lease, Time>, jobs: map<Uuid, Entry>, id: Uuid, e: Entry)
    requires LeaseRel(lease, jobs)
    ensures LeaseRel(LeaseAfter(lease, jobs, id, e), jobs[id := e])
  {
  }

  ghost function DelayAfter(delayed: map<Wait, Time>, jobs: map<Uuid, Entry>, id: Uuid, e: Entry): map<Wait, Time> {
    var kept := if id in jobs && jobs[id].place.Delayed? then delayed - {Wait(jobs[id].job.queue, id)} else delayed;
    if e.place.Delayed? then kept[Wait(e.job.queue, id) := e.place.due] else kept
  }

  lemma DelayFollows(delayed: map<Wait, Time>, jobs: map<Uuid, Entry>, id: Uuid, e: Entry)
    requires DelayRel(delayed, jobs)
    ensures DelayRel(DelayAfter(delayed, jobs, id, e), jobs[id := e])
  {
  }

  lemma BodyFollows(bodies: map<Uuid, Job>, jobs: map<Uuid, Entry>, id: Uuid, e: Entry)
    requires BodyRel(bodies, jobs) && id in jobs && e.job == jobs[id].job
    ensures !jobs[id].place.Acked? ==> BodyRel(bodies, jobs[id := e]) && id in bodies && SameJob(bodies[id], e.job)
    ensures e.place.Acked? ==> BodyRel(bodies - {id}, jobs[id := e])
  {
  }

  lemma BodyArrives(bodies: map<Uuid, Job>, jobs: map<Uuid, Entry>, job: Job, e: Entry)
    requires BodyRel(bodies, jobs) && job.id !in jobs && e.job == job
    ensures BodyRel(bodies[job.id := job], jobs[job.id := e])
    ensures bodies[job.id := job] - {job.id} == bodies
  {
  }

  lemma CountFollows(attempts: map<Uuid, nat>, jobs: map<Uuid, Entry>, id: Uuid, e: Entry)
    requires CountRel(attempts, jobs)
    ensures !Terminal(e.place) ==> CountRel(attempts[id := e.count], jobs[id := e])
    ensures id in jobs && !Terminal(jobs[id].place) ==> Count(attempts, id) == jobs[id].count
    ensures !Terminal(e.place)
            && (if id in jobs then !Terminal(jobs[id].place) && e.count == jobs[id].count else e.count == 0) ==>
              CountRel(attempts, jobs[id := e])
    ensures Terminal(e.place) ==> CountRel(attempts - {id}, jobs[id := e])
  {
  }

  lemma ReasonFollows(reasons: map<Uuid, string>, jobs: map<Uuid, Entry>, id: Uuid, e: Entry)
    requires ReasonRel(reasons, jobs)
    ensures !e.place.Dead? && (id in jobs ==> !jobs[id].place.Dead?) ==> ReasonRel(reasons, jobs[id := e])
    ensures e.place.Dead? ==> ReasonRel(reasons[id := e.place.reason], jobs[id := e])
  {
  }

  /** Sending the job is harmless: its key is blank, or it is taken and the id has no tracked job, or
      the id is new. */
  predicate Sendable(a: State, job: Job) {
    || BlankKey(job)
    || if SeenKey(a, job) then job.id in a.jobs ==> a.jobs[job.id].place.Acked? else job.id !in a.jobs
  }

  lemma EnqueueSimulates(r: Store, a: State, job: Job)
    requires StoreRel(r, a) && Sendable(a, job)
    ensures var (n, answer) := EnqueueScript(r, job);
            StoreRel(n, Enqueueing(a, job, 0).next) && answer == Enqueueing(a, job, 0).answer
  {
    hide StoreRel;
    if BlankKey(job) {
    } else if SeenKey(a, job) {
      ResendSimulates(r, a, job);
    } else {
      NewJobSimulates(r, a, job);
    }
  }

  lemma ResendSimulates(r: Store, a: State, job: Job)
    requires StoreRel(r, a) && !BlankKey(job) && SeenKey(a, job)
    requires job.id in a.jobs ==> a.jobs[job.id].place.Acked?
    ensures EnqueueScript(r, job) == (r.(bodies := r.bodies - {job.id}), Enqueueing(a, job, 0).answer)
    ensures StoreRel(r.(bodies := r.bodies - {job.id}), Enqueueing(a, job, 0).next)
  {
    hide Inv, LeaseRel, DelayRel, CountRel, ReasonRel, Append;
    assert r.bodies[job.id := job] - {job.id} == r.bodies - {job.id};
  }

  lemma NewJobSimulates(r: Store, a: State, job: Job)
    requires StoreRel(r, a) && !BlankKey(job) && !SeenKey(a, job) && job.id !in a.jobs
    ensures var (n, answer) := EnqueueScript(r, job);
            StoreRel(n, Accept(a, job, 0)) && answer == Accepted(job.id)
  {
    hide Inv, LeaseRel, DelayRel, BodyRel, CountRel, ReasonRel, Append;
    EnqueueKeepsInv(a, job, 0);
    var e := Entry(job, 0, Pending);
    BodyArrives(r.bodies, a.jobs, job, e);
    LeaseFollows(r.lease, a.jobs, job.id, e);
    DelayFollows(r.delayed, a.jobs, job.id, e);
    CountFollows(r.attempts, a.jobs, job.id, e);
    ReasonFollows(r.reasons, a.jobs, job.id, e);
  }

  /** Exactly when a send under a taken key does what the contract says: the id has no job that is
      still tracked. Otherwise the losing branch deletes the body of that job, be it the key's winner or
      any other. */
  lemma ResendSimulatesIff(r: Store, a: State, job: Job)
    requires StoreRel(r, a) && !BlankKey(job) && SeenKey(a, job)
    ensures StoreRel(EnqueueScript(r, job).0, Enqueueing(a, job, 0).next)
            <==> (job.id in a.jobs ==> a.jobs[job.id].place.Acked?)
  {
    hide Inv, LeaseRel, DelayRel, CountRel, ReasonRel;
    assert r.bodies[job.id := job] - {job.id} == r.bodies - {job.id};
  }

  /** The tracked ids are those of the jobs that were accepted and not acknowledged. */
  lemma TrackedIff(r: Store, a: State, id: Uuid)
    requires StoreRel(r, a)
    ensures Tracked(r, id) <==> id in a.jobs && !a.jobs[id].place.Acked?
  {
    TrackedInListsIff(r, a, id);
    hide Inv, BodyRel, CountRel, ReasonRel, At;
    if id in a.jobs && a.jobs[id].place.InFlight? {
      assert Lease(a.jobs[id].job.queue, id, a.jobs[id].place.token) in r.lease;
    }
    if id in a.jobs && a.jobs[id].place.Delayed? {
      assert Wait(a.jobs[id].job.queue, id) in r.delayed;
    }
  }

  lemma TrackedInListsIff(r: Store, a: State, id: Uuid)
    requires Inv(a) && r.pending == a.pending && r.dead == a.dead
    ensures (exists q :: id in At(r.pending, q)) <==> id in a.jobs && a.jobs[id].place.Pending?
    ensures (exists q :: id in At(r.dead, q)) <==> id in a.jobs && a.jobs[id].place.Dead?
  {
    forall q
      ensures id in At(a.pending, q) <==> id in a.jobs && a.jobs[id].place.Pending? && a.jobs[id].job.queue == q
      ensures id in At(a.dead, q) <==> id in a.jobs && a.jobs[id].place.Dead? && a.jobs[id].job.queue == q
    {
      Listed(a, q, id);
    }
    hide Inv;
    if id in a.jobs {
      assert id in At(a.pending, a.jobs[id].job.queue) || id in At(a.dead, a.jobs[id].job.queue)
        || !(a.jobs[id].place.Pending? || a.jobs[id].place.Dead?);
    }
  }

  lemma ClaimSimulates(r: Store, a: State, queue: string, token: Uuid, expiry: Time)
    requires StoreRel(r, a) && token !in a.issued
    ensures var (n, reply) := ClaimScript(r, queue, token, expiry);
            var p := Popping(a, queue, token, expiry);
            && StoreRel(n, p.next)
            && match reply
               case None => p.answer.Nothing?
               case Some((body, count)) =>
                 p.answer == Claimed(body.id, token, count) && body.id in a.jobs && SameJob(body, a.jobs[body.id].job)
  {
    hide Inv, LeaseRel, DelayRel, BodyRel, CountRel, ReasonRel;
    PopKeepsInv(a, queue, token, expiry);
    if At(a.pending, queue) != [] {
      var id := At(a.pending, queue)[0];
      Listed(a, queue, id);
      var e := a.jobs[id].(count := a.jobs[id].count + 1, place := InFlight(token, expiry));
      LeaseFollows(r.lease, a.jobs, id, e);
      DelayFollows(r.delayed, a.jobs, id, e);
      BodyFollows(r.bodies, a.jobs, id, e);
      CountFollows(r.attempts, a.jobs, id, e);
      ReasonFollows(r.reasons, a.jobs, id, e);
      SameJobId(a, id, r.bodies[id]);
    }
  }

  lemma LeaseHeld(r: Store, a: State, id: Uuid, token: Uuid)
    requires StoreRel(r, a) && id in a.jobs
    ensures Lease(a.jobs[id].job.queue, id, token) in r.lease <==> Owns(a, id, token)
  {
    hide Inv, DelayRel, BodyRel, CountRel, ReasonRel;
  }

  lemma SettleSimulates(r: Store, a: State, id: Uuid, token: Uuid, how: How)
    requires StoreRel(r, a) && id in a.jobs
    ensures var (n, ok) := SettleScript(r, a.jobs[id].job.queue, id, token, how);
            var s := Settling(a, id, token, how);
            StoreRel(n, s.next) && s.answer == if ok then Settled else JobNotFound
  {
    hide Inv, LeaseRel, DelayRel, BodyRel, CountRel, ReasonRel;
    SettleKeepsInv(a, id, token, how);
    LeaseHeld(r, a, id, token);
    if Owns(a, id, token) {
      var e := Settling(a, id, token, how).next.jobs[id];
      LeaseFollows(r.lease, a.jobs, id, e);
      DelayFollows(r.delayed, a.jobs, id, e);
      BodyFollows(r.bodies, a.jobs, id, e);
      CountFollows(r.attempts, a.jobs, id, e);
      ReasonFollows(r.reasons, a.jobs, id, e);
      match how
      case Ack =>
      case Retry(None) =>
      case Retry(Some(_)) =>
      case Bury(_) =>
    }
  }

  lemma RecoverOneSimulates(r: Store, a: State, m: Lease)
    requires StoreRel(r, a) && m in r.lease
    ensures StoreRel(RecoverOne(r, m), Requeue(a, m.id))
    ensures RecoverOne(r, m).lease == r.lease - {m}
  {
    assert m.id in a.jobs && a.jobs[m.id].place == InFlight(m.token, r.lease[m]) && a.jobs[m.id].job.queue == m.queue;
    hide Inv, LeaseRel, DelayRel, BodyRel, CountRel, ReasonRel;
    var e := a.jobs[m.id].(place := Pending);
    RequeueKeepsInv(a, m.id);
    LeaseFollows(r.lease, a.jobs, m.id, e);
    DelayFollows(r.delayed, a.jobs, m.id, e);
    BodyFollows(r.bodies, a.jobs, m.id, e);
    CountFollows(r.attempts, a.jobs, m.id, e);
    ReasonFollows(r.reasons, a.jobs, m.id, e);
  }

  lemma PromoteOneSimulates(r: Store, a: State, m: Wait)
    requires StoreRel(r, a) && m in r.delayed
    ensures StoreRel(PromoteOne(r, m), Requeue(a, m.id))
    ensures PromoteOne(r, m).delayed == r.delayed - {m}
  {
    assert m.id in a.jobs && a.jobs[m.id].place == Delayed(r.delayed[m]) && a.jobs[m.id].job.queue == m.queue;
    hide Inv, LeaseRel, DelayRel, BodyRel, CountRel, ReasonRel;
    var e := a.jobs[m.id].(place := Pending);
    RequeueKeepsInv(a, m.id);
    LeaseFollows(r.lease, a.jobs, m.id, e);
    DelayFollows(r.delayed, a.jobs, m.id, e);
    BodyFollows(r.bodies, a.jobs, m.id, e);
    CountFollows(r.attempts, a.jobs, m.id, e);
    ReasonFollows(r.reasons, a.jobs, m.id, e);
  }

  function LeaseIds(members: seq<Lease>): seq<Uuid> {
    if members == [] then [] else LeaseIds(Front(members)) + [Last(members).id]
  }

  function WaitIds(members: seq<Wait>): seq<Uuid> {
    if members == [] then [] else WaitIds(Front(members)) + [Last(members).id]
  }

  lemma {:induction false} RecoverSimulates(r: Store, a: State, members: seq<Lease>)
    requires StoreRel(r, a) && NoDup(members) && (forall m | m in members :: m in r.lease)
    ensures StoreRel(RecoverScript(r, members), RequeueAll(a, LeaseIds(members)))
    ensures forall m :: m in RecoverScript(r, members).lease <==> m in r.lease && m !in members
  {
    hide StoreRel, NoDup, RecoverOne, Requeue;
    if members != [] {
      NoDupFront(members);
      RecoverSimulates(r, a, Front(members));
      RecoverOneSimulates(RecoverScript(r, Front(members)), RequeueAll(a, LeaseIds(Front(members))), Last(members));
      assert Front(LeaseIds(members)) == LeaseIds(Front(members));
    }
  }

  lemma {:induction false} PromoteSimulates(r: Store, a: State, members: seq<Wait>)
    requires StoreRel(r, a) && NoDup(members) && (forall m | m in members :: m in r.delayed)
    ensures StoreRel(PromoteScript(r, members), RequeueAll(a, WaitIds(members)))
    ensures forall m :: m in PromoteScript(r, members).delayed <==> m in r.delayed && m !in members
  {
    hide StoreRel, NoDup, PromoteOne, Requeue;
    if members != [] {
      NoDupFront(members);
      PromoteSimulates(r, a, Front(members));
      PromoteOneSimulates(PromoteScript(r, Front(members)), RequeueAll(a, WaitIds(Front(members))), Last(members));
      assert Front(WaitIds(members)) == WaitIds(Front(members));
    }
  }

  // ---------------------------------------------------------------- sweeps list what the contract says they list

  lemma {:induction false} LeaseIdsAre(members: seq<Lease>)
    ensures |LeaseIds(members)| == |members|
    ensures forall i | 0 <= i < |members| :: LeaseIds(members)[i] == members[i].id
  {
    if members != [] {
      LeaseIdsAre(Front(members));
    }
  }

  lemma {:induction false} WaitIdsAre(members: seq<Wait>)
    ensures |WaitIds(members)| == |members|
    ensures forall i | 0 <= i < |members| :: WaitIds(members)[i] == members[i].id
  {
    if members != [] {
      WaitIdsAre(Front(members));
    }
  }

  lemma LeaseRangeLists(r: Store, a: State, now: Time, members: seq<Lease>)
    requires StoreRel(r, a) && Range(r.lease, now, members)
    ensures ListsLapsed(a, now, LeaseIds(members))
  {
    hide Inv, DelayRel, BodyRel, CountRel, ReasonRel;
    LeaseIdsAre(members);
    hide LeaseIds;
    var ids := LeaseIds(members);
    assert forall i | 0 <= i < |members| :: members[i] in members && members[i] in r.lease;
    assert forall i | 0 <= i < |members| ::
        members[i] == Lease(a.jobs[ids[i]].job.queue, ids[i], a.jobs[ids[i]].place.token);
    assert NoDup(ids);
    forall id ensures id in ids <==> id in a.jobs && Lapsed(a.jobs[id], now) {
      if id in a.jobs && Lapsed(a.jobs[id], now) {
        var m := Lease(a.jobs[id].job.queue, id, a.jobs[id].place.token);
        assert m in members;
        var i :| 0 <= i < |members| && members[i] == m;
        assert ids[i] == id;
      }
    }
  }

  lemma WaitRangeLists(r: Store, a: State, now: Time, members: seq<Wait>)
    requires StoreRel(r, a) && Range(r.delayed, now, members)
    ensures ListsDue(a, now, WaitIds(members))
  {
    hide Inv, LeaseRel, BodyRel, CountRel, ReasonRel;
    WaitIdsAre(members);
    hide WaitIds;
    var ids := WaitIds(members);
    assert forall i | 0 <= i < |members| :: members[i] in members && members[i] in r.delayed;
    assert forall i | 0 <= i < |members| :: members[i] == Wait(a.jobs[ids[i]].job.queue, ids[i]);
    assert NoDup(ids);
    forall id ensures id in ids <==> id in a.jobs && IsDue(a.jobs[id], now) {
      if id in a.jobs && IsDue(a.jobs[id], now) {
        var m := Wait(a.jobs[id].job.queue, id);
        assert m in members;
        var i :| 0 <= i < |members| && members[i] == m;
        assert ids[i] == id;
      }
    }
  }

  // ---------------------------------------------------------------- forward simulation

  /** The operation of the contract that a step amounts to, if any; steps without one are invisible. */
  function Meaning(c: System, step: Step): Option<Op> {
    match step
    case Pass(to) => Some(Tick(to))
    case Send(job) => Some(Enqueue(job, 0))
    case Recovery(now, leases) => Some(Recover(now, LeaseIds(leases)))
    case Promotion(now, waits) => Some(Promote(now, WaitIds(waits)))
    case Take(_, queue, token, expiry) => Some(Pop(queue, token, expiry))
    case Fetch(_, id, token, how) => if id in c.store.bodies then None else Some(Settle(id, token, how))
    case Finish(call) =>
      if call in c.calls && c.calls[call].Fetched?
      then Some(Settle(c.calls[call].id, c.calls[call].token, c.calls[call].how)) else None
    case Mirror(_) => None
    case Crash(_) => None
  }

  /** A silent operation answers no call. */
  function Observed(answer: Answer): Option<Answer> {
    if answer.Silent? then None else Some(answer)
  }

  /** The contract's counterpart of a step keeps the relation and gives the same answer. */
  ghost predicate Simulated(c: System, a: State, step: Step) {
    var (d, answer) := Perform(c, step);
    match Meaning(c, step)
    case None => Rel(d, a) && answer == None
    case Some(op) => Legal(a, op) && Rel(d, Apply(a, op).next) && answer == Observed(Apply(a, op).answer)
  }

  lemma CallsKeep(calls: map<nat, Call>, a: State, n: State)
    requires Preserves(a, n) && (forall i | i in calls :: CallRel(calls[i], a.jobs))
    ensures forall i | i in calls :: CallRel(calls[i], n.jobs)
  {
  }

  lemma SweepSimulates(c: System, a: State, step: Step)
    requires Rel(c, a) && Possible(c, step) && (step.Recovery? || step.Promotion?)
    ensures Simulated(c, a, step)
  {
    hide Inv, StoreRel, CallRel, Preserves, ListsLapsed, ListsDue, RequeueAll, RecoverScript, PromoteScript;
    RelInv(c, a);
    var op := Meaning(c, step).value;
    if step.Recovery? {
      LeaseRangeLists(c.store, a, step.now, step.leases);
      InRange(c.store.lease, step.now, step.leases);
      RecoverSimulates(c.store, a, step.leases);
      SweepFrame(a, step.now, op.order);
    } else {
      WaitRangeLists(c.store, a, step.now, step.waits);
      InRange(c.store.delayed, step.now, step.waits);
      PromoteSimulates(c.store, a, step.waits);
      SweepFrame(a, step.now, op.order);
    }
    hide Range;
    StepPreserves(a, op);
    CallsKeep(c.calls, a, Apply(a, op).next);
  }

  lemma PassSimulates(c: System, a: State, step: Step)
    requires Rel(c, a) && Possible(c, step) && step.Pass?
    ensures Simulated(c, a, step)
  {
    ApplyKeepsInv(a, Tick(step.to));
    hide Inv;
  }

  lemma SendIsLegal(c: System, a: State, job: Job)
    requires Rel(c, a) && MaySend(c, job)
    ensures Sendable(a, job) && Legal(a, Enqueue(job, 0)) && (KeyTaken(c.store, job) <==> SeenKey(a, job))
  {
    TrackedIff(c.store, a, job.id);
    hide Tracked, LeaseRel, DelayRel, BodyRel, CountRel, ReasonRel, Inv;
  }

  lemma SendSimulates(c: System, a: State, step: Step)
    requires Rel(c, a) && Possible(c, step) && step.Send?
    ensures Simulated(c, a, step)
  {
    hide Inv, StoreRel, CallRel, Preserves, EnqueueScript, MaySend, Sendable, KeyTaken, SeenKey, BlankKey;
    RelInv(c, a);
    SendIsLegal(c, a, step.job);
    EnqueueSimulates(c.store, a, step.job);
    StepPreserves(a, Enqueue(step.job, 0));
    CallsKeep(c.calls, a, Enqueueing(a, step.job, 0).next);
  }

  lemma TakeSimulates(c: System, a: State, step: Step)
    requires Rel(c, a) && Possible(c, step) && step.Take?
    ensures Simulated(c, a, step)
  {
    hide Inv, StoreRel, Preserves, ClaimScript;
    RelInv(c, a);
    var op := Pop(step.queue, step.token, step.expiry);
    ClaimSimulates(c.store, a, step.queue, step.token, step.expiry);
    StepPreserves(a, op);
    CallsKeep(c.calls, a, Apply(a, op).next);
    PopFrame(a, step.queue, step.token, step.expiry);
    hide Popping;
  }

  lemma FinishSimulates(c: System, a: State, step: Step)
    requires Rel(c, a) && Possible(c, step) && step.Finish?
    ensures Simulated(c, a, step)
  {
    hide Inv, StoreRel, Preserves, SettleScript, Settling;
    var k := c.calls[step.call];
    RelInv(c, a);
    assert CallRel(k, a.jobs);
    SettleSimulates(c.store, a, k.id, k.token, k.how);
    StepPreserves(a, Settle(k.id, k.token, k.how));
    CallsKeep(c.calls, a, Settling(a, k.id, k.token, k.how).next);
    SettleFrame(a, k.id, k.token, k.how);
  }

  lemma PopFrame(a: State, queue: string, token: Uuid, expiry: Time)
    ensures var n := Popping(a, queue, token, expiry).next;
            n.jobs.Keys == a.jobs.Keys && n.issued.Keys <= a.issued.Keys + {token} && n.clock == a.clock
  {
  }

  lemma InRange<M(!new)>(z: map<M, Time>, now: Time, members: seq<M>)
    requires Range(z, now, members)
    ensures NoDup(members) && forall m | m in members :: m in z
  {
  }

  lemma SweepFrame(a: State, now: Time, order: seq<Uuid>)
    requires Inv(a) && (ListsLapsed(a, now, order) || ListsDue(a, now, order))
    ensures var n := RequeueAll(a, order);
            n.jobs.Keys == a.jobs.Keys && n.issued == a.issued && n.clock == a.clock
  {
    hide Inv;
    RequeueAllKeepsInv(a, order);
  }

  lemma SettleFrame(a: State, id: Uuid, token: Uuid, how: How)
    ensures var n := Settling(a, id, token, how).next;
            n.jobs.Keys == a.jobs.Keys && n.issued == a.issued && n.clock == a.clock
  {
  }

  lemma MirrorSimulates(c: System, a: State, step: Step)
    requires Rel(c, a) && Possible(c, step) && step.Mirror?
    ensures Simulated(c, a, step)
  {
    hide Inv, LeaseRel, DelayRel, CountRel, ReasonRel;
    assert CallRel(c.calls[step.call], a.jobs);
    BodyRewritten(c.store.bodies, a.jobs, c.calls[step.call].job);
    hide BodyRel;
  }

  lemma BodyRewritten(bodies: map<Uuid, Job>, jobs: map<Uuid, Entry>, job: Job)
    requires BodyRel(bodies, jobs) && job.id in jobs && SameJob(job, jobs[job.id].job)
    ensures BodyRel(bodies[job.id := job], jobs)
  {
  }

  lemma FetchSimulates(c: System, a: State, step: Step)
    requires Rel(c, a) && Possible(c, step) && step.Fetch?
    ensures Simulated(c, a, step)
  {
    if step.id in c.store.bodies {
      SameJobId(a, step.id, c.store.bodies[step.id]);
    }
    hide Inv, DelayRel, CountRel, ReasonRel;
  }

  lemma CrashSimulates(c: System, a: State, step: Step)
    requires Rel(c, a) && Possible(c, step) && step.Crash?
    ensures Simulated(c, a, step)
  {
    hide StoreRel, CallRel;
  }

  /** Forward simulation of every step of every interleaving. */
  lemma StepSimulates(c: System, a: State, step: Step)
    requires Rel(c, a) && Possible(c, step)
    ensures Simulated(c, a, step)
  {
    hide Rel, Possible, Simulated;
    if step.Recovery? || step.Promotion? {
      SweepSimulates(c, a, step);
    } else if step.Mirror? {
      MirrorSimulates(c, a, step);
    } else if step.Fetch? {
      FetchSimulates(c, a, step);
    } else if step.Crash? {
      CrashSimulates(c, a, step);
    } else if step.Pass? {
      PassSimulates(c, a, step);
    } else if step.Send? {
      SendSimulates(c, a, step);
    } else if step.Take? {
      TakeSimulates(c, a, step);
    } else {
      FinishSimulates(c, a, step);
    }
  }
}
