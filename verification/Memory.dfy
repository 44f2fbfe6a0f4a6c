/** The in-process broker: collections mutated under one lock, implementing the delivery contract. */
module Memory {
  import opened Jobs
  import opened BrokerSpec
  import opened BrokerHistory
  import opened BrokerOrder

  datatype Flight = Flight(job: Job, leaseUntil: Time, token: Uuid)
  datatype Later = Later(due: Time, job: Job)
  datatype ClaimedJob = ClaimedJob(job: Job, token: Uuid)

  // ---------------------------------------------------------------- what the collections stand for

  /** The job as the broker stores it: its claim count, saturated to 32 bits, is in the envelope. */
  function Carried(e: Entry): (job: Job)
    ensures SameJob(job, e.job) && job.attempts == Min(e.count, U32_MAX)
  {
    e.job.(attempts := Min(e.count, U32_MAX))
  }

  ghost predicate Carries(jobs: map<Uuid, Entry>, ids: seq<Uuid>, stored: seq<Job>) {
    && |ids| == |stored|
    && (forall i | 0 <= i < |ids| :: ids[i] in jobs && stored[i] == Carried(jobs[ids[i]]))
  }

  ghost predicate Buries(jobs: map<Uuid, Entry>, ids: seq<Uuid>, stored: seq<Letter>) {
    && |ids| == |stored|
    && (forall i | 0 <= i < |ids| ::
          ids[i] in jobs && jobs[ids[i]].place.Dead?
          && stored[i] == Letter(Carried(jobs[ids[i]]), jobs[ids[i]].place.reason))
  }

  ghost predicate PendingOk(pending: map<string, seq<Job>>, v: State) {
    forall q :: Carries(v.jobs, At(v.pending, q), At(pending, q))
  }

  ghost predicate DeadOk(dead: map<string, seq<Letter>>, v: State) {
    forall q :: Buries(v.jobs, At(v.dead, q), At(dead, q))
  }

  ghost predicate FlightsOk(inFlight: map<Uuid, Flight>, jobs: map<Uuid, Entry>) {
    && (forall id | id in inFlight :: id in jobs && jobs[id].place.InFlight?)
    && (forall id | id in jobs && jobs[id].place.InFlight? ::
          id in inFlight && inFlight[id] == Flight(Carried(jobs[id]), jobs[id].place.expiry, jobs[id].place.token))
  }

  ghost predicate DelayedOk(delayed: seq<Later>, jobs: map<Uuid, Entry>) {
    && (forall i, j | 0 <= i < j < |delayed| :: delayed[i].job.id != delayed[j].job.id)
    && (forall i | 0 <= i < |delayed| ::
          var id := delayed[i].job.id;
          id in jobs && jobs[id].place == Delayed(delayed[i].due) && delayed[i].job == Carried(jobs[id]))
    && (forall id | id in jobs && jobs[id].place.Delayed? :: exists i | 0 <= i < |delayed| :: delayed[i].job.id == id)
  }

  ghost predicate Represents(pending: map<string, seq<Job>>, inFlight: map<Uuid, Flight>, delayed: seq<Later>,
                             dead: map<string, seq<Letter>>, idempotency: map<string, Uuid>, v: State) {
    && PendingOk(pending, v)
    && FlightsOk(inFlight, v.jobs)
    && DelayedOk(delayed, v.jobs)
    && DeadOk(dead, v)
    && idempotency == v.keys
  }

  // ---------------------------------------------------------------- one job changes place

  lemma CarriesElsewhere(jobs: map<Uuid, Entry>, ids: seq<Uuid>, stored: seq<Job>, id: Uuid, e: Entry)
    requires Carries(jobs, ids, stored) && id !in ids
    ensures Carries(jobs[id := e], ids, stored)
  {
  }

  lemma BuriesElsewhere(jobs: map<Uuid, Entry>, ids: seq<Uuid>, stored: seq<Letter>, id: Uuid, e: Entry)
    requires Buries(jobs, ids, stored) && id !in ids
    ensures Buries(jobs[id := e], ids, stored)
  {
  }

  /** The ready lists of the collections when a job that is not in them becomes ready. */
  lemma PendingGrows(pending: map<string, seq<Job>>, v: State, id: Uuid, e: Entry)
    requires Inv(v) && PendingOk(pending, v)
    requires id in v.jobs ==> !v.jobs[id].place.Pending?
    ensures PendingOk(Append(pending, e.job.queue, Carried(e)),
                      v.(jobs := v.jobs[id := e], pending := Append(v.pending, e.job.queue, id)))
  {
    forall q ensures Carries(v.jobs[id := e], At(Append(v.pending, e.job.queue, id), q),
                             At(Append(pending, e.job.queue, Carried(e)), q)) {
      assert Carries(v.jobs, At(v.pending, q), At(pending, q));
      Listed(v, q, id);
      hide Inv;
      CarriesElsewhere(v.jobs, At(v.pending, q), At(pending, q), id, e);
    }
  }

  lemma PendingStays(pending: map<string, seq<Job>>, v: State, n: State, id: Uuid, e: Entry)
    requires Inv(v) && PendingOk(pending, v)
    requires id in v.jobs ==> !v.jobs[id].place.Pending?
    requires n.jobs == v.jobs[id := e] && n.pending == v.pending
    ensures PendingOk(pending, n)
  {
    forall q ensures Carries(n.jobs, At(n.pending, q), At(pending, q)) {
      assert Carries(v.jobs, At(v.pending, q), At(pending, q));
      Listed(v, q, id);
      CarriesElsewhere(v.jobs, At(v.pending, q), At(pending, q), id, e);
    }
  }

  lemma PendingShrinks(pending: map<string, seq<Job>>, v: State, queue: string, e: Entry)
    requires Inv(v) && PendingOk(pending, v) && At(v.pending, queue) != [] && At(pending, queue) != []
    ensures PendingOk(pending[queue := At(pending, queue)[1..]],
                      v.(jobs := v.jobs[At(v.pending, queue)[0] := e],
                          pending := v.pending[queue := At(v.pending, queue)[1..]]))
  {
    var id := At(v.pending, queue)[0];
    var n := v.(jobs := v.jobs[id := e], pending := v.pending[queue := At(v.pending, queue)[1..]]);
    var m := pending[queue := At(pending, queue)[1..]];
    assert NoDup(At(v.pending, queue));
    NoDupTail(At(v.pending, queue));
    forall q ensures Carries(n.jobs, At(n.pending, q), At(m, q)) {
      assert Carries(v.jobs, At(v.pending, q), At(pending, q));
      Listed(v, queue, id);
      Listed(v, q, id);
      hide Inv;
      assert id !in At(n.pending, q);
      assert Carries(v.jobs, At(n.pending, q), At(m, q));
      CarriesElsewhere(v.jobs, At(n.pending, q), At(m, q), id, e);
    }
  }

  lemma DeadStays(dead: map<string, seq<Letter>>, v: State, n: State, id: Uuid, e: Entry)
    requires Inv(v) && DeadOk(dead, v)
    requires id in v.jobs ==> !v.jobs[id].place.Dead?
    requires n.jobs == v.jobs[id := e] && n.dead == v.dead
    ensures DeadOk(dead, n)
  {
    forall q ensures Buries(n.jobs, At(n.dead, q), At(dead, q)) {
      assert Buries(v.jobs, At(v.dead, q), At(dead, q));
      Listed(v, q, id);
      BuriesElsewhere(v.jobs, At(v.dead, q), At(dead, q), id, e);
    }
  }

  lemma BuriesOneMore(jobs: map<Uuid, Entry>, ids: seq<Uuid>, stored: seq<Letter>, id: Uuid)
    requires Buries(jobs, ids, stored) && id in jobs && jobs[id].place.Dead?
    ensures Buries(jobs, ids + [id], stored + [Letter(Carried(jobs[id]), jobs[id].place.reason)])
  {
  }

  lemma DeadGrows(dead: map<string, seq<Letter>>, v: State, id: Uuid, e: Entry)
    requires Inv(v) && DeadOk(dead, v) && e.place.Dead?
    requires id in v.jobs ==> !v.jobs[id].place.Dead?
    ensures DeadOk(Append(dead, e.job.queue, Letter(Carried(e), e.place.reason)),
                   v.(jobs := v.jobs[id := e], dead := Append(v.dead, e.job.queue, id)))
  {
    forall q ensures Buries(v.jobs[id := e], At(Append(v.dead, e.job.queue, id), q),
                            At(Append(dead, e.job.queue, Letter(Carried(e), e.place.reason)), q)) {
      assert Buries(v.jobs, At(v.dead, q), At(dead, q));
      Listed(v, q, id);
      hide Inv, Buries, Carried;
      BuriesElsewhere(v.jobs, At(v.dead, q), At(dead, q), id, e);
      BuriesOneMore(v.jobs[id := e], At(v.dead, q), At(dead, q), id);
    }
    hide Inv, Buries;
  }

  /** A job that was not delayed and does not become so. */
  lemma DelayedStays(delayed: seq<Later>, jobs: map<Uuid, Entry>, id: Uuid, e: Entry)
    requires DelayedOk(delayed, jobs) && !e.place.Delayed?
    requires id in jobs ==> !jobs[id].place.Delayed?
    ensures DelayedOk(delayed, jobs[id := e])
  {
  }

  lemma FlightsStay(inFlight: map<Uuid, Flight>, jobs: map<Uuid, Entry>, id: Uuid, e: Entry)
    requires FlightsOk(inFlight, jobs) && !e.place.InFlight?
    requires id in jobs ==> !jobs[id].place.InFlight?
    ensures FlightsOk(inFlight, jobs[id := e])
  {
  }

  lemma DelayedGrows(delayed: seq<Later>, jobs: map<Uuid, Entry>, id: Uuid, e: Entry)
    requires DelayedOk(delayed, jobs) && e.place.Delayed? && e.job.id == id
    requires id in jobs ==> !jobs[id].place.Delayed?
    ensures DelayedOk(delayed + [Later(e.place.due, Carried(e))], jobs[id := e])
  {
    var n := delayed + [Later(e.place.due, Carried(e))];
    assert n[|delayed|].job.id == id;
    forall x | x in jobs && x != id && jobs[x].place.Delayed?
      ensures exists i | 0 <= i < |n| :: n[i].job.id == x
    {
      var i :| 0 <= i < |delayed| && delayed[i].job.id == x;
      assert n[i].job.id == x;
    }
  }

  lemma DelayedShrinks(delayed: seq<Later>, jobs: map<Uuid, Entry>, k: nat, e: Entry)
    requires DelayedOk(delayed, jobs) && k < |delayed| && !e.place.Delayed?
    ensures DelayedOk(Without(delayed, k), jobs[delayed[k].job.id := e])
  {
    var n, id := Without(delayed, k), delayed[k].job.id;
    forall i | 0 <= i < |n| ensures n[i] == delayed[if i < k then i else i + 1] {
    }
    forall x | x in jobs && x != id && jobs[x].place.Delayed?
      ensures exists i | 0 <= i < |n| :: n[i].job.id == x
    {
      var i :| 0 <= i < |delayed| && delayed[i].job.id == x;
      assert n[if i < k then i else i - 1].job.id == x;
    }
  }

  lemma FlightRequeued(pending: map<string, seq<Job>>, inFlight: map<Uuid, Flight>, delayed: seq<Later>,
                       dead: map<string, seq<Letter>>, idempotency: map<string, Uuid>, v: State, id: Uuid)
    requires Inv(v) && Represents(pending, inFlight, delayed, dead, idempotency, v) && id in inFlight
    ensures Inv(Requeue(v, id))
    ensures Represents(Append(pending, inFlight[id].job.queue, inFlight[id].job), inFlight - {id}, delayed, dead,
                       idempotency, Requeue(v, id))
  {
    hide Inv, PendingOk, DeadOk, DelayedOk;
    var e := v.jobs[id].(place := Pending);
    RequeueKeepsInv(v, id);
    PendingGrows(pending, v, id, e);
    DeadStays(dead, v, Requeue(v, id), id, e);
    DelayedStays(delayed, v.jobs, id, e);
  }

  lemma LaterRequeued(pending: map<string, seq<Job>>, inFlight: map<Uuid, Flight>, delayed: seq<Later>,
                      dead: map<string, seq<Letter>>, idempotency: map<string, Uuid>, v: State, k: nat)
    requires Inv(v) && Represents(pending, inFlight, delayed, dead, idempotency, v) && k < |delayed|
    ensures var job := delayed[k].job;
            && Inv(Requeue(v, job.id))
            && Represents(Append(pending, job.queue, job), inFlight, Without(delayed, k), dead,
                          idempotency, Requeue(v, job.id))
  {
    var id := delayed[k].job.id;
    var e := v.jobs[id].(place := Pending);
    assert Carried(e) == delayed[k].job;
    hide Inv, PendingOk, DeadOk, DelayedOk, FlightsOk, Carried;
    FlightsStay(inFlight, v.jobs, id, e);
    RequeueKeepsInv(v, id);
    PendingGrows(pending, v, id, e);
    DeadStays(dead, v, Requeue(v, id), id, e);
    DelayedShrinks(delayed, v.jobs, k, e);
  }

  function Without<T>(s: seq<T>, k: nat): seq<T>
    requires k < |s|
  {
    s[..k] + s[k + 1..]
  }

  /** The delayed jobs that the promotion loop has kept or not yet looked at. */
  function Remaining<T>(keep: seq<T>, all: seq<T>, i: nat): seq<T>
    requires i <= |all|
  {
    keep + all[i..]
  }

  lemma RemainingEnds<T>(keep: seq<T>, all: seq<T>)
    ensures Remaining([], all, 0) == all && Remaining(keep, all, |all|) == keep
  {
  }

  lemma RemainingStep<T>(keep: seq<T>, all: seq<T>, i: nat)
    requires i < |all|
    ensures var later := Remaining(keep, all, i);
            && |keep| < |later| && later[|keep|] == all[i]
            && Without(later, |keep|) == Remaining(keep, all, i + 1)
            && Remaining(keep + [all[i]], all, i + 1) == later
  {
  }

  /** The due ones among the first n delayed jobs, in the order they were put aside. */
  function DueIds(all: seq<Later>, now: Time, n: nat): seq<Uuid>
    requires n <= |all|
  {
    if n == 0 then []
    else DueIds(all, now, n - 1) + if all[n - 1].due <= now then [all[n - 1].job.id] else []
  }

  lemma DueIdsStart(all: seq<Later>, now: Time, v: State)
    ensures DueIds(all, now, 0) == [] && RequeueAll(v, []) == v
  {
  }

  lemma DueIdsStep(all: seq<Later>, now: Time, i: nat)
    requires i < |all|
    ensures DueIds(all, now, i + 1) ==
            if all[i].due <= now then DueIds(all, now, i) + [all[i].job.id] else DueIds(all, now, i)
  {
  }

  lemma {:induction false} DueIdsAre(all: seq<Later>, jobs: map<Uuid, Entry>, now: Time, n: nat)
    requires DelayedOk(all, jobs) && n <= |all|
    ensures NoDup(DueIds(all, now, n))
    ensures forall id | id in DueIds(all, now, n) :: exists k | 0 <= k < n :: all[k].job.id == id && all[k].due <= now
    ensures forall k | 0 <= k < n && all[k].due <= now :: all[k].job.id in DueIds(all, now, n)
  {
    if n > 0 {
      DueIdsAre(all, jobs, now, n - 1);
      assert all[n - 1].job.id !in DueIds(all, now, n - 1);
    }
  }

  lemma DueIdsListDue(all: seq<Later>, v: State, now: Time)
    requires DelayedOk(all, v.jobs)
    ensures ListsDue(v, now, DueIds(all, now, |all|))
  {
    DueIdsAre(all, v.jobs, now, |all|);
    hide DueIds, NoDup;
    forall id | id in v.jobs && IsDue(v.jobs[id], now) ensures id in DueIds(all, now, |all|) {
      var k :| 0 <= k < |all| && all[k].job.id == id;
    }
  }

  lemma OrderGrows(v: State, order: seq<Uuid>, id: Uuid)
    ensures NoDup(order) && id !in order ==> NoDup(order + [id])
    ensures RequeueAll(v, order + [id]) == Requeue(RequeueAll(v, order), id)
  {
    assert Front(order + [id]) == order;
  }

  // ---------------------------------------------------------------- conservation

  ghost predicate PendingAt(pending: map<string, seq<Job>>, q: string, i: int, id: Uuid) {
    0 <= i < |At(pending, q)| && At(pending, q)[i].id == id
  }

  ghost predicate DelayedAt(delayed: seq<Later>, i: int, id: Uuid) {
    0 <= i < |delayed| && delayed[i].job.id == id
  }

  ghost predicate DeadAt(dead: map<string, seq<Letter>>, q: string, i: int, id: Uuid) {
    0 <= i < |At(dead, q)| && At(dead, q)[i].job.id == id
  }

  lemma OwnId(v: State, id: Uuid)
    requires Inv(v) && id in v.jobs
    ensures v.jobs[id].job.id == id
  {
    assert Accepts(v.jobs)[id] == v.jobs[id].job;
  }

  lemma WinnerIsAccepted(v: State, job: Job)
    requires Inv(v) && SeenKey(v, job)
    ensures v.keys[job.key.value] in v.jobs
  {
  }

  lemma PendingOnce(pending: map<string, seq<Job>>, v: State, id: Uuid)
    requires Inv(v) && PendingOk(pending, v)
    ensures (exists q, i :: PendingAt(pending, q, i, id)) <==> id in v.jobs && v.jobs[id].place.Pending?
    ensures forall q, i, p, j | PendingAt(pending, q, i, id) && PendingAt(pending, p, j, id) :: q == p && i == j
  {
    forall q, i | PendingAt(pending, q, i, id)
      ensures At(v.pending, q)[i] == id && id in v.jobs && v.jobs[id].place.Pending? && v.jobs[id].job.queue == q
    {
      assert Carries(v.jobs, At(v.pending, q), At(pending, q));
      OwnId(v, At(v.pending, q)[i]);
      Listed(v, q, id);
    }
    if id in v.jobs && v.jobs[id].place.Pending? {
      var q := v.jobs[id].job.queue;
      assert NoDup(At(v.pending, q)) && Carries(v.jobs, At(v.pending, q), At(pending, q));
      Listed(v, q, id);
      OwnId(v, id);
      var i :| 0 <= i < |At(v.pending, q)| && At(v.pending, q)[i] == id;
      assert PendingAt(pending, q, i, id);
    }
    hide Inv;
  }

  lemma DeadOnce(dead: map<string, seq<Letter>>, v: State, id: Uuid)
    requires Inv(v) && DeadOk(dead, v)
    ensures (exists q, i :: DeadAt(dead, q, i, id)) <==> id in v.jobs && v.jobs[id].place.Dead?
    ensures forall q, i, p, j | DeadAt(dead, q, i, id) && DeadAt(dead, p, j, id) :: q == p && i == j
  {
    forall q, i | DeadAt(dead, q, i, id)
      ensures At(v.dead, q)[i] == id && id in v.jobs && v.jobs[id].place.Dead? && v.jobs[id].job.queue == q
    {
      assert Buries(v.jobs, At(v.dead, q), At(dead, q));
      OwnId(v, At(v.dead, q)[i]);
      Listed(v, q, id);
    }
    if id in v.jobs && v.jobs[id].place.Dead? {
      var q := v.jobs[id].job.queue;
      assert NoDup(At(v.dead, q)) && Buries(v.jobs, At(v.dead, q), At(dead, q));
      Listed(v, q, id);
      OwnId(v, id);
      var i :| 0 <= i < |At(v.dead, q)| && At(v.dead, q)[i] == id;
      assert DeadAt(dead, q, i, id);
    }
    hide Inv;
  }

  /** Conservation: an accepted job that was not acknowledged is stored in exactly one collection,
      at one position; any other id is stored nowhere. */
  lemma StoredOnce(pending: map<string, seq<Job>>, inFlight: map<Uuid, Flight>, delayed: seq<Later>,
                   dead: map<string, seq<Letter>>, idempotency: map<string, Uuid>, v: State, id: Uuid)
    requires Inv(v) && Represents(pending, inFlight, delayed, dead, idempotency, v)
    ensures One(exists q, i :: PendingAt(pending, q, i, id)) + One(id in inFlight)
            + One(exists i :: DelayedAt(delayed, i, id)) + One(exists q, i :: DeadAt(dead, q, i, id))
            == One(id in v.jobs && !v.jobs[id].place.Acked?)
    ensures forall q, i, p, j | PendingAt(pending, q, i, id) && PendingAt(pending, p, j, id) :: q == p && i == j
    ensures forall i, j | DelayedAt(delayed, i, id) && DelayedAt(delayed, j, id) :: i == j
    ensures forall q, i, p, j | DeadAt(dead, q, i, id) && DeadAt(dead, p, j, id) :: q == p && i == j
  {
    hide Inv, PendingOk, DeadOk;
    PendingOnce(pending, v, id);
    DeadOnce(dead, v, id);
    if id in v.jobs && v.jobs[id].place.Delayed? {
      var i :| 0 <= i < |delayed| && delayed[i].job.id == id;
      assert DelayedAt(delayed, i, id);
    }
  }

  // ---------------------------------------------------------------- the broker

  ghost predicate NoneClaimable(s: State, q: string, t1: Time, t2: Time) {
    forall id | id in s.jobs && s.jobs[id].job.queue == q :: !Claimable(s.jobs[id], t1, t2)
  }

  lemma PassQueue(s: State, t1: Time, lapsed: seq<Uuid>, t2: Time, due: seq<Uuid>, q: string)
    requires Inv(s) && ListsLapsed(s, t1, lapsed) && ListsDue(RequeueAll(s, lapsed), t2, due)
    ensures At(RequeueAll(RequeueAll(s, lapsed), due).pending, q) == [] <==> NoneClaimable(s, q, t1, t2)
  {
    hide Inv, ListsLapsed, ListsDue, RequeueAll, Claimable;
    var ready := At(RequeueAll(RequeueAll(s, lapsed), due).pending, q);
    forall id ensures id in ready <==> id in s.jobs && s.jobs[id].job.queue == q && Claimable(s.jobs[id], t1, t2) {
      PassMakesReady(s, t1, lapsed, t2, due, id);
    }
    if ready != [] {
      assert ready[0] in ready;
    }
  }

  /** The run's last operation hands out this job under the token: the job that was accepted, with its claim
      number, saturated to 32 bits, as attempts. */
  ghost predicate HandsOut(was: State, ops: seq<Op>, v: State, claimed: ClaimedJob, token: Uuid) {
    && ops != [] && AnswerOf(was, ops).Claimed? && AnswerOf(was, ops).token == token && claimed.token == token
    && var id := AnswerOf(was, ops).id;
       && claimed.job.id == id && id in v.jobs && SameJob(claimed.job, v.jobs[id].job)
       && claimed.job.attempts == Min(v.jobs[id].count, U32_MAX)
  }

  lemma FlightsAre(inFlight: map<Uuid, Flight>, jobs: map<Uuid, Entry>, now: Time)
    requires FlightsOk(inFlight, jobs)
    ensures forall id :: id in inFlight && inFlight[id].leaseUntil <= now <==> id in jobs && Lapsed(jobs[id], now)
  {
  }

  lemma NowLapsed(v: State, now: Time, order: seq<Uuid>, lapsed: set<Uuid>)
    requires NoDup(order) && (forall id :: id in lapsed <==> id in v.jobs && Lapsed(v.jobs[id], now))
    requires forall id :: id in order <==> id in lapsed
    ensures ListsLapsed(v, now, order)
  {
  }

  /** The recovery loop: every lapsed claim is dropped and its job joins its ready list, in the map's
      arbitrary order. */
  method SplitLapsed(pending: map<string, seq<Job>>, flights: map<Uuid, Flight>, ghost delayed: seq<Later>,
                     ghost dead: map<string, seq<Letter>>, ghost idempotency: map<string, Uuid>, ghost was: State,
                         now: Time)
    returns (ready: map<string, seq<Job>>, inFlight: map<Uuid, Flight>, ghost order: seq<Uuid>)
    requires Inv(was) && Represents(pending, flights, delayed, dead, idempotency, was)
    ensures ListsLapsed(was, now, order)
    ensures Inv(RequeueAll(was, order))
    ensures Represents(ready, inFlight, delayed, dead, idempotency, RequeueAll(was, order))
  {
    FlightsAre(flights, was.jobs, now);
    ready, inFlight, order := pending, flights, [];
    var expired := set id | id in inFlight && inFlight[id].leaseUntil <= now;
    ghost var lapsed, v := expired, was;
    hide Inv, Represents, Requeue, RequeueAll, At, Append, ListsLapsed;
    assert v == RequeueAll(was, order) by { DueIdsStart([], now, was); }
    while expired != {}
      invariant Inv(v) && Represents(ready, inFlight, delayed, dead, idempotency, v)
      invariant NoDup(order) && v == RequeueAll(was, order)
      invariant forall id :: id in lapsed <==> id in order || id in expired
      invariant forall id | id in order :: id !in expired
      invariant forall id | id in expired :: id in inFlight
    {
      var id :| id in expired;
      var job := inFlight[id].job;
      FlightRequeued(ready, inFlight, delayed, dead, idempotency, v, id);
      OrderGrows(was, order, id);
      expired := expired - {id};
      inFlight := inFlight - {id};
      ready := Append(ready, job.queue, job);
      v := Requeue(v, id);
      order := order + [id];
    }
    NowLapsed(was, now, order, lapsed);
  }

  lemma FrontMatches(pending: map<string, seq<Job>>, v: State, queue: string)
    requires Inv(v) && PendingOk(pending, v)
    ensures |At(pending, queue)| == |At(v.pending, queue)|
    ensures At(pending, queue) != [] ==>
              var id := At(v.pending, queue)[0];
              id in v.jobs && v.jobs[id].place.Pending? && v.jobs[id].job.queue == queue
              && At(pending, queue)[0] == Carried(v.jobs[id]) && At(pending, queue)[0].id == id
  {
    assert Carries(v.jobs, At(v.pending, queue), At(pending, queue));
    if At(v.pending, queue) != [] {
      Listed(v, queue, At(v.pending, queue)[0]);
      OwnId(v, At(v.pending, queue)[0]);
    }
    hide Inv;
  }

  lemma FrontTaken(pending: map<string, seq<Job>>, inFlight: map<Uuid, Flight>, delayed: seq<Later>,
                   dead: map<string, seq<Letter>>, idempotency: map<string, Uuid>, v: State,
                   queue: string, token: Uuid, leaseUntil: Time)
    requires Inv(v) && Represents(pending, inFlight, delayed, dead, idempotency, v)
    requires token !in v.issued && At(pending, queue) != []
    ensures var job := At(pending, queue)[0];
            var taken := job.(attempts := Min(job.attempts + 1, U32_MAX));
            var r := Popping(v, queue, token, leaseUntil);
            && Inv(r.next) && job.id in r.next.jobs && taken == Carried(r.next.jobs[job.id])
            && r.answer.Claimed? && r.answer.id == job.id && r.answer.token == token
            && Represents(pending[queue := At(pending, queue)[1..]],
                 inFlight[job.id := Flight(taken, leaseUntil, token)],
                          delayed, dead, idempotency, r.next)
  {
    hide Inv, PendingOk, DeadOk, DelayedOk;
    FrontMatches(pending, v, queue);
    var id := At(v.pending, queue)[0];
    var e := v.jobs[id].(count := v.jobs[id].count + 1, place := InFlight(token, leaseUntil));
    var n := Popping(v, queue, token, leaseUntil).next;
    PopKeepsInv(v, queue, token, leaseUntil);
    PendingShrinks(pending, v, queue, e);
    PendingSame(pending[queue := At(pending, queue)[1..]],
                v.(jobs := v.jobs[id := e], pending := v.pending[queue := At(v.pending, queue)[1..]]), n);
    DeadStays(dead, v, n, id, e);
    DelayedStays(delayed, v.jobs, id, e);
    assert Carried(e) == Carried(v.jobs[id]).(attempts := Min(Carried(v.jobs[id]).attempts + 1, U32_MAX));
  }

  lemma PendingSame(pending: map<string, seq<Job>>, a: State, b: State)
    requires PendingOk(pending, a) && a.jobs == b.jobs && a.pending == b.pending
    ensures PendingOk(pending, b)
  {
  }

  /** Of the first n delayed jobs, the ones that are not due, in the order they were put aside. */
  ghost predicate StillWaiting(all: seq<Later>, now: Time, n: nat, keep: seq<Later>, where: seq<nat>)
    requires n <= |all|
  {
    && |where| == |keep|
    && (forall i, j | 0 <= i < j < |where| :: where[i] < where[j])
    && (forall i | 0 <= i < |where| :: where[i] < n && keep[i] == all[where[i]] && now < all[where[i]].due)
    && (forall k | 0 <= k < n && now < all[k].due :: k in where)
  }

  /** The promotion loop: due jobs join their ready lists in the order they were put aside, the rest
      stay in order. */
  method SplitDue(pending: map<string, seq<Job>>, ghost inFlight: map<Uuid, Flight>, all: seq<Later>,
                  ghost dead: map<string, seq<Letter>>, ghost idempotency: map<string, Uuid>, ghost was: State,
                      now: Time)
    returns (ready: map<string, seq<Job>>, keep: seq<Later>, ghost where: seq<nat>)
    requires Inv(was) && Represents(pending, inFlight, all, dead, idempotency, was)
    ensures var v := RequeueAll(was, DueIds(all, now, |all|));
            Inv(v) && Represents(ready, inFlight, keep, dead, idempotency, v)
    ensures StillWaiting(all, now, |all|, keep, where)
  {
    ghost var v := was;
    ready, keep, where := pending, [], [];
    RemainingEnds([], all);
    DueIdsStart(all, now, was);
    hide Inv, Represents, Remaining, Without, RequeueAll, Requeue, DueIds, At, Append;
    for i := 0 to |all|
      invariant Inv(v) && Represents(ready, inFlight, Remaining(keep, all, i), dead, idempotency, v)
      invariant v == RequeueAll(was, DueIds(all, now, i))
      invariant StillWaiting(all, now, i, keep, where)
    {
      var job := all[i].job;
      RemainingStep(keep, all, i);
      DueIdsStep(all, now, i);
      if all[i].due <= now {
        LaterRequeued(ready, inFlight, Remaining(keep, all, i), dead, idempotency, v, |keep|);
        OrderGrows(was, DueIds(all, now, i), job.id);
        ready := Append(ready, job.queue, job);
        v := Requeue(v, job.id);
      } else {
        keep, where := keep + [all[i]], where + [i];
      }
    }
    RemainingEnds(keep, all);
  }

  class MemoryBroker {
    var pending: map<string, seq<Job>>
    var inFlight: map<Uuid, Flight>
    var delayed: seq<Later>
    var dead: map<string, seq<Letter>>
    var idempotency: map<string, Uuid>
    /** The contract's state that the collections stand for. */
    ghost var view: State

    ghost predicate Valid()
      reads this
    {
      Inv(view) && Represents(pending, inFlight, delayed, dead, idempotency, view)
    }

    lemma PendingRep()
      requires Valid()
      ensures PendingOk(pending, view)
    {
    }

    constructor ()
      ensures Valid() && view == EMPTY
    {
      pending, inFlight, delayed, dead, idempotency := map[], map[], [], map[], map[];
      view := EMPTY;
    }

    /** Time passes. */
    ghost method Tick(to: Time)
      requires Valid() && view.clock <= to
      modifies this`view
      ensures Valid() && view == Apply(old(view), Op.Tick(to)).next
    {
      view := view.(clock := to);
    }

    method Enqueue(job: Job) returns (answer: Answer)
      requires Valid() && Legal(view, Op.Enqueue(job, job.attempts))
      modifies this
      ensures Valid()
      ensures Reply(view, answer) == Apply(old(view), Op.Enqueue(job, job.attempts))
      // A new job is stored as it came, at the end of its own ready list.
      ensures answer == Accepted(job.id) && job.id !in old(view).jobs ==>
                && job.id in view.jobs && view.jobs[job.id].job == job
                && At(pending, job.queue) == At(old(pending), job.queue) + [job]
    {
      hide Inv;
      if job.key.Some? && IsBlank(job.key.value) {
        return EmptyKey;
      }
      if job.key.Some? && job.key.value in idempotency {
        WinnerIsAccepted(view, job);
        return Accepted(idempotency[job.key.value]);
      }
      ghost var e := Entry(job, job.attempts, Pending);
      EnqueueKeepsInv(view, job, job.attempts);
      PendingGrows(pending, view, job.id, e);
      DeadStays(dead, view, Accept(view, job, job.attempts), job.id, e);
      DelayedStays(delayed, view.jobs, job.id, e);
      if job.key.Some? {
        idempotency := idempotency[job.key.value := job.id];
      }
      pending := Append(pending, job.queue, job);
      view := Accept(view, job, job.attempts);
      answer := Accepted(job.id);
      hide PendingOk, DeadOk, DelayedOk;
    }

    /** Moves lapsed claims back to their ready lists, in the map's arbitrary order. */
    method RecoverExpired(now: Time) returns (ghost order: seq<Uuid>)
      requires Valid()
      modifies this
      ensures Valid() && ListsLapsed(old(view), now, order) && view == RequeueAll(old(view), order)
    {
      hide Inv, Represents, ListsLapsed, RequeueAll;
      pending, inFlight, order := SplitLapsed(pending, inFlight, delayed, dead, idempotency, view, now);
      view := RequeueAll(view, order);
    }

    /** Promotes the due delayed jobs. */
    method PromoteDelayed(now: Time) returns (ghost order: seq<Uuid>, ghost where: seq<nat>)
      requires Valid()
      modifies this
      ensures StillWaiting(old(delayed), now, |old(delayed)|, delayed, where)
      ensures Valid() && ListsDue(old(view), now, order) && view == RequeueAll(old(view), order)
    {
      ghost var was := view;
      DueIdsListDue(delayed, was, now);
      order := DueIds(delayed, now, |delayed|);
      hide Inv, Represents, ListsDue, RequeueAll, DueIds;
      pending, delayed, where := SplitDue(pending, inFlight, delayed, dead, idempotency, was, now);
      view := RequeueAll(was, order);
    }

    /** Takes the front of one ready list, if there is one. */
    method TakeFront(queue: string, token: Uuid, leaseUntil: Time) returns (claimed: Option<ClaimedJob>)
      requires Valid() && token !in view.issued
      modifies this
      ensures Valid()
      ensures At(old(view).pending, queue) == [] ==> claimed == None && view == old(view)
      ensures At(old(view).pending, queue) != [] ==>
                var r := Popping(old(view), queue, token, leaseUntil);
                && view == r.next && r.answer.Claimed? && r.answer.token == token && r.answer.id in view.jobs
                && claimed == Some(ClaimedJob(Carried(view.jobs[r.answer.id]), token))
    {
      hide Inv, Represents, Popping, Carried;
      PendingRep();
      FrontMatches(pending, view, queue);
      if At(pending, queue) == [] {
        return None;
      }
      FrontTaken(pending, inFlight, delayed, dead, idempotency, view, queue, token, leaseUntil);
      var job := At(pending, queue)[0];
      pending := pending[queue := At(pending, queue)[1..]];
      job := job.(attempts := Min(job.attempts + 1, U32_MAX));
      inFlight := inFlight[job.id := Flight(job, leaseUntil, token)];
      view := Popping(view, queue, token, leaseUntil).next;
      claimed := Some(ClaimedJob(job, token));
    }

    /** Takes the front of the first nonempty ready list. */
    method TakeFirst(names: seq<string>, token: Uuid, leaseUntil: Time)
        returns (claimed: Option<ClaimedJob>, ghost k: int)
      requires Valid() && token !in view.issued
      modifies this
      ensures Valid()
      ensures claimed.None? ==> view == old(view) && forall j | 0 <= j < |names| ::
                At(old(view).pending, names[j]) == []
      ensures claimed.Some? ==>
                && 0 <= k < |names|
                && (forall j | 0 <= j < k :: At(old(view).pending, names[j]) == [])
                && At(old(view).pending, names[k]) != []
                && var r := Popping(old(view), names[k], token, leaseUntil);
                && view == r.next && r.answer.Claimed? && r.answer.token == token && r.answer.id in view.jobs
                && claimed.value == ClaimedJob(Carried(view.jobs[r.answer.id]), token)
    {
      hide Inv, Represents;
      for i := 0 to |names|
        invariant Valid() && view == old(view)
        invariant forall j | 0 <= j < i :: At(view.pending, names[j]) == []
      {
        claimed := TakeFront(names[i], token, leaseUntil);
        if claimed.Some? {
          k := i;
          return;
        }
      }
      claimed, k := None, 0;
    }

    /** Recovers, then promotes: the ready lists now hold exactly the claimable jobs. */
    method MakeReady(t1: Time, t2: Time, ghost t3: Time)
      returns (ghost ops: seq<Op>, ghost lapsed: seq<Uuid>, ghost due: seq<Uuid>)
      requires Valid() && view.clock <= t1 <= t2 <= t3
      modifies this
      ensures Valid() && LegalRun(old(view), ops) && view == After(old(view), ops) && view.issued == old(view.issued)
      ensures ops == ClaimPass(t1, lapsed, t2, due, t3)
      ensures forall q :: At(view.pending, q) == [] <==> NoneClaimable(old(view), q, t1, t2)
    {
      hide Inv, Represents;
      ghost var was := view;
      lapsed := RecoverExpired(t1);
      ghost var where;
      due, where := PromoteDelayed(t2);
      PassMakesReady(was, t1, lapsed, t2, due, 0);
      PassIsRun(was, t1, lapsed, t2, due, t3);
      forall q ensures At(view.pending, q) == [] <==> NoneClaimable(was, q, t1, t2) {
        PassQueue(was, t1, lapsed, t2, due, q);
      }
      ops := ClaimPass(t1, lapsed, t2, due, t3);
      hide *;
      Tick(t3);
    }

    /** One non-blocking claim. The clock is read once for each of its three parts. */
    method Claim(queues: seq<string>, lease: nat, t1: Time, t2: Time, t3: Time, token: Uuid)
      returns (claimed: Option<ClaimedJob>, ghost ops: seq<Op>, ghost lapsed: seq<Uuid>, ghost due: seq<Uuid>,
          ghost k: int)
      requires Valid() && view.clock <= t1 <= t2 <= t3 && token !in view.issued
      modifies this
      ensures Valid() && LegalRun(old(view), ops) && view == After(old(view), ops)
      // Nothing happens but a recovery, a promotion and, at most, one pop.
      ensures claimed.None? ==> ops == ClaimPass(t1, lapsed, t2, due, t3)
      // Nothing is claimed exactly when no requested queue has a pending, lapsed or due job.
      ensures claimed.None? <==> forall j | 0 <= j < |Requested(queues)| ::
                NoneClaimable(old(view), Requested(queues)[j], t1, t2)
      // Otherwise the front of the first queue that has one is handed out under the token.
      ensures claimed.Some? ==>
                && 0 <= k < |Requested(queues)|
                && ops == ClaimPass(t1, lapsed, t2, due, t3) + [Pop(Requested(queues)[k], token, t3 + lease)]
                && !NoneClaimable(old(view), Requested(queues)[k], t1, t2)
                && (forall j | 0 <= j < k :: NoneClaimable(old(view), Requested(queues)[j], t1, t2))
                && HandsOut(old(view), ops, view, claimed.value, token)
    {
      hide Inv, Represents, LegalRun, After, NoneClaimable, Popping, Requested;
      ghost var was := view;
      ops, lapsed, due := MakeReady(t1, t2, t3);
      claimed, k := TakeFirst(Requested(queues), token, t3 + lease);
      if claimed.Some? {
        var pop := Pop(Requested(queues)[k], token, t3 + lease);
        RunSnoc(was, ops, pop);
        OwnId(view, AnswerOf(was, ops + [pop]).id);
        ops := ops + [pop];
      }
    }

    method Ack(id: Uuid, token: Uuid) returns (answer: Answer)
      requires Valid()
      modifies this
      ensures Valid()
      ensures Reply(view, answer) == Settling(old(view), id, token, How.Ack)
    {
      hide Inv;
      if id in inFlight && inFlight[id].token == token {
        ghost var e := view.jobs[id].(place := Acked);
        ghost var n := Settling(view, id, token, How.Ack).next;
        SettleKeepsInv(view, id, token, How.Ack);
        PendingStays(pending, view, n, id, e);
        DeadStays(dead, view, n, id, e);
        DelayedStays(delayed, view.jobs, id, e);
        inFlight := inFlight - {id};
        view := n;
        answer := Settled;
        hide PendingOk, DeadOk, DelayedOk;
      } else {
        answer := JobNotFound;
      }
    }

    method Nack(id: Uuid, token: Uuid, delay: nat, now: Time) returns (answer: Answer)
      requires Valid()
      modifies this
      ensures Valid()
      // A job put aside joins the end of the delayed ones.
      ensures if answer.Settled? && delay > 0
              then |delayed| == |old(delayed)| + 1 && old(delayed) <= delayed
                   && delayed[|old(delayed)|].due == now + delay && delayed[|old(delayed)|].job.id == id
              else delayed == old(delayed)
      ensures Reply(view, answer) == Settling(old(view), id, token,
                Retry(if delay == 0 then None else Some(now + delay)))
    {
      hide Inv;
      if !(id in inFlight && inFlight[id].token == token) {
        return JobNotFound;
      }
      var job := inFlight[id].job;
      if delay == 0 {
        FlightRequeued(pending, inFlight, delayed, dead, idempotency, view, id);
        inFlight := inFlight - {id};
        pending := Append(pending, job.queue, job);
        view := Requeue(view, id);
        hide PendingOk, DeadOk, DelayedOk;
      } else {
        ghost var how := Retry(Some(now + delay));
        ghost var e := view.jobs[id].(place := Delayed(now + delay));
        ghost var n := Settling(view, id, token, how).next;
        SettleKeepsInv(view, id, token, how);
        OwnId(view, id);
        PendingStays(pending, view, n, id, e);
        DeadStays(dead, view, n, id, e);
        DelayedGrows(delayed, view.jobs, id, e);
        inFlight := inFlight - {id};
        delayed := delayed + [Later(now + delay, job)];
        view := n;
        hide PendingOk, DeadOk, DelayedOk;
      }
      answer := Settled;
    }

    method DeadLetter(id: Uuid, token: Uuid, reason: string) returns (answer: Answer)
      requires Valid()
      modifies this
      ensures Valid()
      ensures Reply(view, answer) == Settling(old(view), id, token, Bury(reason))
    {
      hide Inv;
      if !(id in inFlight && inFlight[id].token == token) {
        return JobNotFound;
      }
      var job := inFlight[id].job;
      ghost var e := view.jobs[id].(place := Dead(reason));
      ghost var n := Settling(view, id, token, Bury(reason)).next;
      SettleKeepsInv(view, id, token, Bury(reason));
      PendingStays(pending, view, n, id, e);
      DeadGrows(dead, view, id, e);
      DelayedStays(delayed, view.jobs, id, e);
      inFlight := inFlight - {id};
      dead := Append(dead, job.queue, Letter(job, reason));
      view := n;
      answer := Settled;
      hide PendingOk, DeadOk, DelayedOk;
    }

    method ListDead(queue: string) returns (letters: seq<Letter>)
      requires Valid()
      ensures |letters| == |At(view.dead, queue)|
      ensures forall i | 0 <= i < |letters| ::
                var id := At(view.dead, queue)[i];
                && id in view.jobs && view.jobs[id].place == Dead(letters[i].reason)
                && SameJob(letters[i].job, view.jobs[id].job)
                && letters[i].job.attempts == Min(view.jobs[id].count, U32_MAX)
    {
      letters := At(dead, queue);
    }
  }
}
