/** The delivery contract that both brokers implement: every accepted job is one entry with one
    place, and the ready and dead jobs of a queue are kept in order. */
module BrokerSpec {
  import opened Jobs

  type Time = nat

  datatype Place =
    | Pending
    | InFlight(token: Uuid, expiry: Time)
    | Delayed(due: Time)
    | Dead(reason: string)
    | Acked

  /** `count` is the number of the job's latest claim. */
  datatype Entry = Entry(job: Job, count: nat, place: Place)

  /** `issued` records every token handed out and the job it was handed out for. */
  datatype State = State(
    jobs: map<Uuid, Entry>,
    pending: map<string, seq<Uuid>>,
    dead: map<string, seq<Uuid>>,
    keys: map<string, Uuid>,
    issued: map<Uuid, Uuid>,
    clock: Time)

  /** The three ways to settle a claim; a retry without a due time is ready at once. */
  datatype How = Ack | Retry(due: Option<Time>) | Bury(reason: string)

  datatype Op =
    | Tick(to: Time)
    | Enqueue(job: Job, start: nat)
    | Recover(now: Time, order: seq<Uuid>)
    | Promote(now: Time, order: seq<Uuid>)
    | Pop(queue: string, token: Uuid, expiry: Time)
    | Settle(id: Uuid, token: Uuid, how: How)

  datatype Answer =
    | Silent
    | Accepted(id: Uuid)
    | EmptyKey
    | Nothing
    | Claimed(id: Uuid, token: Uuid, count: nat)
    | Settled
    | JobNotFound

  datatype Letter = Letter(job: Job, reason: string)

  datatype Reply = Reply(next: State, answer: Answer)

  const EMPTY := State(map[], map[], map[], map[], map[], 0)

  // ---------------------------------------------------------------- operations

  predicate Owns(s: State, id: Uuid, token: Uuid) {
    id in s.jobs && s.jobs[id].place.InFlight? && s.jobs[id].place.token == token
  }

  predicate BlankKey(job: Job) {
    job.key.Some? && IsBlank(job.key.value)
  }

  predicate SeenKey(s: State, job: Job) {
    job.key.Some? && job.key.value in s.keys
  }

  function Accept(s: State, job: Job, start: nat): State {
    s.(jobs := s.jobs[job.id := Entry(job, start, Pending)],
       pending := Append(s.pending, job.queue, job.id),
       keys := if job.key.Some? then s.keys[job.key.value := job.id] else s.keys)
  }

  function Enqueueing(s: State, job: Job, start: nat): Reply {
    if BlankKey(job) then Reply(s, EmptyKey)
    else if SeenKey(s, job) then Reply(s, Accepted(s.keys[job.key.value]))
    else Reply(Accept(s, job, start), Accepted(job.id))
  }

  /** Back to the end of the job's ready queue. */
  function Requeue(s: State, id: Uuid): State {
    if id !in s.jobs then s
    else s.(jobs := s.jobs[id := s.jobs[id].(place := Pending)],
            pending := Append(s.pending, s.jobs[id].job.queue, id))
  }

  function RequeueAll(s: State, ids: seq<Uuid>): State {
    if ids == [] then s else Requeue(RequeueAll(s, ids[..|ids| - 1]), ids[|ids| - 1])
  }

  function Popping(s: State, queue: string, token: Uuid, expiry: Time): Reply {
    var ready := At(s.pending, queue);
    if ready == [] || ready[0] !in s.jobs then Reply(s, Nothing)
    else
      var id := ready[0];
      var e := s.jobs[id];
      Reply(s.(jobs := s.jobs[id := e.(count := e.count + 1, place := InFlight(token, expiry))],
               pending := s.pending[queue := ready[1..]],
               issued := s.issued[token := id]),
            Claimed(id, token, e.count + 1))
  }

  function Settling(s: State, id: Uuid, token: Uuid, how: How): Reply {
    if !Owns(s, id, token) then Reply(s, JobNotFound)
    else
      var e := s.jobs[id];
      match how
      case Ack => Reply(s.(jobs := s.jobs[id := e.(place := Acked)]), Settled)
      case Retry(None) => Reply(Requeue(s, id), Settled)
      case Retry(Some(due)) => Reply(s.(jobs := s.jobs[id := e.(place := Delayed(due))]), Settled)
      case Bury(reason) =>
        Reply(s.(jobs := s.jobs[id := e.(place := Dead(reason))], dead := Append(s.dead, e.job.queue, id)), Settled)
  }

  function Apply(s: State, op: Op): Reply {
    match op
    case Tick(to) => Reply(s.(clock := to), Silent)
    case Enqueue(job, start) => Enqueueing(s, job, start)
    case Recover(_, order) => Reply(RequeueAll(s, order), Silent)
    case Promote(_, order) => Reply(RequeueAll(s, order), Silent)
    case Pop(queue, token, expiry) => Popping(s, queue, token, expiry)
    case Settle(id, token, how) => Settling(s, id, token, how)
  }

  // ---------------------------------------------------------------- which operations may occur

  predicate Lapsed(e: Entry, now: Time) {
    e.place.InFlight? && e.place.expiry <= now
  }

  predicate IsDue(e: Entry, now: Time) {
    e.place.Delayed? && e.place.due <= now
  }

  /** `order` lists the jobs whose lease has lapsed, each once, in any order. */
  predicate ListsLapsed(s: State, now: Time, order: seq<Uuid>) {
    && NoDup(order)
    && (forall id | id in order :: id in s.jobs && Lapsed(s.jobs[id], now))
    && (forall id | id in s.jobs && Lapsed(s.jobs[id], now) :: id in order)
  }

  predicate ListsDue(s: State, now: Time, order: seq<Uuid>) {
    && NoDup(order)
    && (forall id | id in order :: id in s.jobs && IsDue(s.jobs[id], now))
    && (forall id | id in s.jobs && IsDue(s.jobs[id], now) :: id in order)
  }

  /** The hypotheses on the environment: the clock never goes back and is read before it is used,
      a newly accepted job has a new id, and every claim draws a new token. */
  predicate Legal(s: State, op: Op) {
    match op
    case Tick(to) => s.clock <= to
    case Enqueue(job, _) => job.id !in s.jobs || BlankKey(job) || SeenKey(s, job)
    case Recover(now, order) => now <= s.clock && ListsLapsed(s, now, order)
    case Promote(now, order) => now <= s.clock && ListsDue(s, now, order)
    case Pop(_, token, _) => token !in s.issued
    case Settle(_, _, _) => true
  }

  // ---------------------------------------------------------------- invariant

  /** The lists hold exactly the ids of `home`, each once, and each in the list that `home` names. */
  ghost predicate Files(lists: map<string, seq<Uuid>>, home: map<Uuid, string>) {
    && (forall q :: NoDup(At(lists, q)))
    && (forall q, id | id in At(lists, q) :: id in home && home[id] == q)
    && (forall id | id in home :: id in At(lists, home[id]))
  }

  /** The pending jobs and their queues. */
  ghost function ReadyHome(jobs: map<Uuid, Entry>): map<Uuid, string> {
    map id | id in jobs && jobs[id].place.Pending? :: jobs[id].job.queue
  }

  /** The dead-lettered jobs and their queues. */
  ghost function DeadHome(jobs: map<Uuid, Entry>): map<Uuid, string> {
    map id | id in jobs && jobs[id].place.Dead? :: jobs[id].job.queue
  }

  /** The accepted jobs, which no operation changes. */
  ghost function Accepts(jobs: map<Uuid, Entry>): map<Uuid, Job> {
    map id | id in jobs :: jobs[id].job
  }

  /** A token in flight was issued for the very job that carries it. */
  ghost predicate Tokens(jobs: map<Uuid, Entry>, issued: map<Uuid, Uuid>) {
    forall id | id in jobs && jobs[id].place.InFlight? ::
      jobs[id].place.token in issued && issued[jobs[id].place.token] == id
  }

  /** Jobs are filed under their own id, and the key map and the keyed jobs determine each other. */
  ghost predicate KeysAgree(accepted: map<Uuid, Job>, keys: map<string, Uuid>) {
    && (forall id | id in accepted :: accepted[id].id == id)
    && (forall k | k in keys :: keys[k] in accepted && accepted[keys[k]].key == Some(k))
    && (forall id | id in accepted && accepted[id].key.Some? ::
          accepted[id].key.value in keys && keys[accepted[id].key.value] == id)
  }

  ghost predicate Inv(s: State) {
    && KeysAgree(Accepts(s.jobs), s.keys)
    && Files(s.pending, ReadyHome(s.jobs))
    && Files(s.dead, DeadHome(s.jobs))
    && Tokens(s.jobs, s.issued)
  }

  /** Membership in the two families of lists, job by job. */
  lemma Listed(s: State, q: string, id: Uuid)
    requires Inv(s)
    ensures id in At(s.pending, q) <==> id in s.jobs && s.jobs[id].place.Pending? && s.jobs[id].job.queue == q
    ensures id in At(s.dead, q) <==> id in s.jobs && s.jobs[id].place.Dead? && s.jobs[id].job.queue == q
  {
    assert id in At(s.pending, q) <==> id in ReadyHome(s.jobs) && ReadyHome(s.jobs)[id] == q;
    assert id in At(s.dead, q) <==> id in DeadHome(s.jobs) && DeadHome(s.jobs)[id] == q;
  }

  lemma TokenIsIssued(s: State, id: Uuid, token: Uuid)
    requires Inv(s) && Owns(s, id, token)
    ensures token in s.issued && s.issued[token] == id
  {
  }

  /** What rewriting one entry does to the three projections. */
  lemma Projections(jobs: map<Uuid, Entry>, id: Uuid, e: Entry)
    ensures Accepts(jobs[id := e]) == Accepts(jobs)[id := e.job]
    ensures ReadyHome(jobs[id := e]) ==
            if e.place.Pending? then ReadyHome(jobs)[id := e.job.queue] else ReadyHome(jobs) - {id}
    ensures DeadHome(jobs[id := e]) ==
            if e.place.Dead? then DeadHome(jobs)[id := e.job.queue] else DeadHome(jobs) - {id}
  {
    if e.place.Pending? {
      assert ReadyHome(jobs[id := e]) == ReadyHome(jobs)[id := e.job.queue];
    } else {
      assert ReadyHome(jobs[id := e]) == ReadyHome(jobs) - {id};
    }
    hide ReadyHome;
    if e.place.Dead? {
      assert DeadHome(jobs[id := e]) == DeadHome(jobs)[id := e.job.queue];
    } else {
      assert DeadHome(jobs[id := e]) == DeadHome(jobs) - {id};
    }
    hide DeadHome;
  }

  /** Rewriting the place of one entry keeps the jobs, and leaves a list alone that the job neither
      leaves nor enters. */
  lemma Replace(jobs: map<Uuid, Entry>, id: Uuid, e: Entry)
    requires id in jobs && e.job == jobs[id].job
    ensures Accepts(jobs[id := e]) == Accepts(jobs)
    ensures id in ReadyHome(jobs) <==> jobs[id].place.Pending?
    ensures id in DeadHome(jobs) <==> jobs[id].place.Dead?
    ensures !jobs[id].place.Pending? && !e.place.Pending? ==> ReadyHome(jobs[id := e]) == ReadyHome(jobs)
    ensures !jobs[id].place.Dead? && !e.place.Dead? ==> DeadHome(jobs[id := e]) == DeadHome(jobs)
  {
  }

  lemma EmptyInv()
    ensures Inv(EMPTY)
  {
  }

  lemma FilesAppend(lists: map<string, seq<Uuid>>, home: map<Uuid, string>, q: string, id: Uuid)
    requires Files(lists, home) && id !in home
    ensures Files(Append(lists, q, id), home[id := q])
  {
    var n := Append(lists, q, id);
    assert id !in At(lists, q);
    forall p ensures NoDup(At(n, p)) {
      assert NoDup(At(lists, p));
      assert At(n, p) == if p == q then At(lists, p) + [id] else At(lists, p);
    }
    forall p, x | x in At(n, p) ensures x in home[id := q] && home[id := q][x] == p {
      assert x in At(lists, p) || (p == q && x == id);
    }
    forall x | x in home && x != id ensures x in At(n, home[x]) {
      assert x in At(lists, home[x]);
    }
  }

  lemma NoDupTail<T>(s: seq<T>)
    requires NoDup(s) && s != []
    ensures NoDup(s[1..]) && s[0] !in s[1..]
    ensures forall x :: x in s <==> x == s[0] || x in s[1..]
  {
    assert s == [s[0]] + s[1..];
  }

  lemma FilesTail(lists: map<string, seq<Uuid>>, home: map<Uuid, string>, q: string)
    requires Files(lists, home) && At(lists, q) != []
    ensures Files(lists[q := At(lists, q)[1..]], home - {At(lists, q)[0]})
  {
    hide NoDup;
    var n, id := lists[q := At(lists, q)[1..]], At(lists, q)[0];
    NoDupTail(At(lists, q));
    forall p
      ensures NoDup(At(n, p))
      ensures forall x :: x in At(n, p) <==> x in At(lists, p) && x != id
    {
      assert NoDup(At(lists, p)) && id in At(lists, q);
      if p != q {
        assert At(n, p) == At(lists, p);
        assert home[id] == q;
      }
    }
    hide At;
  }

  lemma AcceptKeepsKeys(accepted: map<Uuid, Job>, keys: map<string, Uuid>, job: Job)
    requires KeysAgree(accepted, keys) && job.id !in accepted
    requires job.key.Some? ==> job.key.value !in keys
    ensures KeysAgree(accepted[job.id := job], if job.key.Some? then keys[job.key.value := job.id] else keys)
  {
  }

  lemma NewJobHasNoHome(jobs: map<Uuid, Entry>, id: Uuid)
    requires id !in jobs
    ensures id !in ReadyHome(jobs) && id !in Accepts(jobs) && DeadHome(jobs) - {id} == DeadHome(jobs)
  {
  }

  lemma EnqueueKeepsInv(s: State, job: Job, start: nat)
    requires Inv(s) && Legal(s, Enqueue(job, start))
    ensures Inv(Enqueueing(s, job, start).next)
  {
    hide Files, KeysAgree, Accepts, ReadyHome, DeadHome;
    if !BlankKey(job) && !SeenKey(s, job) {
      NewJobHasNoHome(s.jobs, job.id);
      Projections(s.jobs, job.id, Entry(job, start, Pending));
      FilesAppend(s.pending, ReadyHome(s.jobs), job.queue, job.id);
      AcceptKeepsKeys(Accepts(s.jobs), s.keys, job);
    }
  }

  lemma RequeueKeepsInv(s: State, id: Uuid)
    requires Inv(s) && id in s.jobs
    requires s.jobs[id].place.InFlight? || s.jobs[id].place.Delayed?
    ensures Inv(Requeue(s, id))
  {
    hide Files, KeysAgree, Accepts, ReadyHome, DeadHome;
    var e := s.jobs[id].(place := Pending);
    Projections(s.jobs, id, e);
    Replace(s.jobs, id, e);
    FilesAppend(s.pending, ReadyHome(s.jobs), e.job.queue, id);
  }

  /** A batch of requeues moves exactly the listed jobs and only extends ready lists. */
  lemma {:induction false} RequeueAllKeepsInv(s: State, ids: seq<Uuid>)
    requires Inv(s) && NoDup(ids)
    requires forall id | id in ids :: id in s.jobs && (s.jobs[id].place.InFlight? || s.jobs[id].place.Delayed?)
    ensures var n := RequeueAll(s, ids);
            && Inv(n)
            && n == s.(jobs := n.jobs, pending := n.pending)
            && n.jobs.Keys == s.jobs.Keys
            && (forall id | id in s.jobs ::
                  n.jobs[id] == if id in ids then s.jobs[id].(place := Pending) else s.jobs[id])
            && (forall q :: At(s.pending, q) <= At(n.pending, q))
  {
    if ids != [] {
      var front, last := ids[..|ids| - 1], ids[|ids| - 1];
      assert ids == front + [last];
      assert last !in front;
      RequeueAllKeepsInv(s, front);
      var m := RequeueAll(s, front);
      RequeueKeepsInv(m, last);
      forall id | id in s.jobs
        ensures RequeueAll(s, ids).jobs[id] == if id in ids then s.jobs[id].(place := Pending) else s.jobs[id]
      {
        assert id in ids <==> id in front || id == last;
      }
    }
  }

  lemma {:induction false} RequeueAllIgnoresClock(s: State, ids: seq<Uuid>, t: Time)
    ensures RequeueAll(s.(clock := t), ids) == RequeueAll(s, ids).(clock := t)
  {
    if ids != [] {
      RequeueAllIgnoresClock(s, ids[..|ids| - 1], t);
    }
  }

  lemma PopKeepsInv(s: State, queue: string, token: Uuid, expiry: Time)
    requires Inv(s) && Legal(s, Pop(queue, token, expiry))
    ensures Inv(Popping(s, queue, token, expiry).next)
    ensures Popping(s, queue, token, expiry).answer.Nothing? <==> At(s.pending, queue) == []
  {
    hide Files, KeysAgree, Accepts, ReadyHome, DeadHome;
    if At(s.pending, queue) != [] {
      var id := At(s.pending, queue)[0];
      Listed(s, queue, id);
      var e := s.jobs[id].(count := s.jobs[id].count + 1, place := InFlight(token, expiry));
      Projections(s.jobs, id, e);
      Replace(s.jobs, id, e);
      FilesTail(s.pending, ReadyHome(s.jobs), queue);
    }
  }

  lemma SettleKeepsInv(s: State, id: Uuid, token: Uuid, how: How)
    requires Inv(s)
    ensures Inv(Settling(s, id, token, how).next)
  {
    hide Files, KeysAgree, Accepts, ReadyHome, DeadHome;
    if Owns(s, id, token) {
      if how == Retry(None) {
        RequeueKeepsInv(s, id);
        return;
      }
      var e := Settling(s, id, token, how).next.jobs[id];
      Projections(s.jobs, id, e);
      Replace(s.jobs, id, e);
      if how.Bury? {
        FilesAppend(s.dead, DeadHome(s.jobs), e.job.queue, id);
      }
    }
  }

  /** Every operation the environment may perform keeps the invariant. */
  lemma ApplyKeepsInv(s: State, op: Op)
    requires Inv(s) && Legal(s, op)
    ensures Inv(Apply(s, op).next)
  {
    match op
    case Tick(_) =>
    case Enqueue(job, start) => EnqueueKeepsInv(s, job, start);
    case Recover(_, order) => RequeueAllKeepsInv(s, order);
    case Promote(_, order) => RequeueAllKeepsInv(s, order);
    case Pop(queue, token, expiry) => PopKeepsInv(s, queue, token, expiry);
    case Settle(id, token, how) => SettleKeepsInv(s, id, token, how);
  }

  // ---------------------------------------------------------------- what an operation changes

  /** The two states agree on all jobs but one. */
  ghost predicate OtherJobsSame(s: State, n: State, id: Uuid) {
    && n.jobs.Keys == s.jobs.Keys + {id}
    && (forall i | i in s.jobs && i != id :: n.jobs[i] == s.jobs[i])
  }

  /** An enqueue is refused for a blank key, answered with the first id for a known key, and otherwise
      stores the very job, not yet claimed, at the end of its own ready list, under its key. */
  lemma EnqueueStores(s: State, job: Job, start: nat)
    ensures var r := Enqueueing(s, job, start);
            if BlankKey(job) then r.next == s && r.answer == EmptyKey
            else if SeenKey(s, job) then r.next == s && r.answer == Accepted(s.keys[job.key.value])
            else
              && r.answer == Accepted(job.id) && OtherJobsSame(s, r.next, job.id)
              && r.next.jobs[job.id].job == job && r.next.jobs[job.id].count == start
              && r.next.jobs[job.id].place == Pending
              && (forall q :: At(r.next.pending, q) ==
                    if q == job.queue then At(s.pending, q) + [job.id] else At(s.pending, q))
              && (job.key.Some? ==> r.next.keys == s.keys[job.key.value := job.id])
              && (job.key.None? ==> r.next.keys == s.keys)
              && r.next.dead == s.dead && r.next.issued == s.issued && r.next.clock == s.clock
  {
  }

  /** A pop records the token and the expiry that it was given, counts the claim, and takes the job off
      the front of its list. */
  lemma PopTakes(s: State, queue: string, token: Uuid, expiry: Time)
    requires Inv(s)
    ensures var r := Popping(s, queue, token, expiry);
            if At(s.pending, queue) == [] then r.next == s && r.answer == Nothing
            else
              var id := At(s.pending, queue)[0];
              && id in s.jobs && r.answer == Claimed(id, token, s.jobs[id].count + 1)
              && OtherJobsSame(s, r.next, id)
              && r.next.jobs[id] == Entry(s.jobs[id].job, s.jobs[id].count + 1, InFlight(token, expiry))
              && (forall q :: At(s.pending, q) ==
                    if q == queue then [id] + At(r.next.pending, q) else At(r.next.pending, q))
              && r.next.issued == s.issued[token := id]
              && r.next.dead == s.dead && r.next.keys == s.keys && r.next.clock == s.clock
  {
    if At(s.pending, queue) != [] {
      Listed(s, queue, At(s.pending, queue)[0]);
    }
    hide Inv;
  }

  /** A settle by the holder gives the job the place asked for; any other changes nothing. */
  lemma SettleMoves(s: State, id: Uuid, token: Uuid, how: How)
    ensures var r := Settling(s, id, token, how);
            if !Owns(s, id, token) then r.next == s && r.answer == JobNotFound
            else
              && r.answer == Settled && OtherJobsSame(s, r.next, id)
              && r.next.jobs[id].job == s.jobs[id].job && r.next.jobs[id].count == s.jobs[id].count
              && (how.Ack? ==> r.next.jobs[id].place == Acked && r.next.pending == s.pending && r.next.dead == s.dead)
              && (how.Bury? ==> r.next.jobs[id].place == Dead(how.reason) && r.next.pending == s.pending)
              && (how.Bury? ==> At(r.next.dead, s.jobs[id].job.queue) == At(s.dead, s.jobs[id].job.queue) + [id])
              && (how.Retry? && how.due.Some? ==>
                    && r.next.jobs[id].place == Delayed(how.due.value)
                    && r.next.pending == s.pending && r.next.dead == s.dead)
              && (how.Retry? && how.due.None? ==>
                    && r.next.jobs[id].place == Pending && r.next.dead == s.dead
                    && At(r.next.pending, s.jobs[id].job.queue) == At(s.pending, s.jobs[id].job.queue) + [id])
              && r.next.issued == s.issued && r.next.keys == s.keys && r.next.clock == s.clock
  {
  }
}
