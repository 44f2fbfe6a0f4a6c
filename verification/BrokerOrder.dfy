/** When and in which order jobs are handed out, and what producers may rely on. */
module BrokerOrder {
  import opened Jobs
  import opened BrokerSpec
  import opened BrokerHistory

  // ---------------------------------------------------------------- leases and delays

  /** Some operation of the run settled the job with the token. */
  predicate SettledBy(s: State, ops: seq<Op>, id: Uuid, token: Uuid) {
    ops != [] &&
    (SettledBy(s, Front(ops), id, token)
     || (Last(ops).Settle? && Last(ops).id == id && Last(ops).token == token && AnswerOf(s, ops).Settled?))
  }

  /** A claimed job stays put until it is settled with its token or recovered after its expiry. */
  lemma StepHonoursLease(s: State, op: Op, id: Uuid)
    requires Inv(s) && Legal(s, op) && id in s.jobs && s.jobs[id].place.InFlight?
    ensures var r := Apply(s, op);
            id in r.next.jobs &&
            (|| r.next.jobs[id] == s.jobs[id]
             || (op.Settle? && op.id == id && op.token == s.jobs[id].place.token && r.answer.Settled?)
             || s.jobs[id].place.expiry <= s.clock)
  {
    hide Inv;
    match op
    case Recover(_, order) => RequeueAllKeepsInv(s, order);
    case Promote(_, order) => RequeueAllKeepsInv(s, order);
    case Pop(queue, _, _) => if At(s.pending, queue) != [] { Listed(s, queue, At(s.pending, queue)[0]); }
    case Tick(_) =>
    case Enqueue(_, _) =>
    case Settle(_, _, _) =>
  }

  lemma {:induction false} RunHonoursLease(s: State, ops: seq<Op>, id: Uuid)
    requires Inv(s) && LegalRun(s, ops) && id in s.jobs && s.jobs[id].place.InFlight?
    ensures var n := After(s, ops);
            id in n.jobs &&
            (|| n.jobs[id] == s.jobs[id]
             || SettledBy(s, ops, id, s.jobs[id].place.token)
             || s.jobs[id].place.expiry <= n.clock)
  {
    hide Inv, Legal, Apply;
    RunPreserves(s, ops);
    if ops != [] {
      RunHonoursLease(s, Front(ops), id);
      RunKeepsInv(s, Front(ops));
      var m := After(s, Front(ops));
      StepPreserves(m, Last(ops));
      if m.jobs[id] == s.jobs[id] {
        StepHonoursLease(m, Last(ops), id);
      }
    }
  }

  /** No second claim of a job before its recorded expiry, unless the first was settled. */
  lemma NoSecondClaimBeforeExpiry(s: State, ops: seq<Op>, queue: string, token: Uuid, expiry: Time, id: Uuid)
    requires Inv(s) && LegalRun(s, ops) && id in s.jobs && s.jobs[id].place.InFlight?
    requires var answer := AnswerOf(s, ops + [Pop(queue, token, expiry)]); answer.Claimed? && answer.id == id
    ensures SettledBy(s, ops, id, s.jobs[id].place.token) || s.jobs[id].place.expiry <= After(s, ops).clock
  {
    hide Inv;
    assert Front(ops + [Pop(queue, token, expiry)]) == ops;
    RunHonoursLease(s, ops, id);
    RunKeepsInv(s, ops);
    Listed(After(s, ops), queue, id);
  }

  lemma StepHonoursDelay(s: State, op: Op, id: Uuid)
    requires Inv(s) && Legal(s, op) && id in s.jobs && s.jobs[id].place.Delayed?
    ensures var r := Apply(s, op);
            id in r.next.jobs && (r.next.jobs[id] == s.jobs[id] || s.jobs[id].place.due <= s.clock)
  {
    hide Inv;
    match op
    case Recover(_, order) => RequeueAllKeepsInv(s, order);
    case Promote(_, order) => RequeueAllKeepsInv(s, order);
    case Pop(queue, _, _) => if At(s.pending, queue) != [] { Listed(s, queue, At(s.pending, queue)[0]); }
    case Tick(_) =>
    case Enqueue(_, _) =>
    case Settle(_, _, _) =>
  }

  lemma {:induction false} RunHonoursDelay(s: State, ops: seq<Op>, id: Uuid)
    requires Inv(s) && LegalRun(s, ops) && id in s.jobs && s.jobs[id].place.Delayed?
    ensures var n := After(s, ops);
            id in n.jobs && (n.jobs[id] == s.jobs[id] || s.jobs[id].place.due <= n.clock)
  {
    hide Inv, Legal, Apply;
    RunPreserves(s, ops);
    if ops != [] {
      RunHonoursDelay(s, Front(ops), id);
      RunKeepsInv(s, Front(ops));
      var m := After(s, Front(ops));
      StepPreserves(m, Last(ops));
      if m.jobs[id] == s.jobs[id] {
        StepHonoursDelay(m, Last(ops), id);
      }
    }
  }

  /** A job put aside by a retry is not claimed before its recorded due time. */
  lemma NoClaimBeforeDue(s: State, ops: seq<Op>, queue: string, token: Uuid, expiry: Time, id: Uuid)
    requires Inv(s) && LegalRun(s, ops) && id in s.jobs && s.jobs[id].place.Delayed?
    requires var answer := AnswerOf(s, ops + [Pop(queue, token, expiry)]); answer.Claimed? && answer.id == id
    ensures s.jobs[id].place.due <= After(s, ops).clock
  {
    hide Inv;
    assert Front(ops + [Pop(queue, token, expiry)]) == ops;
    RunHonoursDelay(s, ops, id);
    RunKeepsInv(s, ops);
    Listed(After(s, ops), queue, id);
  }

  /** The claim numbers of a job go up, through lapses, retries and all else. */
  lemma ClaimNumbersIncrease(s: State, ops: seq<Op>, queue: string, token: Uuid, expiry: Time, id: Uuid)
    requires Inv(s) && LegalRun(s, ops) && id in s.jobs
    requires var answer := AnswerOf(s, ops + [Pop(queue, token, expiry)]); answer.Claimed? && answer.id == id
    ensures AnswerOf(s, ops + [Pop(queue, token, expiry)]).count == After(s, ops).jobs[id].count + 1 > s.jobs[id].count
  {
    hide Inv;
    assert Front(ops + [Pop(queue, token, expiry)]) == ops;
    RunPreserves(s, ops);
  }

  /** The number of claims of a job that a run grants. */
  function ClaimsOf(s: State, ops: seq<Op>, id: Uuid): nat {
    if ops == [] then 0
    else
      var answer := AnswerOf(s, ops);
      ClaimsOf(s, Front(ops), id) + One(answer.Claimed? && answer.id == id)
  }

  lemma StepCountsClaims(s: State, op: Op, id: Uuid)
    requires Inv(s) && Legal(s, op) && id in s.jobs
    ensures var r := Apply(s, op);
            id in r.next.jobs && r.next.jobs[id].count == s.jobs[id].count + One(r.answer.Claimed? && r.answer.id == id)
  {
    hide Inv;
    match op
    case Recover(_, order) => RequeueAllKeepsInv(s, order);
    case Promote(_, order) => RequeueAllKeepsInv(s, order);
    case Pop(queue, token, expiry) => PopTakes(s, queue, token, expiry); hide Popping;
    case Enqueue(job, start) => EnqueueStores(s, job, start); hide Enqueueing;
    case Tick(_) =>
    case Settle(i, token, how) => SettleMoves(s, i, token, how); hide Settling;
  }

  /** The claim count is the starting count and the claims granted since. */
  lemma {:induction false} CountIsClaims(s: State, ops: seq<Op>, id: Uuid)
    requires Inv(s) && LegalRun(s, ops) && id in s.jobs
    ensures id in After(s, ops).jobs && After(s, ops).jobs[id].count == s.jobs[id].count + ClaimsOf(s, ops, id)
  {
    hide Inv, Legal, Apply;
    if ops != [] {
      CountIsClaims(s, Front(ops), id);
      RunKeepsInv(s, Front(ops));
      StepCountsClaims(After(s, Front(ops)), Last(ops), id);
    }
  }

  /** From enqueue to claim: whatever happens in between, a claim of an accepted job hands out the very
      job that was enqueued, from its own queue, numbered by the claims granted before it. */
  lemma EnqueuedJobIsClaimed(s: State, job: Job, start: nat, ops: seq<Op>, queue: string, token: Uuid, expiry: Time)
    requires Inv(s) && Legal(s, Enqueue(job, start)) && !BlankKey(job) && !SeenKey(s, job)
    requires LegalRun(Apply(s, Enqueue(job, start)).next, ops + [Pop(queue, token, expiry)])
    requires var answer := AnswerOf(Apply(s, Enqueue(job, start)).next, ops + [Pop(queue, token, expiry)]);
             answer.Claimed? && answer.id == job.id
    ensures var r, run := Apply(s, Enqueue(job, start)), ops + [Pop(queue, token, expiry)];
            && r.answer == Accepted(job.id) && queue == job.queue
            && After(r.next, run).jobs[job.id].job == job
            && After(r.next, run).jobs[job.id].place == InFlight(token, expiry)
            && AnswerOf(r.next, run) == Claimed(job.id, token, start + ClaimsOf(r.next, ops, job.id) + 1)
  {
    hide Inv, Legal;
    var n, pop := Apply(s, Enqueue(job, start)).next, Pop(queue, token, expiry);
    assert Front(ops + [pop]) == ops;
    ApplyKeepsInv(s, Enqueue(job, start));
    EnqueueStores(s, job, start);
    RunSnoc(n, ops, pop);
    RunPreserves(n, ops);
    RunKeepsInv(n, ops);
    CountIsClaims(n, ops, job.id);
    PopTakes(After(n, ops), queue, token, expiry);
    Listed(After(n, ops), queue, job.id);
    hide Apply, Enqueueing, Popping;
  }

  // ---------------------------------------------------------------- order within a queue

  /** The number of jobs the run takes from a queue. */
  function ClaimsFrom(s: State, ops: seq<Op>, q: string): nat {
    if ops == [] then 0
    else ClaimsFrom(s, Front(ops), q) + One(Last(ops).Pop? && Last(ops).queue == q && AnswerOf(s, ops).Claimed?)
  }

  lemma StepKeepsOrder(s: State, op: Op, q: string)
    requires Inv(s) && Legal(s, op)
    ensures var r := Apply(s, op);
            if op.Pop? && op.queue == q && r.answer.Claimed?
            then At(s.pending, q) == [r.answer.id] + At(r.next.pending, q)
            else At(s.pending, q) <= At(r.next.pending, q)
  {
    hide Inv;
    match op
    case Recover(_, order) => RequeueAllKeepsInv(s, order);
    case Promote(_, order) => RequeueAllKeepsInv(s, order);
    case Pop(queue, _, _) =>
    case Tick(_) =>
    case Enqueue(_, _) =>
    case Settle(_, _, _) =>
  }

  /** First in, first out: the job with i jobs ahead of it has i - n ahead after n claims. */
  lemma {:induction false} NeverOvertaken(s: State, ops: seq<Op>, q: string, i: nat)
    requires Inv(s) && LegalRun(s, ops) && i < |At(s.pending, q)|
    requires ClaimsFrom(s, ops, q) <= i
    ensures var n := ClaimsFrom(s, ops, q);
            i - n < |At(After(s, ops).pending, q)| && At(After(s, ops).pending, q)[i - n] == At(s.pending, q)[i]
  {
    hide Inv, Legal, Apply;
    if ops != [] {
      NeverOvertaken(s, Front(ops), q, i);
      RunKeepsInv(s, Front(ops));
      StepKeepsOrder(After(s, Front(ops)), Last(ops), q);
    }
  }

  /** The job with i jobs ahead of it is the one that the (i+1)-th successful claim returns. */
  lemma NextClaimReturns(s: State, ops: seq<Op>, q: string, i: nat, token: Uuid, expiry: Time)
    requires Inv(s) && i < |At(s.pending, q)| && ClaimsFrom(s, ops, q) == i
    requires LegalRun(s, ops + [Pop(q, token, expiry)])
    ensures var answer := AnswerOf(s, ops + [Pop(q, token, expiry)]);
            answer.Claimed? && answer.id == At(s.pending, q)[i] && answer.token == token
  {
    hide Inv;
    assert Front(ops + [Pop(q, token, expiry)]) == ops;
    NeverOvertaken(s, ops, q, i);
    RunKeepsInv(s, ops);
    Listed(After(s, ops), q, At(s.pending, q)[i]);
  }

  // ---------------------------------------------------------------- progress

  /** What a claim pass that reads the clock at t1 and then at t2 can hand out. */
  predicate Claimable(e: Entry, t1: Time, t2: Time) {
    e.place.Pending? || Lapsed(e, t1) || IsDue(e, t2)
  }

  /** Recovering and then promoting makes exactly the claimable jobs ready, each in its own queue. */
  lemma PassMakesReady(s: State, t1: Time, lapsed: seq<Uuid>, t2: Time, due: seq<Uuid>, id: Uuid)
    requires Inv(s) && ListsLapsed(s, t1, lapsed) && ListsDue(RequeueAll(s, lapsed), t2, due)
    ensures var n := RequeueAll(RequeueAll(s, lapsed), due);
            && Inv(n) && n.issued == s.issued && n.clock == s.clock
            && (forall q :: id in At(n.pending, q) <==>
                  id in s.jobs && s.jobs[id].job.queue == q && Claimable(s.jobs[id], t1, t2))
  {
    hide Inv;
    RequeueAllKeepsInv(s, lapsed);
    var m := RequeueAll(s, lapsed);
    RequeueAllKeepsInv(m, due);
    var n := RequeueAll(m, due);
    hide RequeueAll, NoDup;
    forall q
      ensures id in At(n.pending, q) <==> id in n.jobs && n.jobs[id].place.Pending? && n.jobs[id].job.queue == q
    {
      Listed(n, q, id);
    }
  }

  function Pops(q: string, tokens: seq<Uuid>, expiry: Time): seq<Op> {
    if tokens == [] then [] else Pops(q, Front(tokens), expiry) + [Pop(q, Last(tokens), expiry)]
  }

  /** Claiming with new tokens is always possible and, while jobs are ready, always succeeds. */
  lemma {:induction false} PopsSucceed(s: State, q: string, tokens: seq<Uuid>, expiry: Time)
    requires Inv(s) && NoDup(tokens) && (forall t | t in tokens :: t !in s.issued)
    requires |tokens| <= |At(s.pending, q)|
    ensures LegalRun(s, Pops(q, tokens, expiry))
    ensures ClaimsFrom(s, Pops(q, tokens, expiry), q) == |tokens|
    ensures forall t :: t in After(s, Pops(q, tokens, expiry)).issued <==> t in s.issued || t in tokens
  {
    hide Inv, NoDup;
    if tokens != [] {
      NoDupFront(tokens);
      PopsSucceed(s, q, Front(tokens), expiry);
      var ops := Pops(q, Front(tokens), expiry);
      assert Front(ops + [Pop(q, Last(tokens), expiry)]) == ops;
      NextClaimReturns(s, ops, q, |tokens| - 1, Last(tokens), expiry);
    }
  }

  /** At-least-once delivery, bounded: a ready job is handed out by as many claims as there are
      jobs up to and including it. */
  lemma ReadyJobIsHandedOut(s: State, q: string, id: Uuid, i: nat, tokens: seq<Uuid>, expiry: Time)
    requires Inv(s) && i < |At(s.pending, q)| && At(s.pending, q)[i] == id
    requires |tokens| == i + 1 && NoDup(tokens) && (forall t | t in tokens :: t !in s.issued)
    ensures LegalRun(s, Pops(q, tokens, expiry))
    ensures AnswerOf(s, Pops(q, tokens, expiry)).Claimed? && AnswerOf(s, Pops(q, tokens, expiry)).id == id
  {
    hide Inv, NoDup;
    var front := Front(tokens);
    NoDupFront(tokens);
    PopsSucceed(s, q, front, expiry);
    PopsSucceed(s, q, tokens, expiry);
    NextClaimReturns(s, Pops(q, front, expiry), q, i, Last(tokens), expiry);
  }

  /** The operations of one claim pass: recover at t1, promote at t2, claim from t3 on. */
  function ClaimPass(t1: Time, lapsed: seq<Uuid>, t2: Time, due: seq<Uuid>, t3: Time): seq<Op> {
    [Tick(t1), Recover(t1, lapsed), Tick(t2), Promote(t2, due), Tick(t3)]
  }

  lemma PassIsRun(s: State, t1: Time, lapsed: seq<Uuid>, t2: Time, due: seq<Uuid>, t3: Time)
    requires s.clock <= t1 <= t2 <= t3
    requires Inv(s) && ListsLapsed(s, t1, lapsed) && ListsDue(RequeueAll(s, lapsed), t2, due)
    ensures LegalRun(s, ClaimPass(t1, lapsed, t2, due, t3))
    ensures After(s, ClaimPass(t1, lapsed, t2, due, t3)) == RequeueAll(RequeueAll(s, lapsed), due).(clock := t3)
  {
    hide Inv, NoDup;
    var pass := ClaimPass(t1, lapsed, t2, due, t3);
    var a := s.(clock := t1);
    RequeueAllIgnoresClock(s, lapsed, t1);
    var b := RequeueAll(s, lapsed).(clock := t1);
    RequeueAllIgnoresClock(RequeueAll(s, lapsed), due, t2);
    var c := RequeueAll(RequeueAll(s, lapsed), due).(clock := t2);
    assert ListsLapsed(a, t1, lapsed) && ListsDue(b.(clock := t2), t2, due);
    hide RequeueAll, ListsLapsed, ListsDue;
    RunSnoc(s, [], Tick(t1));
    RunSnoc(s, pass[..1], Recover(t1, lapsed));
    RunSnoc(s, pass[..2], Tick(t2));
    RunSnoc(s, pass[..3], Promote(t2, due));
    RunSnoc(s, pass[..4], Tick(t3));
    assert pass[..1] == [] + [Tick(t1)] && pass[..2] == pass[..1] + [Recover(t1, lapsed)]
        && pass[..3] == pass[..2] + [Tick(t2)];
    assert pass[..4] == pass[..3] + [Promote(t2, due)] && pass == pass[..4] + [Tick(t3)];
  }

  /** Every unsettled job is delivered: once time has passed its lease or its due time, the next pass
      and as many claims as its ready list is long hand it out. */
  lemma UnsettledJobIsHandedOut(s: State, t: Time, lapsed: seq<Uuid>, due: seq<Uuid>, id: Uuid, tokens: seq<Uuid>,
      expiry: Time)
    returns (i: nat)
    requires Inv(s) && s.clock <= t && ListsLapsed(s, t, lapsed) && ListsDue(RequeueAll(s, lapsed), t, due)
    requires id in s.jobs && Claimable(s.jobs[id], t, t)
    requires NoDup(tokens) && (forall u | u in tokens :: u !in s.issued)
    requires |tokens| == |At(RequeueAll(RequeueAll(s, lapsed), due).pending, s.jobs[id].job.queue)|
    ensures i < |tokens|
    ensures var run := ClaimPass(t, lapsed, t, due, t) + Pops(s.jobs[id].job.queue, tokens[..i + 1], expiry);
            LegalRun(s, run) && AnswerOf(s, run).Claimed? && AnswerOf(s, run).id == id
  {
    hide Inv, ListsLapsed, ListsDue, RequeueAll, LegalRun, ClaimPass;
    var q := s.jobs[id].job.queue;
    var n := RequeueAll(RequeueAll(s, lapsed), due).(clock := t);
    PassMakesReady(s, t, lapsed, t, due, id);
    PassIsRun(s, t, lapsed, t, due, t);
    assert id in At(n.pending, q);
    i :| 0 <= i < |At(n.pending, q)| && At(n.pending, q)[i] == id;
    InvIgnoresClock(RequeueAll(RequeueAll(s, lapsed), due), t);
    ReadyJobIsHandedOut(n, q, id, i, tokens[..i + 1], expiry);
    PopsNonempty(q, tokens[..i + 1], expiry);
    RunConcat(s, ClaimPass(t, lapsed, t, due, t), Pops(q, tokens[..i + 1], expiry));
  }

  lemma InvIgnoresClock(s: State, t: Time)
    ensures Inv(s.(clock := t)) <==> Inv(s)
  {
  }

  lemma PopsNonempty(q: string, tokens: seq<Uuid>, expiry: Time)
    requires tokens != []
    ensures Pops(q, tokens, expiry) != []
  {
  }

  // ---------------------------------------------------------------- producer keys

  /** Two accepted enqueues with one key name the same job, whatever happens in between. */
  lemma OneIdPerKey(s: State, first: Job, start1: nat, between: seq<Op>, second: Job, start2: nat)
    requires Inv(s) && Legal(s, Enqueue(first, start1))
    requires LegalRun(Apply(s, Enqueue(first, start1)).next, between)
    requires first.key.Some? && first.key == second.key && !BlankKey(first)
    ensures var r := Apply(s, Enqueue(first, start1));
            var later := After(r.next, between);
            && Apply(later, Enqueue(second, start2)) == Reply(later, r.answer)
            && r.answer.Accepted?
  {
    hide Inv;
    var r := Apply(s, Enqueue(first, start1));
    ApplyKeepsInv(s, Enqueue(first, start1));
    RunPreserves(r.next, between);
  }

  /** A key names at most one of all the jobs ever accepted. */
  lemma OneJobPerKey(s: State, a: Uuid, b: Uuid)
    requires Inv(s) && a in s.jobs && b in s.jobs
    requires s.jobs[a].job.key.Some? && s.jobs[a].job.key == s.jobs[b].job.key
    ensures a == b
  {
    assert Accepts(s.jobs)[a] == s.jobs[a].job && Accepts(s.jobs)[b] == s.jobs[b].job;
  }
}
