/** Properties of whole runs of the delivery contract. */
module BrokerHistory {
  import opened Jobs
  import opened BrokerSpec

  function Front<T>(s: seq<T>): seq<T>
    requires s != []
  {
    s[..|s| - 1]
  }

  function Last<T>(s: seq<T>): T
    requires s != []
  {
    s[|s| - 1]
  }

  lemma NoDupFront<T>(s: seq<T>)
    requires NoDup(s) && s != []
    ensures NoDup(Front(s)) && Last(s) !in Front(s)
    ensures forall x :: x in s <==> x in Front(s) || x == Last(s)
  {
    assert s == Front(s) + [Last(s)];
  }

  /** The state after performing the operations in turn. */
  function After(s: State, ops: seq<Op>): State {
    if ops == [] then s else Apply(After(s, Front(ops)), Last(ops)).next
  }

  /** The answer to the last operation of a run. */
  function AnswerOf(s: State, ops: seq<Op>): Answer
    requires ops != []
  {
    Apply(After(s, Front(ops)), Last(ops)).answer
  }

  ghost predicate LegalRun(s: State, ops: seq<Op>) {
    ops == [] || (LegalRun(s, Front(ops)) && Legal(After(s, Front(ops)), Last(ops)))
  }

  lemma RunSnoc(s: State, ops: seq<Op>, op: Op)
    ensures After(s, ops + [op]) == Apply(After(s, ops), op).next
    ensures AnswerOf(s, ops + [op]) == Apply(After(s, ops), op).answer
    ensures LegalRun(s, ops + [op]) <==> LegalRun(s, ops) && Legal(After(s, ops), op)
  {
    assert Front(ops + [op]) == ops;
  }

  lemma {:induction false} RunKeepsInv(s: State, ops: seq<Op>)
    requires Inv(s) && LegalRun(s, ops)
    ensures Inv(After(s, ops))
  {
    hide Inv, Legal, Apply;
    if ops != [] {
      RunKeepsInv(s, Front(ops));
      ApplyKeepsInv(After(s, Front(ops)), Last(ops));
    }
  }

  lemma {:induction false} RunConcat(s: State, a: seq<Op>, b: seq<Op>)
    ensures After(s, a + b) == After(After(s, a), b)
    ensures LegalRun(s, a + b) <==> LegalRun(s, a) && LegalRun(After(s, a), b)
    ensures b != [] ==> AnswerOf(s, a + b) == AnswerOf(After(s, a), b)
  {
    hide Legal, Apply;
    if b == [] {
      assert a + b == a;
    } else {
      RunConcat(s, a, Front(b));
      assert Front(a + b) == a + Front(b);
    }
  }

  // ---------------------------------------------------------------- nothing is lost or rewritten

  predicate Terminal(p: Place) {
    p.Dead? || p.Acked?
  }

  /** What every later state still says about an earlier one. */
  ghost predicate Preserves(s: State, n: State) {
    && (forall id | id in s.jobs ::
          && id in n.jobs
          && n.jobs[id].job == s.jobs[id].job
          && s.jobs[id].count <= n.jobs[id].count
          && (Terminal(s.jobs[id].place) ==> n.jobs[id] == s.jobs[id]))
    && (forall k | k in s.keys :: k in n.keys && n.keys[k] == s.keys[k])
    && (forall t | t in s.issued :: t in n.issued && n.issued[t] == s.issued[t])
    && (forall q :: At(s.dead, q) <= At(n.dead, q))
    && s.clock <= n.clock
  }

  lemma AppendExtends(lists: map<string, seq<Uuid>>, q: string, id: Uuid)
    ensures forall p :: At(lists, p) <= At(Append(lists, q, id), p)
  {
  }

  lemma SettlePreserves(s: State, id: Uuid, token: Uuid, how: How)
    ensures Preserves(s, Settling(s, id, token, how).next)
  {
    if Owns(s, id, token) {
      var n := Settling(s, id, token, how).next;
      assert n.jobs == s.jobs[id := n.jobs[id]] && n.jobs[id].job == s.jobs[id].job
          && n.jobs[id].count == s.jobs[id].count;
      assert n.dead == s.dead || n.dead == Append(s.dead, s.jobs[id].job.queue, id);
      AppendExtends(s.dead, s.jobs[id].job.queue, id);
      hide Settling, At, Append;
    }
  }

  lemma EnqueuePreserves(s: State, job: Job, start: nat)
    requires Legal(s, Enqueue(job, start))
    ensures Preserves(s, Enqueueing(s, job, start).next)
  {
    hide At, Append;
  }

  lemma PopPreserves(s: State, queue: string, token: Uuid, expiry: Time)
    requires Inv(s) && Legal(s, Pop(queue, token, expiry))
    ensures Preserves(s, Popping(s, queue, token, expiry).next)
  {
    hide Inv;
    if At(s.pending, queue) != [] {
      Listed(s, queue, At(s.pending, queue)[0]);
    }
    hide At;
  }

  lemma RequeuesPreserve(s: State, ids: seq<Uuid>)
    requires Inv(s) && NoDup(ids)
    requires forall id | id in ids :: id in s.jobs && (s.jobs[id].place.InFlight? || s.jobs[id].place.Delayed?)
    ensures Preserves(s, RequeueAll(s, ids))
  {
    hide Inv;
    RequeueAllKeepsInv(s, ids);
    hide RequeueAll, At, NoDup;
  }

  lemma StepPreserves(s: State, op: Op)
    requires Inv(s) && Legal(s, op)
    ensures Preserves(s, Apply(s, op).next)
  {
    match op
    case Tick(_) =>
    case Enqueue(job, start) => EnqueuePreserves(s, job, start);
    case Recover(_, order) => RequeuesPreserve(s, order);
    case Promote(_, order) => RequeuesPreserve(s, order);
    case Pop(queue, token, expiry) => PopPreserves(s, queue, token, expiry);
    case Settle(id, token, how) => SettlePreserves(s, id, token, how);
  }

  /** Conservation over runs: an accepted job is never forgotten, changed or brought back from a
      terminal place; the key map and the dead lists only grow. */
  lemma {:induction false} RunPreserves(s: State, ops: seq<Op>)
    requires Inv(s) && LegalRun(s, ops)
    ensures Preserves(s, After(s, ops))
  {
    hide Inv, Legal, Apply;
    if ops != [] {
      RunPreserves(s, Front(ops));
      RunKeepsInv(s, Front(ops));
      StepPreserves(After(s, Front(ops)), Last(ops));
      PreservesTransitive(s, After(s, Front(ops)), After(s, ops));
    }
  }

  lemma PreservesTransitive(a: State, b: State, c: State)
    requires Preserves(a, b) && Preserves(b, c)
    ensures Preserves(a, c)
  {
    forall q ensures At(a.dead, q) <= At(c.dead, q) {
      assert At(a.dead, q) <= At(b.dead, q) <= At(c.dead, q);
    }
  }

  // ---------------------------------------------------------------- ownership

  /** The token entitled to settle the job, read off the log of operations and answers alone: the
      last one handed out for it, unless the job was recovered or settled since. */
  function Owner(ops: seq<Op>, id: Uuid): Option<Uuid> {
    if ops == [] then None
    else
      match (Last(ops), AnswerOf(EMPTY, ops))
      case (Pop(_, _, _), Claimed(i, t, _)) => if i == id then Some(t) else Owner(Front(ops), id)
      case (Recover(_, order), _) => if id in order then None else Owner(Front(ops), id)
      case (Settle(i, _, _), Settled) => if i == id then None else Owner(Front(ops), id)
      case _ => Owner(Front(ops), id)
  }

  lemma StepMovesOwner(s: State, op: Op, id: Uuid, token: Uuid)
    requires Inv(s) && Legal(s, op)
    ensures Owns(Apply(s, op).next, id, token) <==>
            match (op, Apply(s, op).answer)
            case (Pop(_, _, _), Claimed(i, t, _)) => if i == id then t == token else Owns(s, id, token)
            case (Recover(_, order), _) => id !in order && Owns(s, id, token)
            case (Settle(i, _, _), Settled) => i != id && Owns(s, id, token)
            case _ => Owns(s, id, token)
  {
    hide Inv;
    match op
    case Recover(_, order) => RequeueAllKeepsInv(s, order);
    case Promote(_, order) => RequeueAllKeepsInv(s, order);
    case Tick(_) =>
    case Enqueue(_, _) =>
    case Pop(queue, _, _) =>
      if At(s.pending, queue) != [] {
        Listed(s, queue, At(s.pending, queue)[0]);
      }
    case Settle(_, _, _) =>
  }

  /** The holder in the state is the owner in the log. */
  lemma {:induction false} OwnerHolds(ops: seq<Op>, id: Uuid, token: Uuid)
    requires LegalRun(EMPTY, ops)
    ensures Owns(After(EMPTY, ops), id, token) <==> Owner(ops, id) == Some(token)
  {
    hide Inv, Legal, Apply;
    if ops != [] {
      OwnerHolds(Front(ops), id, token);
      EmptyInv();
      RunKeepsInv(EMPTY, Front(ops));
      StepMovesOwner(After(EMPTY, Front(ops)), Last(ops), id, token);
    }
  }

  /** A settle succeeds exactly for the owner's token; otherwise it reports JobNotFound and changes nothing. */
  lemma SettleIffOwner(ops: seq<Op>, id: Uuid, token: Uuid, how: How)
    requires LegalRun(EMPTY, ops)
    ensures var run := ops + [Settle(id, token, how)];
            if Owner(ops, id) == Some(token) then AnswerOf(EMPTY, run) == Settled
            else AnswerOf(EMPTY, run) == JobNotFound && After(EMPTY, run) == After(EMPTY, ops)
  {
    var run := ops + [Settle(id, token, how)];
    assert Front(run) == ops;
    OwnerHolds(ops, id, token);
  }

  /** How often the log settles with a given token. */
  function SettlesWith(ops: seq<Op>, token: Uuid): nat {
    if ops == [] then 0
    else SettlesWith(Front(ops), token)
         + One(Last(ops).Settle? && Last(ops).token == token && AnswerOf(EMPTY, ops).Settled?)
  }

  /** How often the log acknowledges or buries a given job. */
  function Terminations(ops: seq<Op>, id: Uuid): nat {
    if ops == [] then 0
    else Terminations(Front(ops), id)
         + One(Last(ops).Settle? && Last(ops).id == id && !Last(ops).how.Retry? && AnswerOf(EMPTY, ops).Settled?)
  }

  /** A spent token is an issued token that its job no longer carries. */
  predicate Spent(s: State, token: Uuid) {
    token in s.issued && !Owns(s, s.issued[token], token)
  }

  lemma StepKeepsSpent(s: State, op: Op, token: Uuid)
    requires Inv(s) && Legal(s, op)
    ensures Spent(s, token) ==> Spent(Apply(s, op).next, token)
    ensures op.Settle? && op.token == token && Apply(s, op).answer.Settled? ==>
              !Spent(s, token) && Spent(Apply(s, op).next, token)
  {
    hide Inv;
    StepPreserves(s, op);
    if token in s.issued {
      StepMovesOwner(s, op, s.issued[token], token);
    }
    match op
    case Settle(id, t, how) =>
      if Owns(s, id, t) {
        TokenIsIssued(s, id, t);
      }
    case Recover(_, order) => RequeueAllKeepsInv(s, order);
    case Promote(_, order) => RequeueAllKeepsInv(s, order);
    case Pop(_, _, _) =>
    case Tick(_) =>
    case Enqueue(_, _) =>
  }

  /** Each token settles at most once. */
  lemma {:induction false} TokenSettlesOnce(ops: seq<Op>, token: Uuid)
    requires LegalRun(EMPTY, ops)
    ensures SettlesWith(ops, token) <= 1
    ensures SettlesWith(ops, token) == 1 ==> Spent(After(EMPTY, ops), token)
  {
    hide Inv, Legal, Apply, Spent;
    if ops != [] {
      TokenSettlesOnce(Front(ops), token);
      EmptyInv();
      RunKeepsInv(EMPTY, Front(ops));
      StepKeepsSpent(After(EMPTY, Front(ops)), Last(ops), token);
    }
  }

  /** Each job is acknowledged or buried at most once, and then stays there. */
  lemma {:induction false} JobEndsOnce(ops: seq<Op>, id: Uuid)
    requires LegalRun(EMPTY, ops)
    ensures Terminations(ops, id) <= 1
    ensures var s := After(EMPTY, ops);
            Terminations(ops, id) == 1 <==> id in s.jobs && Terminal(s.jobs[id].place)
  {
    hide Inv, Legal, Apply;
    if ops != [] {
      JobEndsOnce(Front(ops), id);
      EmptyInv();
      RunKeepsInv(EMPTY, Front(ops));
      StepEndsJob(After(EMPTY, Front(ops)), Last(ops), id);
    }
  }

  lemma StepEndsJob(s: State, op: Op, id: Uuid)
    requires Inv(s) && Legal(s, op)
    ensures var r := Apply(s, op);
            var ended := id in s.jobs && Terminal(s.jobs[id].place);
            var ending := op.Settle? && op.id == id && !op.how.Retry? && r.answer.Settled?;
            && !(ended && ending)
            && (id in r.next.jobs && Terminal(r.next.jobs[id].place) <==> ended || ending)
  {
    hide Inv, Append;
    StepPreserves(s, op);
    hide At;
    match op
    case Recover(_, order) => RequeueAllKeepsInv(s, order);
    case Promote(_, order) => RequeueAllKeepsInv(s, order);
    case Settle(_, _, _) =>
    case Pop(queue, _, _) =>
      if At(s.pending, queue) != [] {
        Listed(s, queue, At(s.pending, queue)[0]);
      }
    case Tick(_) =>
    case Enqueue(_, _) =>
  }
}
