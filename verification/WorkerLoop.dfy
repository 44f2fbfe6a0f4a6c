/** The worker loop: claim while there is room, spawn, join, and stop when the queues are drained, the
    limit is reached or something fails. */
module WorkerLoop {
  import opened Jobs
  import opened BrokerSpec
  import opened BrokerHistory
  import opened Retry
  import opened WorkerSpec
  import opened Drain
  import opened WorkerBooks

  datatype ClaimReply = Granted(token: Uuid) | Idle | Refused

  /** A call ends with a count or an error, unless its caller drops it before. */
  datatype RunResult = Ok(processed: nat) | Err(fault: Fault) | Dropped

  /** How far a process is from its end. */
  function Rank(pc: Pc): nat {
    match pc
    case Running => 3
    case StoringSuccess(_) => 2
    case Acking => 1
    case Nacking(_) => 1
    case Burying(_, _) => 2
    case StoringFailure(_) => 1
  }

  method InSomeOrder(ids: set<Uuid>) returns (order: seq<Uuid>)
    ensures NoDup(order) && forall id :: id in order <==> id in ids
  {
    order := [];
    var rest := ids;
    while rest != {}
      invariant rest <= ids && NoDup(order)
      invariant forall id :: id in order <==> id in ids && id !in rest
    {
      var id :| id in rest;
      order := order + [id];
      rest := rest - {id};
    }
  }

  ghost predicate NothingReady(k: Terms, w: World) {
    forall j | 0 <= j < |k.names| :: At(w.broker.pending, k.names[j]) == []
  }

  /** At this position of the log, a claim on the queue found nothing. */
  ghost predicate EmptyAt(k: Terms, log: seq<Step>, m: nat, queue: string) {
    m < |log| && log[m].Claim? && log[m].queue == queue && !Grants(Now(k.origin, log[..m]), log[m])
  }

  ghost predicate SweptAt(log: seq<Step>, m: nat, promote: bool) {
    m < |log| && log[m].Outside? && if promote then log[m].op.Promote? else log[m].op.Recover?
  }

  /** Since a position of the log, in this order: a recovery, a promotion, and a claim on each of the
      first queues, as many as there are further marks, that found nothing. */
  ghost predicate Looked(k: Terms, log: seq<Step>, from: nat, marks: seq<nat>) {
    && 2 <= |marks| <= |k.names| + 2
    && (forall i, j | 0 <= i < j < |marks| :: marks[i] < marks[j])
    && from <= marks[0] && SweptAt(log, marks[0], false) && SweptAt(log, marks[1], true)
    && (forall j | 2 <= j < |marks| :: EmptyAt(k, log, marks[j], k.names[j - 2]))
  }

  /** A whole claim pass found nothing, and this call claimed nothing since it began. */
  ghost predicate FoundNothing(k: Terms, b: Books, from: nat, marks: seq<nat>) {
    Looked(k, b.log, from, marks) && |marks| == |k.names| + 2 && NoneTaken(b.log, from, b.mine)
  }

  /** How many claims may still come: by the limit, and in a quiet setting by the attempts left. */
  ghost function ClaimsToCome(k: Terms, w: World, claims: nat, maxJobs: Option<nat>): nat {
    var byLimit := if maxJobs.Some? && claims < maxJobs.value then maxJobs.value - claims else 0;
    if !k.quiet then byLimit
    else if maxJobs.None? then Potential(w, k.cfg, k.oracle)
    else Min(byLimit, Potential(w, k.cfg, k.oracle))
  }

  /** Every claim to come counts for a claim and a join, every task for a join. */
  ghost function Work(k: Terms, b: Books, maxJobs: Option<nat>): nat {
    2 * ClaimsToCome(k, b.world, |b.mine|, maxJobs) + |b.inFlight.Keys|
  }

  /** The passes that the loop may still make before it ends. */
  ghost function PassesLeft(k: Terms, b: Books, maxJobs: Option<nat>): nat {
    Work(k, b, maxJobs) + One(b.firstErr.None?)
  }

  /** The loop-boundary facts: the limit is kept, and a failed claim call has been recorded. */
  predicate WithinLimit(b: Books, maxJobs: Option<nat>) {
    && (maxJobs.Some? ==> |b.mine| <= maxJobs.value)
    && (b.refused > 0 ==> b.firstErr.Some?)
  }

  predicate BelowLimit(b: Books, maxJobs: Option<nat>) {
    maxJobs.Some? ==> b.processed < maxJobs.value
  }

  /** The loop has a reason to stop: an error, the limit, or nothing left to do. */
  ghost predicate Stops(k: Terms, b: Books, maxJobs: Option<nat>, from: nat, marks: seq<nat>) {
    b.firstErr.None? && BelowLimit(b, maxJobs) ==>
      && b.inFlight == map[] && FoundNothing(k, b, from, marks)
      && (k.quiet ==> NothingReady(k, b.world))
  }

  /** The log grew, and its last step is the call's claim that was granted, on this queue and with a lease
      from a reading of the clock since then. */
  ghost predicate TakenLast(k: Terms, before: seq<Step>, log: seq<Step>, since: Time, queue: string, token: Uuid) {
    && before <= log && |before| < |log|
    && Last(log).Claim? && Last(log).queue == queue && Last(log).token == token
    && Grants(Now(k.origin, Front(log)), Last(log)) && CarriesTerms(k, Last(log), since, Now(k.origin, Front(log)))
  }

  /** One task was joined, and nothing was claimed. */
  ghost predicate JoinsOne(k: Terms, r: Books, b: Books) {
    && Joins(k, r, b)
    && |b.inFlight.Keys| + 1 == |r.inFlight.Keys| && b.processed == r.processed + 1
  }

  /** One of the tokens drawn meanwhile is in use. */
  predicate Clashed(k: Terms, r: Books, b: Books) {
    exists i: nat :: r.draws <= i < b.draws && k.draw(i) in b.world.broker.issued
  }

  /** One claim pass was made: it granted a job from the first queue that had one, which is now a task; or
      it found every queue empty, and the loop stops or waits for a task; or the call failed, for a reason. */
  ghost predicate ClaimsOnce(k: Terms, r: Books, b: Books, again: bool, from: nat, marks: seq<nat>) {
    && from == |r.log|
    && (|| (&& again && Looked(k, b.log, from, marks) && |marks| < |k.names| + 2
            && b.log != [] && Last(b.log).Claim?
            && var token := Last(b.log).token;
               && TakenLast(k, r.log, b.log, r.world.broker.clock, k.names[|marks| - 2], token)
               && token !in r.mine && b.mine == r.mine + {token}
               && b.inFlight.Keys == r.inFlight.Keys + {token} && b.inFlight[token].Unfinished?)
        || (&& Looked(k, b.log, from, marks) && |marks| == |k.names| + 2
            && b.mine == r.mine && b.refused == r.refused
            && (again <==> r.inFlight != map[])
            && if again then |b.inFlight.Keys| + 1 == |r.inFlight.Keys| else b.inFlight == map[])
        || (&& again && b.mine == r.mine && b.inFlight.Keys == r.inFlight.Keys
            && b.refused == r.refused + 1 && (k.reliable ==> b.clashes > r.clashes && Clashed(k, r, b))
            && b.firstErr == Some(ClaimFailed)))
  }

  /** The course of one pass: every finished task is joined first; then an error or the limit stops the loop;
      at the limit of tasks or with no permit free it waits for a task; otherwise it claims. */
  ghost predicate Course(k: Terms, was: Books, r: Books, b: Books, maxJobs: Option<nat>, again: bool, from: nat,
                         marks: seq<nat>) {
    && Balanced(k, r, 0) && Joins(k, was, r) && AllBusy(r)
    && if r.firstErr.Some? || !BelowLimit(r, maxJobs) then !again && b == r
       else if r.permits == 0 || (maxJobs.Some? && maxJobs.value <= r.processed + |r.inFlight.Keys|)
       then again && JoinsOne(k, r, b)
       else ClaimsOnce(k, r, b, again, from, marks)
  }

  predicate AllBusy(b: Books) {
    forall t | t in b.inFlight :: b.inFlight[t].Unfinished?
  }

  predicate HasFailedTask(b: Books) {
    exists t | t in b.inFlight :: b.inFlight[t] == Finished(false)
  }

  /** What one pass of the loop's body does to the books: they stay balanced, the limit and the first
      error are kept, and the loop either has a reason to stop or has come closer to its end. */
  ghost predicate Passed(k: Terms, was: Books, b: Books, maxJobs: Option<nat>, again: bool, from: nat,
      marks: seq<nat>) {
    && Balanced(k, b, 0) && WithinLimit(b, maxJobs)
    && (was.firstErr.Some? ==> !again && b.firstErr == was.firstErr)
    && (HasFailedTask(was) ==> !again && b.mine == was.mine && b.firstErr.Some?)
    && (again && (k.quiet || maxJobs.Some?) ==> PassesLeft(k, b, maxJobs) < PassesLeft(k, was, maxJobs))
    && (!again ==> Stops(k, b, maxJobs, from, marks))
  }

  class Worker {
    const terms: Terms
    var world: World
    var inFlight: map<Uuid, TaskState>
    var permits: nat
    var processed: nat
    var firstErr: Option<Fault>
    ghost var log: seq<Step>
    ghost var mine: set<Uuid>
    ghost var lost: nat
    ghost var refused: nat
    ghost var clashes: nat
    var draws: nat
    ghost var bad: set<Uuid>

    ghost function View(): Books
      reads this
    {
      Books(world, log, inFlight, permits, processed, firstErr, mine, lost, refused, clashes, draws, bad)
    }

    constructor (queues: seq<string>, lease: nat, policy: Policy, concurrency: nat, backend: bool,
                 origin: World, quiet: bool, reliable: bool, cfg: Setting, oracle: Oracle, draw: nat -> Uuid)
      ensures terms == Terms(Requested(queues), lease, policy, backend, if concurrency < 1 then 1 else concurrency,
                             quiet, reliable, cfg, oracle, origin, draw)
      ensures View() == Opening(terms)
    {
      var k := Terms(Requested(queues), lease, policy, backend, if concurrency < 1 then 1 else concurrency,
                     quiet, reliable, cfg, oracle, origin, draw);
      terms, world, inFlight, permits, processed, firstErr := k, origin, map[], k.concurrency, 0, None;
      log, mine, lost, refused, clashes, draws, bad := [], {}, 0, 0, 0, 0, {};
    }

    // -------------------------------------------------------------- the world moves

    method Happen(step: Step, ok: bool)
      requires MayHappen(terms, world, step)
      modifies this
      ensures View() == Event(terms, old(View()), step, ok) && draws == old(draws)
    {
      MayHappenEnabled(terms, world, step);
      world := Act(world, step);
      if (step.Store? || step.Settle? || step.Crash?) && step.token in inFlight && inFlight[step.token].Unfinished?
         && step.token !in world.procs {
        inFlight := inFlight[step.token := Finished(EndsWell(terms, step, ok))];
        permits := permits + 1;
        bad := if EndsWell(terms, step, ok) then bad else bad + {step.token};
      }
      log := log + [step];
    }

    /** Anything that may happen, any number of times. */
    method Background(ghost hand: nat)
      requires Balanced(terms, View(), hand)
      modifies this
      ensures Balanced(terms, View(), hand) && Drifts(terms, old(View()), View()) && draws == old(draws)
    {
      hide Balanced, Drifts, MayHappen, Event;
      DriftsSelf(terms, View());
      var rounds: nat :| 0 <= rounds;
      for i := 0 to rounds
        invariant Balanced(terms, View(), hand) && Drifts(terms, old(View()), View()) && draws == old(draws)
      {
        var step: Step := *;
        var ok: bool := *;
        if MayHappen(terms, world, step) {
          HappenKeeps(terms, old(View()), View(), step, ok, hand);
          Happen(step, ok);
        }
      }
    }

    // -------------------------------------------------------------- tasks

    /** What a process does next; its handler ends with some outcome. */
    method NextStep(t: Uuid) returns (step: Step)
      requires t in world.procs
      ensures MayHappen(terms, world, step) && (step.Handle? || step.Store? || step.Settle?) && step.token == t
    {
      var p := world.procs[t];
      match p.pc
      case Running =>
        var delay := DelayForAttempt(p.policy, p.attempts);
        var outcome: Outcome := *;
        if terms.quiet {
          outcome := terms.oracle(p.id, p.attempts);
        }
        step := Handle(t, outcome, delay);
      case StoringSuccess(_) => step := Store(t);
      case StoringFailure(_) => step := Store(t);
      case _ => step := Step.Settle(t, world.broker.clock);
    }

    /** Waits for one task. */
    method Finish(t: Uuid, ghost hand: nat)
      requires Balanced(terms, View(), hand) && t in inFlight
      modifies this
      ensures Balanced(terms, View(), hand) && Drifts(terms, old(View()), View())
      ensures t in inFlight && inFlight[t].Finished?
    {
      hide Balanced, MayHappen, Event, Rank;
      DriftsSelf(terms, View());
      while inFlight[t].Unfinished?
        invariant Balanced(terms, View(), hand) && Drifts(terms, old(View()), View())
        invariant t in inFlight
        decreases if t in world.procs then 1 + Rank(world.procs[t].pc) else 0
      {
        UnfinishedIsProc(terms, View(), t, hand);
        var step := NextStep(t);
        var ok: bool := *;
        HappenKeeps(terms, old(View()), View(), step, ok, hand);
        RankFalls(terms, world, step);
        assert t in Event(terms, View(), step, ok).inFlight;
        ghost var n := Event(terms, View(), step, ok);
        EventWorld(terms, View(), step, ok);
        Happen(step, ok);
        if t in inFlight && inFlight[t].Unfinished? {
          UnfinishedIsProc(terms, View(), t, hand);
        }
      }
    }

    method Join(t: Uuid, ghost hand: nat)
      requires Balanced(terms, View(), hand) && t in inFlight && inFlight[t].Finished?
      modifies this
      ensures View() == AfterJoin(old(View()), t) && Balanced(terms, View(), hand)
      ensures |inFlight.Keys| + 1 == |old(inFlight).Keys|
    {
      hide Balanced;
      JoinBalances(terms, View(), t, hand);
      processed := processed + 1;
      if !inFlight[t].ok && firstErr.None? {
        firstErr := Some(TaskFailed);
      }
      inFlight := inFlight - {t};
    }

    /** Waits until some task has finished, and joins it. */
    method JoinNext()
      requires Balanced(terms, View(), 0) && inFlight != map[]
      modifies this
      ensures Balanced(terms, View(), 0) && Joins(terms, old(View()), View())
      ensures |inFlight.Keys| + 1 == |old(inFlight).Keys| && processed == old(processed) + 1
    {
      hide Balanced, Potential, Joins;
      Background(0);
      var t: Uuid;
      var finished := set u | u in inFlight && inFlight[u].Finished?;
      KeysEmpty(old(inFlight));
      if finished == {} {
        t :| t in inFlight.Keys;
        ghost var b := View();
        Finish(t, 0);
        DriftsOn(terms, old(View()), b, View());
      } else {
        t :| t in finished;
      }
      JoinedJoins(terms, old(View()), View(), t);
      Join(t, 0);
    }

    /** Joins whatever has finished, without waiting. */
    method Reap()
      requires Balanced(terms, View(), 0)
      modifies this
      ensures Balanced(terms, View(), 0) && Joins(terms, old(View()), View())
      ensures AllBusy(View())
    {
      hide Balanced, AfterJoin, Potential, Drifts;
      JoinsSelf(terms, View());
      var more := true;
      while more
        invariant Balanced(terms, View(), 0) && Joins(terms, old(View()), View())
        invariant !more ==> AllBusy(View())
        decreases |inFlight.Keys|, more
      {
        ghost var a := View();
        Background(0);
        DriftsKeys(terms, a, View());
        JoinsDrift(terms, old(View()), a, View());
        var finished := set u | u in inFlight && inFlight[u].Finished?;
        if finished == {} {
          assert forall u | u in inFlight :: u !in finished;
          more := false;
        } else {
          var t :| t in finished;
          JoinsOn(terms, old(View()), View(), t);
          Join(t, 0);
        }
      }
    }

    // -------------------------------------------------------------- claiming

    method RecoverExpired(now: Time)
      requires Balanced(terms, View(), 1) && now <= world.broker.clock
      modifies this
      ensures Balanced(terms, View(), 1) && Drifts(terms, old(View()), View())
      ensures |log| == |old(log)| + 1 && SweptAt(log, |old(log)|, false)
    {
      hide Balanced, Drifts, MayHappen, Event, NoDup;
      var order := InSomeOrder(set id | id in world.broker.jobs && Lapsed(world.broker.jobs[id], now));
      var step := Outside(Recover(now, order));
      SweepMayHappen(terms, world, step);
      DriftsSelf(terms, View());
      HappenKeeps(terms, View(), View(), step, true, 1);
      EventWorld(terms, View(), step, true);
      Happen(step, true);
    }

    method PromoteDelayed(now: Time)
      requires Balanced(terms, View(), 1) && now <= world.broker.clock
      modifies this
      ensures Balanced(terms, View(), 1) && Drifts(terms, old(View()), View())
      ensures |log| == |old(log)| + 1 && SweptAt(log, |old(log)|, true)
    {
      hide Balanced, Drifts, MayHappen, Event, NoDup;
      var order := InSomeOrder(set id | id in world.broker.jobs && IsDue(world.broker.jobs[id], now));
      var step := Outside(Promote(now, order));
      SweepMayHappen(terms, world, step);
      DriftsSelf(terms, View());
      HappenKeeps(terms, View(), View(), step, true, 1);
      EventWorld(terms, View(), step, true);
      Happen(step, true);
    }

    /** Takes a job. Unless calls are reliable, the reply may get lost on its way back. */
    method Take(step: Step) returns (reply: ClaimReply)
      requires Balanced(terms, View(), 1) && OwnClaim(terms, world, step)
      modifies this
      ensures !reply.Idle? && draws == old(draws)
      ensures reply.Refused? ==> !terms.reliable && Balanced(terms, View(), 1) && Refuses(terms, old(View()), View())
      ensures reply.Granted? ==>
                && inFlight == old(inFlight) && log == old(log) + [step] && reply.token == step.token
                && var n := View().(inFlight := inFlight[reply.token := Unfinished]);
                   Balanced(terms, n, 0) && Claims(terms, old(View()), n, reply.token)
    {
      hide Balanced, OwnClaim, Potential, Act, Enabled;
      ghost var b := View();
      GrantBalances(terms, b, step);
      GrantClaims(terms, b, step);
      OwnClaimAllowed(terms, b.world, step);
      var arrives: bool := *;
      if terms.reliable {
        arrives := true;
      } else {
        LostBalances(terms, b, step);
        LossRefuses(terms, b, step);
      }
      world := Act(world, step);
      log := log + [step];
      if arrives {
        mine := mine + {step.token};
        return Granted(step.token);
      }
      CrashAllowed(world, step.token, terms.cfg, terms.oracle);
      AllowedIsEnabled(world, Crash(step.token));
      world := Act(world, Crash(step.token));
      log := log + [Crash(step.token)];
      lost, refused := lost + 1, refused + 1;
      reply := Refused;
    }

    method Draw() returns (token: Uuid)
      modifies this
      ensures token == terms.draw(old(draws)) && View() == old(View()).(draws := old(draws) + 1)
    {
      token, draws := terms.draw(draws), draws + 1;
    }

    /** Tries one queue. Unless calls are reliable, this one may fail before or after it takes effect; drawing
        a token that is already in use counts as a failure in any case. */
    method TakeFrom(queue: string) returns (reply: ClaimReply)
      requires Balanced(terms, View(), 1) && queue in terms.names
      modifies this
      ensures reply.Idle? ==>
                && Balanced(terms, View(), 1) && Drifts(terms, old(View()), View())
                && At(world.broker.pending, queue) == []
                && |old(log)| < |log| && EmptyAt(terms, log, |log| - 1, queue)
      ensures draws == old(draws) + 1
      ensures reply.Refused? ==> Balanced(terms, View(), 1) && Refuses(terms, old(View()), View())
      ensures reply.Granted? ==>
                && inFlight.Keys == old(inFlight).Keys && reply.token == terms.draw(old(draws))
                && TakenLast(terms, old(log), log, old(world.broker.clock), queue, reply.token)
                && var n := View().(inFlight := inFlight[reply.token := Unfinished]);
                   Balanced(terms, n, 0) && Claims(terms, old(View()), n, reply.token)
    {
      hide Balanced, MayHappen, Event, OwnClaim, Potential, Act, Enabled;
      var at := world.broker.clock;
      Background(1);
      var down: bool := *;
      DrawBalances(terms, old(View()), View(), 1);
      var token := Draw();
      if token in world.broker.issued {
        ClashBalances(terms, View());
        refused, clashes := refused + 1, clashes + 1;
        return Refused;
      }
      if down && !terms.reliable {
        RefusalBalances(terms, View());
        refused := refused + 1;
        return Refused;
      }
      var step := Claim(queue, token, at + terms.lease, terms.policy, terms.backend);
      ClaimMayHappen(terms, old(View()), View(), queue, token, at);
      if At(world.broker.pending, queue) == [] {
        HappenKeeps(terms, old(View()), View(), step, true, 1);
        UngrantedStays(world, step);
        EventWorld(terms, View(), step, true);
        LogIsWorld(terms, View(), 1);
        ghost var before := log;
        Happen(step, true);
        assert log[..|log| - 1] == before;
        return Idle;
      }
      ghost var b := View();
      LogIsWorld(terms, b, 1);
      reply := Take(step);
      assert reply.Granted? ==> Front(log) == b.log && Last(log) == step;
    }

    /** One non-blocking claim: recover, promote, then try the queues in turn until one grants. */
    method ClaimJob() returns (reply: ClaimReply, ghost marks: seq<nat>)
      requires Balanced(terms, View(), 1)
      modifies this
      ensures reply.Idle? ==>
                && Balanced(terms, View(), 1) && Drifts(terms, old(View()), View())
                && FoundNothing(terms, View(), |old(log)|, marks)
                && (terms.quiet && inFlight == map[] ==> NothingReady(terms, world))
      ensures reply.Refused? ==> Balanced(terms, View(), 1) && Refuses(terms, old(View()), View())
      ensures reply.Granted? ==>
                && inFlight.Keys == old(inFlight).Keys
                && Looked(terms, log, |old(log)|, marks) && |marks| < |terms.names| + 2
                && TakenLast(terms, old(log), log, old(world.broker.clock), terms.names[|marks| - 2], reply.token)
                && var n := View().(inFlight := inFlight[reply.token := Unfinished]);
                   Balanced(terms, n, 0) && Claims(terms, old(View()), n, reply.token)
    {
      hide Balanced, Drifts, Refuses, Claims, Looked, NoneTaken, EmptyAt;
      marks := Sweep();
      ghost var b := View();
      for i := 0 to |terms.names|
        invariant Balanced(terms, View(), 1) && Drifts(terms, old(View()), View())
        invariant Looked(terms, log, |old(log)|, marks) && |marks| == i + 2
        invariant terms.quiet && inFlight == map[] ==> forall j | 0 <= j < i ::
                  At(world.broker.pending, terms.names[j]) == []
      {
        b := View();
        reply := TakeFrom(terms.names[i]);
        if !reply.Idle? {
          DriftThenRefuses(terms, old(View()), b, View());
          if reply.Granted? {
            DriftThenClaims(terms, old(View()), b, View().(inFlight := inFlight[reply.token := Unfinished]),
                reply.token);
            DriftsKeys(terms, old(View()), b);
            LookedStays(terms, b.log, log, |old(log)|, marks);
          }
          return;
        }
        DriftsOn(terms, old(View()), b, View());
        DriftsPending(terms, b, View());
        DriftsKeys(terms, b, View());
        LookedMore(terms, b.log, log, |old(log)|, marks);
        marks := marks + [|log| - 1];
      }
      NoneTakenSince(terms, old(View()), View());
      reply := Idle;
    }

    method Sweep() returns (ghost marks: seq<nat>)
      requires Balanced(terms, View(), 1)
      modifies this
      ensures Balanced(terms, View(), 1) && Drifts(terms, old(View()), View())
      ensures Looked(terms, log, |old(log)|, marks) && |marks| == 2
    {
      hide Balanced, Drifts;
      var now := world.broker.clock;
      Background(1);
      ghost var a := View();
      DriftsKeys(terms, old(View()), a);
      RecoverExpired(now);
      ghost var b := View();
      DriftsKeys(terms, a, b);
      now := world.broker.clock;
      Background(1);
      ghost var c := View();
      DriftsKeys(terms, b, c);
      PromoteDelayed(now);
      DriftsKeys(terms, c, View());
      marks := [|a.log|, |c.log|];
      DriftsOn(terms, old(View()), a, b);
      DriftsOn(terms, old(View()), b, c);
      DriftsOn(terms, old(View()), c, View());
    }

    // -------------------------------------------------------------- the loop

    /** One pass through the loop's body; tells whether to go on. */
    method Round(maxJobs: Option<nat>)
      returns (again: bool, ghost from: nat, ghost marks: seq<nat>, ghost reaped: Books)
      requires Balanced(terms, View(), 0) && WithinLimit(View(), maxJobs)
      modifies this
      ensures Passed(terms, old(View()), View(), maxJobs, again, from, marks)
      ensures Course(terms, old(View()), reaped, View(), maxJobs, again, from, marks)
    {
      hide Balanced, Drifts, Refuses, Claims, Joins, Nearing, NothingReady, FoundNothing, Passed, WithinLimit, Course,
           ClaimsOnce, AllBusy, TakenLast, Looked;
      from, marks, again := 0, [], true;
      ghost var was := View();
      Reap();
      reaped := View();
      if firstErr.Some? || (maxJobs.Some? && processed >= maxJobs.value) {
        StopEarly(terms, was, reaped, maxJobs);
        again := false;
        StopsCourse(terms, was, reaped, maxJobs);
        return;
      }
      ReapedNears(terms, was, reaped, maxJobs);
      Tally(terms, reaped, 0);
      var slotsUsed := |inFlight.Keys|;
      var underMax := maxJobs.None? || processed + slotsUsed < maxJobs.value;
      if !underMax {
        // The source also stops here on an empty task set, which the limit check above rules out.
        if inFlight == map[] {
          assert false;
        }
        JoinNext();
        WaitedForTask(terms, was, reaped, View(), maxJobs, from, marks);
        WaitsCourse(terms, was, reaped, View(), maxJobs);
        return;
      }
      if permits == 0 {
        // The source reports a permit leak here.
        if inFlight == map[] {
          NoPermitLeak(terms, reaped);
          assert false;
        }
        JoinNext();
        WaitedForTask(terms, was, reaped, View(), maxJobs, from, marks);
        WaitsCourse(terms, was, reaped, View(), maxJobs);
        return;
      }
      AcquireBalances(terms, reaped);
      permits := permits - 1;
      ghost var held := View();
      from := |log|;
      var reply;
      reply, marks := ClaimJob();
      match reply
      case Granted(token) =>
        inFlight := inFlight[token := Unfinished];
        GrantPasses(terms, was, reaped, held, View(), token, maxJobs, from, marks);
        GrantCourse(terms, was, reaped, held, View(), token, maxJobs, marks);
      case Idle =>
        IdleNears(terms, was, reaped, held, View(), maxJobs);
        FoundStays(terms, View(), from, marks);
        ghost var looked := View();
        permits := permits + 1;
        ghost var idle := View();
        if inFlight == map[] {
          IdleStops(terms, was, idle, maxJobs, from, marks);
          IdleCourse(terms, was, reaped, held, looked, idle, idle, maxJobs, marks);
          again := false;
          return;
        }
        JoinNext();
        WaitedForTask(terms, was, idle, View(), maxJobs, from, marks);
        IdleCourse(terms, was, reaped, held, looked, idle, View(), maxJobs, marks);
      case Refused =>
        RefusalPasses(terms, was, reaped, held, View(), maxJobs, from, marks);
        RefusalCourse(terms, was, reaped, held, View(), maxJobs, marks);
        permits := permits + 1;
        firstErr := Some(ClaimFailed);
    }

    /** Runs the loop until it ends, or until the caller drops the call after so many passes. */
    method Run(maxJobs: Option<nat>, patience: nat) returns (result: RunResult, ghost from: nat, ghost marks: seq<nat>)
      requires Sensible(terms) && View() == Opening(terms)
      modifies this
      // Whether it ends or is dropped, the books balance and the limit is kept.
      ensures Balanced(terms, View(), 0)
      ensures maxJobs.Some? ==> |mine| <= maxJobs.value
      ensures terms.quiet ==> |mine| <= Sum(AttemptsAlone(terms.origin, terms.cfg, terms.oracle))
      // With a limit it ends within twice as many passes and two; in a quiet setting without one, within
      // twice as many as there are attempts to make.
      ensures maxJobs.Some? && 2 * maxJobs.value + 2 <= patience ==> !result.Dropped?
      ensures terms.quiet && 2 * Sum(AttemptsAlone(terms.origin, terms.cfg, terms.oracle)) + 2 <= patience ==>
                !result.Dropped?
      // When it ends, every spawned task was joined, every permit is back, and every claim's processing has
      // ended.
      ensures !result.Dropped? ==>
                && inFlight == map[] && permits == terms.concurrency && processed == |mine|
                && forall t | t in mine :: t !in world.procs
      // Success means exactly that no claim call and no task failed, and reports the number of claims;
      // an error has a cause of its kind.
      ensures !result.Dropped? ==> (result.Ok? <==> refused == 0 && bad == {})
      ensures terms.reliable && clashes == 0 ==> !result.Err?
      ensures result == Err(ClaimFailed) ==> refused > 0
      ensures result == Err(TaskFailed) ==> bad != {}
      ensures result.Ok? ==> result.processed == |mine| && forall t | t in mine :: Crash(t) !in log
      // Every claim was made on the call's queues with its policy, its lease and its backend, if any.
      ensures forall t | t in mine :: exists i :: SignedAt(terms, log, i, t)
      // Success below the limit means that the last claim pass swept, then found each queue empty.
      ensures result.Ok? && BelowLimit(View(), maxJobs) ==> FoundNothing(terms, View(), from, marks)
      // In a quiet setting it means that the queues are drained with the outcome of retrying every job on
      // its own.
      ensures terms.quiet && result.Ok? && BelowLimit(View(), maxJobs) ==>
                && Drained(terms, world) && Resulted(terms, world)
                && result.processed == Sum(AttemptsAlone(terms.origin, terms.cfg, terms.oracle))
    {
      hide Balanced, Sensible, Joins, Work, PassesLeft, NothingReady, Course, SignedAt, Drained, Resulted, Sum,
           AttemptsAlone, FoundNothing, WithinLimit, Stops;
      OpeningBalances(terms);
      OpeningPasses(terms, maxJobs);
      from, marks := 0, [];
      var again, passes := true, 0;
      while again && passes < patience
        invariant Balanced(terms, View(), 0) && WithinLimit(View(), maxJobs) && passes <= patience
        invariant again && (terms.quiet || maxJobs.Some?) ==>
                    PassesLeft(terms, View(), maxJobs) + passes <= PassesLeft(terms, Opening(terms), maxJobs)
        invariant !again ==> Stops(terms, View(), maxJobs, from, marks)
        decreases patience - passes
      {
        ghost var reaped;
        again, from, marks, reaped := Round(maxJobs);
        passes := passes + 1;
      }
      LimitKept(terms, View(), maxJobs);
      AllSigned(terms, View());
      if again {
        return Dropped, from, marks;
      }
      ghost var loop := View();
      while inFlight != map[]
        invariant Balanced(terms, View(), 0) && WithinLimit(View(), maxJobs)
        invariant loop.inFlight == map[] ==> View() == loop
        invariant loop.firstErr.Some? ==> firstErr.Some?
        invariant loop.processed <= processed
        decreases |inFlight.Keys|
      {
        ghost var a := View();
        JoinNext();
        JoinsWithin(terms, a, View(), 0, maxJobs);
      }
      NoPermitLeak(terms, View());
      LimitKept(terms, View(), maxJobs);
      BlameIsFair(terms, View(), maxJobs);
      AllSigned(terms, View());
      if firstErr.Some? {
        return Err(firstErr.value), from, marks;
      }
      StoppedForGood(terms, loop, View(), maxJobs, from, marks);
      return Ok(processed), from, marks;
    }
  }

  /** A full patience covers every pass that the loop may make. */
  lemma OpeningPasses(k: Terms, maxJobs: Option<nat>)
    requires Sensible(k)
    ensures WithinLimit(Opening(k), maxJobs)
    ensures k.quiet ==> PassesLeft(k, Opening(k), maxJobs) <= 2 * Sum(AttemptsAlone(k.origin, k.cfg, k.oracle)) + 1
    ensures maxJobs.Some? ==> PassesLeft(k, Opening(k), maxJobs) <= 2 * maxJobs.value + 1
  {
    hide Inv, ProcsOk, Quiet, Potential, Sum, AttemptsAlone;
    if k.quiet {
      PotentialAtRest(k.origin, k.cfg, k.oracle);
    }
    var none: map<Uuid, TaskState> := map[];
    assert none.Keys == {};
  }

  lemma DrainedAtEnd(k: Terms, b: Books, maxJobs: Option<nat>)
    requires Balanced(k, b, 0) && WithinLimit(b, maxJobs)
    requires k.quiet && b.inFlight == map[] && b.firstErr.None? && NothingReady(k, b.world)
    ensures Drained(k, b.world) && Resulted(k, b.world)
    ensures b.processed == Sum(AttemptsAlone(k.origin, k.cfg, k.oracle))
  {
    hide Balanced, Drained, Resulted, Sum, AttemptsAlone;
    QuietDrain(k, b);
    QuietResults(k, b);
  }

  lemma AllSigned(k: Terms, b: Books)
    requires Balanced(k, b, 0)
    ensures forall t | t in b.mine :: exists i :: SignedAt(k, b.log, i, t)
  {
    hide Sensible, Tracks, Tasked, Counted, Blamed, SignedAt;
  }

  lemma BlameIsFair(k: Terms, b: Books, maxJobs: Option<nat>)
    requires Balanced(k, b, 0) && WithinLimit(b, maxJobs) && b.inFlight == map[]
    ensures b.firstErr.None? <==> b.refused == 0 && b.bad == {}
    ensures b.firstErr.None? ==> forall t | t in b.mine :: Crash(t) !in b.log
    ensures b.firstErr == Some(ClaimFailed) ==> b.refused > 0
    ensures b.firstErr == Some(TaskFailed) ==> b.bad != {}
    ensures k.reliable && b.clashes == 0 ==> b.firstErr.None?
  {
    hide Sensible, Tracks, Tasked, Counted, Signed;
    if b.bad != {} {
      var t :| t in b.bad;
      assert t !in b.inFlight;
    }
    match b.firstErr
    case None =>
    case Some(ClaimFailed) => assert b.firstErr == Some(ClaimFailed);
    case Some(TaskFailed) => assert b.firstErr == Some(TaskFailed);
  }

  lemma Tally(k: Terms, b: Books, hand: nat)
    requires Balanced(k, b, hand)
    ensures b.processed + |b.inFlight.Keys| == |b.mine|
    ensures b.inFlight == map[] ==> |b.inFlight.Keys| == 0
  {
    hide Sensible, Tracks, Tasked, Signed;
  }

  lemma AcquireBalances(k: Terms, b: Books)
    requires Balanced(k, b, 0) && b.permits > 0
    ensures Balanced(k, b.(permits := b.permits - 1), 1)
  {
    hide Sensible, Tracks, Tasked, Busy, GrantCount, NoCrash, Signed;
    var n := b.(permits := b.permits - 1);
    assert Failing(b) ==> Failing(n);
  }

  lemma RefusalBalances(k: Terms, b: Books)
    requires Balanced(k, b, 1) && !k.reliable
    ensures Balanced(k, b.(refused := b.refused + 1), 1)
  {
    hide Sensible, Tracks, Tasked, Busy, GrantCount, NoCrash, Signed;
  }

  lemma ClashBalances(k: Terms, b: Books)
    requires Balanced(k, b, 1)
    ensures Balanced(k, b.(refused := b.refused + 1, clashes := b.clashes + 1), 1)
  {
    hide Sensible, Tracks, Tasked, Busy, GrantCount, NoCrash, Signed;
  }

  /** Drawing a token changes nothing else. */
  lemma DrawBalances(k: Terms, a: Books, b: Books, hand: nat)
    requires Balanced(k, b, hand) && Drifts(k, a, b)
    ensures var n := b.(draws := b.draws + 1); Balanced(k, n, hand) && Drifts(k, a, n)
  {
    hide Sensible, Tracks, Tasked, Busy, GrantCount, NoCrash, Signed, Potential;
    assert Failing(b) ==> Failing(b.(draws := b.draws + 1));
  }

  lemma ReleaseBalances(k: Terms, b: Books, fault: Option<Fault>)
    requires Balanced(k, b, 1)
    requires fault == b.firstErr || (b.firstErr.None? && b.refused > 0 && fault == Some(ClaimFailed))
    ensures Balanced(k, b.(permits := b.permits + 1, firstErr := fault), 0)
  {
    hide Sensible, Tracks, Tasked, Busy, GrantCount, NoCrash, Signed;
    var n := b.(permits := b.permits + 1, firstErr := fault);
    assert Failing(b) ==> Failing(n);
  }

  // ---------------------------------------------------------------- how a pass ends

  lemma JoinsWithin(k: Terms, b: Books, n: Books, hand: nat, maxJobs: Option<nat>)
    requires Joins(k, b, n) && WithinLimit(b, maxJobs) && Balanced(k, b, hand) && Balanced(k, n, hand)
    ensures WithinLimit(n, maxJobs) && n.mine == b.mine
    ensures b.firstErr.Some? ==> n.firstErr == b.firstErr
    ensures b.processed <= n.processed
  {
    hide Potential, Balanced;
    Tally(k, b, hand);
    Tally(k, n, hand);
  }

  lemma JoinsWork(k: Terms, b: Books, n: Books, maxJobs: Option<nat>)
    requires Joins(k, b, n)
    ensures Work(k, n, maxJobs) - |n.inFlight.Keys| <= Work(k, b, maxJobs) - |b.inFlight.Keys|
    ensures |n.inFlight.Keys| <= |b.inFlight.Keys|
    ensures PassesLeft(k, n, maxJobs) - |n.inFlight.Keys| <= PassesLeft(k, b, maxJobs) - |b.inFlight.Keys|
  {
    hide Potential;
  }

  /** After reaping: an error or the limit. */
  lemma StopEarly(k: Terms, was: Books, b: Books, maxJobs: Option<nat>)
    requires Balanced(k, was, 0) && Balanced(k, b, 0) && Joins(k, was, b) && WithinLimit(was, maxJobs)
    requires AllBusy(b) && (b.firstErr.Some? || !BelowLimit(b, maxJobs))
    ensures Passed(k, was, b, maxJobs, false, 0, [])
  {
    hide Balanced, Joins, FoundNothing;
    JoinsWithin(k, was, b, 0, maxJobs);
    FailureShows(k, was, b);
  }

  /** Waiting for a task brings the end closer. */
  lemma WaitedForTask(k: Terms, was: Books, b: Books, n: Books, maxJobs: Option<nat>, from: nat, marks: seq<nat>)
    requires Balanced(k, n, 0) && Joins(k, b, n) && |n.inFlight.Keys| < |b.inFlight.Keys|
    requires Nearing(k, was, b, maxJobs)
    ensures Passed(k, was, n, maxJobs, true, from, marks)
  {
    hide Balanced, Joins, PassesLeft;
    JoinsWithin(k, b, n, 0, maxJobs);
    JoinsWork(k, b, n, maxJobs);
  }

  /** Within a pass that has met no error: still balanced, within the limit, and no further from the end. */
  ghost predicate Nearing(k: Terms, was: Books, b: Books, maxJobs: Option<nat>) {
    && Balanced(k, b, 0) && WithinLimit(b, maxJobs)
    && was.firstErr.None? && b.firstErr.None? && !HasFailedTask(was)
    && PassesLeft(k, b, maxJobs) <= PassesLeft(k, was, maxJobs)
  }

  lemma ReapedNears(k: Terms, was: Books, b: Books, maxJobs: Option<nat>)
    requires Balanced(k, was, 0) && Balanced(k, b, 0) && Joins(k, was, b) && WithinLimit(was, maxJobs)
    requires b.firstErr.None? && AllBusy(b)
    ensures Nearing(k, was, b, maxJobs)
  {
    hide Balanced, Joins, PassesLeft, Work;
    JoinsWithin(k, was, b, 0, maxJobs);
    JoinsWork(k, was, b, maxJobs);
    FailureShows(k, was, b);
  }

  /** Once everything finished has been joined, a failed task has become an error. */
  lemma FailureShows(k: Terms, was: Books, b: Books)
    requires Joins(k, was, b) && AllBusy(b)
    ensures HasFailedTask(was) ==> b.firstErr.Some?
  {
  }

  lemma GrantPasses(k: Terms, was: Books, reaped: Books, held: Books, n: Books, token: Uuid, maxJobs: Option<nat>,
                    from: nat, marks: seq<nat>)
    requires Nearing(k, was, reaped, maxJobs) && held == reaped.(permits := held.permits)
    requires Claims(k, held, n, token) && Balanced(k, n, 0)
    requires maxJobs.Some? ==> reaped.processed + |reaped.inFlight.Keys| < maxJobs.value
    ensures Passed(k, was, n, maxJobs, true, from, marks)
  {
    hide Balanced, Potential;
    Tally(k, reaped, 0);
    assert |n.mine| == |held.mine| + 1 && |n.inFlight.Keys| == |held.inFlight.Keys| + 1;
  }

  /** Giving the permit back does not matter to what was found. */
  lemma FoundStays(k: Terms, b: Books, from: nat, marks: seq<nat>)
    ensures FoundNothing(k, b, from, marks) ==> FoundNothing(k, b.(permits := b.permits + 1), from, marks)
  {
  }

  lemma IdleNears(k: Terms, was: Books, reaped: Books, held: Books, b: Books, maxJobs: Option<nat>)
    requires Nearing(k, was, reaped, maxJobs) && held == reaped.(permits := held.permits)
    requires Drifts(k, held, b) && Balanced(k, b, 1)
    ensures Balanced(k, b.(permits := b.permits + 1), 0)
    ensures Nearing(k, was, b.(permits := b.permits + 1), maxJobs)
  {
    hide Potential, Balanced;
    ReleaseBalances(k, b, b.firstErr);
  }

  /** An idle claim with no task left is the end. */
  lemma IdleStops(k: Terms, was: Books, b: Books, maxJobs: Option<nat>, from: nat, marks: seq<nat>)
    requires Nearing(k, was, b, maxJobs) && b.inFlight == map[] && FoundNothing(k, b, from, marks)
    requires k.quiet ==> NothingReady(k, b.world)
    ensures Passed(k, was, b, maxJobs, false, from, marks)
  {
    hide Balanced, FoundNothing, NothingReady;
  }

  lemma RefusalPasses(k: Terms, was: Books, reaped: Books, held: Books, b: Books, maxJobs: Option<nat>,
                      from: nat, marks: seq<nat>)
    requires Nearing(k, was, reaped, maxJobs) && held == reaped.(permits := held.permits)
    requires Refuses(k, held, b) && Balanced(k, b, 1)
    ensures Passed(k, was, b.(permits := b.permits + 1, firstErr := Some(ClaimFailed)), maxJobs, true, from, marks)
  {
    hide Potential, Balanced;
    ReleaseBalances(k, b, Some(ClaimFailed));
  }

  // ---------------------------------------------------------------- the course of a pass

  lemma StopsCourse(k: Terms, was: Books, r: Books, maxJobs: Option<nat>)
    requires Balanced(k, r, 0) && Joins(k, was, r) && AllBusy(r) && (r.firstErr.Some? || !BelowLimit(r, maxJobs))
    ensures Course(k, was, r, r, maxJobs, false, 0, [])
  {
    hide Balanced, Joins, AllBusy;
  }

  lemma WaitsCourse(k: Terms, was: Books, r: Books, b: Books, maxJobs: Option<nat>)
    requires Balanced(k, r, 0) && Joins(k, was, r) && AllBusy(r) && r.firstErr.None? && BelowLimit(r, maxJobs)
    requires r.permits == 0 || (maxJobs.Some? && maxJobs.value <= r.processed + |r.inFlight.Keys|)
    requires Joins(k, r, b) && |b.inFlight.Keys| + 1 == |r.inFlight.Keys| && b.processed == r.processed + 1
    ensures Course(k, was, r, b, maxJobs, true, 0, [])
  {
    hide Balanced, Joins, AllBusy;
  }

  /** The pass goes on to a claim. */
  ghost predicate GoesOn(k: Terms, was: Books, r: Books, maxJobs: Option<nat>) {
    && Balanced(k, r, 0) && Joins(k, was, r) && AllBusy(r) && r.firstErr.None? && BelowLimit(r, maxJobs)
    && r.permits > 0 && (maxJobs.Some? ==> r.processed + |r.inFlight.Keys| < maxJobs.value)
  }

  lemma GrantCourse(k: Terms, was: Books, r: Books, held: Books, b: Books, token: Uuid, maxJobs: Option<nat>,
                    marks: seq<nat>)
    requires GoesOn(k, was, r, maxJobs) && held == r.(permits := held.permits)
    requires Looked(k, b.log, |held.log|, marks) && |marks| < |k.names| + 2
    requires TakenLast(k, held.log, b.log, held.world.broker.clock, k.names[|marks| - 2], token)
    requires Claims(k, held, b, token) && token in b.inFlight && b.inFlight[token].Unfinished?
    ensures Course(k, was, r, b, maxJobs, true, |r.log|, marks)
  {
    hide Balanced, Joins, AllBusy, Potential, CarriesTerms, Grants, EmptyAt, SweptAt;
  }

  lemma IdleCourse(k: Terms, was: Books, r: Books, held: Books, looked: Books, idle: Books, b: Books,
                   maxJobs: Option<nat>, marks: seq<nat>)
    requires GoesOn(k, was, r, maxJobs) && held == r.(permits := held.permits)
    requires Drifts(k, held, looked) && idle == looked.(permits := looked.permits + 1)
    requires FoundNothing(k, idle, |held.log|, marks)
    requires if idle.inFlight == map[] then b == idle
             else Joins(k, idle, b) && |b.inFlight.Keys| + 1 == |idle.inFlight.Keys|
    ensures Course(k, was, r, b, maxJobs, idle.inFlight != map[], |r.log|, marks)
  {
    hide Balanced, AllBusy, Potential, EmptyAt, SweptAt;
    KeysEmpty(idle.inFlight);
    KeysEmpty(r.inFlight);
    assert Joins(k, was, r);
    hide Joins;
    JoinsLog(k, idle, b);
    LookedStays(k, idle.log, b.log, |held.log|, marks);
    hide Looked, Drifts;
  }

  lemma JoinsLog(k: Terms, b: Books, n: Books)
    ensures Joins(k, b, n) ==> b.log <= n.log && n.mine == b.mine && n.refused == b.refused
  {
  }

  lemma RefusalCourse(k: Terms, was: Books, r: Books, held: Books, b: Books, maxJobs: Option<nat>, marks: seq<nat>)
    requires GoesOn(k, was, r, maxJobs) && held == r.(permits := held.permits)
    requires Refuses(k, held, b)
    ensures var n := b.(permits := b.permits + 1, firstErr := Some(ClaimFailed));
            Course(k, was, r, n, maxJobs, true, |r.log|, marks)
  {
    hide Balanced, Joins, AllBusy, Potential, Looked;
  }

  lemma LimitKept(k: Terms, b: Books, maxJobs: Option<nat>)
    requires Balanced(k, b, 0) && WithinLimit(b, maxJobs)
    ensures maxJobs.Some? ==> |b.mine| <= maxJobs.value
    ensures k.quiet ==> |b.mine| <= Sum(AttemptsAlone(k.origin, k.cfg, k.oracle))
  {
    hide Balanced, Sum, AttemptsAlone;
    if k.quiet {
      QuietClaimsBounded(k, b, 0);
    }
  }

  /** What the reason to stop amounts to once nothing is in flight and nothing failed. */
  lemma StoppedForGood(k: Terms, loop: Books, b: Books, maxJobs: Option<nat>, from: nat, marks: seq<nat>)
    requires Stops(k, loop, maxJobs, from, marks) && (loop.inFlight == map[] ==> b == loop)
    requires Balanced(k, b, 0) && WithinLimit(b, maxJobs) && b.inFlight == map[] && b.firstErr.None?
    requires loop.firstErr.None? && loop.processed <= b.processed
    ensures BelowLimit(b, maxJobs) ==> FoundNothing(k, b, from, marks)
    ensures k.quiet && BelowLimit(b, maxJobs) ==>
              Drained(k, b.world) && Resulted(k, b.world)
              && b.processed == Sum(AttemptsAlone(k.origin, k.cfg, k.oracle))
  {
    hide Balanced, Drained, Resulted, Sum, AttemptsAlone, FoundNothing, NothingReady;
    if k.quiet && BelowLimit(b, maxJobs) {
      DrainedAtEnd(k, b, maxJobs);
    }
  }

  lemma DriftsPending(k: Terms, b: Books, n: Books)
    requires Drifts(k, b, n)
    ensures n.inFlight == map[] <==> b.inFlight == map[]
    ensures k.quiet && b.inFlight == map[] ==> n.world.broker.pending == b.world.broker.pending
  {
    KeysEmpty(b.inFlight);
    KeysEmpty(n.inFlight);
  }

  lemma DriftThenRefuses(k: Terms, a: Books, b: Books, c: Books)
    requires Drifts(k, a, b)
    ensures Refuses(k, b, c) ==> Refuses(k, a, c)
  {
    hide Potential;
  }

  lemma DriftThenClaims(k: Terms, a: Books, b: Books, c: Books, token: Uuid)
    requires Drifts(k, a, b) && Claims(k, b, c, token)
    ensures Claims(k, a, c, token)
  {
    hide Potential;
  }

  lemma GrantClaims(k: Terms, b: Books, step: Step)
    requires Balanced(k, b, 1) && OwnClaim(k, b.world, step)
    ensures Claims(k, b, AfterGrant(b, step), step.token)
  {
    hide Balanced, OwnClaim, Potential, Act, Enabled;
    GrantBalances(k, b, step);
  }

  lemma LossRefuses(k: Terms, b: Books, step: Step)
    requires Balanced(k, b, 1) && OwnClaim(k, b.world, step) && !k.reliable
    ensures step.token in Act(b.world, step).procs
    ensures Refuses(k, b, AfterLoss(b, step))
  {
    hide Balanced, OwnClaim, Potential, Act, Enabled;
    LostBalances(k, b, step);
  }

  lemma LogIsWorld(k: Terms, b: Books, hand: nat)
    requires Balanced(k, b, hand)
    ensures b.world == Now(k.origin, b.log)
  {
    hide Inv, ProcsOk, Sensible, Tasked, Counted;
  }

  lemma UngrantedStays(w: World, step: Step)
    requires step.Claim? && At(w.broker.pending, step.queue) == []
    ensures Enabled(w, step) && Act(w, step) == w
  {
  }

  lemma ClaimMayHappen(k: Terms, a: Books, b: Books, queue: string, token: Uuid, at: Time)
    requires Balanced(k, a, 1) && Balanced(k, b, 1) && at == a.world.broker.clock <= b.world.broker.clock
    requires queue in k.names && token !in b.world.broker.issued
    ensures var step := Claim(queue, token, at + k.lease, k.policy, k.backend);
            && Enabled(b.world, step)
            && if At(b.world.broker.pending, queue) == [] then MayHappen(k, b.world, step)
                 else OwnClaim(k, b.world, step) && CarriesTerms(k, step, at, b.world)
  {
    hide Inv, ProcsOk, Tasked, Counted, AllowedRun, QuietRun;
  }

  lemma SweepMayHappen(k: Terms, w: World, step: Step)
    requires step.Outside? && (step.op.Recover? || step.op.Promote?) && Legal(w.broker, step.op)
    ensures MayHappen(k, w, step)
  {
    hide Legal;
  }

  ghost predicate Refuses(k: Terms, b: Books, n: Books) {
    && n.inFlight.Keys == b.inFlight.Keys && n.mine == b.mine && n.processed == b.processed && n.firstErr == b.firstErr
    && n.refused == b.refused + 1 && (k.reliable ==> n.clashes > b.clashes && Clashed(k, b, n))
    && (k.quiet ==> Potential(n.world, k.cfg, k.oracle) <= Potential(b.world, k.cfg, k.oracle))
  }

  ghost predicate Claims(k: Terms, b: Books, n: Books, token: Uuid) {
    && token !in b.mine && n.mine == b.mine + {token}
    && token !in b.inFlight && n.inFlight.Keys == b.inFlight.Keys + {token}
    && n.processed == b.processed && n.firstErr == b.firstErr && n.refused == b.refused && n.clashes == b.clashes
    && (k.quiet ==> Potential(n.world, k.cfg, k.oracle) + 1 <= Potential(b.world, k.cfg, k.oracle))
  }

  /** What joining may change besides what waiting may: tasks leave, and an error may show. */
  ghost predicate Joins(k: Terms, b: Books, n: Books) {
    && n.inFlight.Keys <= b.inFlight.Keys && |n.inFlight.Keys| <= |b.inFlight.Keys|
    && n.mine == b.mine && n.refused == b.refused && n.clashes == b.clashes
    && (b.firstErr.Some? ==> n.firstErr == b.firstErr)
    && (forall t | t in b.inFlight && b.inFlight[t] == Finished(false) ::
          n.firstErr.Some? || (t in n.inFlight && n.inFlight[t] == Finished(false)))
    && b.log <= n.log && NoneTaken(n.log, |b.log|, b.mine)
    && b.world.broker.clock <= n.world.broker.clock
    && (k.quiet ==> Potential(n.world, k.cfg, k.oracle) <= Potential(b.world, k.cfg, k.oracle))
    && (k.quiet && b.inFlight == map[] ==> n.world.broker.pending == b.world.broker.pending)
  }

  lemma KeysEmpty(m: map<Uuid, TaskState>)
    ensures m == map[] <==> m.Keys == {}
  {
    if m.Keys == {} {
      assert forall t :: t !in m;
    }
  }

  lemma JoinsSelf(k: Terms, b: Books)
    ensures Joins(k, b, b)
  {
  }

  lemma DriftsKeys(k: Terms, b: Books, n: Books)
    requires Drifts(k, b, n)
    ensures n.inFlight.Keys == b.inFlight.Keys && b.log <= n.log && b.world.broker.clock <= n.world.broker.clock
  {
  }

  lemma NoneTakenSince(k: Terms, b: Books, n: Books)
    requires Drifts(k, b, n)
    ensures NoneTaken(n.log, |b.log|, n.mine)
  {
  }

  /** What the log shows, a longer log shows too. */
  lemma LookedStays(k: Terms, log: seq<Step>, longer: seq<Step>, from: nat, marks: seq<nat>)
    requires Looked(k, log, from, marks) && log <= longer
    ensures Looked(k, longer, from, marks)
  {
    hide Now, Grants;
    forall j | 2 <= j < |marks| ensures EmptyAt(k, longer, marks[j], k.names[j - 2]) {
      assert EmptyAt(k, log, marks[j], k.names[j - 2]);
      assert longer[..marks[j]] == log[..marks[j]];
    }
  }

  lemma LookedMore(k: Terms, log: seq<Step>, longer: seq<Step>, from: nat, marks: seq<nat>)
    requires Looked(k, log, from, marks) && log <= longer && |log| < |longer| && |marks| < |k.names| + 2
    requires EmptyAt(k, longer, |longer| - 1, k.names[|marks| - 2])
    ensures Looked(k, longer, from, marks + [|longer| - 1])
  {
    LookedStays(k, log, longer, from, marks);
    hide EmptyAt;
    assert forall i | 0 <= i < |marks| :: marks[i] < |log| by {
      LookedInLog(k, log, from, marks);
    }
  }

  lemma LookedInLog(k: Terms, log: seq<Step>, from: nat, marks: seq<nat>)
    requires Looked(k, log, from, marks)
    ensures forall i | 0 <= i < |marks| :: marks[i] < |log|
  {
    hide Now, Grants;
    forall i | 0 <= i < |marks| ensures marks[i] < |log| {
      assert i < 2 || EmptyAt(k, log, marks[i], k.names[i - 2]);
    }
  }

  lemma JoinsDrift(k: Terms, a: Books, b: Books, c: Books)
    requires Joins(k, a, b) && Drifts(k, b, c)
    ensures Joins(k, a, c)
  {
    KeysEmpty(a.inFlight);
    KeysEmpty(b.inFlight);
  }

  lemma JoinsOn(k: Terms, a: Books, b: Books, t: Uuid)
    requires Joins(k, a, b) && t in b.inFlight && b.inFlight[t].Finished?
    ensures Joins(k, a, AfterJoin(b, t))
  {
    var n := AfterJoin(b, t);
    assert n.inFlight.Keys == b.inFlight.Keys - {t};
  }

  lemma JoinedJoins(k: Terms, a: Books, b: Books, t: Uuid)
    requires Drifts(k, a, b) && t in b.inFlight && b.inFlight[t].Finished?
    ensures Joins(k, a, AfterJoin(b, t))
  {
    JoinsSelf(k, a);
    JoinsDrift(k, a, a, b);
    JoinsOn(k, a, b, t);
  }

  lemma UnfinishedIsProc(k: Terms, b: Books, t: Uuid, hand: nat)
    requires Balanced(k, b, hand) && t in b.inFlight
    ensures b.inFlight[t].Unfinished? <==> t in b.world.procs
  {
    hide Tracks, Counted, Sensible;
  }

  lemma RankFalls(k: Terms, w: World, step: Step)
    requires MayHappen(k, w, step) && (step.Handle? || step.Store? || step.Settle?)
    ensures Enabled(w, step)
    ensures step.token in Act(w, step).procs ==> Rank(Act(w, step).procs[step.token].pc) < Rank(w.procs[step.token].pc)
  {
    hide Settling, Legal, Permitted;
  }

  lemma EventWorld(k: Terms, b: Books, step: Step, ok: bool)
    requires MayHappen(k, b.world, step)
    ensures Enabled(b.world, step) && Event(k, b, step, ok).world == Act(b.world, step)
              && Event(k, b, step, ok).log == b.log + [step]
  {
    MayHappenEnabled(k, b.world, step);
  }

  lemma DriftsSelf(k: Terms, b: Books)
    ensures Drifts(k, b, b)
  {
  }

  lemma HappenKeeps(k: Terms, a: Books, b: Books, step: Step, ok: bool, hand: nat)
    requires Balanced(k, b, hand) && Drifts(k, a, b) && MayHappen(k, b.world, step)
    ensures Balanced(k, Event(k, b, step, ok), hand) && Drifts(k, a, Event(k, b, step, ok))
  {
    hide Tracks, Tasked, Counted, Drifts, MayHappen, Event;
    EventBalances(k, b, step, ok, hand);
    EventDrifts(k, b, step, ok);
    DriftsOn(k, a, b, Event(k, b, step, ok));
  }
}
