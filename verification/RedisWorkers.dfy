/** Many workers on the Redis broker, command by command: what they store and how often they retry. */
module RedisWorkers {
  import opened Jobs
  import opened BrokerSpec
  import opened BrokerHistory
  import opened Retry
  import R = RedisSpec
  import opened RedisRefinement
  import W = WorkerSpec
  import opened WorkerRuns

  /** A settle whose script has been sent and not answered yet, and the process that sent it. */
  datatype Sent = Sent(call: nat, now: Time, proc: W.Proc)

  /** The database, the results, the processes that are alive, and the settles under way. The settle of
      a process that died may still reach the database. */
  datatype Fleet = Fleet(
    system: R.System,
    results: map<Uuid, W.JobResult>,
    procs: map<Uuid, W.Proc>,
    sent: map<Uuid, Sent>)

  datatype Move =
    | Outside(step: R.Step)
    | Claim(call: nat, queue: string, token: Uuid, expiry: Time, policy: Policy, backend: bool)
    | Handle(token: Uuid, outcome: W.Outcome, delay: Duration)
    | Store(token: Uuid)
    | Request(token: Uuid, call: nat, now: Time)
    | Respond(token: Uuid)
    | Lose(token: Uuid)
    | Crash(token: Uuid)

  const IDLE := Fleet(R.START, map[], map[], map[])

  predicate Settles(pc: W.Pc) {
    pc.Acking? || pc.Nacking? || pc.Burying?
  }

  predicate Enabled(f: Fleet, m: Move) {
    match m
    case Outside(s) =>
      s.Pass? || s.Send? || s.Recovery? || s.Promotion? || s.Mirror?
      || (s.Crash? && s.call in f.system.calls && f.system.calls[s.call].Unmirrored?)
    case Claim(_, _, _, _, _, _) => true
    case Handle(token, _, _) => token in f.procs && f.procs[token].pc.Running?
    case Store(token) => token in f.procs && (f.procs[token].pc.StoringSuccess? || f.procs[token].pc.StoringFailure?)
    case Request(token, _, _) => token in f.procs && Settles(f.procs[token].pc) && token !in f.sent
    case Respond(token) => token in f.sent
    case Lose(token) => token in f.sent
    case Crash(token) => token in f.procs
  }

  /** What the settle of a process asks for. */
  function Asks(p: W.Proc, now: Time): How {
    if Settles(p.pc) then W.HowOf(p.pc, now) else Ack
  }

  /** The command that a move sends to the database, if any. */
  function CommandOf(f: Fleet, m: Move): Option<R.Step>
    requires Enabled(f, m)
  {
    match m
    case Outside(s) => Some(s)
    case Claim(call, queue, token, expiry, _, _) => Some(R.Take(call, queue, token, expiry))
    case Request(token, call, now) => Some(R.Fetch(call, f.procs[token].id, token, Asks(f.procs[token], now)))
    case Respond(token) => Some(R.Finish(f.sent[token].call))
    case Lose(token) => Some(R.Crash(f.sent[token].call))
    case _ => None
  }

  /** The database after the move, and the answer that it gives. */
  function Performed(f: Fleet, m: Move): (R.System, Option<Answer>)
    requires Enabled(f, m)
  {
    match CommandOf(f, m)
    case Some(s) => R.Perform(f.system, s)
    case None => (f.system, None)
  }

  function Next(f: Fleet, m: Move): Fleet
    requires Enabled(f, m)
  {
    var (system, answer) := Performed(f, m);
    match m
    case Outside(_) => f.(system := system)
    case Claim(_, _, token, _, policy, backend) =>
      (match answer
       case Some(Claimed(id, _, count)) =>
         f.(system := system, procs := f.procs[token := W.Proc(id, R.Cast32(count), policy, backend, W.Running)])
       case _ => f.(system := system))
    case Handle(token, outcome, delay) =>
      var p := f.procs[token];
      f.(procs := f.procs[token := p.(pc := W.AfterHandler(p, outcome, delay))])
    case Store(token) =>
      var p := f.procs[token];
      if p.pc.StoringSuccess?
      then f.(results := f.results[p.id := W.Success(p.pc.payload)], procs := f.procs[token := p.(pc := W.Acking)])
      else f.(results := f.results[p.id := W.Failure(p.pc.message)], procs := f.procs - {token})
    case Request(token, call, now) =>
      // Without a body the answer is JobNotFound at once, which is not an error.
      if answer.Some? then f.(system := system, procs := f.procs - {token})
      else f.(system := system, sent := f.sent[token := Sent(call, now, f.procs[token])])
    case Respond(token) =>
      var p := f.sent[token].proc;
      var procs := if token in f.procs && p.pc.Burying? && answer == Some(Settled) && p.backend
                   then f.procs[token := p.(pc := W.StoringFailure(p.pc.message))] else f.procs - {token};
      Fleet(system, f.results, procs, f.sent - {token})
    case Lose(token) => Fleet(system, f.results, f.procs - {token}, f.sent - {token})
    case Crash(token) => f.(procs := f.procs - {token})
  }

  /** The hypotheses: those of the database, a delay that the policy permits, and claim counts that fit
      32 bits. */
  ghost predicate Possible(f: Fleet, m: Move) {
    && Enabled(f, m)
    && (CommandOf(f, m).Some? ==> R.Possible(f.system, CommandOf(f, m).value))
    && (m.Handle? ==> Permitted(f.procs[m.token].policy, f.procs[m.token].attempts, m.delay))
    && (m.Claim? ==> match Performed(f, m).1 case Some(Claimed(_, _, count)) => count <= U32_MAX case _ => true)
  }

  // ---------------------------------------------------------------- the simulation

  /** The processes of the step machine: those alive, and the dead ones whose settle is still under way. */
  function AllProcs(f: Fleet): map<Uuid, W.Proc> {
    map t | t in f.procs.Keys + f.sent.Keys :: if t in f.procs then f.procs[t] else f.sent[t].proc
  }

  /** The steps of the machine that a move amounts to. */
  function Image(f: Fleet, m: Move): seq<W.Step>
    requires Enabled(f, m)
  {
    match m
    case Outside(s) =>
      (match Meaning(f.system, s)
       case Some(op) => [W.Outside(op)]
       case None => [])
    case Claim(_, queue, token, expiry, policy, backend) => [W.Claim(queue, token, expiry, policy, backend)]
    case Handle(token, outcome, delay) => [W.Handle(token, outcome, delay)]
    case Store(token) => [W.Store(token)]
    case Request(token, _, now) => if Performed(f, m).1.Some? then [W.Settle(token, now)] else []
    case Respond(token) =>
      var p := f.sent[token].proc;
      [W.Settle(token, f.sent[token].now)]
      + if token !in f.procs && p.pc.Burying? && p.backend && Performed(f, m).1 == Some(Settled) then [W.Crash(token)]
          else []
    case Lose(token) => [W.Crash(token)]
    case Crash(token) => if token in f.sent then [] else [W.Crash(token)]
  }

  /** A settle under way carries what its process asks for, and no two share a call. */
  ghost predicate SentOk(f: Fleet) {
    && (forall t | t in f.sent ::
          var s := f.sent[t];
          && Settles(s.proc.pc)
          && s.call in f.system.calls && f.system.calls[s.call].Fetched?
          && f.system.calls[s.call].id == s.proc.id && f.system.calls[s.call].token == t
          && f.system.calls[s.call].how == Asks(s.proc, s.now)
          && (t in f.procs ==> f.procs[t] == s.proc))
    && (forall t, u | t in f.sent && u in f.sent && t != u :: f.sent[t].call != f.sent[u].call)
  }

  ghost predicate Matches(f: Fleet, w: W.World) {
    && Rel(f.system, w.broker) && W.ProcsOk(w)
    && w.results == f.results && w.procs == AllProcs(f)
    && SentOk(f)
  }

  lemma IdleMatches()
    ensures Matches(IDLE, W.INITIAL)
  {
    StartRel();
    InitialSound();
    hide Rel;
  }

  /** The run of the machine that starts in this world goes on with these steps, and ends in step. */
  ghost predicate Carried(f: Fleet, w: W.World, m: Move)
    requires Enabled(f, m)
  {
    W.AllowedRun(w, Image(f, m)) && Matches(Next(f, m), W.Now(w, Image(f, m)))
  }

  lemma NoStep(w: W.World)
    ensures W.AllowedRun(w, []) && W.Now(w, []) == w
  {
  }

  lemma OneStep(w: W.World, s: W.Step)
    requires W.Allowed(w, s)
    ensures W.Enabled(w, s) && W.AllowedRun(w, [s]) && W.Now(w, [s]) == W.Act(w, s)
  {
    assert Front([s]) == [];
    NoStep(w);
    hide W.Act;
  }

  lemma TwoSteps(w: W.World, s: W.Step, t: W.Step)
    requires W.Allowed(w, s) && W.Enabled(w, s) && W.Allowed(W.Act(w, s), t)
    ensures W.Enabled(W.Act(w, s), t)
    ensures W.AllowedRun(w, [s] + [t]) && W.Now(w, [s] + [t]) == W.Act(W.Act(w, s), t)
  {
    OneStep(w, s);
    assert Front([s] + [t]) == [s];
    hide W.Act;
  }

  lemma MatchParts(f: Fleet, w: W.World)
    requires Matches(f, w)
    ensures Inv(w.broker) && Rel(f.system, w.broker) && W.ProcsOk(w)
    ensures w == W.World(w.broker, f.results, AllProcs(f)) && SentOk(f)
  {
    RelInv(f.system, w.broker);
  }

  /** The command of a move does what the contract says. */
  lemma CommandSimulates(f: Fleet, w: W.World, m: Move)
    requires Matches(f, w) && Possible(f, m) && CommandOf(f, m).Some?
    ensures Simulated(f.system, w.broker, CommandOf(f, m).value)
  {
    hide Rel, Simulated, R.Possible;
    StepSimulates(f.system, w.broker, CommandOf(f, m).value);
  }

  /** Steps outside the settles under way leave them alone. */
  lemma SentStays(f: Fleet, n: Fleet)
    requires SentOk(f) && n.sent == f.sent
    requires forall t | t in f.sent && t in n.procs :: t in f.procs && n.procs[t] == f.procs[t]
    requires forall i | i in f.system.calls && f.system.calls[i].Fetched? :: i in n.system.calls
              && n.system.calls[i] == f.system.calls[i]
    ensures SentOk(n)
  {
  }

  /** What each command does to the calls under way. */
  lemma CallsMove(c: R.System, s: R.Step)
    requires R.Possible(c, s)
    ensures var n := R.Perform(c, s).0;
            && (!s.Finish? && (s.Crash? ==> c.calls[s.call].Unmirrored?) ==>
                  forall i | i in c.calls && c.calls[i].Fetched? :: i in n.calls && n.calls[i] == c.calls[i])
            && (s.Finish? || s.Crash? ==> n.calls == c.calls - {s.call})
            && (s.Fetch? && s.id in c.store.bodies ==>
                  n.calls == c.calls[s.call := R.Fetched(s.id, s.token, s.how, c.store.bodies[s.id].queue)])
            && (s.Fetch? && s.id !in c.store.bodies ==> n == c)
  {
    hide R.EnqueueScript, R.RecoverScript, R.PromoteScript, R.ClaimScript, R.SettleScript, R.Range, R.MaySend;
  }

  lemma OutsideCarried(f: Fleet, w: W.World, m: Move)
    requires Matches(f, w) && Possible(f, m) && m.Outside?
    ensures Carried(f, w, m)
  {
    hide Matches, Rel, Inv, W.ProcsOk, SentOk, AllProcs, Carried, R.Perform, R.Possible, Apply, Legal;
    MatchParts(f, w);
    CommandSimulates(f, w, m);
    CallsMove(f.system, m.step);
    var n := Next(f, m);
    SentStays(f, n);
    AllProcsSame(f, n);
    match Meaning(f.system, m.step)
    case None => CarriedByNone(f, w, m);
    case Some(op) => CarriedByOne(f, w, m, W.Outside(op));
  }

  lemma AllProcsSet(f: Fleet, n: Fleet, token: Uuid, p: W.Proc)
    requires n.procs == f.procs[token := p] && n.sent == f.sent
    ensures AllProcs(n) == AllProcs(f)[token := p]
  {
  }

  /** Both sides of a claim. */
  lemma ClaimAgrees(f: Fleet, w: W.World, m: Move)
    requires Matches(f, w) && Possible(f, m) && m.Claim?
    ensures var n, pop := Next(f, m), Popping(w.broker, m.queue, m.token, m.expiry);
            && Legal(w.broker, Pop(m.queue, m.token, m.expiry))
            && n == Fleet(n.system, f.results, n.procs, f.sent) && Rel(n.system, pop.next)
            && if pop.answer.Claimed?
               then n.procs == f.procs[m.token := W.Proc(pop.answer.id, Min(pop.answer.count, U32_MAX), m.policy,
                   m.backend, W.Running)]
               else n.procs == f.procs && pop.next == w.broker
  {
    hide Rel, R.Perform, R.Possible;
    CommandSimulates(f, w, m);
    assert Observed(Popping(w.broker, m.queue, m.token, m.expiry).answer) == Performed(f, m).1;
  }

  lemma ClaimCarried(f: Fleet, w: W.World, m: Move)
    requires Matches(f, w) && Possible(f, m) && m.Claim?
    ensures Carried(f, w, m)
  {
    var n, step := Next(f, m), W.Claim(m.queue, m.token, m.expiry, m.policy, m.backend);
    var pop := Popping(w.broker, m.queue, m.token, m.expiry);
    MatchParts(f, w);
    ClaimAgrees(f, w, m);
    ClaimKeepsSent(f, w, m);
    hide Matches, Next, Rel, R.Perform, R.ClaimScript, Inv, W.ProcsOk, Popping, R.Possible, SentOk, AllProcs, W.Now,
        W.AllowedRun;
    hide Possible, CommandOf, Meaning;
    ClaimActs(w, step);
    OneStep(w, step);
    W.ProcsStayOk(w, step);
    hide W.Act, W.Allowed;
    if pop.answer.Claimed? {
      AllProcsSet(f, n, m.token, n.procs[m.token]);
    } else {
      AllProcsSame(f, n);
    }
    MatchIs(n, W.Act(w, step));
  }

  lemma ClaimActs(w: W.World, step: W.Step)
    requires step.Claim? && Legal(w.broker, Pop(step.queue, step.token, step.expiry))
    ensures W.Allowed(w, step)
    ensures var pop := Popping(w.broker, step.queue, step.token, step.expiry);
            W.Act(w, step) == if pop.answer.Claimed?
                              then W.World(pop.next, w.results,
                                           w.procs[step.token := W.Proc(pop.answer.id, Min(pop.answer.count, U32_MAX),
                                                                        step.policy, step.backend, W.Running)])
                              else w
  {
    hide Popping;
  }

  lemma AllProcsSame(f: Fleet, n: Fleet)
    requires n.procs == f.procs && n.sent == f.sent
    ensures AllProcs(n) == AllProcs(f)
  {
  }

  lemma MatchIs(f: Fleet, w: W.World)
    requires Rel(f.system, w.broker) && W.ProcsOk(w) && SentOk(f) && w == W.World(w.broker, f.results, AllProcs(f))
    ensures Matches(f, w)
  {
  }

  lemma ClaimKeepsSent(f: Fleet, w: W.World, m: Move)
    requires Matches(f, w) && Possible(f, m) && m.Claim?
    ensures SentOk(Next(f, m))
  {
    hide Rel, Inv, W.ProcsOk, Popping, Legal;
    MatchParts(f, w);
    TokenIsNew(w, m.token);
    ClaimAgrees(f, w, m);
    CallsMove(f.system, CommandOf(f, m).value);
    hide R.Perform;
    assert m.token !in f.sent by {
      hide SentOk, R.Possible, CommandOf;
      assert m.token !in AllProcs(f);
    }
    hide AllProcs;
    SentStays(f, Next(f, m));
  }

  lemma TokenIsNew(w: W.World, token: Uuid)
    requires W.ProcsOk(w)
    ensures token !in w.broker.issued ==> token !in w.procs
  {
    if token in w.procs {
      assert W.ProcOk(w.broker, token, w.procs[token]);
    }
  }

  lemma AllProcsDrop(f: Fleet, n: Fleet, token: Uuid)
    requires n.procs == f.procs - {token} && n.sent == f.sent - {token}
    ensures AllProcs(n) == AllProcs(f) - {token}
  {
  }

  /** A process that is not settling is in the machine as it is. */
  lemma Undisturbed(f: Fleet, w: W.World, token: Uuid)
    requires Matches(f, w) && token in f.procs
    ensures token in w.procs && w.procs[token] == f.procs[token]
    ensures !Settles(f.procs[token].pc) ==> token !in f.sent
  {
  }

  /** A move that is one step of the machine. */
  lemma CarriedByOne(f: Fleet, w: W.World, m: Move, step: W.Step)
    requires Enabled(f, m) && Image(f, m) == [step]
    requires Inv(w.broker) && W.ProcsOk(w) && W.Allowed(w, step) && W.Enabled(w, step)
    requires var n, v := Next(f, m), W.Act(w, step);
             Rel(n.system, v.broker) && SentOk(n) && v == W.World(v.broker, n.results, AllProcs(n))
    ensures Carried(f, w, m)
  {
    hide Matches, Next, Image, Rel, Inv, W.ProcsOk, SentOk, AllProcs, W.Now, W.AllowedRun, W.Allowed, W.Enabled, W.Act;
    OneStep(w, step);
    W.ProcsStayOk(w, step);
    MatchIs(Next(f, m), W.Act(w, step));
  }

  /** A move that the machine does not see. */
  lemma CarriedByNone(f: Fleet, w: W.World, m: Move)
    requires Matches(f, w) && Enabled(f, m) && Image(f, m) == []
    requires var n := Next(f, m);
             Rel(n.system, w.broker) && SentOk(n) && n.results == f.results && AllProcs(n) == AllProcs(f)
    ensures Carried(f, w, m)
  {
    MatchParts(f, w);
    hide Matches, Next, Image, Rel, Inv, W.ProcsOk, SentOk, AllProcs, W.Now, W.AllowedRun;
    NoStep(w);
    MatchIs(Next(f, m), w);
  }

  lemma HandleCarried(f: Fleet, w: W.World, m: Move)
    requires Matches(f, w) && Possible(f, m) && m.Handle?
    ensures Carried(f, w, m)
  {
    hide Matches, Rel, Inv, W.ProcsOk, SentOk, AllProcs, Carried, Permitted, W.AfterHandler;
    MatchParts(f, w);
    Undisturbed(f, w, m.token);
    var n := Next(f, m);
    SentStays(f, n);
    AllProcsSet(f, n, m.token, n.procs[m.token]);
    CarriedByOne(f, w, m, W.Handle(m.token, m.outcome, m.delay));
  }

  lemma StoreCarried(f: Fleet, w: W.World, m: Move)
    requires Matches(f, w) && Possible(f, m) && m.Store?
    ensures Carried(f, w, m)
  {
    hide Matches, Rel, Inv, W.ProcsOk, SentOk, AllProcs, Carried;
    MatchParts(f, w);
    Undisturbed(f, w, m.token);
    var n := Next(f, m);
    SentStays(f, n);
    if f.procs[m.token].pc.StoringSuccess? {
      AllProcsSet(f, n, m.token, n.procs[m.token]);
    } else {
      assert n.sent == f.sent - {m.token};
      AllProcsDrop(f, n, m.token);
    }
    CarriedByOne(f, w, m, W.Store(m.token));
  }

  lemma CrashCarried(f: Fleet, w: W.World, m: Move)
    requires Matches(f, w) && Possible(f, m) && m.Crash?
    ensures Carried(f, w, m)
  {
    hide Matches, Rel, Inv, W.ProcsOk, SentOk, AllProcs, Carried;
    MatchParts(f, w);
    Undisturbed(f, w, m.token);
    var n := Next(f, m);
    SentStays(f, n);
    if m.token in f.sent {
      GhostStays(f, n, m.token);
      CarriedByNone(f, w, m);
    } else {
      assert n.sent == f.sent - {m.token};
      AllProcsDrop(f, n, m.token);
      CrashActs(w, m.token);
      CarriedByOne(f, w, m, W.Crash(m.token));
    }
  }

  /** A process that dies while its settle is under way stays in the machine. */
  lemma GhostStays(f: Fleet, n: Fleet, token: Uuid)
    requires SentOk(f) && token in f.sent && token in f.procs && n.procs == f.procs - {token} && n.sent == f.sent
    ensures AllProcs(n) == AllProcs(f)
  {
  }

  /** A settle under way, its process in the machine, and its call. */
  lemma UnderWay(f: Fleet, w: W.World, token: Uuid)
    requires Matches(f, w) && token in f.sent
    ensures var s := f.sent[token];
            && token in w.procs && w.procs[token] == s.proc && Settles(s.proc.pc)
            && s.call in f.system.calls && f.system.calls[s.call].Fetched?
            && f.system.calls[s.call].id == s.proc.id && f.system.calls[s.call].token == token
            && f.system.calls[s.call].how == W.HowOf(s.proc.pc, s.now)
  {
  }

  lemma SentEnds(f: Fleet, n: Fleet, token: Uuid)
    requires SentOk(f) && token in f.sent && n.sent == f.sent - {token}
    requires n.system.calls == f.system.calls - {f.sent[token].call}
    requires forall t | t in n.sent && t in n.procs :: t in f.procs && n.procs[t] == f.procs[t]
    ensures SentOk(n)
  {
  }

  lemma LoseCarried(f: Fleet, w: W.World, m: Move)
    requires Matches(f, w) && Possible(f, m) && m.Lose?
    ensures Carried(f, w, m)
  {
    hide Matches, Rel, Inv, W.ProcsOk, SentOk, AllProcs, Carried, R.Perform, R.Possible;
    MatchParts(f, w);
    UnderWay(f, w, m.token);
    CommandSimulates(f, w, m);
    CallsMove(f.system, CommandOf(f, m).value);
    var n := Next(f, m);
    SentEnds(f, n, m.token);
    AllProcsDrop(f, n, m.token);
    CrashActs(w, m.token);
    CarriedByOne(f, w, m, W.Crash(m.token));
  }

  /** What a settle does to the machine. */
  lemma SettleActs(w: W.World, token: Uuid, now: Time)
    requires token in w.procs && Settles(w.procs[token].pc)
    ensures var p, step := w.procs[token], W.Settle(token, now);
            var reply := Settling(w.broker, p.id, token, W.HowOf(p.pc, now));
            && W.Allowed(w, step)
            && W.Act(w, step) == W.World(reply.next, w.results,
                                         if p.pc.Burying? && reply.answer.Settled? && p.backend
                                         then w.procs[token := p.(pc := W.StoringFailure(p.pc.message))]
                                             else w.procs - {token})
  {
    hide Settling;
  }

  lemma NotFoundChangesNothing(s: State, id: Uuid, token: Uuid, how: How)
    ensures Settling(s, id, token, how).answer.Settled? || Settling(s, id, token, how) == Reply(s, JobNotFound)
  {
  }

  /** A request finds no body, which is the machine's lost settle, or leaves a settle under way. */
  lemma RequestAgrees(f: Fleet, w: W.World, m: Move)
    requires Matches(f, w) && Possible(f, m) && m.Request?
    ensures var n, p := Next(f, m), f.procs[m.token];
            if Performed(f, m).1.Some?
            then n == f.(procs := f.procs - {m.token})
                 && Settling(w.broker, p.id, m.token, W.HowOf(p.pc, m.now)) == Reply(w.broker, JobNotFound)
            else Rel(n.system, w.broker)
                 && n == f.(system := n.system, sent := f.sent[m.token := Sent(m.call, m.now, p)])
                 && p.id in f.system.store.bodies
  {
    hide Matches, Rel, Inv, W.ProcsOk, SentOk, AllProcs, Settling, Legal;
    CommandSimulates(f, w, m);
    NotFoundChangesNothing(w.broker, f.procs[m.token].id, m.token, W.HowOf(f.procs[m.token].pc, m.now));
  }

  lemma SentGrows(f: Fleet, n: Fleet, token: Uuid, s: Sent, queue: string)
    requires SentOk(f) && token !in f.sent && n.sent == f.sent[token := s] && n.procs == f.procs
    requires token in f.procs && f.procs[token] == s.proc && Settles(s.proc.pc) && s.call !in f.system.calls
    requires n.system.calls == f.system.calls[s.call := R.Fetched(s.proc.id, token, Asks(s.proc, s.now), queue)]
    ensures SentOk(n)
  {
  }

  lemma AllProcsAsSent(f: Fleet, n: Fleet, token: Uuid, s: Sent)
    requires token in f.procs && n.procs == f.procs && n.sent == f.sent[token := s]
    ensures AllProcs(n) == AllProcs(f)
  {
  }

  lemma RequestCarried(f: Fleet, w: W.World, m: Move)
    requires Matches(f, w) && Possible(f, m) && m.Request?
    ensures Carried(f, w, m)
  {
    hide Matches, Rel, Inv, W.ProcsOk, SentOk, AllProcs, Carried, R.Perform, Settling, W.Act, W.Allowed;
    MatchParts(f, w);
    Undisturbed(f, w, m.token);
    RequestAgrees(f, w, m);
    var n := Next(f, m);
    CallsMove(f.system, CommandOf(f, m).value);
    hide Next, R.Possible;
    if Performed(f, m).1.Some? {
      SettleActs(w, m.token, m.now);
      SentStays(f, n);
      assert n.sent == f.sent - {m.token};
      AllProcsDrop(f, n, m.token);
      CarriedByOne(f, w, m, W.Settle(m.token, m.now));
    } else {
      var p := f.procs[m.token];
      SentGrows(f, n, m.token, Sent(m.call, m.now, p), f.system.store.bodies[p.id].queue);
      AllProcsAsSent(f, n, m.token, Sent(m.call, m.now, p));
      CarriedByNone(f, w, m);
    }
  }

  lemma RespondAgrees(f: Fleet, w: W.World, m: Move)
    requires Matches(f, w) && Possible(f, m) && m.Respond?
    ensures var n, s := Next(f, m), f.sent[m.token];
            var reply := Settling(w.broker, s.proc.id, m.token, W.HowOf(s.proc.pc, s.now));
            && Rel(n.system, reply.next) && Performed(f, m).1 == Some(reply.answer) && SentOk(n)
            && n.results == f.results && n.sent == f.sent - {m.token}
            && n.procs == if m.token in f.procs && s.proc.pc.Burying? && reply.answer.Settled? && s.proc.backend
                          then f.procs[m.token := s.proc.(pc := W.StoringFailure(s.proc.pc.message))]
                              else f.procs - {m.token}
  {
    hide Matches, Rel, Inv, W.ProcsOk, SentOk, AllProcs, Settling, Legal, R.Perform;
    MatchParts(f, w);
    UnderWay(f, w, m.token);
    CommandSimulates(f, w, m);
    CallsMove(f.system, CommandOf(f, m).value);
    SentEnds(f, Next(f, m), m.token);
    var s := f.sent[m.token];
    NotFoundChangesNothing(w.broker, s.proc.id, m.token, W.HowOf(s.proc.pc, s.now));
  }

  /** The process goes on to store the failure, or is gone. */
  lemma AllProcsAfter(f: Fleet, n: Fleet, token: Uuid, p: W.Proc)
    requires n.sent == f.sent - {token}
    ensures n.procs == f.procs[token := p] ==> AllProcs(n) == AllProcs(f)[token := p]
    ensures n.procs == f.procs - {token} ==> AllProcs(n) == AllProcs(f) - {token}
  {
  }

  lemma RespondCarried(f: Fleet, w: W.World, m: Move)
    requires Matches(f, w) && Possible(f, m) && m.Respond?
    ensures Carried(f, w, m)
  {
    hide Matches, Rel, Inv, W.ProcsOk, SentOk, AllProcs, Carried, Performed, R.Possible, Settling, W.Act, W.Allowed,
        W.Enabled;
    MatchParts(f, w);
    UnderWay(f, w, m.token);
    RespondAgrees(f, w, m);
    var n, s := Next(f, m), f.sent[m.token];
    var step := W.Settle(m.token, s.now);
    var failing := s.proc.(pc := W.StoringFailure(if s.proc.pc.Burying? then s.proc.pc.message else ""));
    SettleActs(w, m.token, s.now);
    AllProcsAfter(f, n, m.token, failing);
    hide Next;
    AllowedIsEnabled(w, step);
    if m.token !in f.procs && m.token in W.Act(w, step).procs {
      CarriedByTwo(f, w, m, step);
    } else {
      CarriedByOne(f, w, m, step);
    }
  }

  lemma AllowedIsEnabled(w: W.World, step: W.Step)
    requires W.Allowed(w, step)
    ensures W.Enabled(w, step)
  {
  }

  /** The settle of a dead process: the machine's process settles and then dies. */
  lemma CarriedByTwo(f: Fleet, w: W.World, m: Move, step: W.Step)
    requires Enabled(f, m) && m.Respond? && Image(f, m) == [step] + [W.Crash(m.token)]
    requires Inv(w.broker) && W.ProcsOk(w) && W.Allowed(w, step) && W.Enabled(w, step)
              && m.token in W.Act(w, step).procs
    requires var n, v := Next(f, m), W.Act(w, step);
             Rel(n.system, v.broker) && SentOk(n) && n.results == v.results && AllProcs(n) == v.procs - {m.token}
    ensures Carried(f, w, m)
  {
    hide Matches, Next, Image, Rel, Inv, W.ProcsOk, SentOk, AllProcs, W.Now, W.AllowedRun, W.Allowed, W.Enabled, W.Act;
    var v, last := W.Act(w, step), W.Crash(m.token);
    CrashActs(v, m.token);
    TwoSteps(w, step, last);
    ActKeepsInv(w, step);
    W.ProcsStayOk(w, step);
    W.ProcsStayOk(v, last);
    MatchIs(Next(f, m), W.Act(v, last));
  }

  lemma ActKeepsInv(w: W.World, step: W.Step)
    requires Inv(w.broker) && W.Allowed(w, step)
    ensures W.Enabled(w, step) && Inv(W.Act(w, step).broker)
  {
    W.BrokerStep(w, step);
  }

  lemma CrashActs(w: W.World, token: Uuid)
    requires token in w.procs
    ensures W.Allowed(w, W.Crash(token)) && W.Enabled(w, W.Crash(token))
    ensures W.Act(w, W.Crash(token)) == w.(procs := w.procs - {token})
  {
  }

  /** Forward simulation of every move. */
  lemma MoveCarried(f: Fleet, w: W.World, m: Move)
    requires Matches(f, w) && Possible(f, m)
    ensures Carried(f, w, m)
  {
    hide Matches, Possible, Carried;
    PossibleIsEnabled(f, m);
    match m
    case Outside(_) => OutsideCarried(f, w, m);
    case Claim(_, _, _, _, _, _) => ClaimCarried(f, w, m);
    case Handle(_, _, _) => HandleCarried(f, w, m);
    case Store(_) => StoreCarried(f, w, m);
    case Request(_, _, _) => RequestCarried(f, w, m);
    case Respond(_) => RespondCarried(f, w, m);
    case Lose(_) => LoseCarried(f, w, m);
    case Crash(_) => CrashCarried(f, w, m);
  }

  lemma PossibleIsEnabled(f: Fleet, m: Move)
    requires Possible(f, m)
    ensures Enabled(f, m)
  {
  }

  // ---------------------------------------------------------------- runs

  function Reached(moves: seq<Move>): Fleet {
    if moves == [] then IDLE
    else
      var f := Reached(Front(moves));
      if Enabled(f, Last(moves)) then Next(f, Last(moves)) else f
  }

  ghost predicate PossibleRun(moves: seq<Move>) {
    moves == [] || (PossibleRun(Front(moves)) && Possible(Reached(Front(moves)), Last(moves)))
  }

  /** The run of the step machine that a run of the fleet amounts to. */
  function Log(moves: seq<Move>): seq<W.Step> {
    if moves == [] then []
    else
      var f := Reached(Front(moves));
      Log(Front(moves)) + if Enabled(f, Last(moves)) then Image(f, Last(moves)) else []
  }

  /** Refinement: every interleaving of many workers on the Redis broker, with processes that die and
      requests that arrive late or never, is an allowed run of the step machine with the same results. */
  lemma {:induction false} FleetRefines(moves: seq<Move>)
    requires PossibleRun(moves)
    ensures W.AllowedRun(W.INITIAL, Log(moves)) && Matches(Reached(moves), W.Now(W.INITIAL, Log(moves)))
  {
    hide Matches, Possible, Enabled, Next, Image, W.AllowedRun, W.Now;
    NoStep(W.INITIAL);
    if moves == [] {
      IdleMatches();
    } else {
      var front, last := Front(moves), Last(moves);
      FleetRefines(front);
      PossibleIsEnabled(Reached(front), last);
      MoveCarried(Reached(front), W.Now(W.INITIAL, Log(front)), last);
      NowConcat(W.INITIAL, Log(front), Image(Reached(front), last));
    }
  }

  lemma {:induction false} LogGrows(moves: seq<Move>, more: seq<Move>) returns (steps: seq<W.Step>)
    requires PossibleRun(moves + more)
    ensures PossibleRun(moves) && Log(moves + more) == Log(moves) + steps
  {
    hide Possible, Enabled, Next, Image;
    if more == [] {
      assert moves + more == moves;
      steps := [];
    } else {
      assert Front(moves + more) == moves + Front(more) && Last(moves + more) == Last(more);
      steps := LogGrows(moves, Front(more));
      var f := Reached(moves + Front(more));
      steps := steps + if Enabled(f, Last(more)) then Image(f, Last(more)) else [];
    }
  }

  // ---------------------------------------------------------------- results

  /** A dead job of the contract is a dead letter of the database. */
  lemma DeadIsListed(c: R.System, a: State, id: Uuid)
    requires Rel(c, a) && IsDead(a, id)
    ensures id in c.store.bodies && id in c.store.reasons && id in At(c.store.dead, c.store.bodies[id].queue)
  {
    Listed(a, a.jobs[id].job.queue, id);
    hide Inv, LeaseRel, DelayRel, CountRel;
  }

  /** A stored failure belongs to a dead letter, with body and reason, in every reachable database. */
  lemma FailureIsBuried(moves: seq<Move>, id: Uuid)
    requires PossibleRun(moves)
    requires id in Reached(moves).results && Reached(moves).results[id].Failure?
    ensures var r := Reached(moves).system.store;
            id in r.bodies && id in r.reasons && id in At(r.dead, r.bodies[id].queue)
  {
    hide PossibleRun, Log, Reached, Matches, W.AllowedRun, W.Now, Rel, IsDead, IsAcked;
    FleetRefines(moves);
    var w := W.Now(W.INITIAL, Log(moves));
    MatchParts(Reached(moves), w);
    assert [] + Log(moves) == Log(moves);
    FailureMeansDead([], Log(moves), id);
    DeadIsListed(Reached(moves).system, w.broker, id);
  }

  /** The move in which the database confirms the acknowledgement of a job. */
  predicate Acknowledges(f: Fleet, m: Move, id: Uuid) {
    && m.Respond? && m.token in f.sent && f.sent[m.token].proc.pc.Acking? && f.sent[m.token].proc.id == id
    && Performed(f, m).1 == Some(Settled)
  }

  lemma AcknowledgedInMachine(f: Fleet, w: W.World, m: Move, id: Uuid)
    requires Matches(f, w) && Possible(f, m) && Acknowledges(f, m, id)
    ensures Enabled(f, m) && IsAcked(W.Now(w, Image(f, m)).broker, id)
  {
    hide Matches, Rel, Inv, W.ProcsOk, SentOk, Performed, R.Possible, Next;
    UnderWay(f, w, m.token);
    RespondAgrees(f, w, m);
    SettleActs(w, m.token, f.sent[m.token].now);
    OneStep(w, W.Settle(m.token, f.sent[m.token].now));
    AckIsAcked(w.broker, id, m.token);
    hide W.Now, W.Act, W.Allowed, Settling;
  }

  lemma AckIsAcked(s: State, id: Uuid, token: Uuid)
    ensures Settling(s, id, token, Ack).answer.Settled? ==> IsAcked(Settling(s, id, token, Ack).next, id)
  {
  }

  /** Every claim's worker stores results. */
  predicate AllBacked(moves: seq<Move>) {
    forall i | 0 <= i < |moves| && moves[i].Claim? :: moves[i].backend
  }

  lemma {:induction false} LogBacked(moves: seq<Move>)
    requires AllBacked(moves)
    ensures AllStore(Log(moves))
  {
    hide Next, Performed;
    if moves != [] {
      assert AllBacked(Front(moves)) && (Last(moves).Claim? ==> Last(moves).backend);
      LogBacked(Front(moves));
    }
  }

  lemma LogOfOneMore(moves: seq<Move>, m: Move)
    requires Enabled(Reached(moves), m)
    ensures Log(moves + [m]) == Log(moves) + Image(Reached(moves), m)
  {
    hide Next, Image, Enabled;
    assert Front(moves + [m]) == moves && Last(moves + [m]) == m;
  }

  lemma RelStore(c: R.System, a: State)
    requires Rel(c, a)
    ensures StoreRel(c.store, a)
  {
  }

  /** Once the database confirmed an acknowledgement, the job is in no list and no sorted set, its result
      is never a failure, and if every worker stores results it is a success, in every later state. */
  lemma AcknowledgedForGood(earlier: seq<Move>, m: Move, later: seq<Move>, id: Uuid)
    requires PossibleRun(earlier + [m] + later) && Acknowledges(Reached(earlier), m, id)
    ensures var f := Reached(earlier + [m] + later);
            && !R.Tracked(f.system.store, id)
            && !(id in f.results && f.results[id].Failure?)
            && (AllBacked(earlier + [m] + later) ==> id in f.results && f.results[id].Success?)
  {
    hide Possible, Enabled, Next, Image, Matches, W.AllowedRun, W.Now, Rel, Inv, Acknowledges, Log, AllBacked, AllStore,
         R.Tracked, StoreRel;
    var all, w := earlier + [m] + later, W.Now(W.INITIAL, Log(earlier));
    var more := LogGrows(earlier + [m], later);
    assert Front(earlier + [m]) == earlier && Last(earlier + [m]) == m;
    FleetRefines(earlier);
    FleetRefines(all);
    PossibleIsEnabled(Reached(earlier), m);
    AcknowledgedInMachine(Reached(earlier), w, m, id);
    LogOfOneMore(earlier, m);
    NowConcat(W.INITIAL, Log(earlier), Image(Reached(earlier), m));
    var n := W.Now(W.INITIAL, Log(all));
    MatchParts(Reached(all), n);
    AckedIsNeverFailure(Log(earlier + [m]), more, id);
    RelStore(Reached(all).system, n.broker);
    TrackedIff(Reached(all).system.store, n.broker, id);
    if AllBacked(all) {
      LogBacked(all);
      AckedStaysSuccess(Log(earlier + [m]), more, id);
    }
  }

  // ---------------------------------------------------------------- retries

  /** The move in which the database puts a job aside for another attempt. */
  predicate Retries(f: Fleet, m: Move, id: Uuid) {
    && m.Respond? && m.token in f.sent && f.sent[m.token].proc.pc.Nacking? && f.sent[m.token].proc.id == id
    && Performed(f, m).1 == Some(Settled)
  }

  function DelayAsked(f: Fleet, m: Move, id: Uuid): nat {
    if Retries(f, m, id) then f.sent[m.token].proc.pc.delay else 0
  }

  function RetryCount(moves: seq<Move>, id: Uuid): nat {
    if moves == [] then 0
    else RetryCount(Front(moves), id) + One(Retries(Reached(Front(moves)), Last(moves), id))
  }

  function DelaysAsked(moves: seq<Move>, id: Uuid): nat {
    if moves == [] then 0
    else DelaysAsked(Front(moves), id) + DelayAsked(Reached(Front(moves)), Last(moves), id)
  }

  lemma NackOfOne(w: W.World, s: W.Step, id: Uuid)
    ensures NackCount(w, [s], id) == One(Nacks(w, s, id))
    ensures Backoff(w, [s], id) == if Nacks(w, s, id) then w.procs[s.token].pc.delay else 0
  {
    assert Front([s]) == [] && Last([s]) == s;
    assert NackCount(w, [], id) == 0 && Backoff(w, [], id) == 0 && W.Now(w, []) == w;
    hide Nacks;
  }

  lemma OwnsIffSettles(s: State, id: Uuid, token: Uuid, how: How)
    ensures Settling(s, id, token, how).answer.Settled? <==> Owns(s, id, token)
  {
  }

  lemma RespondRetries(f: Fleet, w: W.World, m: Move, id: Uuid)
    requires Matches(f, w) && Possible(f, m) && m.Respond?
    ensures var step := W.Settle(m.token, f.sent[m.token].now);
            && (Nacks(w, step, id) <==> Retries(f, m, id))
            && (Retries(f, m, id) ==> w.procs[m.token].pc.delay == DelayAsked(f, m, id))
            && Image(f, m)[0] == step && (|Image(f, m)| == 1
                 || (!Retries(f, m, id) && Image(f, m) == [step] + [W.Crash(m.token)]))
  {
    hide Matches, Performed, Next, Settling, Owns;
    UnderWay(f, w, m.token);
    RespondAgrees(f, w, m);
    var s := f.sent[m.token];
    OwnsIffSettles(w.broker, s.proc.id, m.token, W.HowOf(s.proc.pc, s.now));
  }

  lemma RequestNacksNot(f: Fleet, w: W.World, m: Move, id: Uuid)
    requires Matches(f, w) && Possible(f, m) && m.Request? && Performed(f, m).1.Some?
    ensures !Nacks(w, W.Settle(m.token, m.now), id)
  {
    hide Performed, Next, Settling;
    Undisturbed(f, w, m.token);
    hide Matches;
    RequestAgrees(f, w, m);
    OwnsIffSettles(w.broker, f.procs[m.token].id, m.token, W.HowOf(f.procs[m.token].pc, m.now));
  }

  /** The machine counts a retry exactly when the database confirms one. */
  lemma ImageRetries(f: Fleet, w: W.World, m: Move, id: Uuid)
    requires Matches(f, w) && Possible(f, m)
    ensures Enabled(f, m)
    ensures NackCount(w, Image(f, m), id) == One(Retries(f, m, id))
    ensures Backoff(w, Image(f, m), id) == DelayAsked(f, m, id)
  {
    hide Matches, Possible, Performed, Next, NackCount, Backoff, Nacks;
    PossibleIsEnabled(f, m);
    NackOfNone(w, id);
    var image := Image(f, m);
    if m.Respond? {
      RespondRetries(f, w, m, id);
      NackOfOne(w, image[0], id);
      if |image| == 2 {
        NackConcat(w, [image[0]], [image[1]], id);
        NackOfOne(W.Now(w, [image[0]]), image[1], id);
        CrashNacksNot(W.Now(w, [image[0]]), m.token, id);
      } else {
        assert image == [image[0]];
      }
    } else if image != [] {
      assert image == [image[0]];
      NackOfOne(w, image[0], id);
      if m.Request? {
        RequestNacksNot(f, w, m, id);
      } else {
        OthersNackNot(w, image[0], id);
      }
    }
  }

  lemma NackOfNone(w: W.World, id: Uuid)
    ensures NackCount(w, [], id) == 0 && Backoff(w, [], id) == 0
  {
  }

  lemma CrashNacksNot(w: W.World, token: Uuid, id: Uuid)
    ensures !Nacks(w, W.Crash(token), id)
  {
  }

  lemma OthersNackNot(w: W.World, s: W.Step, id: Uuid)
    requires !s.Settle?
    ensures !Nacks(w, s, id)
  {
  }

  lemma {:induction false} RetriesAgree(moves: seq<Move>, id: Uuid)
    requires PossibleRun(moves)
    ensures NackCount(W.INITIAL, Log(moves), id) == RetryCount(moves, id)
    ensures Backoff(W.INITIAL, Log(moves), id) == DelaysAsked(moves, id)
  {
    hide Possible, Enabled, Next, Image, NackCount, Backoff, Retries, DelayAsked, Matches, W.Now, W.AllowedRun;
    NackOfNone(W.INITIAL, id);
    if moves != [] {
      var f := Reached(Front(moves));
      RetriesAgree(Front(moves), id);
      FleetRefines(Front(moves));
      ImageRetries(f, W.Now(W.INITIAL, Log(Front(moves))), Last(moves), id);
      NackConcat(W.INITIAL, Log(Front(moves)), Image(f, Last(moves)), id);
    }
  }

  /** All workers share one policy. */
  predicate AllUse(moves: seq<Move>, policy: Policy) {
    forall i | 0 <= i < |moves| && moves[i].Claim? :: moves[i].policy == policy
  }

  lemma {:induction false} LogFollows(moves: seq<Move>, policy: Policy)
    requires AllUse(moves, policy)
    ensures AllFollow(Log(moves), policy)
  {
    hide Next, Performed;
    if moves != [] {
      assert AllUse(Front(moves), policy) && (Last(moves).Claim? ==> Last(moves).policy == policy);
      LogFollows(Front(moves), policy);
    }
  }

  /** Over any run of workers that share a policy, the database confirms at most max_attempts - 1 retries
      of a job, and the delays asked for stay within the backoff budget. */
  lemma FleetRetryBudget(moves: seq<Move>, id: Uuid, policy: Policy)
    requires PossibleRun(moves) && AllUse(moves, policy)
    ensures RetryCount(moves, id) <= SaturatingPred(policy.maxAttempts)
    ensures DelaysAsked(moves, id) <= BackoffBudget(policy, policy.maxAttempts)
  {
    hide PossibleRun, Log, Matches, AllUse, AllFollow, W.AllowedRun, W.Now, BackoffBudget, Reached;
    FleetRefines(moves);
    LogFollows(moves, policy);
    RetriesAgree(moves, id);
    RetryBudget(Log(moves), id, policy);
  }

  /** Where the database keeps a job that the contract has put aside or made ready. */
  lemma PlaceInStore(c: R.System, a: State, id: Uuid)
    requires Rel(c, a) && id in a.jobs
    ensures !a.jobs[id].place.Acked? ==> id in c.store.bodies && c.store.bodies[id].queue == a.jobs[id].job.queue
    ensures a.jobs[id].place.Pending? ==> id in At(c.store.pending, a.jobs[id].job.queue)
    ensures a.jobs[id].place.Delayed? ==>
              && R.Wait(a.jobs[id].job.queue, id) in c.store.delayed
              && c.store.delayed[R.Wait(a.jobs[id].job.queue, id)] == a.jobs[id].place.due
    ensures c.clock == a.clock
  {
    Listed(a, a.jobs[id].job.queue, id);
    hide Inv, LeaseRel, CountRel, ReasonRel;
  }

  /** The job waits in its queue until a time, or is ready if it need not wait. */
  predicate WaitsUntil(r: R.Store, id: Uuid, delay: nat, due: Time) {
    && id in r.bodies
    && if delay == 0 then id in At(r.pending, r.bodies[id].queue)
       else R.Wait(r.bodies[id].queue, id) in r.delayed && r.delayed[R.Wait(r.bodies[id].queue, id)] == due
  }

  /** Every retry that the database confirms backs off: the delay is one that the policy permits, the job's
      member is scored exactly that long after the settle, and it stays until then. */
  lemma FleetBacksOff(moves: seq<Move>, m: Move, later: seq<Move>, id: Uuid)
    requires PossibleRun(moves + [m] + later) && Retries(Reached(moves), m, id)
    ensures var s, n := Reached(moves).sent[m.token], Reached(moves + [m] + later).system;
            var raw, d := Raw(s.proc.policy, s.proc.attempts), s.proc.pc.delay;
            && Permitted(s.proc.policy, s.proc.attempts, d) && raw / 2 <= d <= raw
            && WaitsUntil(Reached(moves + [m]).system.store, id, d, s.now + d)
            && (d > 0 ==> WaitsUntil(n.store, id, d, s.now + d) || s.now + raw / 2 <= s.now + d <= n.clock)
  {
    hide Possible, Enabled, Next, Image, Matches, W.AllowedRun, W.Now, Rel, Log, Reached, Performed, Nacks, Raw,
         Permitted, PossibleRun;
    var f, w := Reached(moves), W.Now(W.INITIAL, Log(moves));
    var more := LogGrows(moves + [m], later);
    LastIsPossible(moves, m);
    FleetRefines(moves);
    FleetRefines(moves + [m]);
    FleetRefines(moves + [m] + later);
    UnderWay(f, w, m.token);
    RespondRetries(f, w, m, id);
    var step := W.Settle(m.token, f.sent[m.token].now);
    assert Image(f, m) == [step];
    LogOfOneMore(moves, m);
    RetryWaits(Log(moves), step, more, id);
    var v, n := W.Now(W.INITIAL, Log(moves + [m])), W.Now(W.INITIAL, Log(moves + [m] + later));
    MatchParts(Reached(moves + [m]), v);
    MatchParts(Reached(moves + [m] + later), n);
    PlaceInStore(Reached(moves + [m]).system, v.broker, id);
    if f.sent[m.token].proc.pc.delay > 0 {
      PlaceInStore(Reached(moves + [m] + later).system, n.broker, id);
    }
  }

  lemma LastIsPossible(moves: seq<Move>, m: Move)
    requires PossibleRun(moves + [m])
    ensures PossibleRun(moves) && Possible(Reached(moves), m) && Enabled(Reached(moves), m)
  {
    assert Front(moves + [m]) == moves && Last(moves + [m]) == m;
  }
}
