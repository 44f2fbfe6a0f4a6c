/** The bookkeeping of one call of the worker loop, as a predicate on its variables and on the world
    around it, and what each event does to it. */
module WorkerBooks {
  import opened Jobs
  import opened BrokerSpec
  import opened BrokerHistory
  import opened Retry
  import opened WorkerSpec
  import opened Drain
  import opened DrainResults

  /** A spawned task: still at work, or ended and waiting to be joined, with or without an error. */
  datatype TaskState = Unfinished | Finished(ok: bool)

  datatype Fault = ClaimFailed | TaskFailed

  /** What is fixed during a call. A quiet setting has this worker alone, no new jobs, zero delays,
      a lease that outlasts the call, and handlers that follow the oracle. In a reliable setting no call
      fails, no task ends with an error and no process dies. `draw` is the source of claim tokens. */
  datatype Terms = Terms(
    names: seq<string>, lease: nat, policy: Policy, backend: bool, concurrency: nat,
    quiet: bool, reliable: bool, cfg: Setting, oracle: Oracle, origin: World, draw: nat -> Uuid)

  /** The loop's variables, the world, all steps since the call began, and the tokens claimed by it.
      `lost` counts claims whose reply never arrived, `refused` all claim calls that failed, `clashes` those
      that failed because their token was in use, `draws` the tokens drawn, and `bad` holds the tokens of
      tasks that ended with an error. */
  datatype Books = Books(
    world: World, log: seq<Step>, inFlight: map<Uuid, TaskState>, permits: nat,
    processed: nat, firstErr: Option<Fault>, mine: set<Uuid>, lost: nat, refused: nat, clashes: nat,
    draws: nat, bad: set<Uuid>)

  function Opening(k: Terms): Books {
    Books(k.origin, [], map[], k.concurrency, 0, None, {}, 0, 0, 0, 0, {})
  }

  // ---------------------------------------------------------------- the invariant

  function Busy(inFlight: map<Uuid, TaskState>): set<Uuid> {
    set t | t in inFlight && inFlight[t].Unfinished?
  }

  ghost predicate QuietTerms(k: Terms) {
    && k.origin.procs == map[] && Quiet(k.origin, k.cfg)
    && k.cfg.queues == (set q | q in k.names) && k.cfg.policy == k.policy
    && k.cfg.horizon < k.origin.broker.clock + k.lease
  }

  /** The hypotheses on the world at the time of the call. */
  ghost predicate Sensible(k: Terms) {
    && 1 <= k.concurrency
    && Inv(k.origin.broker) && ProcsOk(k.origin)
    && (k.quiet ==> QuietTerms(k))
  }

  /** The world is what the steps made of it. */
  ghost predicate Tracks(k: Terms, world: World, log: seq<Step>) {
    && AllowedRun(k.origin, log) && world == Now(k.origin, log)
    && Inv(world.broker) && ProcsOk(world) && k.origin.broker.clock <= world.broker.clock
    && (forall t | Crash(t) in log :: t in world.broker.issued)
    && (k.quiet ==> QuietRun(k.origin, log, k.cfg, k.oracle) && Quiet(world, k.cfg)
                    && GrantsBacked(k.origin, log, k.backend))
  }

  /** The unfinished tasks are this call's processes; a claim of this call that is no longer a task has ended. */
  ghost predicate Tasked(k: Terms, world: World, inFlight: map<Uuid, TaskState>, mine: set<Uuid>) {
    && (forall t | t in inFlight :: t in mine && (inFlight[t].Unfinished? <==> t in world.procs))
    && (forall t | t in mine :: t in world.broker.issued && (t in inFlight || t !in world.procs))
    && (k.quiet ==> forall t | t in world.procs :: t in inFlight)
  }

  /** An error that the call has seen or will see. */
  ghost predicate Failing(b: Books) {
    b.firstErr.Some? || b.refused > 0 || exists t :: t in b.inFlight && b.inFlight[t] == Finished(false)
  }

  /** Every permit is free, in the hand, or with an unfinished task; every claim is accounted for. */
  ghost predicate Counted(k: Terms, b: Books, hand: nat) {
    && b.permits + |Busy(b.inFlight)| + hand == k.concurrency
    && b.processed + |b.inFlight.Keys| == |b.mine|
    && b.lost <= b.refused
    && (k.quiet ==> |b.mine| + b.lost == GrantCount(k.origin, b.log))
    && (k.quiet && !NoCrash(b.log) ==> Failing(b))
  }

  /** Bad tasks, those cut short included, are known by their state until they are joined, and then by the
      recorded error, which has a cause. */
  ghost predicate Blamed(k: Terms, b: Books) {
    && (forall t | t in b.inFlight :: t in b.bad <==> b.inFlight[t] == Finished(false))
    && (forall t | t in b.bad && t !in b.inFlight :: b.firstErr.Some?)
    && (b.firstErr == Some(ClaimFailed) ==> b.refused > 0)
    && (b.firstErr == Some(TaskFailed) ==> b.bad != {})
    && b.bad <= b.mine
    && (forall t | t in b.mine && Crash(t) in b.log :: t in b.bad)
    && (k.reliable && b.clashes == 0 ==> b.refused == 0 && b.bad == {})
  }

  /** The claim names one of the call's queues, its policy and whether it stores results, and leases the job
      for the call's lease from a reading of the clock. */
  predicate CarriesTerms(k: Terms, step: Step, since: Time, w: World) {
    && step.Claim? && step.queue in k.names && step.policy == k.policy && step.backend == k.backend
    && since + k.lease <= step.expiry <= w.broker.clock + k.lease
  }

  ghost predicate SignedAt(k: Terms, log: seq<Step>, i: int, token: Uuid) {
    && 0 <= i < |log| && log[i].Claim? && log[i].token == token
    && var w := Now(k.origin, log[..i]);
       Grants(w, log[i]) && CarriesTerms(k, log[i], k.origin.broker.clock, w)
  }

  /** Every claim of the call was granted by a step that carries the call's terms. */
  ghost predicate Signed(k: Terms, log: seq<Step>, mine: set<Uuid>) {
    forall t | t in mine :: exists i :: SignedAt(k, log, i, t)
  }

  ghost predicate Balanced(k: Terms, b: Books, hand: nat) {
    && Sensible(k) && Tracks(k, b.world, b.log) && Tasked(k, b.world, b.inFlight, b.mine) && Counted(k, b, hand)
    && Blamed(k, b) && Signed(k, b.log, b.mine)
  }

  lemma OpeningBalances(k: Terms)
    requires Sensible(k)
    ensures Balanced(k, Opening(k), 0)
  {
    hide Inv, ProcsOk, Quiet;
    assert Busy(map[]) == {};
  }

  // ---------------------------------------------------------------- events outside the loop

  /** What may happen while the loop waits: any step of the tasks, the clock and the sweeps, and, unless
      the setting is quiet, of producers and other workers. */
  predicate MayHappen(k: Terms, w: World, step: Step) {
    && (if k.quiet then QuietStep(w, step, k.cfg, k.oracle) && !Grants(w, step) else Allowed(w, step))
    && (k.reliable ==> !step.Crash?)
  }

  /** Whether a task that ends with this step ends well. */
  predicate EndsWell(k: Terms, step: Step, ok: bool) {
    (ok || k.reliable) && !step.Crash?
  }

  /** The books after a step: a task that ends gives its permit back. A task may report an error
      although its last step took effect; a task cut short reports one. */
  function Event(k: Terms, b: Books, step: Step, ok: bool): Books
    requires MayHappen(k, b.world, step)
  {
    MayHappenEnabled(k, b.world, step);
    var n := b.(world := Act(b.world, step), log := b.log + [step]);
    if (step.Store? || step.Settle? || step.Crash?) && step.token in b.inFlight && b.inFlight[step.token].Unfinished?
       && step.token !in n.world.procs
    then n.(inFlight := b.inFlight[step.token := Finished(EndsWell(k, step, ok))], permits := b.permits + 1,
            bad := if EndsWell(k, step, ok) then b.bad else b.bad + {step.token})
    else n
  }

  lemma MayHappenEnabled(k: Terms, w: World, step: Step)
    requires MayHappen(k, w, step)
    ensures Allowed(w, step) && Enabled(w, step)
  {
  }

  /** One more step of a tracked run. */
  lemma TracksSnoc(k: Terms, w: World, log: seq<Step>, step: Step)
    requires Sensible(k) && Tracks(k, w, log) && Allowed(w, step)
    requires k.quiet ==> QuietStep(w, step, k.cfg, k.oracle) && (Grants(w, step) ==> step.backend == k.backend)
    ensures Tracks(k, Act(w, step), log + [step])
    ensures k.quiet ==> GrantCount(k.origin, log + [step]) == GrantCount(k.origin, log) + One(Grants(w, step))
    ensures NoCrash(log + [step]) <==> NoCrash(log) && !step.Crash?
    ensures forall t | t in w.broker.issued :: t in Act(w, step).broker.issued
  {
    hide Inv, ProcsOk, Quiet, Allowed, Act, Sensible;
    assert Front(log + [step]) == log && Last(log + [step]) == step;
    AllowedIsEnabled(w, step);
    BrokerStep(w, step);
    ProcsStayOk(w, step);
    if k.quiet {
      QuietStays(w, step, k.cfg, k.oracle);
    }
    assert (log + [step])[|log|] == step && forall i | 0 <= i < |log| :: (log + [step])[i] == log[i];
    CrashesIssued(w, log, step);
  }

  lemma CrashesIssued(w: World, log: seq<Step>, step: Step)
    requires ProcsOk(w) && Allowed(w, step) && forall t | Crash(t) in log :: t in w.broker.issued
    ensures forall t | Crash(t) in log + [step] :: t in w.broker.issued
  {
    ProcsIssued(w);
    hide ProcsOk;
  }

  lemma AllowedIsEnabled(w: World, step: Step)
    requires Allowed(w, step)
    ensures Enabled(w, step)
  {
  }

  /** Only a granted claim adds a process, under its new token; only the process that steps can end. */
  lemma ProcsMove(w: World, step: Step)
    requires Allowed(w, step)
    ensures var n := Act(w, step);
            && (forall t | t in n.procs && t !in w.procs :: step.Claim? && t == step.token && t !in w.broker.issued)
            && (forall t | t in w.procs && t !in n.procs :: (step.Store? || step.Settle? || step.Crash?)
                 && t == step.token)
            && (step.Crash? ==> step.token in w.procs && step.token !in n.procs)
            && (step.Claim? && !Grants(w, step) ==> n.procs == w.procs)
  {
    hide Apply, Settling;
  }

  lemma TaskedEvent(k: Terms, b: Books, step: Step, ok: bool)
    requires MayHappen(k, b.world, step) && Tasked(k, b.world, b.inFlight, b.mine)
    requires forall t | t in b.world.broker.issued :: t in Act(b.world, step).broker.issued
    ensures var n := Event(k, b, step, ok); Tasked(k, n.world, n.inFlight, n.mine)
  {
    MayHappenEnabled(k, b.world, step);
    ProcsMove(b.world, step);
    hide Act, Allowed, Enabled, QuietStep, Grants;
  }

  lemma BusyShrinks(inFlight: map<Uuid, TaskState>, t: Uuid, ok: bool)
    requires t in inFlight && inFlight[t].Unfinished?
    ensures |Busy(inFlight[t := Finished(ok)])| == |Busy(inFlight)| - 1
    ensures inFlight[t := Finished(ok)].Keys == inFlight.Keys
  {
    assert Busy(inFlight[t := Finished(ok)]) == Busy(inFlight) - {t};
  }

  lemma CountedEvent(k: Terms, b: Books, step: Step, ok: bool, hand: nat)
    requires MayHappen(k, b.world, step) && Tasked(k, b.world, b.inFlight, b.mine) && Counted(k, b, hand)
    requires k.quiet ==>
               GrantCount(k.origin, b.log + [step]) == GrantCount(k.origin, b.log) + One(Grants(b.world, step))
    requires NoCrash(b.log + [step]) <==> NoCrash(b.log) && !step.Crash?
    ensures Counted(k, Event(k, b, step, ok), hand)
  {
    MayHappenEnabled(k, b.world, step);
    ProcsMove(b.world, step);
    var n := Event(k, b, step, ok);
    if n.inFlight != b.inFlight {
      BusyShrinks(b.inFlight, step.token, EndsWell(k, step, ok));
    }
    hide Act, Allowed, Enabled, QuietStep, GrantCount, NoCrash, Busy;
    if k.quiet && step.Crash? {
      assert n.inFlight[step.token] == Finished(false);
    }
    if t :| t in b.inFlight && b.inFlight[t] == Finished(false) {
      assert n.inFlight[t] == Finished(false);
    }
  }

  lemma BlamedEvent(k: Terms, b: Books, step: Step, ok: bool)
    requires MayHappen(k, b.world, step) && Blamed(k, b) && Tasked(k, b.world, b.inFlight, b.mine)
    ensures Blamed(k, Event(k, b, step, ok))
  {
    SensibleQuiet(k, b.world, step);
    MayHappenEnabled(k, b.world, step);
    ProcsMove(b.world, step);
    hide Allowed, Enabled, QuietStep, Grants;
    hide Act, MayHappen;
  }

  /** A longer log shows the same claims. */
  lemma SignedStays(k: Terms, log: seq<Step>, longer: seq<Step>, mine: set<Uuid>)
    requires Signed(k, log, mine) && log <= longer
    ensures Signed(k, longer, mine)
  {
    hide Now, Grants, CarriesTerms;
    forall t | t in mine ensures exists i :: SignedAt(k, longer, i, t) {
      var i :| SignedAt(k, log, i, t);
      assert longer[..i] == log[..i];
      assert SignedAt(k, longer, i, t);
    }
  }

  lemma EventBalances(k: Terms, b: Books, step: Step, ok: bool, hand: nat)
    requires Balanced(k, b, hand) && MayHappen(k, b.world, step)
    ensures Balanced(k, Event(k, b, step, ok), hand)
  {
    hide Tracks, Tasked, Counted, Sensible, Blamed, Signed;
    SignedStays(k, b.log, b.log + [step], b.mine);
    SensibleQuiet(k, b.world, step);
    MayHappenEnabled(k, b.world, step);
    TracksSnoc(k, b.world, b.log, step);
    TaskedEvent(k, b, step, ok);
    CountedEvent(k, b, step, ok, hand);
    BlamedEvent(k, b, step, ok);
  }

  lemma TasksAreMine(k: Terms, b: Books)
    requires Tasked(k, b.world, b.inFlight, b.mine)
    ensures b.inFlight.Keys <= b.mine
  {
  }

  lemma SensibleQuiet(k: Terms, w: World, step: Step)
    requires MayHappen(k, w, step)
    ensures k.quiet ==> QuietStep(w, step, k.cfg, k.oracle) && !Grants(w, step)
    ensures k.reliable ==> !step.Crash?
  {
  }

  // ---------------------------------------------------------------- what waiting cannot change

  /** From a position on, no claim used one of the tokens. */
  predicate NoneTaken(log: seq<Step>, from: nat, tokens: set<Uuid>) {
    forall i | from <= i < |log| && log[i].Claim? :: log[i].token !in tokens
  }

  /** The loop's own variables stay, apart from tasks that end. */
  ghost predicate Drifts(k: Terms, b: Books, n: Books) {
    && b.log <= n.log && NoneTaken(n.log, |b.log|, b.mine)
    && n.inFlight.Keys == b.inFlight.Keys
    && n.processed == b.processed && n.firstErr == b.firstErr && n.mine == b.mine
    && n.refused == b.refused && n.clashes == b.clashes && b.draws <= n.draws
    && (forall t | t in b.inFlight && b.inFlight[t].Finished? :: n.inFlight[t] == b.inFlight[t])
    && b.world.broker.clock <= n.world.broker.clock
    && (k.quiet ==> Potential(n.world, k.cfg, k.oracle) <= Potential(b.world, k.cfg, k.oracle))
    && (k.quiet && b.inFlight == map[] ==> n.world.broker.pending == b.world.broker.pending)
  }

  lemma DriftsOn(k: Terms, a: Books, b: Books, c: Books)
    requires Drifts(k, a, b) && Drifts(k, b, c)
    ensures Drifts(k, a, c)
  {
  }

  /** With nobody at work, the clock and the sweeps leave the ready lists alone. */
  lemma NobodyMoves(k: Terms, w: World, step: Step)
    requires k.quiet && Quiet(w, k.cfg) && MayHappen(k, w, step) && w.procs == map[]
    ensures Act(w, step).broker.pending == w.broker.pending
  {
    hide Quiet;
    if step.Outside? {
      OutsideQuiet(w, step, k.cfg, k.oracle);
    } else if step.Claim? {
      ClaimQuiet(w, step, k.cfg, k.oracle);
    }
  }

  lemma ClaimsAreNew(w: World, step: Step)
    requires Allowed(w, step)
    ensures step.Claim? ==> step.token !in w.broker.issued
  {
  }

  lemma EventDrifts(k: Terms, b: Books, step: Step, ok: bool)
    requires Tracks(k, b.world, b.log) && Tasked(k, b.world, b.inFlight, b.mine) && MayHappen(k, b.world, step)
    ensures Drifts(k, b, Event(k, b, step, ok))
  {
    hide Inv, ProcsOk, Quiet, Potential, QuietStep, Allowed, Grants, Act;
    MayHappenEnabled(k, b.world, step);
    ClaimsAreNew(b.world, step);
    BrokerStep(b.world, step);
    if k.quiet {
      PotentialFalls(b.world, step, k.cfg, k.oracle);
      if b.inFlight == map[] {
        assert b.world.procs == map[];
        NobodyMoves(k, b.world, step);
      }
    }
  }

  // ---------------------------------------------------------------- the loop's own moves

  /** A claim by this call that takes a job. */
  predicate OwnClaim(k: Terms, w: World, step: Step) {
    && step.Claim? && Grants(w, step) && CarriesTerms(k, step, k.origin.broker.clock, w)
    && if k.quiet then QuietStep(w, step, k.cfg, k.oracle) else Allowed(w, step)
  }

  /** The books once the claimed job is a spawned task. */
  function AfterGrant(b: Books, step: Step): Books
    requires step.Claim?
  {
    b.(world := Act(b.world, step), log := b.log + [step], mine := b.mine + {step.token},
       inFlight := b.inFlight[step.token := Unfinished])
  }

  /** The broker granted the claim, but its reply got lost: nobody works on the job until its lease lapses. */
  function AfterLoss(b: Books, step: Step): Books
    requires step.Claim? && step.token in Act(b.world, step).procs
  {
    b.(world := Act(Act(b.world, step), Crash(step.token)), log := b.log + [step] + [Crash(step.token)],
       lost := b.lost + 1, refused := b.refused + 1)
  }

  /** A granted claim starts one process under the new token. */
  lemma GrantAddsProc(w: World, step: Step)
    requires Inv(w.broker) && ProcsOk(w) && Allowed(w, step) && Grants(w, step)
    ensures var n := Act(w, step);
            && step.token in n.procs && step.token !in w.procs
            && step.token !in w.broker.issued && step.token in n.broker.issued
            && (forall t :: t in n.procs <==> t in w.procs || t == step.token)
  {
    Listed(w.broker, step.queue, At(w.broker.pending, step.queue)[0]);
    ProcsIssued(w);
    hide Inv, ProcsOk;
  }

  lemma ProcsIssued(w: World)
    requires ProcsOk(w)
    ensures forall t | t in w.procs :: t in w.broker.issued
  {
    forall t | t in w.procs ensures t in w.broker.issued {
      assert ProcOk(w.broker, t, w.procs[t]);
    }
  }

  lemma OwnClaimAllowed(k: Terms, w: World, step: Step)
    requires OwnClaim(k, w, step)
    ensures Allowed(w, step) && Enabled(w, step) && Grants(w, step)
    ensures k.quiet ==> QuietStep(w, step, k.cfg, k.oracle)
    ensures CarriesTerms(k, step, k.origin.broker.clock, w) && step.backend == k.backend
  {
  }

  lemma BusyGrows(inFlight: map<Uuid, TaskState>, t: Uuid)
    requires t !in inFlight
    ensures |Busy(inFlight[t := Unfinished])| == |Busy(inFlight)| + 1
    ensures |inFlight[t := Unfinished].Keys| == |inFlight.Keys| + 1
  {
    assert Busy(inFlight[t := Unfinished]) == Busy(inFlight) + {t};
    assert inFlight[t := Unfinished].Keys == inFlight.Keys + {t};
  }

  lemma FailingStays(b: Books, n: Books)
    requires Failing(b) && n.firstErr == b.firstErr && b.refused <= n.refused
    requires forall t | t in b.inFlight && b.inFlight[t] == Finished(false) :: t in n.inFlight
              && n.inFlight[t] == Finished(false)
    ensures Failing(n)
  {
    if t :| t in b.inFlight && b.inFlight[t] == Finished(false) {
      assert n.inFlight[t] == Finished(false);
    }
  }

  lemma GrantTasked(k: Terms, b: Books, step: Step)
    requires Tasked(k, b.world, b.inFlight, b.mine) && step.Claim?
    requires var n := Act(b.world, step);
             && step.token !in b.world.broker.issued && step.token in n.broker.issued
             && (forall t :: t in n.procs <==> t in b.world.procs || t == step.token)
             && (forall t | t in b.world.broker.issued :: t in n.broker.issued)
    ensures var n := AfterGrant(b, step); Tasked(k, n.world, n.inFlight, n.mine)
    ensures step.token !in b.inFlight && step.token !in b.mine
  {
    hide Act, Enabled;
  }

  lemma GrantCounted(k: Terms, b: Books, step: Step)
    requires Counted(k, b, 1) && step.Claim? && step.token !in b.inFlight && step.token !in b.mine
    requires k.quiet ==> GrantCount(k.origin, b.log + [step]) == GrantCount(k.origin, b.log) + 1
    requires NoCrash(b.log + [step]) <==> NoCrash(b.log)
    ensures Counted(k, AfterGrant(b, step), 0)
  {
    hide Act, Enabled, GrantCount, NoCrash, Busy, Failing;
    BusyGrows(b.inFlight, step.token);
    if Failing(b) {
      FailingStays(b, AfterGrant(b, step));
    }
  }

  lemma GrantSigned(k: Terms, b: Books, step: Step)
    requires Tracks(k, b.world, b.log) && Signed(k, b.log, b.mine) && OwnClaim(k, b.world, step)
    ensures Signed(k, b.log + [step], b.mine + {step.token})
  {
    hide Tracks, Signed, CarriesTerms, Grants, Allowed, QuietStep;
    WorldIsLog(k, b.world, b.log);
    SignedStays(k, b.log, b.log + [step], b.mine);
    assert (b.log + [step])[..|b.log|] == b.log;
    assert SignedAt(k, b.log + [step], |b.log|, step.token);
    SignedAdds(k, b.log + [step], b.mine, step.token);
  }

  lemma WorldIsLog(k: Terms, world: World, log: seq<Step>)
    requires Tracks(k, world, log)
    ensures world == Now(k.origin, log)
  {
    hide Inv, ProcsOk, Quiet, QuietRun, AllowedRun;
  }

  lemma SignedAdds(k: Terms, log: seq<Step>, mine: set<Uuid>, token: Uuid)
    requires Signed(k, log, mine) && exists i :: SignedAt(k, log, i, token)
    ensures Signed(k, log, mine + {token})
  {
    hide SignedAt;
  }

  /** The permit in the hand moves into the new task. */
  lemma GrantBalances(k: Terms, b: Books, step: Step)
    requires Balanced(k, b, 1) && OwnClaim(k, b.world, step)
    ensures Balanced(k, AfterGrant(b, step), 0)
    ensures step.token !in b.inFlight && step.token !in b.mine
    ensures k.quiet ==> Potential(Act(b.world, step), k.cfg, k.oracle) + 1 <= Potential(b.world, k.cfg, k.oracle)
  {
    hide Inv, ProcsOk, Quiet, QuietStep, Allowed, Potential, Act, Grants, GrantCount, NoCrash, Sensible, Tasked,
         Counted, QuietRun, AllowedRun, Now, GrantsBacked, Blamed, Signed, OwnClaim, CarriesTerms;
    OwnClaimAllowed(k, b.world, step);
    GrantSigned(k, b, step);
    TracksSnoc(k, b.world, b.log, step);
    GrantAddsProc(b.world, step);
    if k.quiet {
      PotentialFalls(b.world, step, k.cfg, k.oracle);
    }
    assert Crash(step.token) !in b.log;
    hide Tracks;
    GrantTasked(k, b, step);
    GrantCounted(k, b, step);
    GrantBlamed(k, b, step);
  }

  lemma GrantBlamed(k: Terms, b: Books, step: Step)
    requires Blamed(k, b) && step.Claim? && step.token !in b.inFlight && step.token !in b.mine
    requires Crash(step.token) !in b.log
    ensures Blamed(k, AfterGrant(b, step))
  {
    hide Act;
  }

  lemma CrashAllowed(w: World, token: Uuid, cfg: Setting, oracle: Oracle)
    requires token in w.procs
    ensures Allowed(w, Crash(token)) && QuietStep(w, Crash(token), cfg, oracle)
    ensures Act(w, Crash(token)) == w.(procs := w.procs - {token}) && !Grants(w, Crash(token))
  {
  }

  lemma LostBlamed(k: Terms, b: Books, step: Step)
    requires Blamed(k, b) && step.Claim? && step.token in Act(b.world, step).procs && step.token !in b.mine
    requires !k.reliable
    ensures Blamed(k, AfterLoss(b, step))
  {
    hide Act;
  }

  lemma LostBalances(k: Terms, b: Books, step: Step)
    requires Balanced(k, b, 1) && OwnClaim(k, b.world, step) && !k.reliable
    ensures step.token in Act(b.world, step).procs
    ensures Balanced(k, AfterLoss(b, step), 1)
    ensures k.quiet ==> Potential(AfterLoss(b, step).world, k.cfg, k.oracle) <= Potential(b.world, k.cfg, k.oracle)
  {
    hide Inv, ProcsOk, Quiet, QuietStep, Allowed, Potential, Act, Grants, GrantCount, NoCrash, Sensible, Busy,
         QuietRun, AllowedRun, Now, GrantsBacked, Signed, OwnClaim, CarriesTerms, Blamed;
    OwnClaimAllowed(k, b.world, step);
    SignedStays(k, b.log, b.log + [step] + [Crash(step.token)], b.mine);
    TracksSnoc(k, b.world, b.log, step);
    GrantAddsProc(b.world, step);
    LostBlamed(k, b, step);
    var m := Act(b.world, step);
    CrashAllowed(m, step.token, k.cfg, k.oracle);
    TracksSnoc(k, m, b.log + [step], Crash(step.token));
    if k.quiet {
      PotentialFalls(b.world, step, k.cfg, k.oracle);
      PotentialFalls(m, Crash(step.token), k.cfg, k.oracle);
    }
  }

  /** Joining a finished task. */
  function AfterJoin(b: Books, t: Uuid): Books
    requires t in b.inFlight && b.inFlight[t].Finished?
  {
    b.(inFlight := b.inFlight - {t}, processed := b.processed + 1,
       firstErr := if !b.inFlight[t].ok && b.firstErr.None? then Some(TaskFailed) else b.firstErr)
  }

  lemma JoinBlamed(k: Terms, b: Books, t: Uuid)
    requires Blamed(k, b) && t in b.inFlight && b.inFlight[t].Finished? && b.inFlight.Keys <= b.mine
    ensures Blamed(k, AfterJoin(b, t))
  {
  }

  lemma JoinCounted(k: Terms, b: Books, t: Uuid, hand: nat)
    requires Counted(k, b, hand) && t in b.inFlight && b.inFlight[t].Finished?
    ensures Counted(k, AfterJoin(b, t), hand)
    ensures |AfterJoin(b, t).inFlight.Keys| + 1 == |b.inFlight.Keys|
  {
    hide GrantCount, NoCrash;
    var n := AfterJoin(b, t);
    assert Busy(n.inFlight) == Busy(b.inFlight);
    assert n.inFlight.Keys == b.inFlight.Keys - {t};
    hide Busy;
    if Failing(b) && n.firstErr.None? && b.refused == 0 {
      var u :| u in b.inFlight && b.inFlight[u] == Finished(false);
      assert u in n.inFlight && n.inFlight[u] == Finished(false);
    }
  }

  lemma JoinTasked(k: Terms, b: Books, t: Uuid)
    requires Tasked(k, b.world, b.inFlight, b.mine) && t in b.inFlight && b.inFlight[t].Finished?
    ensures Tasked(k, b.world, AfterJoin(b, t).inFlight, b.mine)
  {
  }

  lemma JoinBalances(k: Terms, b: Books, t: Uuid, hand: nat)
    requires Balanced(k, b, hand) && t in b.inFlight && b.inFlight[t].Finished?
    ensures Balanced(k, AfterJoin(b, t), hand)
    ensures |AfterJoin(b, t).inFlight.Keys| + 1 == |b.inFlight.Keys|
  {
    hide Tracks, Sensible, Tasked, Counted, Blamed, Signed;
    TasksAreMine(k, b);
    JoinTasked(k, b, t);
    JoinCounted(k, b, t, hand);
    JoinBlamed(k, b, t);
  }

  // ---------------------------------------------------------------- consequences

  /** At most `concurrency` handlers run at a time. */
  lemma ConcurrencyBounded(k: Terms, b: Books, hand: nat)
    requires Balanced(k, b, hand)
    ensures |Busy(b.inFlight)| <= k.concurrency
    ensures forall t | t in b.mine && t in b.world.procs :: t in Busy(b.inFlight)
  {
    hide Tracks, Sensible, GrantCount, NoCrash;
  }

  /** With no task in the set, every permit is free: the permit-leak error cannot occur. */
  lemma NoPermitLeak(k: Terms, b: Books)
    requires Balanced(k, b, 0) && b.inFlight == map[]
    ensures b.permits == k.concurrency > 0 && b.processed == |b.mine|
    ensures forall t | t in b.mine :: t !in b.world.procs
  {
    hide Tracks, GrantCount, NoCrash;
    assert Busy(b.inFlight) == {} && b.inFlight.Keys == {};
  }

  /** In a quiet setting, the claims granted never exceed what the ready jobs need on their own. */
  lemma QuietClaimsBounded(k: Terms, b: Books, hand: nat)
    requires Balanced(k, b, hand) && k.quiet
    ensures |b.mine| <= Sum(AttemptsAlone(k.origin, k.cfg, k.oracle))
  {
    hide Inv, ProcsOk, Quiet, QuietRun, GrantCount, NoCrash, Potential, Sum, Failing, AllowedRun, Now, Busy;
    DrainPotential(k.origin, b.log, k.cfg, k.oracle);
    PotentialAtRest(k.origin, k.cfg, k.oracle);
  }

  /** Every job of the drained queues ended as retrying it alone would, and no other job moved. */
  ghost predicate Drained(k: Terms, w: World) {
    && w.broker.jobs.Keys == k.origin.broker.jobs.Keys
    && forall id | id in w.broker.jobs ::
         var e := k.origin.broker.jobs[id];
         Fate(w.broker.jobs[id].place, w.broker.jobs[id].count)
         == if IsReady(e, k.cfg) then Alone(k.policy, k.oracle, id, e.count) else Fate(e.place, e.count)
  }

  /** What the call leaves in the result backend: for every job that was ready, the outcome of its last
      attempt, a success exactly if the job was acknowledged; nothing new if it does not store results. */
  ghost predicate Resulted(k: Terms, w: World) {
    && (k.backend ==>
          forall id | id in k.origin.broker.jobs && IsReady(k.origin.broker.jobs[id], k.cfg) ::
            && id in w.broker.jobs
            && HasResult(w.results, id, ResultOf(LastOutcome(k.oracle, id, w.broker.jobs[id].count)))
            && (LastOutcome(k.oracle, id, w.broker.jobs[id].count).Succeeded? <==> w.broker.jobs[id].place.Acked?))
    && (!k.backend ==> w.results == k.origin.results)
  }

  lemma QuietResults(k: Terms, b: Books)
    requires Balanced(k, b, 0) && k.quiet && b.inFlight == map[] && !Failing(b)
    requires forall j | 0 <= j < |k.names| :: At(b.world.broker.pending, k.names[j]) == []
    ensures Resulted(k, b.world)
  {
    hide Inv, ProcsOk, Quiet, QuietRun, GrantCount, NoCrash, AllowedRun, Now, Busy, Alone, At, GrantsBacked, HasResult,
         LastOutcome, ResultOf, IsReady;
    NoPermitLeak(k, b);
    assert b.world.procs == map[];
    if k.backend {
      forall id | id in k.origin.broker.jobs && IsReady(k.origin.broker.jobs[id], k.cfg)
        ensures id in b.world.broker.jobs
        ensures HasResult(b.world.results, id, ResultOf(LastOutcome(k.oracle, id, b.world.broker.jobs[id].count)))
        ensures var e := b.world.broker.jobs[id];
                LastOutcome(k.oracle, id, e.count).Succeeded? <==> e.place.Acked?
      {
        DrainStores(k.origin, b.log, k.cfg, k.oracle, id);
      }
    } else {
      NothingStored(k.origin, b.log);
    }
  }

  lemma QuietDrain(k: Terms, b: Books)
    requires Balanced(k, b, 0) && k.quiet && b.inFlight == map[] && !Failing(b)
    requires forall j | 0 <= j < |k.names| :: At(b.world.broker.pending, k.names[j]) == []
    ensures Drained(k, b.world)
    ensures b.processed == Sum(AttemptsAlone(k.origin, k.cfg, k.oracle))
  {
    hide Inv, ProcsOk, Quiet, QuietRun, GrantCount, NoCrash, Potential, Sum, AttemptsAlone, AllowedRun, Now, Busy,
        Alone, At;
    NoPermitLeak(k, b);
    assert b.world.procs == map[];
    DrainOutcome(k.origin, b.log, k.cfg, k.oracle);
  }
}
