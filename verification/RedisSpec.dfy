/** The Redis broker as atomic scripts over lists, sorted sets and strings, and as the step system
    that interleaved broker calls make of them. */
module RedisSpec {
  import opened Jobs
  import opened BrokerSpec
  import opened BrokerHistory

  /** A lease member, taken apart. */
  datatype Lease = Lease(queue: string, id: Uuid, token: Uuid)
  /** A delayed member, taken apart. */
  datatype Wait = Wait(queue: string, id: Uuid)

  /** The database by key family; lists are in claim order, oldest first. */
  datatype Store = Store(
    pending: map<string, seq<Uuid>>,
    dead: map<string, seq<Uuid>>,
    bodies: map<Uuid, Job>,
    reasons: map<Uuid, string>,
    attempts: map<Uuid, nat>,
    lease: map<Lease, Time>,
    delayed: map<Wait, Time>,
    keys: map<string, Uuid>)

  const NO_DATA := Store(map[], map[], map[], map[], map[], map[], map[], map[])

  // ---------------------------------------------------------------- scripts

  /** A counter that was never incremented reads as zero. */
  function Count(attempts: map<Uuid, nat>, id: Uuid): nat {
    if id in attempts then attempts[id] else 0
  }

  /** The claim script; a nil reply is None. */
  function ClaimScript(r: Store, queue: string, token: Uuid, expiry: Time): (Store, Option<(Job, nat)>) {
    var ready := At(r.pending, queue);
    if ready == [] then (r, None)
    else
      var id := ready[0];
      var popped := r.(pending := r.pending[queue := ready[1..]]);
      if id !in r.bodies then (popped, None)
      else
        var n := Count(r.attempts, id) + 1;
        (popped.(attempts := r.attempts[id := n], lease := r.lease[Lease(queue, id, token) := expiry]),
         Some((r.bodies[id], n)))
  }

  /** The ack, nack and dead-letter scripts; the reply says whether the lease member was there. */
  function SettleScript(r: Store, queue: string, id: Uuid, token: Uuid, how: How): (Store, bool) {
    var member := Lease(queue, id, token);
    if member !in r.lease then (r, false)
    else
      var freed := r.(lease := r.lease - {member});
      match how
      case Ack => (freed.(bodies := r.bodies - {id}, attempts := r.attempts - {id}), true)
      case Retry(due) =>
        if id !in r.bodies then (freed, false)
        else
          (match due
           case None => (freed.(pending := Append(r.pending, queue, id)), true)
           case Some(t) => (freed.(delayed := r.delayed[Wait(queue, id) := t]), true))
      case Bury(reason) =>
        if id !in r.bodies then (freed, false)
        else (freed.(dead := Append(r.dead, queue, id), reasons := r.reasons[id := reason],
            attempts := r.attempts - {id}), true)
  }

  /** What both sweeps do with a member they removed: push the job back, or drop an orphan's counter. */
  function PushBack(r: Store, queue: string, id: Uuid): Store {
    if id in r.bodies then r.(pending := Append(r.pending, queue, id))
    else r.(attempts := r.attempts - {id})
  }

  function RecoverOne(r: Store, m: Lease): Store {
    if m in r.lease then PushBack(r.(lease := r.lease - {m}), m.queue, m.id) else r
  }

  function RecoverScript(r: Store, members: seq<Lease>): Store {
    if members == [] then r else RecoverOne(RecoverScript(r, Front(members)), Last(members))
  }

  function PromoteOne(r: Store, m: Wait): Store {
    if m in r.delayed then PushBack(r.(delayed := r.delayed - {m}), m.queue, m.id) else r
  }

  function PromoteScript(r: Store, members: seq<Wait>): Store {
    if members == [] then r else PromoteOne(PromoteScript(r, Front(members)), Last(members))
  }

  /** The first n commands of the idempotent enqueue: body, then key, then list. */
  function KeyedEnqueuePrefix(r: Store, job: Job, key: string, n: nat): Store {
    var stored := r.(bodies := r.bodies[job.id := job]);
    if n == 0 then r
    else if n == 1 then stored
    else if key in r.keys then r.(bodies := stored.bodies - {job.id})
    else
      var mapped := stored.(keys := r.keys[key := job.id]);
      if n == 2 then mapped else mapped.(pending := Append(r.pending, job.queue, job.id))
  }

  predicate KeyTaken(r: Store, job: Job) {
    job.key.Some? && job.key.value in r.keys
  }

  function EnqueueScript(r: Store, job: Job): (Store, Answer) {
    if BlankKey(job) then (r, EmptyKey)
    else if job.key.Some? then
      var n := KeyedEnqueuePrefix(r, job, job.key.value, 3);
      (n, Accepted(if job.key.value in r.keys then r.keys[job.key.value] else job.id))
    else
      (r.(bodies := r.bodies[job.id := job], pending := Append(r.pending, job.queue, job.id)), Accepted(job.id))
  }

  /** The dead letters of a list of ids, skipping ids without a body; a missing reason reads as empty. */
  function Letters(bodies: map<Uuid, Job>, reasons: map<Uuid, string>, ids: seq<Uuid>): seq<Letter> {
    if ids == [] then []
    else
      var id := Last(ids);
      Letters(bodies, reasons, Front(ids))
      + if id in bodies then [Letter(bodies[id], if id in reasons then reasons[id] else "")] else []
  }

  // ---------------------------------------------------------------- what a script changes

  /** A claim of a job with a body takes the oldest id, counts the attempt and records the lease; nothing
      else changes, bodies included. */
  lemma ClaimChanges(r: Store, queue: string, token: Uuid, expiry: Time)
    requires At(r.pending, queue) != [] && At(r.pending, queue)[0] in r.bodies
    ensures var (n, reply), id := ClaimScript(r, queue, token, expiry), At(r.pending, queue)[0];
            && reply == Some((r.bodies[id], Count(r.attempts, id) + 1))
            && (forall q :: At(r.pending, q) == if q == queue then [id] + At(n.pending, q) else At(n.pending, q))
            && n.lease == r.lease[Lease(queue, id, token) := expiry]
            && n.attempts.Keys == r.attempts.Keys + {id} && n.attempts[id] == Count(r.attempts, id) + 1
            && (forall i | i in r.attempts && i != id :: n.attempts[i] == r.attempts[i])
            && n == r.(pending := n.pending, lease := n.lease, attempts := n.attempts)
  {
  }

  /** What a settle changes. An acknowledgement leaves neither body nor counter behind, a burial no counter. */
  lemma SettleChanges(r: Store, queue: string, id: Uuid, token: Uuid, how: How)
    ensures var (n, ok), m := SettleScript(r, queue, id, token, how), Lease(queue, id, token);
            && (m !in r.lease ==> !ok && n == r)
            && (m in r.lease && how.Ack? ==>
                  ok && n == r.(lease := r.lease - {m}, bodies := r.bodies - {id}, attempts := r.attempts - {id}))
            && (m in r.lease && !how.Ack? ==> (ok <==> id in r.bodies))
            && (m in r.lease && !how.Ack? && !ok ==> n == r.(lease := r.lease - {m}))
            && (ok && how.Bury? ==>
                  && id !in n.attempts && id in n.reasons && n.reasons[id] == how.reason
                  && At(n.dead, queue) == At(r.dead, queue) + [id]
                  && n == r.(lease := r.lease - {m}, dead := n.dead, attempts := r.attempts - {id},
                       reasons := n.reasons))
            && (ok && how.Retry? && how.due.None? ==>
                  && At(n.pending, queue) == At(r.pending, queue) + [id]
                  && n == r.(lease := r.lease - {m}, pending := n.pending))
            && (ok && how.Retry? && how.due.Some? ==>
                  n == r.(lease := r.lease - {m}, delayed := r.delayed[Wait(queue, id) := how.due.value]))
  {
  }

  lemma PushBackChanges(r: Store, queue: string, id: Uuid)
    ensures var n := PushBack(r, queue, id);
            && n == r.(pending := n.pending, attempts := n.attempts)
            && (id in r.bodies ==> n.attempts == r.attempts)
            && (id !in r.bodies ==> n.attempts == r.attempts - {id})
  {
    hide Append;
  }

  /** A sweep rewrites no body and no counter of a job that has a body; a swept member without a body loses
      its counter. */
  lemma {:induction false} RecoverChanges(r: Store, leases: seq<Lease>)
    ensures var n := RecoverScript(r, leases);
            && n == r.(lease := n.lease, pending := n.pending, attempts := n.attempts)
            && (forall i | i in r.bodies && i in r.attempts :: i in n.attempts && n.attempts[i] == r.attempts[i])
            && (forall m | m in leases && m in r.lease && m.id !in r.bodies :: m.id !in n.attempts)
            && n.attempts.Keys <= r.attempts.Keys
            && (forall m :: m in n.lease <==> m in r.lease && m !in leases)
  {
    hide PushBack;
    if leases != [] {
      RecoverChanges(r, Front(leases));
      var m := Last(leases);
      assert forall x :: x in leases <==> x in Front(leases) || x == m;
      var before := RecoverScript(r, Front(leases));
      PushBackChanges(before.(lease := before.lease - {m}), m.queue, m.id);
    }
  }

  lemma {:induction false} PromoteChanges(r: Store, waits: seq<Wait>)
    ensures var n := PromoteScript(r, waits);
            && n == r.(delayed := n.delayed, pending := n.pending, attempts := n.attempts)
            && (forall i | i in r.bodies && i in r.attempts :: i in n.attempts && n.attempts[i] == r.attempts[i])
            && (forall m | m in waits && m in r.delayed && m.id !in r.bodies :: m.id !in n.attempts)
            && n.attempts.Keys <= r.attempts.Keys
            && (forall m :: m in n.delayed <==> m in r.delayed && m !in waits)
  {
    hide PushBack;
    if waits != [] {
      PromoteChanges(r, Front(waits));
      var m := Last(waits);
      assert forall x :: x in waits <==> x in Front(waits) || x == m;
      var before := PromoteScript(r, Front(waits));
      PushBackChanges(before.(delayed := before.delayed - {m}), m.queue, m.id);
    }
  }

  lemma {:induction false} LettersConcat(bodies: map<Uuid, Job>, reasons: map<Uuid, string>, a: seq<Uuid>, b: seq<Uuid>)
    ensures Letters(bodies, reasons, a + b) == Letters(bodies, reasons, a) + Letters(bodies, reasons, b)
  {
    if b == [] {
      assert a + b == a;
    } else {
      assert Front(a + b) == a + Front(b) && Last(a + b) == Last(b);
      LettersConcat(bodies, reasons, a, Front(b));
    }
  }

  // ---------------------------------------------------------------- interleaved calls

  /** A broker call between two of its Redis commands: a settle that has fetched the job's queue, or
      a claim that has yet to mirror the attempt count into the body. */
  datatype Call =
    | Fetched(id: Uuid, token: Uuid, how: How, queue: string)
    | Unmirrored(job: Job)

  /** The database, the calls under way, the clock, the ids accepted and the tokens drawn so far. */
  datatype System = System(store: Store, calls: map<nat, Call>, clock: Time, accepted: set<Uuid>, usedTokens: set<Uuid>)

  const START := System(NO_DATA, map[], 0, {}, {})

  datatype Step =
    | Pass(to: Time)
    | Send(job: Job)
    | Recovery(now: Time, leases: seq<Lease>)
    | Promotion(now: Time, waits: seq<Wait>)
    | Take(call: nat, queue: string, token: Uuid, expiry: Time)
    | Mirror(call: nat)
    | Fetch(call: nat, id: Uuid, token: Uuid, how: How)
    | Finish(call: nat)
    | Crash(call: nat)

  /** The count reply as the broker reports it: cast to 32 bits. */
  function Cast32(n: nat): u32 {
    n % (U32_MAX + 1)
  }

  /** Exactly when the cast agrees with the other broker's saturation; the first count to differ is 2^32,
      which reads as zero. */
  lemma CastSaturatesIff(n: nat)
    ensures Cast32(n) == Min(n, U32_MAX) <==> n <= U32_MAX || n % (U32_MAX + 1) == U32_MAX
    ensures Cast32(U32_MAX + 1) == 0
  {
    if n <= U32_MAX {
      assert n % (U32_MAX + 1) == n;
    }
  }

  /** One step and the answer that it gives to a broker call, if it ends one. */
  function Perform(c: System, step: Step): (System, Option<Answer>) {
    match step
    case Pass(to) => (c.(clock := to), None)
    case Send(job) =>
      var (n, answer) := EnqueueScript(c.store, job);
      var accepted := if BlankKey(job) || KeyTaken(c.store, job) then c.accepted else c.accepted + {job.id};
      (c.(store := n, accepted := accepted), Some(answer))
    case Recovery(_, leases) => (c.(store := RecoverScript(c.store, leases)), None)
    case Promotion(_, waits) => (c.(store := PromoteScript(c.store, waits)), None)
    case Take(call, queue, token, expiry) =>
      var (n, reply) := ClaimScript(c.store, queue, token, expiry);
      var d := c.(store := n, usedTokens := c.usedTokens + {token});
      (match reply
       case None => (d, Some(Nothing))
       case Some((body, count)) =>
         (d.(calls := c.calls[call := Unmirrored(body.(attempts := Cast32(count)))]),
             Some(Claimed(body.id, token, count))))
    case Mirror(call) =>
      if call !in c.calls || !c.calls[call].Unmirrored? then (c, None)
      else
        var job := c.calls[call].job;
        (c.(store := c.store.(bodies := c.store.bodies[job.id := job]), calls := c.calls - {call}), None)
    case Fetch(call, id, token, how) =>
      if id !in c.store.bodies then (c, Some(JobNotFound))
      else (c.(calls := c.calls[call := Fetched(id, token, how, c.store.bodies[id].queue)]), None)
    case Finish(call) =>
      if call !in c.calls || !c.calls[call].Fetched? then (c, None)
      else
        var k := c.calls[call];
        var (n, ok) := SettleScript(c.store, k.queue, k.id, k.token, k.how);
        (c.(store := n, calls := c.calls - {call}), Some(if ok then Settled else JobNotFound))
    case Crash(call) => (c.(calls := c.calls - {call}), None)
  }

  /** A sorted-set range lists each member up to the score once, by score. */
  ghost predicate Range<M(!new)>(z: map<M, Time>, now: Time, members: seq<M>) {
    && NoDup(members)
    && (forall m :: m in members <==> m in z && z[m] <= now)
    && (forall i, j | 0 <= i < j < |members| :: members[i] in z && members[j] in z && z[members[i]] <= z[members[j]])
  }

  /** The id is in a list or in a sorted-set member. */
  ghost predicate Tracked(r: Store, id: Uuid) {
    || (exists q :: id in At(r.pending, q))
    || (exists q :: id in At(r.dead, q))
    || (exists m :: m in r.lease && m.id == id)
    || (exists m :: m in r.delayed && m.id == id)
  }

  /** What a producer may send: a job without a taken key has a new id, and a job under a taken key is
      not being tracked. A job that lost on its key, or whose key is blank, may be sent again and again. */
  ghost predicate MaySend(c: System, job: Job) {
    BlankKey(job) || if KeyTaken(c.store, job) then !Tracked(c.store, job.id) else job.id !in c.accepted
  }

  /** The hypotheses: accepted ids and tokens are new, no resend hits a tracked job, the clock is read
      before its value is used. */
  ghost predicate Possible(c: System, step: Step) {
    match step
    case Pass(to) => c.clock <= to
    case Send(job) => MaySend(c, job)
    case Recovery(now, leases) => now <= c.clock && Range(c.store.lease, now, leases)
    case Promotion(now, waits) => now <= c.clock && Range(c.store.delayed, now, waits)
    case Take(call, _, token, _) => call !in c.calls && token !in c.usedTokens
    case Mirror(call) => call in c.calls && c.calls[call].Unmirrored?
    case Fetch(call, _, _, _) => call !in c.calls
    case Finish(call) => call in c.calls && c.calls[call].Fetched?
    case Crash(call) => call in c.calls
  }
}
