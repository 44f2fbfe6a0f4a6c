/** The scripts and commands on the flat key space, with every key and member as a string; each
    script does what RedisSpec says it does to the structured database. */
module RedisServer {
  import opened Jobs
  import opened BrokerSpec
  import opened BrokerHistory
  import opened RedisKeys
  import opened RedisSpec

  datatype Value =
    | Str(text: string)
    | Body(job: Job)
    | Number(n: nat)
    | List(items: seq<string>)
    | Scores(members: map<string, Time>)

  /** Redis has no empty lists and no empty sorted sets: such keys are absent. */
  type Db = map<string, Value>

  // ---------------------------------------------------------------- commands

  function Lookup(d: Db, key: string): Option<Value> {
    if key in d then Some(d[key]) else None
  }

  function Write(d: Db, key: string, v: Option<Value>): Db {
    match v
    case None => d - {key}
    case Some(value) => d[key := value]
  }

  function ListAt(d: Db, key: string): seq<string> {
    match Lookup(d, key)
    case Some(List(items)) => items
    case _ => []
  }

  function ScoresAt(d: Db, key: string): map<string, Time> {
    match Lookup(d, key)
    case Some(Scores(members)) => members
    case _ => map[]
  }

  function AsList(items: seq<string>): Option<Value> {
    if items == [] then None else Some(List(items))
  }

  function AsScores(members: map<string, Time>): Option<Value> {
    if members == map[] then None else Some(Scores(members))
  }

  function LPush(d: Db, key: string, item: string): Db {
    Write(d, key, AsList([item] + ListAt(d, key)))
  }

  function RPop(d: Db, key: string): (Db, Option<string>) {
    var items := ListAt(d, key);
    if items == [] then (d, None) else (Write(d, key, AsList(Front(items))), Some(Last(items)))
  }

  function ZAdd(d: Db, key: string, score: Time, member: string): Db {
    Write(d, key, AsScores(ScoresAt(d, key)[member := score]))
  }

  function ZRem(d: Db, key: string, member: string): (Db, nat) {
    var members := ScoresAt(d, key);
    if member in members then (Write(d, key, AsScores(members - {member})), 1) else (d, 0)
  }

  function Incr(d: Db, key: string): (Db, nat) {
    var n := match Lookup(d, key) case Some(Number(n)) => n case _ => 0;
    (Write(d, key, Some(Number(n + 1))), n + 1)
  }

  /** A list grows at its head and is popped at its tail. */
  lemma ListCommands(d: Db, key: string, item: string)
    ensures ListAt(LPush(d, key, item), key) == [item] + ListAt(d, key)
    ensures ListAt(d, key) == [] ==> RPop(d, key) == (d, None)
    ensures ListAt(d, key) != [] ==>
              var (e, popped) := RPop(d, key);
              popped.Some? && ListAt(d, key) == ListAt(e, key) + [popped.value]
    ensures forall other | other != key ::
              ListAt(LPush(d, key, item), other) == ListAt(d, other) == ListAt(RPop(d, key).0, other)
  {
  }

  // ---------------------------------------------------------------- what the key space stands for

  /** Lists are pushed at the head and popped at the tail, so the head is the newest. */
  function Stored(ids: seq<Uuid>): (items: seq<string>)
    ensures |items| == |ids|
  {
    if ids == [] then [] else [Text(Last(ids))] + Stored(Front(ids))
  }

  function Expected(v: Store, k: Key): Option<Value> {
    match k
    case PendingKey(q) => AsList(Stored(At(v.pending, q)))
    case DeadKey(q) => AsList(Stored(At(v.dead, q)))
    case JobKey(id) => if id in v.bodies then Some(Body(v.bodies[id])) else None
    case ReasonKey(id) => if id in v.reasons then Some(Str(v.reasons[id])) else None
    case AttemptsKey(id) => if id in v.attempts then Some(Number(v.attempts[id])) else None
    case IdempotencyKey(key) => if key in v.keys then Some(Str(Text(v.keys[key]))) else None
    case LeaseKey => None
    case DelayedKey => None
  }

  predicate IsSorted(k: Key) {
    k.LeaseKey? || k.DelayedKey?
  }

  ghost predicate PlainRep(prefix: string, d: Db, v: Store) {
    forall k: Key | !IsSorted(k) :: Lookup(d, Full(prefix, k)) == Expected(v, k)
  }

  function OfLease(m: Lease): string {
    LeaseMember(m.queue, m.id, m.token)
  }

  function OfWait(m: Wait): string {
    DelayedMember(m.queue, m.id)
  }

  ghost predicate LeaseRep(z: map<string, Time>, lease: map<Lease, Time>) {
    && (forall m | m in lease :: OfLease(m) in z && z[OfLease(m)] == lease[m])
    && (forall x | x in z :: exists m :: m in lease && x == OfLease(m))
  }

  ghost predicate WaitRep(z: map<string, Time>, delayed: map<Wait, Time>) {
    && (forall m | m in delayed :: OfWait(m) in z && z[OfWait(m)] == delayed[m])
    && (forall x | x in z :: exists m :: m in delayed && x == OfWait(m))
  }

  /** A key that holds a sorted set, or nothing. */
  predicate HoldsScores(d: Db, key: string) {
    Lookup(d, key) == AsScores(ScoresAt(d, key))
  }

  /** No job or attempts key belongs to an id with a separator in it. */
  ghost predicate NoStrays(prefix: string, d: Db) {
    forall text: string | SEP in text :: prefix + "job:" + text !in d && prefix + "attempts:" + text !in d
  }

  ghost predicate Rep(prefix: string, d: Db, v: Store) {
    && PlainRep(prefix, d, v)
    && HoldsScores(d, Full(prefix, LeaseKey)) && LeaseRep(ScoresAt(d, Full(prefix, LeaseKey)), v.lease)
    && HoldsScores(d, Full(prefix, DelayedKey)) && WaitRep(ScoresAt(d, Full(prefix, DelayedKey)), v.delayed)
    && NoStrays(prefix, d)
  }

  lemma RepScores(prefix: string, d: Db, v: Store)
    requires Rep(prefix, d, v)
    ensures HoldsScores(d, Full(prefix, LeaseKey)) && LeaseRep(ScoresAt(d, Full(prefix, LeaseKey)), v.lease)
    ensures HoldsScores(d, Full(prefix, DelayedKey)) && WaitRep(ScoresAt(d, Full(prefix, DelayedKey)), v.delayed)
    ensures NoStrays(prefix, d)
  {
  }

  // ---------------------------------------------------------------- one command, one key

  lemma WriteOther(prefix: string, d: Db, k: Key, value: Option<Value>, j: Key)
    requires j != k
    ensures Lookup(Write(d, Full(prefix, k), value), Full(prefix, j)) == Lookup(d, Full(prefix, j))
  {
    if Full(prefix, j) == Full(prefix, k) {
      FullInjective(prefix, j, k);
    }
  }

  lemma WriteSame(d: Db, key: string, value: Option<Value>)
    ensures Lookup(Write(d, key, value), key) == value
  {
  }

  lemma NameIsNoStray(k: Key, text: string)
    requires SEP in text
    ensures Name(k) != "job:" + text && Name(k) != "attempts:" + text
  {
    var s, job, attempts := Name(k), "job:" + text, "attempts:" + text;
    assert job[0] == 'j' && job[4..] == text && attempts[0] == 'a' && attempts[9..] == text;
    hide Text;
    match k
    case JobKey(id) => TextSepFree(id); assert s[0] == 'j' && s[4..] == Text(id);
    case ReasonKey(id) =>
      TextSepFree(id);
      assert s[0] == 'j' && s[4..] == Text(id) + ":dead_reason";
      assert SepFree(Text(id) + ":dead_reason");
    case AttemptsKey(id) => TextSepFree(id); assert s[0] == 'a' && s[9..] == Text(id);
    case _ => assert s[0] != 'j' && s[0] != 'a';
  }

  /** No key of the broker is a stray. */
  lemma FullIsNoStray(prefix: string, k: Key, text: string)
    requires SEP in text
    ensures Full(prefix, k) != prefix + "job:" + text && Full(prefix, k) != prefix + "attempts:" + text
  {
    hide Name;
    NameIsNoStray(k, text);
    assert Full(prefix, k)[|prefix|..] == Name(k);
    assert (prefix + "job:" + text)[|prefix|..] == "job:" + text;
    assert (prefix + "attempts:" + text)[|prefix|..] == "attempts:" + text;
  }

  lemma WriteNoStray(prefix: string, d: Db, k: Key, value: Option<Value>)
    requires NoStrays(prefix, d)
    ensures NoStrays(prefix, Write(d, Full(prefix, k), value))
  {
    forall text: string | SEP in text
      ensures prefix + "job:" + text !in Write(d, Full(prefix, k), value)
      ensures prefix + "attempts:" + text !in Write(d, Full(prefix, k), value)
    {
      FullIsNoStray(prefix, k, text);
    }
  }

  /** Writing one plain key. */
  lemma WritePlain(prefix: string, d: Db, v: Store, n: Store, k: Key)
    requires Rep(prefix, d, v) && !IsSorted(k)
    requires n.lease == v.lease && n.delayed == v.delayed
    requires forall j: Key | j != k :: Expected(n, j) == Expected(v, j)
    ensures Rep(prefix, Write(d, Full(prefix, k), Expected(n, k)), n)
  {
    hide Expected, Full, LeaseRep, WaitRep, NoStrays, Write, Lookup;
    var w := Write(d, Full(prefix, k), Expected(n, k));
    WriteNoStray(prefix, d, k, Expected(n, k));
    forall j: Key | j != k ensures Lookup(w, Full(prefix, j)) == Lookup(d, Full(prefix, j)) {
      WriteOther(prefix, d, k, Expected(n, k), j);
    }
    WriteSame(d, Full(prefix, k), Expected(n, k));
  }

  lemma ReadKey(prefix: string, d: Db, v: Store, k: Key)
    requires Rep(prefix, d, v) && !IsSorted(k)
    ensures Lookup(d, Full(prefix, k)) == Expected(v, k)
  {
  }

  lemma ReadList(prefix: string, d: Db, v: Store, q: string)
    requires Rep(prefix, d, v)
    ensures ListAt(d, Full(prefix, PendingKey(q))) == Stored(At(v.pending, q))
    ensures ListAt(d, Full(prefix, DeadKey(q))) == Stored(At(v.dead, q))
  {
    hide Rep, Full, Lookup, Stored;
    ReadKey(prefix, d, v, PendingKey(q));
    ReadKey(prefix, d, v, DeadKey(q));
  }

  lemma ReplacePending(v: Store, q: string, ids: seq<Uuid>)
    ensures var n := v.(pending := v.pending[q := ids]);
            Expected(n, PendingKey(q)) == AsList(Stored(ids))
            && forall j: Key | j != PendingKey(q) :: Expected(n, j) == Expected(v, j)
  {
  }

  lemma ReplaceDead(v: Store, q: string, ids: seq<Uuid>)
    ensures var n := v.(dead := v.dead[q := ids]);
            Expected(n, DeadKey(q)) == AsList(Stored(ids))
            && forall j: Key | j != DeadKey(q) :: Expected(n, j) == Expected(v, j)
  {
  }

  lemma PushPending(prefix: string, d: Db, v: Store, q: string, id: Uuid)
    requires Rep(prefix, d, v)
    ensures Rep(prefix, LPush(d, Full(prefix, PendingKey(q)), Text(id)), v.(pending := Append(v.pending, q, id)))
  {
    hide Rep, Lookup, Full, Text, Expected, Write, ListAt;
    var ids := At(v.pending, q) + [id];
    ReadList(prefix, d, v, q);
    ReplacePending(v, q, ids);
    assert Front(ids) == At(v.pending, q);
    WritePlain(prefix, d, v, v.(pending := v.pending[q := ids]), PendingKey(q));
  }

  lemma PushDead(prefix: string, d: Db, v: Store, q: string, id: Uuid)
    requires Rep(prefix, d, v)
    ensures Rep(prefix, LPush(d, Full(prefix, DeadKey(q)), Text(id)), v.(dead := Append(v.dead, q, id)))
  {
    hide Rep, Lookup, Full, Text, Expected, Write, ListAt;
    var ids := At(v.dead, q) + [id];
    ReadList(prefix, d, v, q);
    ReplaceDead(v, q, ids);
    assert Front(ids) == At(v.dead, q);
    WritePlain(prefix, d, v, v.(dead := v.dead[q := ids]), DeadKey(q));
  }

  lemma {:induction false} StoredTail(ids: seq<Uuid>)
    requires ids != []
    ensures Stored(ids) != [] && Last(Stored(ids)) == Text(ids[0]) && Front(Stored(ids)) == Stored(ids[1..])
  {
    hide Text;
    if |ids| > 1 {
      StoredTail(Front(ids));
      assert Front(ids)[1..] == Front(ids[1..]);
      assert Front(Stored(ids)) == [Text(Last(ids))] + Front(Stored(Front(ids)));
    }
  }

  lemma PopPending(prefix: string, d: Db, v: Store, q: string)
    requires Rep(prefix, d, v)
    ensures var (e, item) := RPop(d, Full(prefix, PendingKey(q)));
            if At(v.pending, q) == [] then e == d && item == None
            else
              && item == Some(Text(At(v.pending, q)[0]))
              && Rep(prefix, e, v.(pending := v.pending[q := At(v.pending, q)[1..]]))
  {
    hide Rep, Lookup, Full, Text, Expected, Write, ListAt;
    var ids := At(v.pending, q);
    ReadList(prefix, d, v, q);
    if ids != [] {
      ReplacePending(v, q, ids[1..]);
      StoredTail(ids);
      WritePlain(prefix, d, v, v.(pending := v.pending[q := ids[1..]]), PendingKey(q));
    }
  }

  /** A write to a job's string keys. */
  lemma WriteJobKey(prefix: string, d: Db, v: Store, n: Store, k: Key)
    requires Rep(prefix, d, v) && (k.JobKey? || k.ReasonKey? || k.AttemptsKey? || k.IdempotencyKey?)
    requires n == v.(bodies := n.bodies, reasons := n.reasons, attempts := n.attempts, keys := n.keys)
    requires forall j: Key | j != k :: Expected(n, j) == Expected(v, j)
    ensures Rep(prefix, Write(d, Full(prefix, k), Expected(n, k)), n)
  {
    hide Rep;
    WritePlain(prefix, d, v, n, k);
  }

  lemma WriteSorted(prefix: string, d: Db, v: Store, k: Key, z: map<string, Time>, n: Store)
    requires Rep(prefix, d, v) && IsSorted(k)
    requires n == v.(lease := n.lease, delayed := n.delayed)
    requires if k.LeaseKey? then LeaseRep(z, n.lease) && n.delayed == v.delayed
             else WaitRep(z, n.delayed) && n.lease == v.lease
    ensures Rep(prefix, Write(d, Full(prefix, k), AsScores(z)), n)
  {
    hide Full, LeaseRep, WaitRep, NoStrays, Write, Lookup;
    var w := Write(d, Full(prefix, k), AsScores(z));
    WriteNoStray(prefix, d, k, AsScores(z));
    forall j: Key | j != k ensures Lookup(w, Full(prefix, j)) == Lookup(d, Full(prefix, j)) {
      WriteOther(prefix, d, k, AsScores(z), j);
    }
    WriteSame(d, Full(prefix, k), AsScores(z));
    forall j: Key | !IsSorted(j) ensures Expected(n, j) == Expected(v, j) {
    }
    hide Expected;
  }

  lemma OfLeaseInjective(a: Lease, b: Lease)
    ensures OfLease(a) == OfLease(b) ==> a == b
  {
    if OfLease(a) == OfLease(b) {
      LeaseMemberInjective(a.queue, a.id, a.token, b.queue, b.id, b.token);
    }
  }

  lemma LeaseRepChanges(z: map<string, Time>, lease: map<Lease, Time>, m: Lease, score: Time)
    requires LeaseRep(z, lease)
    ensures LeaseRep(z[OfLease(m) := score], lease[m := score])
    ensures if m in lease then OfLease(m) in z && LeaseRep(z - {OfLease(m)}, lease - {m}) else OfLease(m) !in z
  {
    hide OfLease;
    forall o: Lease | o != m ensures OfLease(o) != OfLease(m) {
      OfLeaseInjective(o, m);
    }
    forall x | x in z && x != OfLease(m)
      ensures exists o :: o in lease[m := score] && x == OfLease(o)
      ensures exists o :: o in lease - {m} && x == OfLease(o)
    {
      var o :| o in lease && x == OfLease(o);
      assert o in lease[m := score] && o in lease - {m};
    }
    assert m in lease[m := score];
  }

  lemma AddLease(prefix: string, d: Db, v: Store, m: Lease, score: Time)
    requires Rep(prefix, d, v)
    ensures Rep(prefix, ZAdd(d, Full(prefix, LeaseKey), score, OfLease(m)), v.(lease := v.lease[m := score]))
  {
    var z := ScoresAt(d, Full(prefix, LeaseKey));
    assert LeaseRep(z, v.lease);
    hide Rep, LeaseRep, Full, OfLease, ScoresAt, Write;
    LeaseRepChanges(z, v.lease, m, score);
    WriteSorted(prefix, d, v, LeaseKey, z[OfLease(m) := score], v.(lease := v.lease[m := score]));
  }

  lemma RemoveLease(prefix: string, d: Db, v: Store, m: Lease)
    requires Rep(prefix, d, v)
    ensures var (e, removed) := ZRem(d, Full(prefix, LeaseKey), OfLease(m));
            if m in v.lease then removed == 1 && Rep(prefix, e, v.(lease := v.lease - {m})) else removed == 0 && e == d
  {
    var z := ScoresAt(d, Full(prefix, LeaseKey));
    assert LeaseRep(z, v.lease);
    hide Rep, LeaseRep, Full, OfLease, ScoresAt, Write;
    LeaseRepChanges(z, v.lease, m, 0);
    if m in v.lease {
      WriteSorted(prefix, d, v, LeaseKey, z - {OfLease(m)}, v.(lease := v.lease - {m}));
    }
  }

  lemma OfWaitInjective(a: Wait, b: Wait)
    ensures OfWait(a) == OfWait(b) ==> a == b
  {
    if OfWait(a) == OfWait(b) {
      DelayedMemberInjective(a.queue, a.id, b.queue, b.id);
    }
  }

  lemma WaitRepChanges(z: map<string, Time>, delayed: map<Wait, Time>, m: Wait, score: Time)
    requires WaitRep(z, delayed)
    ensures WaitRep(z[OfWait(m) := score], delayed[m := score])
    ensures if m in delayed then OfWait(m) in z && WaitRep(z - {OfWait(m)}, delayed - {m}) else OfWait(m) !in z
  {
    hide OfWait;
    forall o: Wait | o != m ensures OfWait(o) != OfWait(m) {
      OfWaitInjective(o, m);
    }
    forall x | x in z && x != OfWait(m)
      ensures exists o :: o in delayed[m := score] && x == OfWait(o)
      ensures exists o :: o in delayed - {m} && x == OfWait(o)
    {
      var o :| o in delayed && x == OfWait(o);
      assert o in delayed[m := score] && o in delayed - {m};
    }
    assert m in delayed[m := score];
  }

  lemma AddWait(prefix: string, d: Db, v: Store, m: Wait, score: Time)
    requires Rep(prefix, d, v)
    ensures Rep(prefix, ZAdd(d, Full(prefix, DelayedKey), score, OfWait(m)), v.(delayed := v.delayed[m := score]))
  {
    var z := ScoresAt(d, Full(prefix, DelayedKey));
    assert WaitRep(z, v.delayed);
    hide Rep, WaitRep, Full, OfWait, ScoresAt, Write;
    WaitRepChanges(z, v.delayed, m, score);
    WriteSorted(prefix, d, v, DelayedKey, z[OfWait(m) := score], v.(delayed := v.delayed[m := score]));
  }

  lemma RemoveWait(prefix: string, d: Db, v: Store, m: Wait)
    requires Rep(prefix, d, v)
    ensures var (e, removed) := ZRem(d, Full(prefix, DelayedKey), OfWait(m));
            if m in v.delayed then removed == 1 && Rep(prefix, e, v.(delayed := v.delayed - {m}))
            else removed == 0 && e == d
  {
    var z := ScoresAt(d, Full(prefix, DelayedKey));
    assert WaitRep(z, v.delayed);
    hide Rep, WaitRep, Full, OfWait, ScoresAt, Write;
    WaitRepChanges(z, v.delayed, m, 0);
    if m in v.delayed {
      WriteSorted(prefix, d, v, DelayedKey, z - {OfWait(m)}, v.(delayed := v.delayed - {m}));
    }
  }

  // ---------------------------------------------------------------- key building in the scripts

  /** The scripts receive key prefixes and append what they parsed. */
  lemma ScriptKeys(prefix: string, q: string, id: Uuid)
    ensures prefix + "q:" + q + ":pending" == Full(prefix, PendingKey(q))
    ensures prefix + "job:" + Text(id) == Full(prefix, JobKey(id))
    ensures prefix + "attempts:" + Text(id) == Full(prefix, AttemptsKey(id))
  {
    hide Text;
    assert prefix + ("q:" + q + ":pending") == prefix + "q:" + q + ":pending";
  }

  // ---------------------------------------------------------------- sorted-set ranges

  lemma {:induction false} LowestExists(z: map<string, Time>, rest: set<string>) returns (m: string)
    requires rest != {} && (forall x | x in rest :: x in z)
    ensures m in rest && forall x | x in rest :: z[m] <= z[x]
    decreases |rest|
  {
    m :| m in rest;
    if rest - {m} != {} {
      var n := LowestExists(z, rest - {m});
      if z[n] < z[m] {
        m := n;
      }
    }
  }

  /** ZRANGEBYSCORE from minus infinity: lowest scores first, ties in any order. */
  method RangeByScore(z: map<string, Time>, now: Time) returns (members: seq<string>)
    ensures Range(z, now, members)
  {
    var rest := set m | m in z && z[m] <= now;
    members := [];
    while rest != {}
      invariant NoDup(members)
      invariant forall m :: m in z && z[m] <= now <==> m in rest || m in members
      invariant forall m | m in members :: m in z && m !in rest && forall x | x in rest :: z[m] <= z[x]
      invariant forall i, j | 0 <= i < j < |members| :: z[members[i]] <= z[members[j]]
    {
      ghost var lowest := LowestExists(z, rest);
      var m :| m in rest && forall x | x in rest :: z[m] <= z[x];
      rest := rest - {m};
      members := members + [m];
    }
  }

  /** The lease members behind a range of the stored strings. */
  lemma LeasesBehind(z: map<string, Time>, lease: map<Lease, Time>, now: Time, members: seq<string>)
      returns (leases: seq<Lease>)
    requires LeaseRep(z, lease) && Range(z, now, members)
    ensures |leases| == |members|
    ensures forall i | 0 <= i < |leases| :: leases[i] in lease && OfLease(leases[i]) == members[i]
    ensures Range(lease, now, leases)
  {
    hide OfLease;
    leases := [];
    for i := 0 to |members|
      invariant |leases| == i
      invariant forall j | 0 <= j < i :: leases[j] in lease && OfLease(leases[j]) == members[j]
    {
      assert members[i] in members;
      var m :| m in lease && members[i] == OfLease(m);
      leases := leases + [m];
    }
    forall m ensures m in leases <==> m in lease && lease[m] <= now {
      if m in lease && lease[m] <= now {
        assert OfLease(m) in members;
        var i :| 0 <= i < |members| && members[i] == OfLease(m);
        OfLeaseInjective(leases[i], m);
        assert leases[i] == m;
      }
      if m in leases {
        assert OfLease(m) in members;
      }
    }
  }

  lemma WaitsBehind(z: map<string, Time>, delayed: map<Wait, Time>, now: Time, members: seq<string>)
      returns (waits: seq<Wait>)
    requires WaitRep(z, delayed) && Range(z, now, members)
    ensures |waits| == |members|
    ensures forall i | 0 <= i < |waits| :: waits[i] in delayed && OfWait(waits[i]) == members[i]
    ensures Range(delayed, now, waits)
  {
    hide OfWait;
    waits := [];
    for i := 0 to |members|
      invariant |waits| == i
      invariant forall j | 0 <= j < i :: waits[j] in delayed && OfWait(waits[j]) == members[j]
    {
      assert members[i] in members;
      var m :| m in delayed && members[i] == OfWait(m);
      waits := waits + [m];
    }
    forall m ensures m in waits <==> m in delayed && delayed[m] <= now {
      if m in delayed && delayed[m] <= now {
        assert OfWait(m) in members;
        var i :| 0 <= i < |members| && members[i] == OfWait(m);
        OfWaitInjective(waits[i], m);
        assert waits[i] == m;
      }
      if m in waits {
        assert OfWait(m) in members;
      }
    }
  }

  /** The recovery script's loop over the members it found. */
  method SweepLeaseMembers(prefix: string, was: Db, members: seq<string>, ghost leases: seq<Lease>) returns (d: Db)
    requires |leases| == |members| && forall i | 0 <= i < |members| :: OfLease(leases[i]) == members[i]
    ensures d == SweepLeases(prefix, was, leases)
  {
    hide Full, Text, SplitLease, OfLease, ZRem, PushBackText, SweepLease;
    d := was;
    for i := 0 to |members|
      invariant d == SweepLeases(prefix, was, leases[..i])
    {
      SweepLeaseIs(prefix, d, leases[i]);
      assert Front(leases[..i + 1]) == leases[..i];
      var (e, n) := ZRem(d, Full(prefix, LeaseKey), members[i]);
      d := e;
      var split := SplitLease(members[i]);
      if n == 1 && split.Some? {
        d := PushBackText(prefix, d, split.value.0, split.value.1);
      }
    }
    assert leases[..|leases|] == leases;
  }

  /** The promotion script's loop. */
  method SweepWaitMembers(prefix: string, was: Db, members: seq<string>, ghost waits: seq<Wait>) returns (d: Db)
    requires |waits| == |members| && forall i | 0 <= i < |members| :: OfWait(waits[i]) == members[i]
    ensures d == SweepWaits(prefix, was, waits)
  {
    hide Full, Text, SplitDelayed, OfWait, ZRem, PushBackText, SweepWait;
    d := was;
    for i := 0 to |members|
      invariant d == SweepWaits(prefix, was, waits[..i])
    {
      SweepWaitIs(prefix, d, waits[i]);
      assert Front(waits[..i + 1]) == waits[..i];
      var (e, n) := ZRem(d, Full(prefix, DelayedKey), members[i]);
      d := e;
      var split := SplitDelayed(members[i]);
      if n == 1 && split.Some? {
        d := PushBackText(prefix, d, split.value.0, split.value.1);
      }
    }
    assert waits[..|waits|] == waits;
  }

  // ---------------------------------------------------------------- the server

  class RedisServer {
    const prefix: string
    var db: Db
    /** The structured database that the key space stands for. */
    ghost var view: Store

    ghost predicate Valid()
      reads this
    {
      Rep(prefix, db, view)
    }

    constructor (prefix: string)
      ensures Valid() && view == NO_DATA && this.prefix == prefix
    {
      this.prefix := prefix;
      db, view := map[], NO_DATA;
    }

    method Claim(queue: string, expiry: Time, token: Uuid) returns (reply: Option<(Job, nat)>)
      requires Valid()
      modifies this
      ensures Valid() && (view, reply) == ClaimScript(old(view), queue, token, expiry)
    {
      hide Rep, Full, Text, OfLease, SepFree, LPush, Write, ZAdd;
      ghost var v := view;
      PopPending(prefix, db, v, queue);
      var (d, popped) := RPop(db, Full(prefix, PendingKey(queue)));
      db := d;
      if popped.None? {
        return None;
      }
      ghost var id := At(v.pending, queue)[0];
      v := v.(pending := v.pending[queue := At(v.pending, queue)[1..]]);
      ScriptKeys(prefix, queue, id);
      var body := Lookup(d, prefix + "job:" + popped.value);
      ReadKey(prefix, d, v, JobKey(id));
      if body.None? {
        view := v;
        return None;
      }
      var attemptsKey := prefix + "attempts:" + popped.value;
      ReadKey(prefix, d, v, AttemptsKey(id));
      var (e, n) := Incr(d, attemptsKey);
      CountUp(prefix, d, v, id, n);
      v := v.(attempts := v.attempts[id := n]);
      var member := queue + [SEP] + popped.value + [SEP] + Text(token);
      MemberText(queue, id, token);
      AddLease(prefix, e, v, Lease(queue, id, token), expiry);
      db := ZAdd(e, Full(prefix, LeaseKey), expiry, member);
      view := v.(lease := v.lease[Lease(queue, id, token) := expiry]);
      reply := Some((body.value.job, n));
    }

    method Ack(queue: string, id: Uuid, token: Uuid) returns (removed: bool)
      requires Valid()
      modifies this
      ensures Valid() && (view, removed) == SettleScript(old(view), queue, id, token, How.Ack)
      // Exactly when the lease was held, it goes together with the job's body and counter, key and all.
      ensures removed <==> Lease(queue, id, token) in old(view).lease
      ensures !removed ==> view == old(view)
      ensures removed ==>
                && view == old(view).(lease := old(view).lease - {Lease(queue, id, token)},
                                      bodies := old(view).bodies - {id}, attempts := old(view).attempts - {id})
                && Lookup(db, Full(prefix, JobKey(id))) == None && Lookup(db, Full(prefix, AttemptsKey(id))) == None
    {
      hide Rep, Full, OfLease, Write, ZRem;
      ghost var v := view;
      RemoveLease(prefix, db, v, Lease(queue, id, token));
      var (d, n) := ZRem(db, Full(prefix, LeaseKey), OfLease(Lease(queue, id, token)));
      if n == 0 {
        return false;
      }
      v := v.(lease := v.lease - {Lease(queue, id, token)});
      DropBody(prefix, d, v, id);
      d := Write(d, Full(prefix, JobKey(id)), None);
      v := v.(bodies := v.bodies - {id});
      DropCount(prefix, d, v, id);
      db := Write(d, Full(prefix, AttemptsKey(id)), None);
      view := v.(attempts := v.attempts - {id});
      ReadKey(prefix, db, view, JobKey(id));
      ReadKey(prefix, db, view, AttemptsKey(id));
      removed := true;
    }

    method Nack(queue: string, id: Uuid, token: Uuid, due: Option<Time>) returns (ok: bool)
      requires Valid()
      modifies this
      ensures Valid() && (view, ok) == SettleScript(old(view), queue, id, token, Retry(due))
      ensures view.bodies == old(view).bodies && view.attempts == old(view).attempts
    {
      hide Rep, Full, OfLease, OfWait, Write, ZRem, ZAdd, LPush, Text;
      ghost var v := view;
      RemoveLease(prefix, db, v, Lease(queue, id, token));
      var (d, n) := ZRem(db, Full(prefix, LeaseKey), OfLease(Lease(queue, id, token)));
      if n == 0 {
        return false;
      }
      v := v.(lease := v.lease - {Lease(queue, id, token)});
      ReadKey(prefix, d, v, JobKey(id));
      if Lookup(d, Full(prefix, JobKey(id))).None? {
        db, view := d, v;
        return false;
      }
      if due.None? {
        PushPending(prefix, d, v, queue, id);
        db := LPush(d, Full(prefix, PendingKey(queue)), Text(id));
        view := v.(pending := Append(v.pending, queue, id));
      } else {
        AddWait(prefix, d, v, Wait(queue, id), due.value);
        db := ZAdd(d, Full(prefix, DelayedKey), due.value, OfWait(Wait(queue, id)));
        view := v.(delayed := v.delayed[Wait(queue, id) := due.value]);
      }
      ok := true;
    }

    method DeadLetter(queue: string, id: Uuid, token: Uuid, reason: string) returns (ok: bool)
      requires Valid()
      modifies this
      ensures Valid() && (view, ok) == SettleScript(old(view), queue, id, token, Bury(reason))
      ensures view.bodies == old(view).bodies
      ensures ok ==>
                && id !in view.attempts && id in view.reasons && view.reasons[id] == reason
                && Lookup(db, Full(prefix, AttemptsKey(id))) == None
    {
      hide Rep, Full, OfLease, Write, ZRem, LPush, Text;
      ghost var v := view;
      RemoveLease(prefix, db, v, Lease(queue, id, token));
      var (d, n) := ZRem(db, Full(prefix, LeaseKey), OfLease(Lease(queue, id, token)));
      if n == 0 {
        return false;
      }
      v := v.(lease := v.lease - {Lease(queue, id, token)});
      ReadKey(prefix, d, v, JobKey(id));
      if Lookup(d, Full(prefix, JobKey(id))).None? {
        db, view := d, v;
        return false;
      }
      PushDead(prefix, d, v, queue, id);
      d := LPush(d, Full(prefix, DeadKey(queue)), Text(id));
      v := v.(dead := Append(v.dead, queue, id));
      PutReason(prefix, d, v, id, reason);
      d := Write(d, Full(prefix, ReasonKey(id)), Some(Str(reason)));
      v := v.(reasons := v.reasons[id := reason]);
      DropCount(prefix, d, v, id);
      db := Write(d, Full(prefix, AttemptsKey(id)), None);
      view := v.(attempts := v.attempts - {id});
      ReadKey(prefix, db, view, AttemptsKey(id));
      ok := true;
    }

    /** Sweeps lapsed leases. The members are parsed, not known: for queue names without separators the
        sweep is the structured one. */
    method Recover(now: Time) returns (ghost leases: seq<Lease>)
      requires Valid()
      modifies this
      ensures Range(old(view).lease, now, leases) && db == SweepLeases(prefix, old(db), leases)
      ensures (forall m | m in leases :: SepFree(m.queue)) ==> Valid() && view == RecoverScript(old(view), leases)
    {
      hide Rep, LeaseRep, Range, RecoverScript, Full, Text, OfLease, SepFree, SweepLeases;
      RepScores(prefix, db, view);
      var members := RangeByScore(ScoresAt(db, Full(prefix, LeaseKey)), now);
      leases := LeasesBehind(ScoresAt(db, Full(prefix, LeaseKey)), view.lease, now, members);
      if forall m | m in leases :: SepFree(m.queue) {
        SweepLeasesIsScript(prefix, db, view, leases);
        view := RecoverScript(view, leases);
      }
      db := SweepLeaseMembers(prefix, db, members, leases);
    }

    /** Sweeps due delayed members, likewise. */
    method Promote(now: Time) returns (ghost waits: seq<Wait>)
      requires Valid()
      modifies this
      ensures Range(old(view).delayed, now, waits) && db == SweepWaits(prefix, old(db), waits)
      ensures (forall m | m in waits :: SepFree(m.queue)) ==> Valid() && view == PromoteScript(old(view), waits)
    {
      hide Rep, WaitRep, Range, PromoteScript, Full, Text, OfWait, SepFree, SweepWaits;
      RepScores(prefix, db, view);
      var members := RangeByScore(ScoresAt(db, Full(prefix, DelayedKey)), now);
      waits := WaitsBehind(ScoresAt(db, Full(prefix, DelayedKey)), view.delayed, now, members);
      if forall m | m in waits :: SepFree(m.queue) {
        SweepWaitsIsScript(prefix, db, view, waits);
        view := PromoteScript(view, waits);
      }
      db := SweepWaitMembers(prefix, db, members, waits);
    }

    /** The queue that a settle reads from the job's body before its script runs. */
    method FetchQueue(id: Uuid) returns (queue: Option<string>)
      requires Valid()
      ensures queue == if id in view.bodies then Some(view.bodies[id].queue) else None
    {
      hide Rep, Full;
      ReadKey(prefix, db, view, JobKey(id));
      var body := Lookup(db, Full(prefix, JobKey(id)));
      queue := if body.Some? then Some(body.value.job.queue) else None;
    }

    /** The late write of the attempt count into the body. */
    method Mirror(job: Job)
      requires Valid()
      modifies this
      ensures Valid() && view == old(view).(bodies := old(view).bodies[job.id := job])
    {
      hide Rep, Full, Write;
      PutBody(prefix, db, view, job.id, job);
      db := Write(db, Full(prefix, JobKey(job.id)), Some(Body(job)));
      view := view.(bodies := view.bodies[job.id := job]);
    }

    /** Enqueues; the reply is the id's text, or nothing for a blank key. */
    method Enqueue(job: Job) returns (reply: Option<string>)
      requires Valid()
      modifies this
      ensures Valid() && view == EnqueueScript(old(view), job).0
      ensures reply == match EnqueueScript(old(view), job).1 case Accepted(id) => Some(Text(id)) case _ => None
    {
      hide Rep, Full, Text, Write, LPush, SepFree, IsBlank;
      if job.key.Some? && IsBlank(job.key.value) {
        return None;
      }
      ghost var v := view;
      PutBody(prefix, db, v, job.id, job);
      var d := Write(db, Full(prefix, JobKey(job.id)), Some(Body(job)));
      v := v.(bodies := v.bodies[job.id := job]);
      if job.key.Some? {
        ReadKey(prefix, d, v, IdempotencyKey(job.key.value));
        var held := Lookup(d, Full(prefix, IdempotencyKey(job.key.value)));
        if held.Some? {
          DropBody(prefix, d, v, job.id);
          db := Write(d, Full(prefix, JobKey(job.id)), None);
          view := v.(bodies := v.bodies - {job.id});
          return Some(held.value.text);
        }
        PutKey(prefix, d, v, job.key.value, job.id);
        d := Write(d, Full(prefix, IdempotencyKey(job.key.value)), Some(Str(Text(job.id))));
        v := v.(keys := v.keys[job.key.value := job.id]);
      }
      PushPending(prefix, d, v, job.queue, job.id);
      db := LPush(d, Full(prefix, PendingKey(job.queue)), Text(job.id));
      view := v.(pending := Append(v.pending, job.queue, job.id));
      reply := Some(Text(job.id));
    }

    /** Reads the dead list from its tail, oldest first, joining bodies and reasons. */
    method ListDead(queue: string) returns (letters: seq<Letter>)
      requires Valid()
      ensures letters == Letters(view.bodies, view.reasons, At(view.dead, queue))
    {
      hide Rep, Full, Text;
      ghost var ids := At(view.dead, queue);
      ReadList(prefix, db, view, queue);
      var items := ListAt(db, Full(prefix, DeadKey(queue)));
      letters := [];
      for i := 0 to |items|
        invariant letters == Letters(view.bodies, view.reasons, ids[..i])
      {
        var text := items[|items| - 1 - i];
        ghost var id := ids[i];
        assert Front(ids[..i + 1]) == ids[..i];
        StoredAt(ids, i);
        ScriptKeys(prefix, queue, id);
        ReasonText(prefix, id);
        ReadKey(prefix, db, view, JobKey(id));
        ReadKey(prefix, db, view, ReasonKey(id));
        var body := Lookup(db, prefix + "job:" + text);
        if body.Some? {
          var reason := Lookup(db, prefix + "job:" + text + ":dead_reason");
          letters := letters + [Letter(body.value.job, if reason.Some? then reason.value.text else "")];
        }
      }
      assert ids[..|ids|] == ids;
    }
  }

  lemma MemberText(queue: string, id: Uuid, token: Uuid)
    ensures queue + [SEP] + Text(id) + [SEP] + Text(token) == OfLease(Lease(queue, id, token))
    ensures queue + [SEP] + Text(id) == OfWait(Wait(queue, id))
  {
  }

  lemma CountUp(prefix: string, d: Db, v: Store, id: Uuid, n: nat)
    requires Rep(prefix, d, v) && n == Count(v.attempts, id) + 1
    ensures Rep(prefix, Write(d, Full(prefix, AttemptsKey(id)), Some(Number(n))), v.(attempts := v.attempts[id := n]))
  {
    hide Rep, Full, Text, Write;
    WriteJobKey(prefix, d, v, v.(attempts := v.attempts[id := n]), AttemptsKey(id));
  }

  lemma DropBody(prefix: string, d: Db, v: Store, id: Uuid)
    requires Rep(prefix, d, v)
    ensures Rep(prefix, Write(d, Full(prefix, JobKey(id)), None), v.(bodies := v.bodies - {id}))
  {
    hide Rep, Full, Text, Write;
    WriteJobKey(prefix, d, v, v.(bodies := v.bodies - {id}), JobKey(id));
  }

  lemma PutBody(prefix: string, d: Db, v: Store, id: Uuid, body: Job)
    requires Rep(prefix, d, v)
    ensures Rep(prefix, Write(d, Full(prefix, JobKey(id)), Some(Body(body))), v.(bodies := v.bodies[id := body]))
  {
    hide Rep, Full, Text, Write;
    WriteJobKey(prefix, d, v, v.(bodies := v.bodies[id := body]), JobKey(id));
  }

  lemma DropCount(prefix: string, d: Db, v: Store, id: Uuid)
    requires Rep(prefix, d, v)
    ensures Rep(prefix, Write(d, Full(prefix, AttemptsKey(id)), None), v.(attempts := v.attempts - {id}))
  {
    hide Rep, Full, Text, Write;
    WriteJobKey(prefix, d, v, v.(attempts := v.attempts - {id}), AttemptsKey(id));
  }

  lemma PutReason(prefix: string, d: Db, v: Store, id: Uuid, reason: string)
    requires Rep(prefix, d, v)
    ensures Rep(prefix, Write(d, Full(prefix, ReasonKey(id)), Some(Str(reason))),
              v.(reasons := v.reasons[id := reason]))
  {
    hide Rep, Full, Text, Write;
    WriteJobKey(prefix, d, v, v.(reasons := v.reasons[id := reason]), ReasonKey(id));
  }

  lemma PutKey(prefix: string, d: Db, v: Store, key: string, id: Uuid)
    requires Rep(prefix, d, v)
    ensures Rep(prefix, Write(d, Full(prefix, IdempotencyKey(key)), Some(Str(Text(id)))), v.(keys := v.keys[key := id]))
  {
    hide Rep, Full, Text, Write;
    WriteJobKey(prefix, d, v, v.(keys := v.keys[key := id]), IdempotencyKey(key));
  }

  /** The common end of both sweeps, on the parsed queue and job id. */
  function PushBackText(prefix: string, d: Db, queue: string, id: string): Db {
    match Lookup(d, prefix + "job:" + id)
    case Some(_) => LPush(d, prefix + "q:" + queue + ":pending", id)
    case None => Write(d, prefix + "attempts:" + id, None)
  }

  lemma PushBackStep(prefix: string, d: Db, v: Store, queue: string, id: Uuid)
    requires Rep(prefix, d, v)
    ensures Rep(prefix, PushBackText(prefix, d, queue, Text(id)), PushBack(v, queue, id))
  {
    hide Rep, Full, Text, Write, LPush;
    ScriptKeys(prefix, queue, id);
    ReadKey(prefix, d, v, JobKey(id));
    PushPending(prefix, d, v, queue, id);
    DropCount(prefix, d, v, id);
  }

  /** What the recovery script does with one member: remove it, parse it, push back what was parsed. */
  function SweepLease(prefix: string, d: Db, m: Lease): Db {
    var (e, n) := ZRem(d, Full(prefix, LeaseKey), OfLease(m));
    match SplitLease(OfLease(m))
    case Some((queue, id)) => if n == 1 then PushBackText(prefix, e, queue, id) else e
    case None => e
  }

  function SweepLeases(prefix: string, d: Db, leases: seq<Lease>): Db {
    if leases == [] then d else SweepLease(prefix, SweepLeases(prefix, d, Front(leases)), Last(leases))
  }

  /** What the promotion script does with one member. */
  function SweepWait(prefix: string, d: Db, m: Wait): Db {
    var (e, n) := ZRem(d, Full(prefix, DelayedKey), OfWait(m));
    match SplitDelayed(OfWait(m))
    case Some((queue, id)) => if n == 1 then PushBackText(prefix, e, queue, id) else e
    case None => e
  }

  function SweepWaits(prefix: string, d: Db, waits: seq<Wait>): Db {
    if waits == [] then d else SweepWait(prefix, SweepWaits(prefix, d, Front(waits)), Last(waits))
  }

  lemma SweepLeaseIs(prefix: string, d: Db, m: Lease)
    ensures var (e, n) := ZRem(d, Full(prefix, LeaseKey), OfLease(m));
            var split := SplitLease(OfLease(m));
            SweepLease(prefix, d, m) == if n == 1 && split.Some?
                then PushBackText(prefix, e, split.value.0, split.value.1) else e
  {
    hide ZRem, SplitLease, OfLease, PushBackText, Full;
  }

  lemma SweepWaitIs(prefix: string, d: Db, m: Wait)
    ensures var (e, n) := ZRem(d, Full(prefix, DelayedKey), OfWait(m));
            var split := SplitDelayed(OfWait(m));
            SweepWait(prefix, d, m) == if n == 1 && split.Some?
                then PushBackText(prefix, e, split.value.0, split.value.1) else e
  {
    hide ZRem, SplitDelayed, OfWait, PushBackText, Full;
  }

  /** For a queue name without separators, the parsed sweep is the structured one. */
  lemma SweepLeaseIsScript(prefix: string, d: Db, v: Store, m: Lease)
    requires Rep(prefix, d, v) && SepFree(m.queue)
    ensures Rep(prefix, SweepLease(prefix, d, m), RecoverOne(v, m))
  {
    hide Rep, Full, Text, SplitLease, OfLease, ZRem, PushBackText, SepFree, PushBack;
    RemoveLease(prefix, d, v, m);
    LeaseRoundTrip(m.queue, m.id, m.token);
    MemberText(m.queue, m.id, m.token);
    if m in v.lease {
      var (e, n) := ZRem(d, Full(prefix, LeaseKey), OfLease(m));
      PushBackStep(prefix, e, v.(lease := v.lease - {m}), m.queue, m.id);
    }
  }

  lemma SweepWaitIsScript(prefix: string, d: Db, v: Store, m: Wait)
    requires Rep(prefix, d, v) && SepFree(m.queue)
    ensures Rep(prefix, SweepWait(prefix, d, m), PromoteOne(v, m))
  {
    hide Rep, Full, Text, SplitDelayed, OfWait, ZRem, PushBackText, SepFree, PushBack;
    RemoveWait(prefix, d, v, m);
    DelayedRoundTrip(m.queue, m.id);
    MemberText(m.queue, m.id, 0);
    if m in v.delayed {
      var (e, n) := ZRem(d, Full(prefix, DelayedKey), OfWait(m));
      PushBackStep(prefix, e, v.(delayed := v.delayed - {m}), m.queue, m.id);
    }
  }

  lemma {:induction false} SweepLeasesIsScript(prefix: string, d: Db, v: Store, leases: seq<Lease>)
    requires Rep(prefix, d, v) && (forall m | m in leases :: SepFree(m.queue))
    ensures Rep(prefix, SweepLeases(prefix, d, leases), RecoverScript(v, leases))
  {
    hide Rep, SweepLease, RecoverOne, SepFree;
    if leases != [] {
      SweepLeasesIsScript(prefix, d, v, Front(leases));
      SweepLeaseIsScript(prefix, SweepLeases(prefix, d, Front(leases)), RecoverScript(v, Front(leases)), Last(leases));
    }
  }

  lemma {:induction false} SweepWaitsIsScript(prefix: string, d: Db, v: Store, waits: seq<Wait>)
    requires Rep(prefix, d, v) && (forall m | m in waits :: SepFree(m.queue))
    ensures Rep(prefix, SweepWaits(prefix, d, waits), PromoteScript(v, waits))
  {
    hide Rep, SweepWait, PromoteOne, SepFree;
    if waits != [] {
      SweepWaitsIsScript(prefix, d, v, Front(waits));
      SweepWaitIsScript(prefix, SweepWaits(prefix, d, Front(waits)), PromoteScript(v, Front(waits)), Last(waits));
    }
  }

  /** A queue name with a separator breaks recovery: the swept job reaches the head of its own ready
      list exactly when the name has none. */
  lemma SweptToOwnQueueIff(prefix: string, d: Db, m: Lease)
    requires Lookup(d, Full(prefix, JobKey(m.id))).Some?
    ensures var key := Full(prefix, PendingKey(m.queue));
            var split := SplitLease(OfLease(m));
            split.Some? &&
            (ListAt(PushBackText(prefix, d, split.value.0, split.value.1), key) == [Text(m.id)] + ListAt(d, key)
             <==> SepFree(m.queue))
  {
    hide SplitLease, LeaseMember, Text, Full, PushBackText, SepFree, ListAt, Lookup;
    LeaseSplit(m.queue, m.id, m.token);
    var (q, id) := SplitLease(OfLease(m)).value;
    if q == m.queue {
      PushBackHere(prefix, d, q, m.id);
    } else {
      PushBackElsewhere(prefix, d, q, id, m.queue);
    }
  }

  /** A sweep pushes nothing but the parsed id. */
  lemma PushBackOnly(prefix: string, d: Db, q: string, id: string, other: string, key: string)
    requires id != other && other in ListAt(PushBackText(prefix, d, q, id), key)
    ensures other in ListAt(d, key)
  {
    var pushed := prefix + "q:" + q + ":pending";
    if key == pushed && Lookup(d, prefix + "job:" + id).Some? {
      assert ListAt(PushBackText(prefix, d, q, id), key) == [id] + ListAt(d, pushed);
    }
  }

  lemma ZRemKeepsLists(d: Db, key: string, member: string)
    requires HoldsScores(d, key)
    ensures forall k :: k != key ==> Lookup(ZRem(d, key, member).0, k) == Lookup(d, k)
    ensures forall k :: ListAt(ZRem(d, key, member).0, k) == ListAt(d, k)
  {
  }

  /** Recovery and queue names, in a database of the broker: a swept job reaches the head of its own ready
      list if and only if its queue name has no separator. If it has one, the job reaches no list at all,
      unless its own id is what the name happens to continue with. */
  lemma RecoveredIff(prefix: string, d: Db, v: Store, m: Lease)
    requires Rep(prefix, d, v) && m in v.lease && m.id in v.bodies
    ensures var after, own := SweepLease(prefix, d, m), Full(prefix, PendingKey(m.queue));
            && (ListAt(after, own) == [Text(m.id)] + ListAt(d, own) <==> SepFree(m.queue))
            && (!SepFree(m.queue) && SplitLease(OfLease(m)).value.1 != Text(m.id) ==>
                  forall key :: Text(m.id) in ListAt(after, key) ==> Text(m.id) in ListAt(d, key))
  {
    hide Rep, LeaseMember, OfLease, Text, Full, ZRem, SplitLease, SepFree, ListAt, Lookup, PushBackText;
    var e := ZRem(d, Full(prefix, LeaseKey), OfLease(m)).0;
    LeaseFreed(prefix, d, v, m);
    SweptToOwnQueueIff(prefix, e, m);
    var (q, id) := SplitLease(OfLease(m)).value;
    if id != Text(m.id) {
      forall key | Text(m.id) in ListAt(SweepLease(prefix, d, m), key) ensures Text(m.id) in ListAt(d, key) {
        PushBackOnly(prefix, e, q, id, Text(m.id), key);
      }
    }
  }

  lemma LeaseFreed(prefix: string, d: Db, v: Store, m: Lease)
    requires Rep(prefix, d, v) && m in v.lease && m.id in v.bodies
    ensures var (e, n) := ZRem(d, Full(prefix, LeaseKey), OfLease(m));
            && n == 1 && Lookup(e, Full(prefix, JobKey(m.id))).Some?
            && forall k :: ListAt(e, k) == ListAt(d, k)
  {
    hide Rep, LeaseRep, WaitRep, NoStrays, HoldsScores, OfLease, Text, Full, ZRem, ListAt, Lookup;
    RepScores(prefix, d, v);
    RemoveLease(prefix, d, v, m);
    ZRemKeepsLists(d, Full(prefix, LeaseKey), OfLease(m));
    ReadKey(prefix, ZRem(d, Full(prefix, LeaseKey), OfLease(m)).0, v.(lease := v.lease - {m}), JobKey(m.id));
  }

  /** The same for promotion, where the parsed id then has a separator in it and no list changes. */
  lemma PromotedIff(prefix: string, d: Db, v: Store, m: Wait)
    requires Rep(prefix, d, v) && m in v.delayed && m.id in v.bodies
    ensures var after, own := SweepWait(prefix, d, m), Full(prefix, PendingKey(m.queue));
            && (ListAt(after, own) == [Text(m.id)] + ListAt(d, own) <==> SepFree(m.queue))
            && (!SepFree(m.queue) ==> forall key :: ListAt(after, key) == ListAt(d, key))
  {
    hide Rep, DelayedMember, OfWait, Text, Full, ZRem, SplitDelayed, SepFree, ListAt, Lookup, PushBackText, NoStrays;
    var e := ZRem(d, Full(prefix, DelayedKey), OfWait(m)).0;
    WaitFreed(prefix, d, v, m);
    DelayedSplit(m.queue, m.id);
    WaitText(m);
    var (q, id) := SplitDelayed(OfWait(m)).value;
    if SepFree(m.queue) {
      PushBackHere(prefix, e, q, m.id);
    } else {
      StrayIsDropped(prefix, e, q, id);
    }
  }

  lemma WaitText(m: Wait)
    ensures OfWait(m) == DelayedMember(m.queue, m.id)
  {
  }

  lemma WaitFreed(prefix: string, d: Db, v: Store, m: Wait)
    requires Rep(prefix, d, v) && m in v.delayed && m.id in v.bodies
    ensures var (e, n) := ZRem(d, Full(prefix, DelayedKey), OfWait(m));
            && n == 1 && NoStrays(prefix, e) && Lookup(e, Full(prefix, JobKey(m.id))).Some?
            && forall k :: ListAt(e, k) == ListAt(d, k)
  {
    hide Rep, LeaseRep, WaitRep, NoStrays, HoldsScores, OfWait, Text, Full, ZRem, ListAt, Lookup;
    RepScores(prefix, d, v);
    RemoveWait(prefix, d, v, m);
    RepScores(prefix, ZRem(d, Full(prefix, DelayedKey), OfWait(m)).0, v.(delayed := v.delayed - {m}));
    ZRemKeepsLists(d, Full(prefix, DelayedKey), OfWait(m));
    ReadKey(prefix, ZRem(d, Full(prefix, DelayedKey), OfWait(m)).0, v.(delayed := v.delayed - {m}), JobKey(m.id));
  }

  lemma StrayIsDropped(prefix: string, d: Db, q: string, id: string)
    requires NoStrays(prefix, d) && SEP in id
    ensures PushBackText(prefix, d, q, id) == d
  {
  }

  lemma PushBackHere(prefix: string, d: Db, q: string, id: Uuid)
    requires Lookup(d, Full(prefix, JobKey(id))).Some?
    ensures var key := Full(prefix, PendingKey(q));
            ListAt(PushBackText(prefix, d, q, Text(id)), key) == [Text(id)] + ListAt(d, key)
  {
    hide Text, Full, Write, Lookup;
    var key := Full(prefix, PendingKey(q));
    ScriptKeys(prefix, q, id);
    WriteSame(d, key, AsList([Text(id)] + ListAt(d, key)));
  }

  lemma PushBackElsewhere(prefix: string, d: Db, q: string, id: string, other: string)
    requires q != other
    ensures ListAt(PushBackText(prefix, d, q, id), Full(prefix, PendingKey(other)))
              == ListAt(d, Full(prefix, PendingKey(other)))
  {
    assert prefix + "q:" + q + ":pending" == Full(prefix, PendingKey(q)) by {
      assert prefix + ("q:" + q + ":pending") == prefix + "q:" + q + ":pending";
    }
    WriteOther(prefix, d, PendingKey(q), AsList([id] + ListAt(d, Full(prefix, PendingKey(q)))), PendingKey(other));
    assert (prefix + "attempts:" + id)[|prefix|] == 'a' && Full(prefix, PendingKey(other))[|prefix|] == 'q';
  }

  lemma {:induction false} StoredAt(ids: seq<Uuid>, i: nat)
    requires i < |ids|
    ensures Stored(ids)[|ids| - 1 - i] == Text(ids[i])
  {
    hide Text;
    if i < |ids| - 1 {
      StoredAt(Front(ids), i);
    }
  }

  lemma ReasonText(prefix: string, id: Uuid)
    ensures prefix + "job:" + Text(id) + ":dead_reason" == Full(prefix, ReasonKey(id))
  {
    hide Text;
    assert prefix + ("job:" + Text(id) + ":dead_reason") == prefix + "job:" + Text(id) + ":dead_reason";
  }
}
