/** The strings under which the Redis broker keeps its data, and how its scripts take them apart. */
module RedisKeys {
  import opened Jobs

  // ---------------------------------------------------------------- UUID text

  function HexDigit(d: nat): char
    requires d < 16
  {
    if d < 10 then '0' + d as char else 'a' + (d - 10) as char
  }

  /** The k lowest hexadecimal digits, most significant first. */
  function Hex(n: nat, k: nat): (s: string)
    ensures |s| == k
  {
    if k == 0 then [] else Hex(n / 16, k - 1) + [HexDigit(n % 16)]
  }

  function Pow16(k: nat): nat {
    if k == 0 then 1 else 16 * Pow16(k - 1)
  }

  /** A UUID as it is displayed: 8-4-4-4-12 lower-case hexadecimal digits. */
  function Text(id: Uuid): (s: string)
    ensures |s| == 36
  {
    var h := Hex(id, 32);
    h[..8] + "-" + h[8..12] + "-" + h[12..16] + "-" + h[16..20] + "-" + h[20..]
  }

  function DigitValue(c: char): Option<nat> {
    if '0' <= c <= '9' then Some((c - '0') as nat)
    else if 'a' <= c <= 'f' then Some((c - 'a') as nat + 10)
    else if 'A' <= c <= 'F' then Some((c - 'A') as nat + 10)
    else None
  }

  function ReadHex(s: string): Option<nat> {
    if s == [] then Some(0)
    else
      var high, low := ReadHex(s[..|s| - 1]), DigitValue(s[|s| - 1]);
      if high.Some? && low.Some? then Some(16 * high.value + low.value) else None
  }

  /** A UUID read back from its hyphenated form. */
  function ParseText(s: string): Option<Uuid> {
    if |s| != 36 || s[8] != '-' || s[13] != '-' || s[18] != '-' || s[23] != '-' then None
    else
      var n := ReadHex(s[..8] + s[9..13] + s[14..18] + s[19..23] + s[24..]);
      if n.Some? && n.value < UUID_LIMIT then Some(n.value) else None
  }

  lemma {:induction false} HexRoundTrip(n: nat, k: nat)
    requires n < Pow16(k)
    ensures ReadHex(Hex(n, k)) == Some(n)
  {
    if k > 0 {
      var s := Hex(n, k);
      assert s[..k - 1] == Hex(n / 16, k - 1) && s[k - 1] == HexDigit(n % 16);
      HexRoundTrip(n / 16, k - 1);
    }
  }

  lemma Pow16Step(k: nat, p: nat)
    requires Pow16(k) == p
    ensures Pow16(k + 1) == 16 * p
  {
  }

  lemma {:induction false} Pow16Sum(a: nat, b: nat)
    ensures Pow16(a + b) == Pow16(a) * Pow16(b)
  {
    if b > 0 {
      Pow16Sum(a, b - 1);
    }
  }

  lemma Pow16Double(k: nat, p: nat)
    requires Pow16(k) == p
    ensures Pow16(k + k) == p * p
  {
    Pow16Sum(k, k);
  }

  // The exponent is a variable so that the verifier does not unfold literal powers.
  lemma UuidLimit(k: nat)
    requires k == 32
    ensures Pow16(k) == UUID_LIMIT
  {
    Pow16Step(k - 32, 1);
    Pow16Double(k / 32, 0x10);
    Pow16Double(k / 16, 0x100);
    Pow16Double(k / 8, 0x1_0000);
    Pow16Double(k / 4, 0x1_0000_0000);
    Pow16Double(k / 2, 0x1_0000_0000_0000_0000);
  }

  /** What is displayed is read back. */
  lemma TextRoundTrip(id: Uuid)
    ensures ParseText(Text(id)) == Some(id)
  {
    var h, s := Hex(id, 32), Text(id);
    assert h[..8] == s[..8] && h[8..12] == s[9..13] && h[12..16] == s[14..18] && h[16..20] == s[19..23];
    assert h[20..] == s[24..];
    assert h == h[..8] + h[8..12] + h[12..16] + h[16..20] + h[20..];
    var k: nat :| k == 32;
    UuidLimit(k);
    HexRoundTrip(id, k);
  }

  lemma TextInjective(a: Uuid, b: Uuid)
    requires Text(a) == Text(b)
    ensures a == b
  {
    TextRoundTrip(a);
    TextRoundTrip(b);
  }

  // ---------------------------------------------------------------- sorted-set members

  /** The unit separator. */
  const SEP: char := '\U{001F}'

  predicate SepFree(s: string) {
    SEP !in s
  }

  lemma {:induction false} HexSepFree(n: nat, k: nat)
    ensures SepFree(Hex(n, k))
  {
    if k > 0 {
      HexSepFree(n / 16, k - 1);
    }
  }

  lemma TextSepFree(id: Uuid)
    ensures SepFree(Text(id))
  {
    HexSepFree(id, 32);
  }

  function LeaseMember(queue: string, id: Uuid, token: Uuid): string {
    queue + [SEP] + Text(id) + [SEP] + Text(token)
  }

  function DelayedMember(queue: string, id: Uuid): string {
    queue + [SEP] + Text(id)
  }

  /** The first separator at or after a position. */
  function Find(s: string, from: nat): (i: Option<nat>)
    ensures i.Some? ==> from <= i.value < |s| && s[i.value] == SEP && SEP !in s[from..i.value]
    ensures i.None? && from <= |s| ==> SEP !in s[from..]
    decreases |s| - from
  {
    if from >= |s| then None
    else if s[from] == SEP then Some(from)
    else
      assert s[from..] == [s[from]] + s[from + 1..];
      var i := Find(s, from + 1);
      assert i.Some? ==> s[from..i.value] == [s[from]] + s[from + 1..i.value];
      i
  }

  /** How the promotion script splits a member into queue and job id. */
  function SplitDelayed(member: string): Option<(string, string)> {
    match Find(member, 0)
    case None => None
    case Some(i) => Some((member[..i], member[i + 1..]))
  }

  /** How the recovery script splits a member into queue and job id, ignoring the token. */
  function SplitLease(member: string): Option<(string, string)> {
    match Find(member, 0)
    case None => None
    case Some(i) =>
      match Find(member, i + 1)
      case None => Some((member[..i], member[i + 1..]))
      case Some(j) => Some((member[..i], member[i + 1..j]))
  }

  lemma FindFirst(head: string, tail: string)
    ensures var i := Find(head + [SEP] + tail, 0);
            i.Some? && i.value <= |head| && (i.value == |head| <==> SepFree(head))
  {
    var s := head + [SEP] + tail;
    assert s[|head|] == SEP && SEP in s[0..];
    var i := Find(s, 0).value;
    assert forall j | 0 <= j < i :: s[j] == s[0..i][j] && s[j] != SEP;
    assert i <= |head|;
    if i < |head| {
      assert head[i] == SEP;
    } else {
      assert s[0..i] == head;
    }
  }

  lemma FindNext(head: string, middle: string, tail: string)
    requires SepFree(middle)
    ensures Find(head + [SEP] + middle + [SEP] + tail, |head| + 1) == Some(|head| + 1 + |middle|)
  {
    var s := head + [SEP] + middle + [SEP] + tail;
    var from, at := |head| + 1, |head| + 1 + |middle|;
    assert s[from..at] == middle && s[at] == SEP;
    assert s[from..][|middle|] == SEP;
    var i := Find(s, from).value;
    assert forall j | from <= j < at :: s[j] == middle[j - from] && s[j] != SEP;
    assert forall j | from <= j < i :: s[j] == s[from..i][j - from] && s[j] != SEP;
  }

  /** A member always splits; the part before the first separator is the queue, or falls short of it. */
  lemma LeaseSplit(queue: string, id: Uuid, token: Uuid)
    ensures var split := SplitLease(LeaseMember(queue, id, token));
            split.Some? && if SepFree(queue) then split.value == (queue, Text(id)) else |split.value.0| < |queue|
  {
    var m := LeaseMember(queue, id, token);
    var rest := Text(id) + [SEP] + Text(token);
    assert m == queue + [SEP] + rest;
    FindFirst(queue, rest);
    TextSepFree(id);
    FindNext(queue, Text(id), Text(token));
    if SepFree(queue) {
      assert m[..|queue|] == queue && m[|queue| + 1..|queue| + 1 + |Text(id)|] == Text(id);
    }
  }

  /** A lease member is taken apart correctly exactly when the queue name has no separator. */
  lemma LeaseRoundTrip(queue: string, id: Uuid, token: Uuid)
    ensures SplitLease(LeaseMember(queue, id, token)) == Some((queue, Text(id))) <==> SepFree(queue)
  {
    LeaseSplit(queue, id, token);
  }

  /** A delayed member splits into queue and id, or into less than the queue and more than the id. */
  lemma DelayedSplit(queue: string, id: Uuid)
    ensures var split := SplitDelayed(DelayedMember(queue, id));
            split.Some?
            && if SepFree(queue) then split.value == (queue, Text(id))
               else |split.value.0| < |queue| && SEP in split.value.1
  {
    var m := DelayedMember(queue, id);
    FindFirst(queue, Text(id));
    var i := Find(m, 0).value;
    if SepFree(queue) {
      assert m[..|queue|] == queue && m[|queue| + 1..] == Text(id);
    } else {
      assert m[i + 1..][|queue| - i - 1] == m[|queue|] == SEP;
    }
  }

  lemma DelayedRoundTrip(queue: string, id: Uuid)
    ensures SplitDelayed(DelayedMember(queue, id)) == Some((queue, Text(id))) <==> SepFree(queue)
  {
    DelayedSplit(queue, id);
  }

  /** Members determine what they were formatted from, for all queue names. */
  lemma LeaseMemberInjective(q1: string, id1: Uuid, t1: Uuid, q2: string, id2: Uuid, t2: Uuid)
    requires LeaseMember(q1, id1, t1) == LeaseMember(q2, id2, t2)
    ensures q1 == q2 && id1 == id2 && t1 == t2
  {
    var a, b := LeaseMember(q1, id1, t1), LeaseMember(q2, id2, t2);
    assert |q1| == |a| - 74 && |q2| == |b| - 74;
    assert q1 == a[..|q1|] && q2 == b[..|q2|];
    assert Text(id1) == a[|a| - 73..|a| - 37] && Text(id2) == b[|b| - 73..|b| - 37];
    assert Text(t1) == a[|a| - 36..] && Text(t2) == b[|b| - 36..];
    TextInjective(id1, id2);
    TextInjective(t1, t2);
  }

  lemma DelayedMemberInjective(q1: string, id1: Uuid, q2: string, id2: Uuid)
    requires DelayedMember(q1, id1) == DelayedMember(q2, id2)
    ensures q1 == q2 && id1 == id2
  {
    var a, b := DelayedMember(q1, id1), DelayedMember(q2, id2);
    assert |q1| == |a| - 37 && |q2| == |b| - 37;
    assert q1 == a[..|q1|] && q2 == b[..|q2|];
    assert Text(id1) == a[|a| - 36..] && Text(id2) == b[|b| - 36..];
    TextInjective(id1, id2);
  }

  // ---------------------------------------------------------------- keys

  datatype Key =
    | PendingKey(queue: string)
    | DeadKey(queue: string)
    | JobKey(id: Uuid)
    | ReasonKey(id: Uuid)
    | AttemptsKey(id: Uuid)
    | LeaseKey
    | DelayedKey
    | IdempotencyKey(key: string)

  function Name(k: Key): string {
    match k
    case PendingKey(q) => "q:" + q + ":pending"
    case DeadKey(q) => "q:" + q + ":dead"
    case JobKey(id) => "job:" + Text(id)
    case ReasonKey(id) => "job:" + Text(id) + ":dead_reason"
    case AttemptsKey(id) => "attempts:" + Text(id)
    case LeaseKey => "lease"
    case DelayedKey => "delayed"
    case IdempotencyKey(key) => "idempotency:" + key
  }

  /** The full Redis key. */
  function Full(prefix: string, k: Key): string {
    prefix + Name(k)
  }

  lemma NameInjective(a: Key, b: Key)
    requires Name(a) == Name(b)
    ensures a == b
  {
    hide Text;
    var s, t := Name(a), Name(b);
    assert s[0] == t[0] && |s| == |t| && s[|s| - 1] == t[|t| - 1];
    match (a, b)
    case (PendingKey(p), PendingKey(q)) => assert p == s[2..|s| - 8] && q == t[2..|t| - 8];
    case (DeadKey(p), DeadKey(q)) => assert p == s[2..|s| - 5] && q == t[2..|t| - 5];
    case (JobKey(i), JobKey(j)) => assert Text(i) == s[4..] && Text(j) == t[4..]; TextInjective(i, j);
    case (ReasonKey(i), ReasonKey(j)) => assert Text(i) == s[4..40] && Text(j) == t[4..40]; TextInjective(i, j);
    case (AttemptsKey(i), AttemptsKey(j)) => assert Text(i) == s[9..] && Text(j) == t[9..]; TextInjective(i, j);
    case (IdempotencyKey(p), IdempotencyKey(q)) => assert p == s[12..] && q == t[12..];
    case _ =>
  }

  /** No two of the eight key families overlap, and each key determines what it was built from. */
  lemma FullInjective(prefix: string, a: Key, b: Key)
    requires Full(prefix, a) == Full(prefix, b)
    ensures a == b
  {
    assert Full(prefix, a)[|prefix|..] == Name(a) && Full(prefix, b)[|prefix|..] == Name(b);
    NameInjective(a, b);
  }
}
