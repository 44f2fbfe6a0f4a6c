/** The job envelope and the small vocabulary shared by every module. */
module Jobs {

  const U32_MAX: nat := 0xFFFF_FFFF
  const UUID_LIMIT: nat := 0x1_0000_0000_0000_0000_0000_0000_0000_0000

  type u32 = n: nat | n <= U32_MAX
  newtype byte = n: int | 0 <= n < 256

  /** A 128-bit UUID: job ids and claim tokens. */
  type Uuid = n: nat | n < UUID_LIMIT

  datatype Option<+T> = None | Some(value: T)

  datatype Job = Job(
    id: Uuid,
    queue: string,
    task: string,
    payload: seq<byte>,
    attempts: u32,
    key: Option<string>)

  /** Equality of jobs up to the `attempts` field, which brokers may rewrite. */
  predicate SameJob(a: Job, b: Job): (same: bool)
    ensures same <==> a.id == b.id && a.queue == b.queue && a.task == b.task && a.payload == b.payload && a.key == b.key
  {
    a.(attempts := 0) == b.(attempts := 0)
  }

  /** The Unicode White_Space characters, which trimming a string removes. */
  predicate IsWhitespace(c: char) {
    || '\U{0009}' <= c <= '\U{000D}'
    || c in {'\U{0020}', '\U{0085}', '\U{00A0}', '\U{1680}', '\U{2028}', '\U{2029}', '\U{202F}', '\U{205F}', '\U{3000}'}
    || '\U{2000}' <= c <= '\U{200A}'
  }

  /** True when nothing is left of the string after trimming it. */
  predicate IsBlank(s: string) {
    forall i | 0 <= i < |s| :: IsWhitespace(s[i])
  }

  function TrimStart(s: string): (r: string)
    ensures r == [] || !IsWhitespace(r[0])
  {
    if s != [] && IsWhitespace(s[0]) then TrimStart(s[1..]) else s
  }

  function TrimEnd(s: string): (r: string)
    ensures r == [] || !IsWhitespace(r[|r| - 1])
  {
    if s != [] && IsWhitespace(s[|s| - 1]) then TrimEnd(s[..|s| - 1]) else s
  }

  lemma {:induction false} TrimStartSplits(s: string)
    ensures exists blank: string :: IsBlank(blank) && s == blank + TrimStart(s)
  {
    if s != [] && IsWhitespace(s[0]) {
      TrimStartSplits(s[1..]);
      var blank :| IsBlank(blank) && s[1..] == blank + TrimStart(s[1..]);
      assert IsBlank([s[0]] + blank) && s == [s[0]] + blank + TrimStart(s);
    } else {
      assert IsBlank("") && s == "" + TrimStart(s);
    }
  }

  /** A string is blank exactly when trimming it at both ends leaves nothing. */
  lemma BlankIffTrimmedAway(s: string)
    ensures IsBlank(s) <==> TrimEnd(TrimStart(s)) == ""
  {
    TrimStartSplits(s);
    var blank :| IsBlank(blank) && s == blank + TrimStart(s);
    var rest := TrimStart(s);
    if rest != [] {
      assert s[|blank|] == rest[0];
      KeepsFirst(rest);
    }
  }

  lemma {:induction false} KeepsFirst(s: string)
    requires s != [] && !IsWhitespace(s[0])
    ensures TrimEnd(s) != [] && TrimEnd(s)[0] == s[0]
  {
    if IsWhitespace(s[|s| - 1]) {
      KeepsFirst(s[..|s| - 1]);
    }
  }

  /** Below 128 these are the tab, the line breaks, the page breaks and the space. */
  lemma AsciiWhitespace(c: char)
    requires c < '\U{0080}'
    ensures IsWhitespace(c) <==> c in "\t\n\r " || c in ['\U{000B}', '\U{000C}']
  {
  }

  function Min(a: nat, b: nat): nat {
    if a <= b then a else b
  }

  function One(b: bool): nat {
    if b then 1 else 0
  }

  predicate NoDup<T(==)>(s: seq<T>) {
    forall i, j | 0 <= i < j < |s| :: s[i] != s[j]
  }

  /** The list stored under a name; a name that was never used has the empty list. */
  function At<T>(lists: map<string, seq<T>>, name: string): seq<T> {
    if name in lists then lists[name] else []
  }

  function Append<T>(lists: map<string, seq<T>>, name: string, x: T): map<string, seq<T>> {
    lists[name := At(lists, name) + [x]]
  }

  /** No queue named means the default queue. */
  function Requested(queues: seq<string>): (names: seq<string>)
    ensures names != [] && (queues != [] ==> names == queues)
    ensures queues == [] ==> |names| == 1 && names[0] == "default"
  {
    if queues == [] then ["default"] else queues
  }
}
