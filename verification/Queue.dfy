/**
  The reliable list queue: a main list, a processing list and a dead-letter list, with one consumer.
  Index 0 is the left end of a list, so `RPUSH` appends and `LPUSH` prepends.
  */
module QueueProtocol {
  import opened Text

  const MAX_ATTEMPTS: nat := 10

  /** The payload of a list element. Two elements with one payload are indistinguishable to `LREM`. */
  datatype Msg<T> = Msg(body: T, attempts: nat)

  /** A list element with its history: how often it was delivered to the consumer and how often recovered. */
  datatype Cell<T> = Cell(msg: Msg<T>, deliveries: nat, recoveries: nat)

  /** What the consumer is doing with the queue; in a gap its message is in no list. */
  datatype Hand<T> = Recovering | Idle | Holding(msg: Msg<T>) | InGap(msg: Msg<T>)

  datatype Queue<T> = Queue(
    main: seq<Cell<T>>,
    processing: seq<Cell<T>>,
    dlq: seq<Cell<T>>,
    hand: Hand<T>,
    gap: Option<Cell<T>>,
    acked: seq<Cell<T>>,
    lost: seq<Cell<T>>,
    sent: seq<T>)

  /** One Redis command, or a crash of the worker. A command with `ok` false fails without effect. */
  datatype Act<T> =
    | Push(body: T)
    | RecoverOne(ok: bool)
    | Reserve
    | Ack(ok: bool)
    | Remove(ok: bool)
    | Republish(ok: bool)
    | Crash

  function Empty<T>(): Queue<T> {
    Queue([], [], [], Recovering, None, [], [], [])
  }

  /** Index of the leftmost element with payload m, or the length when there is none. */
  function Find<T(==)>(cells: seq<Cell<T>>, m: Msg<T>): (i: nat)
    ensures i <= |cells|
    ensures i < |cells| ==> cells[i].msg == m
    ensures i == |cells| ==> forall k :: 0 <= k < |cells| ==> cells[k].msg != m
  {
    if cells == [] || cells[0].msg == m then 0 else 1 + Find(cells[1..], m)
  }

  function Without<T>(cells: seq<Cell<T>>, i: nat): seq<Cell<T>>
    requires i < |cells|
  {
    cells[..i] + cells[i + 1..]
  }

  function Init<T>(s: seq<T>): seq<T>
    requires s != []
  {
    s[..|s| - 1]
  }

  function Last<T>(s: seq<T>): T
    requires s != []
  {
    s[|s| - 1]
  }

  /** The element a retry pushes: same body, one attempt more. */
  function Retried<T>(c: Cell<T>): Cell<T> {
    c.(msg := Msg(c.msg.body, c.msg.attempts + 1))
  }

  // One function per command. A command that the consumer's position does not allow changes nothing.

  function Pushed<T>(q: Queue<T>, b: T): Queue<T> {
    q.(main := q.main + [Cell(Msg(b, 0), 0, 0)], sent := q.sent + [b])
  }

  function Recovered<T>(q: Queue<T>, ok: bool): Queue<T> {
    if !q.hand.Recovering? then q
    else if !ok || q.processing == [] then q.(hand := Idle)
    else
      var c := Last(q.processing);
      q.(processing := Init(q.processing), main := [c.(recoveries := c.recoveries + 1)] + q.main)
  }

  function Reserved<T>(q: Queue<T>): Queue<T> {
    if !q.hand.Idle? || q.main == [] then q
    else
      var c := Last(q.main);
      q.(main := Init(q.main), processing := [c.(deliveries := c.deliveries + 1)] + q.processing,
          hand := Holding(c.msg))
  }

  function AckSent<T(==)>(q: Queue<T>, ok: bool): Queue<T> {
    if !q.hand.Holding? then q
    else
      var i := Find(q.processing, q.hand.msg);
      if !ok || i == |q.processing| then q.(hand := Idle)
      else q.(processing := Without(q.processing, i), acked := q.acked + [q.processing[i]], hand := Idle)
  }

  function Removed<T(==)>(q: Queue<T>, ok: bool): Queue<T> {
    if !q.hand.Holding? then q
    else
      var i := Find(q.processing, q.hand.msg);
      if !ok || i == |q.processing| then q.(hand := Idle)
      else q.(processing := Without(q.processing, i), gap := Some(q.processing[i]), hand := InGap(q.hand.msg))
  }

  function Republished<T>(q: Queue<T>, ok: bool): Queue<T> {
    if !q.hand.InGap? || q.gap.None? then q
    else if !ok then q.(gap := None, lost := q.lost + [q.gap.value], hand := Idle)
    else
      var c := Retried(q.gap.value);
      if c.msg.attempts >= MAX_ATTEMPTS then q.(dlq := q.dlq + [c], gap := None, hand := Idle)
      else q.(main := q.main + [c], gap := None, hand := Idle)
  }

  function Crashed<T>(q: Queue<T>): Queue<T> {
    q.(hand := Recovering, gap := None, lost := if q.gap.Some? then q.lost + [q.gap.value] else q.lost)
  }

  function Next<T(==)>(q: Queue<T>, a: Act<T>): Queue<T> {
    match a
    case Push(b) => Pushed(q, b)
    case RecoverOne(ok) => Recovered(q, ok)
    case Reserve => Reserved(q)
    case Ack(ok) => AckSent(q, ok)
    case Remove(ok) => Removed(q, ok)
    case Republish(ok) => Republished(q, ok)
    case Crash => Crashed(q)
  }

  function Run<T(==)>(q: Queue<T>, acts: seq<Act<T>>): Queue<T>
    decreases |acts|
  {
    if acts == [] then q else Run(Next(q, acts[0]), acts[1..])
  }

  // Accounting

  /** How many elements of a list carry body b. */
  function Count<T(==)>(cells: seq<Cell<T>>, b: T): nat {
    if cells == [] then 0 else (if cells[0].msg.body == b then 1 else 0) + Count(cells[1..], b)
  }

  function Times<T(==)>(s: seq<T>, b: T): nat {
    if s == [] then 0 else (if s[0] == b then 1 else 0) + Times(s[1..], b)
  }

  /** How often a message with body b exists, be it in a list, in the retry gap, acknowledged or lost. */
  function Total<T(==)>(q: Queue<T>, b: T): nat {
    Count(q.main, b) + Count(q.processing, b) + Count(q.dlq, b) + Count(q.acked, b) + Count(q.lost, b)
    + if q.gap.Some? && q.gap.value.msg.body == b then 1 else 0
  }

  /** Waiting: delivered once per attempt spent and once per recovery. */
  predicate Waiting<T>(c: Cell<T>) {
    c.msg.attempts < MAX_ATTEMPTS && c.deliveries == c.msg.attempts + c.recoveries
  }

  /** Taken out of main: one delivery more. */
  predicate Taken<T>(c: Cell<T>) {
    c.msg.attempts < MAX_ATTEMPTS && c.deliveries == c.msg.attempts + c.recoveries + 1
  }

  predicate Dead<T>(c: Cell<T>) {
    c.msg.attempts == MAX_ATTEMPTS && c.deliveries == MAX_ATTEMPTS + c.recoveries
  }

  predicate AllTaken<T>(cells: seq<Cell<T>>) {
    forall i :: 0 <= i < |cells| ==> Taken(cells[i])
  }

  predicate AllWaiting<T>(cells: seq<Cell<T>>) {
    forall i :: 0 <= i < |cells| ==> Waiting(cells[i])
  }

  predicate AllDead<T>(cells: seq<Cell<T>>) {
    forall i :: 0 <= i < |cells| ==> Dead(cells[i])
  }

  ghost predicate Accounted<T>(q: Queue<T>) {
    && AllWaiting(q.main)
    && AllDead(q.dlq)
    && AllTaken(q.processing)
    && (q.gap.Some? ==> Taken(q.gap.value))
    && AllTaken(q.acked)
    && AllTaken(q.lost)
  }

  /** Nothing is duplicated and nothing vanishes: every message sent is in exactly one place. */
  ghost predicate Conserved<T(!new)>(q: Queue<T>) {
    forall b :: Total(q, b) == Times(q.sent, b)
  }

  /** The message in hand is in the processing list; in the gap it is in no list. */
  ghost predicate HandAgrees<T>(q: Queue<T>) {
    && (q.hand.Holding? ==> Find(q.processing, q.hand.msg) < |q.processing|)
    && (q.hand.InGap? <==> q.gap.Some?)
    && (q.hand.InGap? ==> q.gap.value.msg == q.hand.msg)
  }

  ghost predicate Sound<T(!new)>(q: Queue<T>) {
    Accounted(q) && Conserved(q) && HandAgrees(q)
  }

  lemma {:induction false} CountAppend<T>(a: seq<Cell<T>>, c: seq<Cell<T>>, b: T)
    ensures Count(a + c, b) == Count(a, b) + Count(c, b)
  {
    if a == [] {
      assert a + c == c;
    } else {
      assert (a + c)[1..] == a[1..] + c;
      CountAppend(a[1..], c, b);
    }
  }

  lemma {:induction false} TimesAppend<T>(s: seq<T>, x: T, b: T)
    ensures Times(s + [x], b) == Times(s, b) + (if x == b then 1 else 0)
  {
    if s != [] {
      assert (s + [x])[1..] == s[1..] + [x];
      TimesAppend(s[1..], x, b);
    }
  }

  lemma CountEnds<T>(cells: seq<Cell<T>>, c: Cell<T>, b: T)
    ensures Count([c] + cells, b) == Count(cells + [c], b) == Count(cells, b) + (if c.msg.body == b then 1 else 0)
  {
    CountAppend([c], cells, b);
    CountAppend(cells, [c], b);
  }

  lemma CountInit<T>(cells: seq<Cell<T>>, b: T)
    requires cells != []
    ensures Count(cells, b) == Count(Init(cells), b) + (if Last(cells).msg.body == b then 1 else 0)
  {
    assert cells == Init(cells) + [Last(cells)];
    CountEnds(Init(cells), Last(cells), b);
  }

  lemma CountWithout<T>(cells: seq<Cell<T>>, i: nat, b: T)
    requires i < |cells|
    ensures Count(cells, b) == Count(Without(cells, i), b) + (if cells[i].msg.body == b then 1 else 0)
  {
    var left, right := cells[..i], cells[i + 1..];
    assert cells == left + ([cells[i]] + right);
    CountAppend(left, [cells[i]] + right, b);
    CountEnds(right, cells[i], b);
    CountAppend(left, right, b);
  }

  lemma {:induction false} CountPositive<T>(cells: seq<Cell<T>>, b: T)
    ensures Count(cells, b) > 0 <==> exists i :: 0 <= i < |cells| && cells[i].msg.body == b
  {
    if cells != [] {
      CountPositive(cells[1..], b);
      if i :| 0 <= i < |cells| && cells[i].msg.body == b && cells[0].msg.body != b {
        assert cells[1..][i - 1].msg.body == b;
      }
    }
  }

  lemma EmptySound<T(!new)>()
    ensures Sound(Empty<T>())
  {
  }

  lemma MovesConserve<T>(q: Queue<T>, ok: bool, b: T)
    ensures Total(Recovered(q, ok), b) == Total(q, b) == Total(Reserved(q), b)
  {
    if q.processing != [] {
      var c := Last(q.processing);
      CountInit(q.processing, b);
      CountEnds(q.main, c.(recoveries := c.recoveries + 1), b);
    }
    if q.main != [] {
      var c := Last(q.main);
      CountInit(q.main, b);
      CountEnds(q.processing, c.(deliveries := c.deliveries + 1), b);
    }
  }

  lemma RemovalsConserve<T>(q: Queue<T>, ok: bool, b: T)
    requires HandAgrees(q)
    ensures Total(AckSent(q, ok), b) == Total(q, b) == Total(Removed(q, ok), b)
  {
    if q.hand.Holding? {
      var i := Find(q.processing, q.hand.msg);
      CountWithout(q.processing, i, b);
      CountEnds(q.acked, q.processing[i], b);
    }
  }

  lemma GapConserves<T>(q: Queue<T>, ok: bool, b: T)
    requires HandAgrees(q)
    ensures Total(Republished(q, ok), b) == Total(q, b) == Total(Crashed(q), b)
  {
    if q.gap.Some? {
      CountEnds(q.lost, q.gap.value, b);
      CountEnds(q.dlq, Retried(q.gap.value), b);
      CountEnds(q.main, Retried(q.gap.value), b);
    }
  }

  lemma NextConserves<T>(q: Queue<T>, a: Act<T>, b: T)
    requires HandAgrees(q)
    requires Total(q, b) == Times(q.sent, b)
    ensures Total(Next(q, a), b) == Times(Next(q, a).sent, b)
  {
    match a
    case Push(x) =>
      CountEnds(q.main, Cell(Msg(x, 0), 0, 0), b);
      TimesAppend(q.sent, x, b);
    case RecoverOne(ok) => MovesConserve(q, ok, b);
    case Reserve => MovesConserve(q, true, b);
    case Ack(ok) => RemovalsConserve(q, ok, b);
    case Remove(ok) => RemovalsConserve(q, ok, b);
    case Republish(ok) => GapConserves(q, ok, b);
    case Crash => GapConserves(q, true, b);
  }

  lemma NextAccounted<T>(q: Queue<T>, a: Act<T>)
    requires Accounted(q) && HandAgrees(q)
    ensures Accounted(Next(q, a))
  {
  }

  lemma NextHandAgrees<T>(q: Queue<T>, a: Act<T>)
    requires HandAgrees(q)
    ensures HandAgrees(Next(q, a))
  {
  }

  /** Every command keeps the accounting, fails or not; so does a crash. */
  lemma NextSound<T(!new)>(q: Queue<T>, a: Act<T>)
    requires Sound(q)
    ensures Sound(Next(q, a))
  {
    NextAccounted(q, a);
    NextHandAgrees(q, a);
    forall b
      ensures Total(Next(q, a), b) == Times(Next(q, a).sent, b)
    {
      NextConserves(q, a, b);
    }
  }

  lemma PushSound<T(!new)>(q: Queue<T>, b: T)
    requires Sound(q)
    ensures Sound(Pushed(q, b))
  {
    NextSound(q, Push(b));
  }

  lemma RecoverSound<T(!new)>(q: Queue<T>, ok: bool)
    requires Sound(q)
    ensures Sound(Recovered(q, ok))
  {
    NextSound(q, RecoverOne(ok));
  }

  lemma ReserveSound<T(!new)>(q: Queue<T>)
    requires Sound(q)
    ensures Sound(Reserved(q))
  {
    NextSound(q, Reserve);
  }

  lemma AckSound<T(!new)>(q: Queue<T>, ok: bool)
    requires Sound(q)
    ensures Sound(AckSent(q, ok))
  {
    NextSound(q, Ack(ok));
  }

  lemma RemoveSound<T(!new)>(q: Queue<T>, ok: bool)
    requires Sound(q)
    ensures Sound(Removed(q, ok))
  {
    NextSound(q, Remove(ok));
  }

  lemma RepublishSound<T(!new)>(q: Queue<T>, ok: bool)
    requires Sound(q)
    ensures Sound(Republished(q, ok))
  {
    NextSound(q, Republish(ok));
  }

  lemma CrashSound<T(!new)>(q: Queue<T>)
    requires Sound(q)
    ensures Sound(Crashed(q))
  {
    NextSound(q, Crash);
  }

  lemma {:induction false} RunSound<T(!new)>(q: Queue<T>, acts: seq<Act<T>>)
    requires Sound(q)
    ensures Sound(Run(q, acts))
    decreases |acts|
  {
    if acts != [] {
      NextSound(q, acts[0]);
      RunSound(Next(q, acts[0]), acts[1..]);
    }
  }
}
