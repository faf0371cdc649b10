/** What holds of whole runs of the reliable queue. */
module QueueRuns {
  import opened QueueProtocol

  // Deliveries

  /** Delivered at most ten times, plus once per recovery after a restart; dead letters exactly that often. */
  lemma DeliveryBound<T(!new)>(acts: seq<Act<T>>, c: Cell<T>)
    requires var q := Run(Empty<T>(), acts);
             c in q.main || c in q.processing || c in q.dlq || c in q.acked || c in q.lost
    ensures c.deliveries <= 10 + c.recoveries
    ensures c in Run(Empty<T>(), acts).dlq ==>
        c.msg.attempts == 10 && c.deliveries == 10 + c.recoveries
    ensures c in Run(Empty<T>(), acts).main ==> c.msg.attempts <= 9 && c.deliveries == c.msg.attempts + c.recoveries
    ensures c in Run(Empty<T>(), acts).processing ==>
        c.msg.attempts <= 9 && c.deliveries == c.msg.attempts + c.recoveries + 1
    ensures c in Run(Empty<T>(), acts).acked || c in Run(Empty<T>(), acts).lost ==>
        c.msg.attempts <= 9 && c.deliveries == c.msg.attempts + c.recoveries + 1
  {
    EmptySound<T>();
    RunSound(Empty<T>(), acts);
  }

  /**
    The multiset of everything sent is the multiset of what is in the lists, acknowledged, or in or lost in
    the retry gap.
    */
  lemma NothingDuplicatedOrDropped<T(!new)>(acts: seq<Act<T>>, b: T)
    ensures var q := Run(Empty<T>(), acts); Total(q, b) == Times(q.sent, b)
  {
    EmptySound<T>();
    RunSound(Empty<T>(), acts);
  }

  // Drain

  /** Deliveries the elements of a list may still need. */
  function Need<T>(cells: seq<Cell<T>>): int {
    if cells == [] then 0 else MAX_ATTEMPTS - cells[0].msg.attempts + Need(cells[1..])
  }

  function Measure<T>(q: Queue<T>): int {
    Need(q.main)
    + match q.hand
      case Holding(m) => MAX_ATTEMPTS - 1 - m.attempts
      case InGap(m) => MAX_ATTEMPTS - 1 - m.attempts
      case _ => 0
  }

  /** Neither new work nor a restart. Commands may fail. */
  predicate Quiet<T>(acts: seq<Act<T>>) {
    forall i :: 0 <= i < |acts| ==> acts[i].Reserve? || acts[i].Ack? || acts[i].Remove? || acts[i].Republish?
  }

  function Delivers<T>(q: Queue<T>, a: Act<T>): nat {
    if a.Reserve? && q.hand.Idle? && q.main != [] then 1 else 0
  }

  function Deliveries<T(==)>(q: Queue<T>, acts: seq<Act<T>>): nat
    decreases |acts|
  {
    if acts == [] then 0 else Delivers(q, acts[0]) + Deliveries(Next(q, acts[0]), acts[1..])
  }

  lemma {:induction false} NeedAppend<T>(cells: seq<Cell<T>>, c: Cell<T>)
    ensures Need(cells + [c]) == Need(cells) + MAX_ATTEMPTS - c.msg.attempts
  {
    if cells != [] {
      assert (cells + [c])[1..] == cells[1..] + [c];
      NeedAppend(cells[1..], c);
    }
  }

  lemma {:induction false} NeedCovers<T>(cells: seq<Cell<T>>)
    requires AllWaiting(cells)
    ensures Need(cells) >= |cells|
  {
    if cells != [] {
      assert AllWaiting(cells[1..]);
      NeedCovers(cells[1..]);
    }
  }

  lemma QuietStep<T(!new)>(q: Queue<T>, a: Act<T>)
    requires Sound(q) && !q.hand.Recovering? && Quiet([a])
    ensures Measure(Next(q, a)) + Delivers(q, a) <= Measure(q)
    ensures !Next(q, a).hand.Recovering?
  {
    assert [a][0] == a;
    match a
    case Reserve =>
      if q.hand.Idle? && q.main != [] {
        assert q.main == Init(q.main) + [Last(q.main)];
        NeedAppend(Init(q.main), Last(q.main));
      }
    case Ack(ok) =>
      if q.hand.Holding? {
        assert Taken(q.processing[Find(q.processing, q.hand.msg)]);
      }
    case Remove(ok) =>
      if q.hand.Holding? {
        assert Taken(q.processing[Find(q.processing, q.hand.msg)]);
      }
    case Republish(ok) =>
      if q.hand.InGap? {
        NeedAppend(q.main, Retried(q.gap.value));
      }
  }

  /**
    Without new work and restarts the number of deliveries is bounded by the initial measure, however
    many commands fail, and the list has run empty once that many deliveries are made.
    */
  lemma {:induction false} DrainBound<T(!new)>(q: Queue<T>, acts: seq<Act<T>>)
    requires Sound(q) && !q.hand.Recovering? && Quiet(acts)
    ensures Deliveries(q, acts) + |Run(q, acts).main| <= Measure(q)
    ensures Deliveries(q, acts) + Measure(Run(q, acts)) <= Measure(q)
    decreases |acts|
  {
    if acts == [] {
      NeedCovers(q.main);
      if q.hand.Holding? {
        assert Taken(q.processing[Find(q.processing, q.hand.msg)]);
      }
    } else {
      assert [acts[0]][0] == acts[0];
      QuietStep(q, acts[0]);
      NextSound(q, acts[0]);
      DrainBound(Next(q, acts[0]), acts[1..]);
    }
  }

  // Stack discipline

  /** No new work, no restart, and no failing command. */
  predicate Calm<T>(a: Act<T>) {
    a == Reserve || a == Ack(true) || a == Remove(true) || a == Republish(true)
  }

  /** The message b that was on top of `under` is still being worked on, and nothing else has moved. */
  ghost predicate Driven<T(!new)>(start: Queue<T>, q: Queue<T>, under: seq<Cell<T>>, b: T) {
    && q.dlq == start.dlq && q.acked == start.acked && q.lost == start.lost
    && match q.hand
       case Recovering => false
       case Idle => exists c: Cell<T> :: c.msg.body == b && q.main == under + [c]
       case Holding(m) => m.body == b && q.main == under
       case InGap(m) => m.body == b && q.main == under
  }

  /** It has been acknowledged or dead-lettered, and nothing else has moved. */
  ghost predicate Settled<T(!new)>(start: Queue<T>, q: Queue<T>, under: seq<Cell<T>>, b: T) {
    && q.hand.Idle? && q.main == under && q.lost == start.lost
    && exists c: Cell<T> :: c.msg.body == b
                            && ((q.acked == start.acked + [c] && q.dlq == start.dlq)
                                || (q.dlq == start.dlq + [c] && q.acked == start.acked))
  }

  lemma DrivenStep<T(!new)>(start: Queue<T>, q: Queue<T>, under: seq<Cell<T>>, b: T, a: Act<T>)
    requires Sound(q) && Calm(a) && Driven(start, q, under, b)
    ensures var q' := Next(q, a); Driven(start, q', under, b) || Settled(start, q', under, b)
  {
  }

  /**
    The message on top of the stack is driven to an acknowledgement or to the dead-letter list before
    anything to its left is touched: at every point of a calm run it has either settled at an earlier
    point with the rest of main unchanged, or is still the only message that moved.
    */
  lemma {:induction false} StackDiscipline<T(!new)>(start: Queue<T>, q: Queue<T>, under: seq<Cell<T>>, b: T,
      acts: seq<Act<T>>)
    requires Sound(q) && Driven(start, q, under, b)
    requires forall i :: 0 <= i < |acts| ==> Calm(acts[i])
    ensures Driven(start, Run(q, acts), under, b)
            || exists i :: 0 < i <= |acts| && Settled(start, Run(q, acts[..i]), under, b)
    decreases |acts|
  {
    if acts != [] {
      var q' := Next(q, acts[0]);
      DrivenStep(start, q, under, b, acts[0]);
      if Settled(start, q', under, b) {
        assert acts[..1][1..] == [] && acts[..1][0] == acts[0];
        assert Run(q, acts[..1]) == q';
      } else {
        NextSound(q, acts[0]);
        StackDiscipline(start, q', under, b, acts[1..]);
        if !Driven(start, Run(q', acts[1..]), under, b) {
          var i :| 0 < i <= |acts| - 1 && Settled(start, Run(q', acts[1..][..i]), under, b);
          assert acts[..i + 1][0] == acts[0] && acts[..i + 1][1..] == acts[1..][..i];
          assert Run(q, acts[..i + 1]) == Run(q', acts[1..][..i]);
        }
      }
    }
  }

  /** Of two messages pushed one after the other the later one is delivered first. */
  lemma LastInFirstOut<T>(q: Queue<T>, first: T, second: T)
    requires q.hand.Idle?
    ensures Reserved(Pushed(Pushed(q, first), second)).hand == Holding(Msg(second, 0))
    ensures Last(Reserved(Pushed(Pushed(q, first), second)).main).msg == Msg(first, 0)
  {
  }

  // Ten refusals

  /** A message whose handler fails is delivered, removed and pushed again. */
  function Refusal<T>(): seq<Act<T>> {
    [Reserve, Remove(true), Republish(true)]
  }

  function Refusals<T>(n: nat): seq<Act<T>> {
    if n == 0 then [] else Refusal() + Refusals(n - 1)
  }

  lemma RefusalEffect<T(!new)>(q: Queue<T>, under: seq<Cell<T>>, c: Cell<T>)
    requires q.hand.Idle? && q.main == under + [c] && c.msg.attempts < MAX_ATTEMPTS && q.gap.None?
    ensures var c' := Retried(c).(deliveries := c.deliveries + 1);
            Next(Next(Next(q, Reserve), Remove(true)), Republish(true))
            == if c'.msg.attempts < MAX_ATTEMPTS then q.(main := under + [c'])
               else q.(main := under, dlq := q.dlq + [c'])
  {
  }

  lemma RunThree<T>(q: Queue<T>, rest: seq<Act<T>>)
    ensures Run(q, Refusal<T>() + rest) == Run(Next(Next(Next(q, Reserve), Remove(true)), Republish(true)), rest)
  {
    var acts := Refusal<T>() + rest;
    assert acts[0] == Reserve && acts[1..] == [Remove(true), Republish(true)] + rest;
    assert acts[1..][1..] == [Republish(true)] + rest;
    assert acts[1..][1..][1..] == rest;
    assert acts[1..][0] == Remove(true) && acts[1..][1..][0] == Republish(true);
    assert Run(q, acts) == Run(Next(q, Reserve), acts[1..]);
    assert Run(Next(q, Reserve), acts[1..]) == Run(Next(Next(q, Reserve), Remove(true)), acts[1..][1..]);
  }

  /**
    A message that is always refused reaches the dead-letter list with exactly its tenth attempt, not
    earlier; everything under it stays as it was.
    */
  lemma {:induction false} DeadLetterAfterTen<T(!new)>(q: Queue<T>, under: seq<Cell<T>>, c: Cell<T>, n: nat)
    requires q.hand.Idle? && q.gap.None? && q.main == under + [c]
    requires c.msg.attempts + n <= MAX_ATTEMPTS && c.msg.attempts < MAX_ATTEMPTS
    ensures var c' := Cell(Msg(c.msg.body, c.msg.attempts + n), c.deliveries + n, c.recoveries);
            Run(q, Refusals(n)) == if c.msg.attempts + n < MAX_ATTEMPTS then q.(main := under + [c'])
                                   else q.(main := under, dlq := q.dlq + [c'])
    decreases n
  {
    if n > 0 {
      RefusalEffect(q, under, c);
      RunThree(q, Refusals(n - 1));
      var c1 := Retried(c).(deliveries := c.deliveries + 1);
      if c1.msg.attempts < MAX_ATTEMPTS {
        DeadLetterAfterTen(q.(main := under + [c1]), under, c1, n - 1);
      }
    }
  }

  // Without restarts

  /** No restart, and no push of a retry fails. */
  predicate Healthy<T>(acts: seq<Act<T>>) {
    forall i :: 0 <= i < |acts| ==> acts[i] != Crash && acts[i] != Republish(false)
  }

  predicate NoRecoveries<T>(cells: seq<Cell<T>>) {
    forall i :: 0 <= i < |cells| ==> cells[i].recoveries == 0
  }

  /** Nothing was ever recovered or lost. */
  predicate Unscathed<T>(q: Queue<T>) {
    && q.lost == []
    && (q.hand.Recovering? ==> q.processing == [])
    && NoRecoveries(q.main) && NoRecoveries(q.processing) && NoRecoveries(q.dlq) && NoRecoveries(q.acked)
    && (q.gap.Some? ==> q.gap.value.recoveries == 0)
  }

  lemma HealthyStep<T>(q: Queue<T>, a: Act<T>)
    requires Unscathed(q) && Healthy([a])
    ensures Unscathed(Next(q, a))
  {
    assert [a][0] == a;
  }

  lemma {:induction false} HealthyRun<T>(q: Queue<T>, acts: seq<Act<T>>)
    requires Unscathed(q) && Healthy(acts)
    ensures Unscathed(Run(q, acts))
    decreases |acts|
  {
    if acts != [] {
      assert [acts[0]][0] == acts[0];
      HealthyStep(q, acts[0]);
      HealthyRun(Next(q, acts[0]), acts[1..]);
    }
  }

  lemma UnscathedAccounts<T(!new)>(q: Queue<T>, b: T)
    requires Accounted(q) && Conserved(q) && Unscathed(q)
    ensures forall c :: c in q.dlq ==> c.deliveries == MAX_ATTEMPTS
    ensures forall c :: c in q.main ==> c.deliveries == c.msg.attempts < MAX_ATTEMPTS
    ensures q.main == [] && q.processing == [] && q.gap.None? ==>
        Count(q.dlq, b) + Count(q.acked, b) == Times(q.sent, b)
  {
  }
}
