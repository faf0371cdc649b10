/** The queue operations of the service over the three Redis lists, updated in place. */
module ReliableQueue {
  import opened Text
  import opened Errors
  import opened QueueProtocol

  function Msgs<T>(cells: seq<Cell<T>>): seq<Msg<T>> {
    seq(|cells|, i requires 0 <= i < |cells| => cells[i].msg)
  }

  lemma {:induction false} FindAt<T>(cells: seq<Cell<T>>, m: Msg<T>, i: nat)
    requires i <= |cells|
    requires forall k :: 0 <= k < i ==> cells[k].msg != m
    requires i < |cells| ==> cells[i].msg == m
    ensures Find(cells, m) == i
  {
    if i > 0 {
      assert cells[0].msg != m;
      FindAt(cells[1..], m, i - 1);
    }
  }

  lemma MsgsWithout<T>(cells: seq<Cell<T>>, i: nat)
    requires i < |cells|
    ensures Msgs(Without(cells, i)) == Msgs(cells)[..i] + Msgs(cells)[i + 1..]
  {
  }

  /** The leftmost occurrence of m, or the length. */
  method IndexOf<T(==)>(s: seq<Msg<T>>, m: Msg<T>) returns (i: nat)
    ensures i <= |s|
    ensures forall k :: 0 <= k < i ==> s[k] != m
    ensures i < |s| ==> s[i] == m
  {
    i := 0;
    while i < |s| && s[i] != m
      invariant i <= |s|
      invariant forall k :: 0 <= k < i ==> s[k] != m
    {
      i := i + 1;
    }
  }

  /** `t` is `s` without one element equal to m. */
  ghost predicate Dropped<T>(s: seq<Msg<T>>, m: Msg<T>, t: seq<Msg<T>>) {
    exists i :: 0 <= i < |s| && s[i] == m && t == s[..i] + s[i + 1..]
  }

  /** The commands of one `Recover` call over n elements when all but the first `budget` commands fail. */
  function RecoverActs<T>(n: nat, budget: nat): seq<Act<T>> {
    if n == 0 then [RecoverOne(true)]
    else if budget == 0 then [RecoverOne(false)]
    else [RecoverOne(true)] + RecoverActs(n - 1, budget - 1)
  }

  /** `ledger` records, for every element, how often it was delivered and recovered. */
  class RedisQueue<T(==)> {
    var main: seq<Msg<T>>
    var processing: seq<Msg<T>>
    var dlq: seq<Msg<T>>
    ghost var ledger: Queue<T>

    ghost predicate Valid()
      reads this
    {
      && main == Msgs(ledger.main)
      && processing == Msgs(ledger.processing)
      && dlq == Msgs(ledger.dlq)
      && HandAgrees(ledger)
    }

    constructor ()
      ensures Valid() && ledger == Empty<T>()
    {
      main, processing, dlq := [], [], [];
      ledger := Empty<T>();
    }

    /** `RPUSH`. */
    method Enqueue(body: T, ok: bool) returns (err: Option<Err>)
      requires Valid()
      modifies this
      ensures Valid()
      ensures err == if ok then None else Some(Plain)
      ensures ledger == if ok then Next(old(ledger), Push(body)) else old(ledger)
      ensures main == old(main) + if ok then [Msg(body, 0)] else []
      ensures processing == old(processing) && dlq == old(dlq)
    {
      if !ok {
        return Some(Plain);
      }
      main := main + [Msg(body, 0)];
      ledger := Next(ledger, Push(body));
      return None;
    }

    /** `BRPOPLPUSH`; None while main is empty or when the command fails. */
    method Dequeue(ok: bool) returns (m: Option<Msg<T>>)
      requires Valid() && ledger.hand.Idle?
      modifies this
      ensures Valid()
      ensures ledger == if ok then Next(old(ledger), Reserve) else old(ledger)
      ensures m.Some? <==> ok && old(main) != []
      ensures m.Some? ==> old(main) == main + [m.value] && processing == [m.value] + old(processing)
      ensures m.None? ==> main == old(main) && processing == old(processing)
      ensures dlq == old(dlq)
      ensures m.Some? ==> ledger.hand == Holding(m.value)
    {
      if !ok || main == [] {
        return None;
      }
      var msg := Last(main);
      main, processing := Init(main), [msg] + processing;
      ghost var next := Next(ledger, Reserve);
      assert Find(next.processing, msg) == 0;
      ledger := next;
      return Some(msg);
    }

    /** `LREM key 1 receipt`: drops the leftmost equal element of the processing list. */
    method RemoveReceipt(m: Msg<T>, ok: bool, ghost toGap: bool) returns (err: Option<Err>)
      requires Valid() && ledger.hand == Holding(m)
      modifies this
      ensures Valid()
      ensures err == if ok then None else Some(Plain)
      ensures ledger == Next(old(ledger), if toGap then Remove(ok) else Ack(ok))
      ensures main == old(main) && dlq == old(dlq)
      ensures if ok then Dropped(old(processing), m, processing) else processing == old(processing)
    {
      ghost var next := Next(ledger, if toGap then Remove(ok) else Ack(ok));
      if !ok {
        ledger := next;
        return Some(Plain);
      }
      var i := IndexOf(processing, m);
      ghost var cells := ledger.processing;
      assert forall k :: 0 <= k < |cells| ==> processing[k] == cells[k].msg;
      FindAt(cells, m, i);
      MsgsWithout(cells, i);
      processing := processing[..i] + processing[i + 1..];
      ledger := next;
      return None;
    }

    method Acknowledge(m: Msg<T>, ok: bool) returns (err: Option<Err>)
      requires Valid() && ledger.hand == Holding(m)
      modifies this
      ensures Valid()
      ensures err == if ok then None else Some(Plain)
      ensures ledger == Next(old(ledger), Ack(ok))
      ensures main == old(main) && dlq == old(dlq)
      ensures if ok then Dropped(old(processing), m, processing) else processing == old(processing)
    {
      err := RemoveReceipt(m, ok, false);
    }

    /** `LREM`, then `RPUSH` to main or, from the tenth attempt on, to the dead-letter list. */
    method Retry(m: Msg<T>, removeOk: bool, pushOk: bool) returns (err: Option<Err>)
      requires Valid() && ledger.hand == Holding(m)
      modifies this
      ensures Valid()
      ensures ledger == if removeOk then Next(Next(old(ledger), Remove(true)), Republish(pushOk))
          else Next(old(ledger), Remove(false))
      ensures err == Some(Sentinel(MovedToDLQ)) <==> removeOk && pushOk && m.attempts + 1 >= MAX_ATTEMPTS
      ensures err == None <==> removeOk && pushOk && m.attempts + 1 < MAX_ATTEMPTS
      ensures err == Some(Plain) <==> !removeOk || !pushOk
      ensures main == old(main) + if err == None then [Msg(m.body, m.attempts + 1)] else []
      ensures dlq == old(dlq) + if err == Some(Sentinel(MovedToDLQ)) then [Msg(m.body, m.attempts + 1)] else []
      ensures if removeOk then Dropped(old(processing), m, processing) else processing == old(processing)
    {
      err := RemoveReceipt(m, removeOk, true);
      if err.Some? {
        return;
      }
      ghost var next := Next(ledger, Republish(pushOk));
      var retry := Msg(m.body, m.attempts + 1);
      if !pushOk {
        ledger := next;
        return Some(Plain);
      }
      if retry.attempts >= MAX_ATTEMPTS {
        dlq := dlq + [retry];
        ledger := next;
        return Some(Sentinel(MovedToDLQ));
      }
      main := main + [retry];
      ledger := next;
      return None;
    }

    /**
      `RPOPLPUSH` from processing to main until processing is empty. The command fails when `budget`
      of them have succeeded. At every step, and on every exit, processing ++ main is what it was.
      */
    method Recover(budget: nat) returns (err: Option<Err>)
      requires Valid() && ledger.hand.Recovering?
      modifies this
      ensures Valid() && ledger.hand.Idle?
      ensures ledger == Run(old(ledger), RecoverActs(old(|processing|), budget))
      ensures processing + main == old(processing + main)
      ensures err.None? <==> old(|processing|) <= budget
      ensures err.None? ==> processing == [] && main == old(processing) + old(main)
      ensures err.Some? ==> |processing| == old(|processing|) - budget
      ensures dlq == old(dlq)
    {
      var left := budget;
      while processing != []
        invariant Valid() && ledger.hand.Recovering? && dlq == old(dlq)
        invariant processing + main == old(processing + main)
        invariant 0 <= left && Run(ledger, RecoverActs(|processing|, left))
                                  == Run(old(ledger), RecoverActs(old(|processing|), budget))
        invariant 0 <= left <= budget && budget - left == old(|processing|) - |processing|
        decreases |processing|
      {
        if left == 0 {
          ledger := Next(ledger, RecoverOne(false));
          return Some(Plain);
        }
        ghost var before := processing;
        var msg := Last(processing);
        assert before + main == Init(before) + ([msg] + main);
        processing, main := Init(processing), [msg] + main;
        ledger := Next(ledger, RecoverOne(true));
        left := left - 1;
      }
      ledger := Next(ledger, RecoverOne(true));
      return None;
    }
  }
}
