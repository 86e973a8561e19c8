/** The turn counter that decides which worker may take the next connection. */
module Rotation {
  import opened Sequences

  function NextTurn(cur: nat, caller: nat, n: nat): nat
    requires n > 0
  {
    if caller == cur then (cur + 1) % n else cur
  }

  /** cur_worker_index; its mutex makes each call one step. */
  class TurnCounter {
    var cur: nat

    constructor ()
      ensures cur == 0
    {
      cur := 0;
    }

    /** comm_get_worker_index */
    method GetWorkerIndex(workerIndex: nat, numWorkers: nat) returns (index: nat)
      requires numWorkers > 0
      modifies this
      ensures index == old(cur)
      ensures cur == NextTurn(old(cur), workerIndex, numWorkers)
    {
      index := cur;
      if workerIndex == cur {
        cur := cur + 1;
        cur := cur % numWorkers;
      }
    }
  }

  /** Out of a sequence of calls, given by their callers, the ones that found it to be their turn. */
  function Winners(calls: seq<nat>, cur: nat, n: nat): seq<nat>
    requires n > 0
  {
    if calls == [] then [] else
    (if calls[0] == cur then [cur] else []) + Winners(calls[1..], NextTurn(cur, calls[0], n), n)
  }

  function CurAfter(calls: seq<nat>, cur: nat, n: nat): nat
    requires n > 0
  {
    if calls == [] then cur else CurAfter(calls[1..], NextTurn(cur, calls[0], n), n)
  }

  lemma ProductSign(d: int, n: nat)
    ensures d >= 1 ==> d * n >= n
    ensures d <= -1 ==> d * n + n <= 0
  {
    if d >= 1 {
      assert d * n == (d - 1) * n + n;
    } else if d <= -1 {
      assert d * n == (d + 1) * n - n;
    }
  }

  lemma RemainderUnique(x: nat, q: int, r: nat, n: nat)
    requires n > 0 && r < n && x == q * n + r
    ensures x % n == r
  {
    var d := x / n - q;
    ProductSign(d, n);
    assert d * n == (x / n) * n - q * n;
  }

  lemma WrapAround(k: nat, n: nat)
    requires n > 0
    ensures (n + k) % n == k % n
  {
    assert (k / n + 1) * n == (k / n) * n + n;
    RemainderUnique(n + k, k / n + 1, k % n, n);
  }

  lemma AddOneMod(cur: nat, k: nat, n: nat)
    requires cur < n
    ensures ((cur + 1) % n + k) % n == (cur + (k + 1)) % n
  {
    if cur + 1 == n {
      WrapAround(0, n);
      WrapAround(k, n);
    } else {
      RemainderUnique(cur + 1, 0, cur + 1, n);
    }
  }

  /**
   Turn order does not depend on scheduling: whoever calls how often, the k-th winner is the one k
   places after the worker whose turn it was, and the counter has advanced by the number of winners.
   */
  lemma {:induction false} TurnOrder(calls: seq<nat>, cur: nat, n: nat)
    requires cur < n
    ensures var ws := Winners(calls, cur, n);
            && (forall k :: 0 <= k < |ws| ==> ws[k] == (cur + k) % n)
            && CurAfter(calls, cur, n) == (cur + |ws|) % n
  {
    if calls != [] {
      var cur' := NextTurn(cur, calls[0], n);
      TurnOrder(calls[1..], cur', n);
      if calls[0] == cur {
        var ws, later := Winners(calls, cur, n), Winners(calls[1..], cur', n);
        forall k | 0 <= k < |ws| ensures ws[k] == (cur + k) % n {
          if k > 0 {
            AddOneMod(cur, k - 1, n);
          } else {
            RemainderUnique(cur, 0, cur, n);
          }
        }
        AddOneMod(cur, |later|, n);
      }
    } else {
      RemainderUnique(cur, 0, cur, n);
    }
  }

  lemma {:induction false} WinnersAppend(calls: seq<nat>, more: seq<nat>, cur: nat, n: nat)
    requires n > 0
    ensures Winners(calls + more, cur, n) == Winners(calls, cur, n) + Winners(more, CurAfter(calls, cur, n), n)
  {
    if calls == [] {
      assert calls + more == more;
    } else {
      assert (calls + more)[1..] == calls[1..] + more;
      WinnersAppend(calls[1..], more, NextTurn(cur, calls[0], n), n);
    }
  }

  /** If the worker whose turn it is calls at all, the turn advances. */
  lemma {:induction false} TurnAdvances(calls: seq<nat>, cur: nat, n: nat)
    requires cur < n && cur in calls
    ensures Winners(calls, cur, n) != []
  {
    if calls[0] != cur {
      TurnAdvances(calls[1..], cur, n);
    }
  }

  /** Every worker calls at least once. */
  predicate Round(calls: seq<nat>, n: nat) {
    forall w :: 0 <= w < n ==> w in calls
  }

  lemma {:induction false} RoundsAdvance(rounds: seq<seq<nat>>, cur: nat, n: nat)
    requires cur < n && forall r :: r in rounds ==> Round(r, n)
    ensures |Winners(Flatten(rounds), cur, n)| >= |rounds|
  {
    if rounds != [] {
      assert Round(rounds[0], n);
      TurnAdvances(rounds[0], cur, n);
      TurnOrder(rounds[0], cur, n);
      RoundsAdvance(rounds[1..], CurAfter(rounds[0], cur, n), n);
      WinnersAppend(rounds[0], Flatten(rounds[1..]), cur, n);
    }
  }

  /** Bounded wait: n rounds give every worker a turn. */
  lemma EveryWorkerServed(rounds: seq<seq<nat>>, cur: nat, n: nat, w: nat)
    requires cur < n && w < n && |rounds| >= n
    requires forall r :: r in rounds ==> Round(r, n)
    ensures w in Winners(Flatten(rounds), cur, n)
  {
    var ws := Winners(Flatten(rounds), cur, n);
    RoundsAdvance(rounds, cur, n);
    TurnOrder(Flatten(rounds), cur, n);
    var k := if cur <= w then w - cur else w + n - cur;
    RemainderUnique(cur + k, if cur <= w then 0 else 1, w, n);
    assert ws[k] == w;
  }
}
