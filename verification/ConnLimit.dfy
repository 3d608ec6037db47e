/** The connection limiter: a counter changed by a load and compare-and-swap loop, and by a plain decrement
    (plugin/connlimit.go:17-37). */
module ConnLimit {
  const INT32_MAX: int := 0x7fff_ffff

  class Limiter {
    const maxConns: int
    var current: int

    constructor (maxConns: int)
      ensures this.maxConns == maxConns && current == 0
    {
      this.maxConns, current := maxConns, 0;
    }

    /** atomic.CompareAndSwapInt32. */
    method CompareAndSwap(was: int, now: int) returns (swapped: bool)
      modifies this`current
      ensures swapped <==> old(current) == was
      ensures current == if swapped then now else old(current)
    {
      swapped := current == was;
      if swapped { current := now; }
    }

    /** OnAccept while other threads store `rivals`, one value between each load and its swap. */
    method OnAccept(rivals: seq<int>) returns (admitted: bool)
      modifies this`current
      ensures maxConns <= 0 ==> admitted && current == old(current)
      ensures maxConns > 0 ==> (admitted, current) == Outcome(maxConns, old(current), rivals)
    {
      if maxConns <= 0 { return true; }
      var i := 0;
      while true
        invariant i <= |rivals|
        invariant Outcome(maxConns, old(current), rivals) == Outcome(maxConns, current, rivals[i..])
        decreases |rivals| - i
      {
        var cur := current;
        if cur >= maxConns { return false; }
        ghost var alone := i == |rivals|;
        if i < |rivals| {
          current := rivals[i];
          i := i + 1;
        }
        var swapped := CompareAndSwap(cur, cur + 1);
        if swapped { return true; }
        assert !alone;
      }
    }

    method OnClose()
      modifies this`current
      ensures current == old(current) - 1
    {
      current := current - 1;
    }
  }

  /** What OnAccept answers and leaves behind when the counter is `current` and `rivals` are yet to come. */
  function Outcome(max: int, current: int, rivals: seq<int>): (bool, int)
    decreases |rivals|
  {
    if current >= max then (false, current)
    else if rivals == [] || rivals[0] == current then (true, current + 1)
    else Outcome(max, rivals[0], rivals[1..])
  }

  /** Whatever the rivals store, a place is taken exactly once and only below the limit. */
  lemma {:induction false} OneRetryLoopOnePlace(max: int, current: int, rivals: seq<int>)
    requires current <= max && forall r :: r in rivals ==> r <= max
    ensures var (admitted, after) := Outcome(max, current, rivals);
            && after <= max
            && (admitted ==> after - 1 == current || after - 1 in rivals)
            && (!admitted ==> after == max)
            && (|rivals| == 0 ==> admitted == (current < max))
    decreases |rivals|
  {
    if current < max && rivals != [] && rivals[0] != current {
      assert rivals[0] in rivals;
      assert forall r :: r in rivals[1..] ==> r in rivals;
      OneRetryLoopOnePlace(max, rivals[0], rivals[1..]);
    }
  }

  // ---------------------------------------------------------------- any number of threads

  /** A thread outside OnAccept, or in it with the value it loaded and the number of changes seen by then. */
  datatype Thread = Idle | Loaded(cur: int, seen: nat)

  /** `changes` numbers the modifications of `current`; `accepts` and `closes` count them by kind. */
  datatype System = System(max: int, current: int, threads: seq<Thread>, accepts: nat, closes: nat)
  {
    function Changes(): nat { accepts + closes }
  }

  datatype Event = Load(t: nat) | Refuse(t: nat) | Swap(t: nat) | Miss(t: nat) | Close

  /** Loads and compare-and-swaps of any threads interleave; only an open connection is closed. */
  predicate Happens(s: System, e: Event) {
    match e
    case Load(t) => t < |s.threads| && s.threads[t].Idle?
    case Refuse(t) => t < |s.threads| && s.threads[t].Loaded? && s.threads[t].cur >= s.max
    case Swap(t) => t < |s.threads| && s.threads[t].Loaded? && s.threads[t].cur < s.max && s.current == s.threads[t].cur
    case Miss(t) => t < |s.threads| && s.threads[t].Loaded? && s.threads[t].cur < s.max && s.current != s.threads[t].cur
    case Close => s.closes < s.accepts
  }

  function After(s: System, e: Event): System
    requires Happens(s, e)
  {
    match e
    case Load(t) => s.(threads := s.threads[t := Loaded(s.current, s.Changes())])
    case Refuse(t) => s.(threads := s.threads[t := Idle])
    case Swap(t) => s.(current := s.threads[t].cur + 1, accepts := s.accepts + 1, threads := s.threads[t := Idle])
    case Miss(t) => s.(threads := s.threads[t := Idle]) // back to the load
    case Close => s.(current := s.current - 1, closes := s.closes + 1)
  }

  /** `history[i]` is the counter after `i` changes. */
  ghost predicate Inv(s: System, history: seq<int>) {
    && 0 < s.max <= INT32_MAX
    && s.closes <= s.accepts
    && s.current == s.accepts - s.closes
    && s.current <= s.max
    && |history| == s.Changes() + 1 && history[|history| - 1] == s.current
    && (forall i :: 0 <= i < |history| ==> 0 <= history[i] <= s.max)
    && (forall t :: 0 <= t < |s.threads| && s.threads[t].Loaded? ==>
          s.threads[t].seen <= s.Changes() && s.threads[t].cur == history[s.threads[t].seen])
  }

  ghost predicate Run(max: int, k: nat, ss: seq<System>, es: seq<Event>) {
    && |ss| == |es| + 1
    && ss[0] == System(max, 0, seq(k, i => Idle), 0, 0)
    && forall i :: 0 <= i < |es| ==> Happens(ss[i], es[i]) && ss[i + 1] == After(ss[i], es[i])
  }

  function Recorded(history: seq<int>, s: System, s': System): seq<int> {
    if s'.Changes() == s.Changes() then history else history + [s'.current]
  }

  /** The counter after each change of a run. */
  function History(ss: seq<System>): seq<int>
    requires ss != []
  {
    if |ss| == 1 then [ss[0].current]
    else Recorded(History(ss[..|ss| - 1]), ss[|ss| - 2], ss[|ss| - 1])
  }

  lemma StepKeeps(s: System, e: Event, history: seq<int>)
    requires Inv(s, history) && Happens(s, e)
    ensures Inv(After(s, e), Recorded(history, s, After(s, e)))
  {}

  lemma {:induction false} RunInv(max: int, k: nat, ss: seq<System>, es: seq<Event>, i: nat)
    requires 0 < max <= INT32_MAX && Run(max, k, ss, es) && i < |ss|
    ensures ss[i].max == max && Inv(ss[i], History(ss[..i + 1]))
  {
    if i > 0 {
      RunInv(max, k, ss, es, i - 1);
      assert Happens(ss[i - 1], es[i - 1]) && ss[i - 1 + 1] == After(ss[i - 1], es[i - 1]);
      StepKeeps(ss[i - 1], es[i - 1], History(ss[..i]));
      assert ss[..i + 1][..i] == ss[..i];
    }
  }

  /** However loads and swaps interleave, the limit holds and the counter is accepts minus closes. */
  lemma LimitHolds(max: int, k: nat, ss: seq<System>, es: seq<Event>, i: nat)
    requires 0 < max <= INT32_MAX && Run(max, k, ss, es) && i < |ss|
    ensures 0 <= ss[i].current <= max && ss[i].current == ss[i].accepts - ss[i].closes
  {
    RunInv(max, k, ss, es, i);
  }

  /** A swap that misses was overtaken: since this thread's load another accept or a close has completed. */
  lemma MissMeansProgress(max: int, k: nat, ss: seq<System>, es: seq<Event>, i: nat)
    requires 0 < max <= INT32_MAX && Run(max, k, ss, es) && i < |es| && es[i].Miss?
    ensures es[i].t < |ss[i].threads| && ss[i].threads[es[i].t].Loaded?
    ensures ss[i].threads[es[i].t].seen < ss[i].Changes()
  {
    RunInv(max, k, ss, es, i);
  }

  /** A refusal is just: the limiter was full when the refused thread looked. */
  lemma RefusalIsJust(max: int, k: nat, ss: seq<System>, es: seq<Event>, i: nat)
    requires 0 < max <= INT32_MAX && Run(max, k, ss, es) && i < |es| && es[i].Refuse?
    ensures es[i].t < |ss[i].threads| && ss[i].threads[es[i].t].Loaded?
    ensures var history, n := History(ss[..i + 1]), ss[i].threads[es[i].t].seen;
            n < |history| && history[n] == max
  {
    RunInv(max, k, ss, es, i);
    assert Happens(ss[i], es[i]);
  }

  /** A thread whose load is up to date succeeds. */
  lemma FirstSwapSucceeds(max: int, k: nat, ss: seq<System>, es: seq<Event>, i: nat)
    requires 0 < max <= INT32_MAX && Run(max, k, ss, es) && i < |es|
    requires es[i].Swap? || es[i].Miss?
    requires es[i].t < |ss[i].threads| && ss[i].threads[es[i].t].Loaded?
    requires ss[i].threads[es[i].t].seen == ss[i].Changes()
    ensures es[i].Swap? && ss[i + 1].accepts == ss[i].accepts + 1
  {
    RunInv(max, k, ss, es, i);
    assert Happens(ss[i], es[i]) && ss[i + 1] == After(ss[i], es[i]);
  }

  /** In `es[i..j]` thread `t` loads first and then leaves its value alone, and nobody closes. */
  predicate Round(es: seq<Event>, i: nat, j: nat, t: nat) {
    && i < j < |es|
    && es[i] == Load(t)
    && (es[j] == Swap(t) || es[j] == Miss(t))
    && (forall k :: i <= k <= j ==> !es[k].Close?)
    && forall k :: i < k < j ==> es[k].t != t
  }

  /** Until its swap the thread keeps what it loaded, and every change since is an accept. */
  lemma {:induction false} Waits(max: int, k: nat, ss: seq<System>, es: seq<Event>, i: nat, j: nat, t: nat, m: nat)
    requires 0 < max <= INT32_MAX && Run(max, k, ss, es) && Round(es, i, j, t) && i < m <= j
    ensures t < |ss[m].threads| && ss[m].threads[t] == Loaded(ss[i].current, ss[i].Changes())
    ensures ss[m].closes == ss[i].closes && ss[m].accepts >= ss[i].accepts
  {
    var p := m - 1;
    assert Happens(ss[p], es[p]) && ss[p + 1] == After(ss[p], es[p]);
    if p > i { Waits(max, k, ss, es, i, j, t, p); }
  }

  /** Between a thread's load and the end of its swap, with no close in between, some accept completes: its own if
      nobody came first, another one otherwise. */
  lemma SomeAcceptCompletes(max: int, k: nat, ss: seq<System>, es: seq<Event>, i: nat, j: nat, t: nat)
    requires 0 < max <= INT32_MAX && Run(max, k, ss, es) && Round(es, i, j, t)
    ensures ss[j + 1].accepts > ss[i].accepts
    ensures es[j].Swap? <==> ss[j].accepts == ss[i].accepts
  {
    Waits(max, k, ss, es, i, j, t, j);
    LimitHolds(max, k, ss, es, i);
    LimitHolds(max, k, ss, es, j);
    assert Happens(ss[j], es[j]) && ss[j + 1] == After(ss[j], es[j]);
    if es[j].Miss? { MissMeansProgress(max, k, ss, es, j); }
  }
}
