/**
 * The token bucket shared by the goroutines of one limiter. Wait has two critical sections with a sleep
 * between them, so the bucket is taken from while it is owed; amounts and times are reals
 * (plugin/ratelimit.go:29-68).
 */
module RateLimit {
  datatype Bucket = Bucket(rate: real, tokens: real, last: real)
  {
    /** maxTokens equals bytesPerSec. */
    predicate Valid() { rate > 0.0 && 0.0 <= tokens <= rate }
  }

  function Least(a: real, b: real): real { if a < b then a else b }

  /** The bytes that `seconds` are worth. */
  function Worth(rate: real, seconds: real): real { seconds * rate }

  lemma WorthAdds(rate: real, a: real, b: real)
    ensures Worth(rate, a + b) == Worth(rate, a) + Worth(rate, b)
  {}

  lemma WorthGrows(rate: real, a: real, b: real)
    requires rate > 0.0 && a <= b
    ensures Worth(rate, a) <= Worth(rate, b)
  {
    assert (b - a) * rate >= 0.0;
  }

  lemma WorthOfNothing(rate: real)
    ensures Worth(rate, 0.0) == 0.0
  {}

  /** refill at time `now`. */
  function Refilled(b: Bucket, now: real): (r: Bucket)
    requires b.Valid() && b.last <= now
    ensures r.Valid() && r.rate == b.rate && r.last == now
    ensures r.tokens <= b.tokens + Worth(b.rate, now - b.last)
  {
    WorthGrows(b.rate, 0.0, now - b.last);
    b.(last := now, tokens := Least(b.rate, b.tokens + Worth(b.rate, now - b.last)))
  }

  /** Whether the first critical section admits `n` bytes at once. */
  predicate Enough(b: Bucket, n: nat, now: real)
    requires b.Valid() && b.last <= now
  {
    Refilled(b, now).tokens >= n as real
  }

  /** The bucket after the first critical section, and the sleep it asks for. */
  function Begun(b: Bucket, n: nat, now: real): Bucket
    requires b.Valid() && b.last <= now
  {
    var r := Refilled(b, now);
    r.(tokens := if r.tokens >= n as real then r.tokens - n as real else 0.0)
  }

  function Pause(b: Bucket, n: nat, now: real): real
    requires b.Valid() && b.last <= now
  {
    (n as real - Refilled(b, now).tokens) / b.rate
  }

  /** The bucket after the second critical section. */
  function Finished(b: Bucket, n: nat, now: real): Bucket
    requires b.Valid() && b.last <= now
  {
    var r := Refilled(b, now);
    r.(tokens := if r.tokens - n as real < 0.0 then 0.0 else r.tokens - n as real)
  }

  // ---------------------------------------------------------------- the object

  class Limiter {
    const bytesPerSec: real
    const maxTokens: real
    var tokens: real
    var lastRefill: real

    predicate Valid()
      reads this
    {
      bytesPerSec > 0.0 && maxTokens == bytesPerSec && 0.0 <= tokens <= maxTokens
    }

    function Abs(): Bucket
      reads this
    {
      Bucket(bytesPerSec, tokens, lastRefill)
    }

    constructor (bytesPerSec: int, now: real)
      requires bytesPerSec > 0
      ensures Valid() && Abs() == Bucket(bytesPerSec as real, bytesPerSec as real, now)
    {
      this.bytesPerSec, maxTokens := bytesPerSec as real, bytesPerSec as real;
      tokens, lastRefill := bytesPerSec as real, now;
    }

    method Refill(now: real)
      requires Valid() && lastRefill <= now
      modifies this
      ensures Valid() && Abs() == Refilled(old(Abs()), now)
      ensures var r := old(tokens) + (now - old(lastRefill)) * bytesPerSec;
              lastRefill == now && tokens == if r > bytesPerSec then bytesPerSec else r
    {
      var elapsed := now - lastRefill;
      WorthGrows(bytesPerSec, 0.0, elapsed);
      lastRefill := now;
      tokens := tokens + elapsed * bytesPerSec;
      if tokens > maxTokens { tokens := maxTokens; }
    }

    /** Wait(n) up to its sleep; `done` when there is none. */
    method Begin(n: nat, now: real) returns (done: bool, pause: real)
      requires Valid() && lastRefill <= now
      modifies this
      ensures Valid() && Abs() == Begun(old(Abs()), n, now)
      ensures done == Enough(old(Abs()), n, now)
      ensures !done ==> pause == Pause(old(Abs()), n, now) && pause > 0.0
      ensures var r := old(tokens) + (now - old(lastRefill)) * bytesPerSec;
              var full := if r > bytesPerSec then bytesPerSec else r;
              && lastRefill == now
              && (done <==> n as real <= full)
              && (done ==> tokens == full - n as real)
              && (!done ==> tokens == 0.0 && pause * bytesPerSec == n as real - full)
    {
      Refill(now);
      if tokens >= n as real {
        tokens := tokens - n as real;
        return true, 0.0;
      }
      pause := (n as real - tokens) / bytesPerSec;
      Quotient(n as real - tokens, bytesPerSec);
      tokens := 0.0;
      done := false;
    }

    /** Wait(n) after its sleep. */
    method Finish(n: nat, now: real)
      requires Valid() && lastRefill <= now
      modifies this
      ensures Valid() && Abs() == Finished(old(Abs()), n, now)
      ensures var r := old(tokens) + (now - old(lastRefill)) * bytesPerSec;
              var full := if r > bytesPerSec then bytesPerSec else r;
              lastRefill == now && tokens == if full > n as real then full - n as real else 0.0
    {
      Refill(now);
      tokens := tokens - n as real;
      if tokens < 0.0 { tokens := 0.0; }
    }
  }

  lemma Quotient(a: real, b: real)
    requires b > 0.0
    ensures Worth(b, a / b) == a && (a > 0.0 ==> a / b > 0.0)
  {}

  // ---------------------------------------------------------------- goroutines sharing one limiter

  /** A goroutine outside Wait, or asleep in it: for how many bytes, what it took from the bucket, from when and
      until when. */
  datatype Goroutine = Awake | Asleep(n: nat, taken: real, since: real, until: real)

  /** `admitted` counts the bytes of the calls of Wait that have returned. */
  datatype Shared = Shared(bucket: Bucket, gs: seq<Goroutine>, admitted: real)

  datatype Event = Pass(j: nat, n: nat) | Nap(j: nat, n: nat) | Wake(j: nat)

  predicate Happens(s: Shared, e: Event, now: real)
    requires s.bucket.Valid()
  {
    && s.bucket.last <= now
    && e.j < |s.gs|
    && match e
       case Pass(j, n) => s.gs[j].Awake? && Enough(s.bucket, n, now)
       case Nap(j, n) => s.gs[j].Awake? && !Enough(s.bucket, n, now)
       case Wake(j) => s.gs[j].Asleep? && now >= s.gs[j].until
  }

  function After(s: Shared, e: Event, now: real): Shared
    requires s.bucket.Valid() && Happens(s, e, now)
  {
    match e
    case Pass(j, n) => Shared(Begun(s.bucket, n, now), s.gs, s.admitted + n as real)
    case Nap(j, n) =>
      var g := Asleep(n, Refilled(s.bucket, now).tokens, now, now + Pause(s.bucket, n, now));
      Shared(Begun(s.bucket, n, now), s.gs[j := g], s.admitted)
    case Wake(j) => Shared(Finished(s.bucket, s.gs[j].n, now), s.gs[j := Awake], s.admitted + s.gs[j].n as real)
  }

  function Fresh(rate: int, k: nat, t0: real): Shared
    requires rate > 0
  {
    Shared(Bucket(rate as real, rate as real, t0), seq(k, i => Awake), 0.0)
  }

  /** What the sleepers took out of the bucket without having been admitted for it. */
  function Taken(gs: seq<Goroutine>): real {
    if gs == [] then 0.0 else (if gs[0].Asleep? then gs[0].taken else 0.0) + Taken(gs[1..])
  }

  /** The time each goroutine has to show for what it sent: up to now, or up to when it fell asleep. */
  function Spent(gs: seq<Goroutine>, t0: real, last: real): real {
    if gs == [] then 0.0 else (if gs[0].Asleep? then gs[0].since - t0 else last - t0) + Spent(gs[1..], t0, last)
  }

  ghost predicate Sleeper(g: Goroutine, rate: real, last: real) {
    g.Asleep? ==>
      && 0.0 <= g.taken && g.since <= last && g.since <= g.until
      && g.n as real == g.taken + Worth(rate, g.until - g.since)
  }

  /** The potential argument: bytes admitted, bytes in the bucket and bytes taken by sleepers together never
      exceed one bucket plus the rate times everybody's time; and if all sleep, the bucket was left empty. */
  ghost predicate Inv(s: Shared, t0: real) {
    && s.bucket.Valid() && t0 <= s.bucket.last
    && (forall i :: 0 <= i < |s.gs| ==> Sleeper(s.gs[i], s.bucket.rate, s.bucket.last))
    && s.admitted + s.bucket.tokens + Taken(s.gs)
       <= s.bucket.rate + Worth(s.bucket.rate, Spent(s.gs, t0, s.bucket.last))
    && ((forall i :: 0 <= i < |s.gs| ==> s.gs[i].Asleep?) ==> s.bucket.tokens == 0.0)
  }

  lemma {:induction false} TakenUpdate(gs: seq<Goroutine>, j: nat, g: Goroutine)
    requires j < |gs|
    ensures Taken(gs[j := g]) == Taken(gs) - (if gs[j].Asleep? then gs[j].taken else 0.0)
            + (if g.Asleep? then g.taken else 0.0)
  {
    if j == 0 {
      assert gs[0 := g][1..] == gs[1..];
    } else {
      assert gs[j := g][1..] == gs[1..][j - 1 := g];
      TakenUpdate(gs[1..], j - 1, g);
    }
  }

  lemma {:induction false} SpentUpdate(gs: seq<Goroutine>, j: nat, g: Goroutine, t0: real, last: real)
    requires j < |gs|
    ensures Spent(gs[j := g], t0, last) == Spent(gs, t0, last)
            - (if gs[j].Asleep? then gs[j].since else last) + (if g.Asleep? then g.since else last)
  {
    if j == 0 {
      assert gs[0 := g][1..] == gs[1..];
    } else {
      assert gs[j := g][1..] == gs[1..][j - 1 := g];
      SpentUpdate(gs[1..], j - 1, g, t0, last);
    }
  }

  /** Time passing counts for those awake, at least once if anybody is. */
  lemma {:induction false} SpentGrows(gs: seq<Goroutine>, t0: real, last: real, now: real)
    requires last <= now
    ensures Spent(gs, t0, now) >= Spent(gs, t0, last)
    ensures (exists i :: 0 <= i < |gs| && gs[i].Awake?) ==> Spent(gs, t0, now) >= Spent(gs, t0, last) + (now - last)
  {
    if gs != [] {
      SpentGrows(gs[1..], t0, last, now);
      if gs[0].Asleep? && exists i :: 0 <= i < |gs| && gs[i].Awake? {
        var i :| 0 <= i < |gs| && gs[i].Awake?;
        assert gs[1..][i - 1].Awake?;
      }
    }
  }

  lemma {:induction false} SpentBound(gs: seq<Goroutine>, t0: real, last: real)
    requires t0 <= last
    requires forall i :: 0 <= i < |gs| ==> gs[i].Asleep? ==> gs[i].since <= last
    ensures Spent(gs, t0, last) <= Together(|gs|, last - t0)
  {
    TogetherAdds(|gs|, last - t0);
    hide Together;
    if gs != [] { SpentBound(gs[1..], t0, last); }
  }

  /** The time that `k` goroutines have in `seconds`. */
  function Together(k: nat, seconds: real): real { k as real * seconds }

  lemma TogetherAdds(k: nat, seconds: real)
    ensures Together(k, seconds) == if k == 0 then 0.0 else seconds + Together(k - 1, seconds)
  {}

  lemma TogetherGrows(k: nat, a: real, b: real)
    requires a <= b
    ensures Together(k, a) <= Together(k, b)
  {
    assert k as real * (b - a) >= 0.0;
  }

  lemma PassKeeps(s: Shared, j: nat, n: nat, now: real, t0: real)
    requires Inv(s, t0) && Happens(s, Pass(j, n), now)
    ensures Inv(After(s, Pass(j, n), now), t0)
  {
    var rate, last := s.bucket.rate, s.bucket.last;
    hide Worth;
    SpentGrows(s.gs, t0, last, now);
    WorthAdds(rate, Spent(s.gs, t0, last), now - last);
    WorthGrows(rate, Spent(s.gs, t0, last) + (now - last), Spent(s.gs, t0, now));
  }

  lemma NapKeeps(s: Shared, j: nat, n: nat, now: real, t0: real)
    requires Inv(s, t0) && Happens(s, Nap(j, n), now)
    ensures Inv(After(s, Nap(j, n), now), t0)
  {
    var s', r, rate, last := After(s, Nap(j, n), now), Refilled(s.bucket, now), s.bucket.rate, s.bucket.last;
    var g := s'.gs[j];
    Quotient(n as real - r.tokens, rate);
    assert g.until - g.since == Pause(s.bucket, n, now);
    assert Pause(s.bucket, n, now) == (n as real - r.tokens) / rate;
    hide Worth, Pause;
    SpentGrows(s.gs, t0, last, now);
    WorthAdds(rate, Spent(s.gs, t0, last), now - last);
    WorthGrows(rate, Spent(s.gs, t0, last) + (now - last), Spent(s.gs, t0, now));
    TakenUpdate(s.gs, j, g);
    SpentUpdate(s.gs, j, g, t0, now);
  }

  lemma WakeKeeps(s: Shared, j: nat, now: real, t0: real)
    requires Inv(s, t0) && Happens(s, Wake(j), now)
    ensures Inv(After(s, Wake(j), now), t0)
  {
    var g, rate, last := s.gs[j], s.bucket.rate, s.bucket.last;
    var s' := After(s, Wake(j), now);
    hide Worth;
    TakenUpdate(s.gs, j, Awake);
    SpentGrows(s.gs, t0, last, now);
    SpentUpdate(s.gs, j, Awake, t0, now);
    assert s'.gs[j].Awake?;
    WorthAdds(rate, Spent(s.gs, t0, now), now - g.since);
    WorthGrows(rate, g.until - g.since, now - g.since);
    WorthGrows(rate, now - last, now - g.since);
    WorthGrows(rate, Spent(s.gs, t0, last), Spent(s.gs, t0, now));
    if exists i :: 0 <= i < |s.gs| && s.gs[i].Awake? {
      WorthAdds(rate, Spent(s.gs, t0, last), now - last);
      WorthGrows(rate, Spent(s.gs, t0, last) + (now - last), Spent(s.gs, t0, now));
    }
  }

  /** A run: events at non-decreasing times, from a full bucket and everybody awake. */
  ghost predicate Run(rate: int, k: nat, t0: real, ss: seq<Shared>, es: seq<(Event, real)>)
    requires rate > 0
  {
    && |ss| == |es| + 1
    && ss[0] == Fresh(rate, k, t0)
    && forall i :: 0 <= i < |es| ==>
         ss[i].bucket.Valid() && Happens(ss[i], es[i].0, es[i].1) && ss[i + 1] == After(ss[i], es[i].0, es[i].1)
  }

  lemma {:induction false} FreshSums(k: nat, t0: real)
    ensures Taken(seq(k, i => Awake)) == 0.0 && Spent(seq(k, i => Awake), t0, t0) == 0.0
  {
    if k > 0 {
      assert seq(k, i => Awake)[1..] == seq(k - 1, i => Awake);
      FreshSums(k - 1, t0);
    }
  }

  lemma {:induction false} RunInv(rate: int, k: nat, t0: real, ss: seq<Shared>, es: seq<(Event, real)>, i: nat)
    requires rate > 0 && k > 0 && Run(rate, k, t0, ss, es) && i < |ss|
    ensures Inv(ss[i], t0) && |ss[i].gs| == k && ss[i].bucket.rate == rate as real
  {
    if i == 0 {
      FreshSums(k, t0);
      WorthOfNothing(rate as real);
      assert ss[0].gs[0].Awake?;
    } else {
      RunInv(rate, k, t0, ss, es, i - 1);
      var s, e, now := ss[i - 1], es[i - 1].0, es[i - 1].1;
      assert Happens(s, e, now) && ss[i - 1 + 1] == After(s, e, now);
      match e
      case Pass(j, n) => PassKeeps(s, j, n, now, t0);
      case Nap(j, n) => NapKeeps(s, j, n, now, t0);
      case Wake(j) => WakeKeeps(s, j, now, t0);
    }
  }

  /** Whatever k goroutines do with one limiter, the bytes admitted by time `t` are at most one second's worth
      plus k times the rate times the time since the limiter was made; the bucket never leaves its bounds. */
  lemma RateBound(rate: int, k: nat, t0: real, ss: seq<Shared>, es: seq<(Event, real)>, i: nat, t: real)
    requires rate > 0 && k > 0 && Run(rate, k, t0, ss, es) && i < |ss| && ss[i].bucket.last <= t
    ensures ss[i].admitted <= rate as real + Worth(rate as real, Together(k, t - t0))
    ensures 0.0 <= ss[i].bucket.tokens <= rate as real
  {
    RunInv(rate, k, t0, ss, es, i);
    hide Run, Worth, Together;
    var s, last := ss[i], ss[i].bucket.last;
    SpentBound(s.gs, t0, last);
    TakenPositive(s.gs, rate as real, last);
    TogetherGrows(k, last - t0, t - t0);
    WorthGrows(rate as real, Spent(s.gs, t0, last), Together(k, t - t0));
  }

  lemma {:induction false} TakenPositive(gs: seq<Goroutine>, rate: real, last: real)
    requires forall i :: 0 <= i < |gs| ==> Sleeper(gs[i], rate, last)
    ensures Taken(gs) >= 0.0
  {
    if gs != [] { TakenPositive(gs[1..], rate, last); }
  }

  // ---------------------------------------------------------------- nothing is withheld

  /** The bytes of the calls that returned among events `a` up to `b`. */
  function Returned(ss: seq<Shared>, es: seq<(Event, real)>, a: nat, b: nat): real
    requires a <= b <= |es| < |ss|
  {
    if a == b then 0.0
    else
      var s, e := ss[b - 1], es[b - 1].0;
      Returned(ss, es, a, b - 1)
      + if e.Pass? then e.n as real
        else if e.Wake? && e.j < |s.gs| && s.gs[e.j].Asleep? then s.gs[e.j].n as real
        else 0.0
  }

  /** A call that returns, at once or after its sleep, takes its bytes from the bucket and no more. */
  lemma CallTakesOnlyItsBytes(s: Shared, e: Event, now: real)
    requires s.bucket.Valid() && Happens(s, e, now) && !e.Nap?
    ensures var n := if e.Pass? then e.n as real else s.gs[e.j].n as real;
            var t, b := After(s, e, now).bucket.tokens, s.bucket;
            && t >= b.tokens - n
            && (b.tokens + Worth(b.rate, now - b.last) <= b.rate ==> t >= b.tokens + Worth(b.rate, now - b.last) - n)
  {
    WorthGrows(s.bucket.rate, 0.0, now - s.bucket.last);
    WorthOfNothing(s.bucket.rate);
  }

  /** As long as no call goes to sleep, the bucket loses no more than the bytes of the calls that return. */
  lemma {:induction false} CallsLeaveTheRest(rate: int, k: nat, t0: real, ss: seq<Shared>, es: seq<(Event, real)>,
                                             a: nat, b: nat)
    requires rate > 0 && k > 0 && Run(rate, k, t0, ss, es) && a <= b < |ss|
    requires forall i :: a <= i < b ==> !es[i].0.Nap?
    ensures ss[b].bucket.tokens >= ss[a].bucket.tokens - Returned(ss, es, a, b)
  {
    if a < b {
      CallsLeaveTheRest(rate, k, t0, ss, es, a, b - 1);
      var s, e, now := ss[b - 1], es[b - 1].0, es[b - 1].1;
      assert s.bucket.Valid() && Happens(s, e, now) && ss[b - 1 + 1] == After(s, e, now);
      CallTakesOnlyItsBytes(s, e, now);
    }
  }

  /** Calls that together ask for no more than the bucket holds all pass without a sleep: a call is made to sleep only
      when it and the calls returned since ask for more than the bucket held. */
  lemma SleepersAskForMore(rate: int, k: nat, t0: real, ss: seq<Shared>, es: seq<(Event, real)>, a: nat, b: nat)
    requires rate > 0 && k > 0 && Run(rate, k, t0, ss, es) && a <= b < |es|
    requires (forall i :: a <= i < b ==> !es[i].0.Nap?) && es[b].0.Nap?
    ensures Returned(ss, es, a, b) + es[b].0.n as real > ss[a].bucket.tokens
  {
    var s, e, now := ss[b], es[b].0, es[b].1;
    assert s.bucket.Valid() && Happens(s, e, now);
    hide Run, Happens, Worth, Returned;
    NapMeansShort(s, e, now);
    CallsLeaveTheRest(rate, k, t0, ss, es, a, b);
  }

  lemma NapMeansShort(s: Shared, e: Event, now: real)
    requires s.bucket.Valid() && Happens(s, e, now) && e.Nap?
    ensures s.bucket.tokens < e.n as real
  {
    WorthGrows(s.bucket.rate, 0.0, now - s.bucket.last);
    WorthOfNothing(s.bucket.rate);
  }

  /** The bucket is not filled to the brim before event `i`, and a sleeper wakes on time. */
  predicate Punctual(s: Shared, e: Event, now: real) {
    match e
    case Wake(j) => j < |s.gs| && s.gs[j].Asleep? && now == s.gs[j].until
    case _ => s.bucket.tokens + Worth(s.bucket.rate, now - s.bucket.last) <= s.bucket.rate
  }

  ghost predicate Alone(s: Shared) {
    && s.bucket.Valid() && |s.gs| == 1
    && Sleeper(s.gs[0], s.bucket.rate, s.bucket.last)
    && (s.gs[0].Asleep? ==> s.bucket.tokens == 0.0 && s.gs[0].since == s.bucket.last)
  }

  /** What the bucket holds, and what the sleeper took from it. */
  function Holding(s: Shared): real {
    s.bucket.tokens + if |s.gs| == 1 && s.gs[0].Asleep? then s.gs[0].taken else 0.0
  }

  /** One event of a goroutine that has the limiter to itself. */
  lemma AccountStep(s: Shared, e: Event, now: real)
    requires Alone(s) && Happens(s, e, now)
    ensures Alone(After(s, e, now))
    ensures Punctual(s, e, now) ==>
              (if e.Pass? then e.n as real else if e.Wake? then s.gs[e.j].n as real else 0.0)
              + Holding(After(s, e, now)) == Holding(s) + Worth(s.bucket.rate, now - s.bucket.last)
    ensures After(s, e, now).bucket.last == now && After(s, e, now).bucket.rate == s.bucket.rate
  {
    WorthGrows(s.bucket.rate, 0.0, now - s.bucket.last);
    WorthOfNothing(s.bucket.rate);
    match e
    case Pass(j, n) =>
    case Nap(j, n) => Quotient(n as real - Refilled(s.bucket, now).tokens, s.bucket.rate);
    case Wake(j) =>
  }

  lemma {:induction false} RunAlone(rate: int, t0: real, ss: seq<Shared>, es: seq<(Event, real)>, i: nat)
    requires rate > 0 && Run(rate, 1, t0, ss, es) && i < |ss|
    ensures Alone(ss[i]) && ss[i].bucket.rate == rate as real
  {
    if i > 0 {
      RunAlone(rate, t0, ss, es, i - 1);
      var s, e, now := ss[i - 1], es[i - 1].0, es[i - 1].1;
      assert Happens(s, e, now) && ss[i - 1 + 1] == After(s, e, now);
      AccountStep(s, e, now);
    }
  }

  /** A goroutine that has the limiter to itself and wakes on time gets every byte: while the bucket does not
      overflow, bytes returned plus bytes held are what was held at first plus the rate times the time. */
  lemma {:induction false} NoByteIsLost(rate: int, t0: real, ss: seq<Shared>, es: seq<(Event, real)>, a: nat, b: nat)
    requires rate > 0 && Run(rate, 1, t0, ss, es) && a <= b < |ss|
    requires forall i :: a <= i < b ==> Punctual(ss[i], es[i].0, es[i].1)
    ensures Returned(ss, es, a, b) + Holding(ss[b])
            == Holding(ss[a]) + Worth(rate as real, ss[b].bucket.last - ss[a].bucket.last)
  {
    if a == b {
      WorthOfNothing(rate as real);
    } else {
      NoByteIsLost(rate, t0, ss, es, a, b - 1);
      RunAlone(rate, t0, ss, es, b - 1);
      var s, e, now := ss[b - 1], es[b - 1].0, es[b - 1].1;
      assert Happens(s, e, now) && ss[b - 1 + 1] == After(s, e, now);
      assert Punctual(s, e, now);
      AccountStep(s, e, now);
      WorthAdds(rate as real, s.bucket.last - ss[a].bucket.last, now - s.bucket.last);
    }
  }
}
