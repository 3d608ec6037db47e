/**
 * What sharing one limiter costs: k goroutines that sleep side by side reach the bound of RateLimit exactly, for
 * every rate, so the bound of a plain token bucket holds for one goroutine and for no larger number.
 */
module RateSharing {
  import opened RateLimit

  /** One bucket plus the rate times the time passed. */
  ghost predicate WithinRate(rate: int, t0: real, s: Shared, t: real) {
    s.admitted <= rate as real + Worth(rate as real, t - t0)
  }

  /** Every run keeps the plain token-bucket bound at every time. */
  ghost predicate Classic(rate: int, k: nat, t0: real)
    requires rate > 0
  {
    forall ss: seq<Shared>, es: seq<(Event, real)>, i: nat, t: real ::
      Run(rate, k, t0, ss, es) && i < |ss| && ss[i].bucket.last <= t ==> WithinRate(rate, t0, ss[i], t)
  }

  // ---------------------------------------------------------------- k goroutines side by side

  /** The first goroutine asks for a full bucket more than the others, who ask for `d` seconds' worth. */
  function Dose(rate: nat, d: nat, g: nat): nat { if g == 0 then rate * (d + 1) else rate * d }

  function Napper(rate: nat, d: nat, t0: real, g: nat): Goroutine {
    Asleep(Dose(rate, d, g), if g == 0 then rate as real else 0.0, t0, t0 + d as real)
  }

  /** All fall asleep at `t0`, one after the other; all wake at `t0 + d`, in the same order. */
  function Nth(rate: nat, k: nat, d: nat, t0: real, i: nat): (Event, real) {
    if i < k then (Nap(i, Dose(rate, d, i)), t0) else (Wake(i - k), t0 + d as real)
  }

  function Stage(rate: nat, k: nat, d: nat, t0: real, i: nat): Shared {
    Shared(Bucket(rate as real, if i == 0 then rate as real else 0.0, if i <= k then t0 else t0 + d as real),
           seq(k, g requires 0 <= g < k => if i - k <= g < i then Napper(rate, d, t0, g) else Awake),
           if i <= k then 0.0 else rate as real + Together(i - k, Worth(rate as real, d as real)))
  }

  lemma {:induction false} Doses(rate: nat, d: nat)
    ensures (rate * d) as real == Worth(rate as real, d as real)
    ensures (rate * (d + 1)) as real == rate as real + Worth(rate as real, d as real)
  {
    assert rate * (d + 1) == rate * d + rate;
    if d > 0 {
      Doses(rate, d - 1);
      assert rate * d == rate * (d - 1) + rate;
      WorthAdds(rate as real, (d - 1) as real, 1.0);
      assert Worth(rate as real, 1.0) == rate as real;
    }
  }

  /** What the bucket's arithmetic comes to at one of the two times. */
  lemma Amounts(rate: nat, d: nat)
    requires rate > 0 && d > 0
    ensures Worth(rate as real, 0.0) == 0.0
    ensures Worth(rate as real, d as real) >= rate as real
    ensures Worth(rate as real, d as real) / rate as real == d as real
  {
    WorthOfNothing(rate as real);
    WorthGrows(rate as real, 1.0, d as real);
    assert Worth(rate as real, 1.0) == rate as real;
    Divides(d as real, rate as real);
  }

  lemma Divides(a: real, b: real)
    requires b > 0.0
    ensures Worth(b, a) / b == a
  {}

  predicate Leads(rate: nat, k: nat, d: nat, t0: real, i: nat)
    requires rate > 0 && i < 2 * k
  {
    var s, e := Stage(rate, k, d, t0, i), Nth(rate, k, d, t0, i);
    s.bucket.Valid() && Happens(s, e.0, e.1) && Stage(rate, k, d, t0, i + 1) == After(s, e.0, e.1)
  }

  lemma FallsAsleep(rate: nat, k: nat, d: nat, t0: real, i: nat)
    requires rate > 0 && d > 0 && i < k
    ensures Leads(rate, k, d, t0, i)
  {
    var s, s' := Stage(rate, k, d, t0, i), Stage(rate, k, d, t0, i + 1);
    Amounts(rate, d);
    Doses(rate, d);
    hide Worth, Together;
    var r := Refilled(s.bucket, t0);
    assert r == s.bucket;
    assert Pause(s.bucket, Dose(rate, d, i), t0) == d as real;
    assert s.gs[i := Napper(rate, d, t0, i)] == s'.gs;
  }

  lemma WakesUp(rate: nat, k: nat, d: nat, t0: real, j: nat)
    requires rate > 0 && d > 0 && j < k
    ensures Leads(rate, k, d, t0, k + j)
  {
    var s, s' := Stage(rate, k, d, t0, k + j), Stage(rate, k, d, t0, k + j + 1);
    var now := t0 + d as real;
    Amounts(rate, d);
    Doses(rate, d);
    TogetherAdds(j + 1, Worth(rate as real, d as real));
    TogetherAdds(j, Worth(rate as real, d as real));
    hide Worth, Together;
    assert Refilled(s.bucket, now) == Bucket(rate as real, if j == 0 then rate as real else 0.0, now);
    assert s.gs[j] == Napper(rate, d, t0, j);
    assert Finished(s.bucket, Dose(rate, d, j), now) == Bucket(rate as real, 0.0, now);
    assert s.gs[j := Awake] == s'.gs;
  }

  lemma Scales(rate: real, k: nat, seconds: real)
    ensures Worth(rate, Together(k, seconds)) == Together(k, Worth(rate, seconds))
  {}

  /** For every rate, every number of goroutines and every whole number of seconds there is a run that admits
      exactly what RateBound allows. */
  lemma BoundIsMet(rate: nat, k: nat, d: nat, t0: real) returns (ss: seq<Shared>, es: seq<(Event, real)>)
    requires rate > 0 && k > 0 && d > 0
    ensures Run(rate, k, t0, ss, es) && |ss| == 2 * k + 1
    ensures ss[2 * k].bucket.last == t0 + d as real
    ensures ss[2 * k].admitted == rate as real + Worth(rate as real, Together(k, d as real))
  {
    ss := seq(2 * k + 1, i requires 0 <= i < 2 * k + 1 => Stage(rate, k, d, t0, i));
    es := seq(2 * k, i requires 0 <= i < 2 * k => Nth(rate, k, d, t0, i));
    Scales(rate as real, k, d as real);
    assert ss[0] == Fresh(rate, k, t0) by { assert ss[0].gs == seq(k, g => Awake); }
    forall i | 0 <= i < |es| ensures Leads(rate, k, d, t0, i) {
      if i < k { FallsAsleep(rate, k, d, t0, i); } else { WakesUp(rate, k, d, t0, i - k); }
    }
    hide Happens, After, Worth, Together;
    forall i | 0 <= i < |es|
      ensures ss[i].bucket.Valid() && Happens(ss[i], es[i].0, es[i].1) && ss[i + 1] == After(ss[i], es[i].0, es[i].1)
    {
      assert Leads(rate, k, d, t0, i);
    }
  }

  /** The bound of a plain token bucket holds on all runs exactly when nobody shares the limiter. */
  lemma ClassicIff(rate: nat, k: nat, t0: real)
    requires rate > 0 && k > 0
    ensures Classic(rate, k, t0) <==> k == 1
  {
    if k == 1 {
      forall ss: seq<Shared>, es: seq<(Event, real)>, i: nat, t: real
        | Run(rate, k, t0, ss, es) && i < |ss| && ss[i].bucket.last <= t
        ensures WithinRate(rate, t0, ss[i], t)
      {
        RateBound(rate, k, t0, ss, es, i, t);
        TogetherAdds(1, t - t0);
        TogetherAdds(0, t - t0);
      }
    } else {
      var ss, es := BoundIsMet(rate, k, 1, t0);
      assert !WithinRate(rate, t0, ss[2 * k], t0 + 1.0) by { MoreThanOne(rate, k); }
    }
  }

  lemma MoreThanOne(rate: nat, k: nat)
    requires rate > 0 && k > 1
    ensures Worth(rate as real, Together(k, 1.0)) > Worth(rate as real, 1.0)
  {
    assert Together(k, 1.0) == k as real;
    WorthGrows(rate as real, 2.0, k as real);
    assert Worth(rate as real, 2.0) > Worth(rate as real, 1.0);
  }
}
