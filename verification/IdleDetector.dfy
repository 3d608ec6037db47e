/** The conn-timeout plugin: a silent connection is warned about once, and reported for closing later
    (plugins/conn-timeout/plugin.py:30-84). */
module IdleDetector {
  import opened Listing

  type Channel = int
  type Time = real

  /** An entry of `connections`. */
  datatype Info = Info(openTime: Time, lastData: Time, proto: string, addr: string)

  /** The plugin's two dictionaries. */
  datatype Tables = Tables(connections: map<Channel, Info>, warned: map<Channel, Time>)

  // ---------------------------------------------------------------- the hooks

  function Opened(s: Tables, ch: Channel, proto: string, addr: string, now: Time): Tables {
    Tables(s.connections[ch := Info(now, now, proto, addr)], s.warned - {ch})
  }

  function Closed(s: Tables, ch: Channel): Tables {
    Tables(s.connections - {ch}, s.warned - {ch})
  }

  function Touched(s: Tables, ch: Channel, now: Time): Tables {
    Tables(if ch in s.connections then s.connections[ch := s.connections[ch].(lastData := now)] else s.connections,
           s.warned - {ch})
  }

  /** A check reports the channels warned about at least `timeout` ago ... */
  function Reported(s: Tables, timeout: real, now: Time): set<Channel> {
    set ch | ch in s.connections && ch in s.warned && now - s.warned[ch] >= timeout
  }

  /** ... and warns about those silent for `timeout` and not warned about. */
  function Warned(s: Tables, timeout: real, now: Time): set<Channel> {
    set ch | ch in s.connections && ch !in s.warned && now - s.connections[ch].lastData >= timeout
  }

  function Checked(s: Tables, timeout: real, now: Time): Tables {
    s.(warned := (s.warned - Reported(s, timeout, now)) + map ch | ch in Warned(s, timeout, now) :: now)
  }

  /** Which warnings a check adds, keeps and takes away. */
  lemma CheckIsExact(s: Tables, timeout: real, now: Time)
    ensures forall ch :: ch in Reported(s, timeout, now) <==>
              ch in s.connections && ch in s.warned && now - s.warned[ch] >= timeout
    ensures var w := Checked(s, timeout, now).warned;
            forall ch ::
              && (ch in w && ch !in s.warned <==>
                    ch in s.connections && ch !in s.warned && now - s.connections[ch].lastData >= timeout)
              && (ch in w ==> w[ch] == if ch in s.warned then s.warned[ch] else now)
              && (ch in s.warned ==> (ch in w <==> ch !in Reported(s, timeout, now)))
  {}

  ghost predicate SameEntry(m: map<Channel, Time>, n: map<Channel, Time>, ch: Channel) {
    (ch in m <==> ch in n) && (ch in m ==> m[ch] == n[ch])
  }

  lemma SameMap(m: map<Channel, Time>, n: map<Channel, Time>)
    requires forall ch :: SameEntry(m, n, ch)
    ensures m == n
  {
    forall ch ensures ch in m <==> ch in n { assert SameEntry(m, n, ch); }
    forall ch | ch in m ensures m[ch] == n[ch] { assert SameEntry(m, n, ch); }
  }

  class Plugin {
    const timeoutSeconds: real
    var connections: map<Channel, Info>
    var warned: map<Channel, Time>

    constructor (timeout: real)
      ensures timeoutSeconds == timeout && Contents() == Tables(map[], map[])
    {
      timeoutSeconds := timeout;
      connections, warned := map[], map[];
    }

    function Contents(): Tables
      reads this
    {
      Tables(connections, warned)
    }

    method OnOpen(ch: Channel, proto: string, addr: string, now: Time)
      modifies this
      ensures Contents() == Opened(old(Contents()), ch, proto, addr, now)
      ensures connections == old(connections)[ch := Info(now, now, proto, addr)] && ch !in warned
    {
      connections := connections[ch := Info(now, now, proto, addr)];
      warned := warned - {ch};
    }

    method OnClose(ch: Channel)
      modifies this
      ensures Contents() == Closed(old(Contents()), ch)
      ensures ch !in connections && ch !in warned
      ensures forall k :: k in old(connections) && k != ch ==> k in connections && connections[k] == old(connections)[k]
    {
      if ch in connections { connections := connections - {ch}; } else { assert connections - {ch} == connections; }
      if ch in warned { warned := warned - {ch}; } else { assert warned - {ch} == warned; }
    }

    method OnData(ch: Channel, now: Time)
      modifies this
      ensures Contents() == Touched(old(Contents()), ch, now)
      ensures connections.Keys == old(connections.Keys) && (ch in connections ==> connections[ch].lastData == now)
      ensures ch !in warned
    {
      if ch in connections { connections := connections[ch := connections[ch].(lastData := now)]; }
      if ch in warned { warned := warned - {ch}; } else { assert warned - {ch} == warned; }
    }

    /** The loop runs over a list of the entries; the outcome does not depend on its order. */
    method CheckAll(now: Time) returns (toClose: seq<Channel>)
      modifies this
      ensures Contents() == Checked(old(Contents()), timeoutSeconds, now)
      ensures forall ch :: ch in toClose <==> ch in Reported(old(Contents()), timeoutSeconds, now)
      ensures Distinct(toClose)
    {
      ghost var s := Contents();
      ghost var w := Checked(s, timeoutSeconds, now).warned;
      var items := ListOf(connections.Keys);
      toClose := [];
      for i := 0 to |items|
        invariant connections == s.connections
        invariant forall ch :: SameEntry(warned, if ch in items[..i] then w else s.warned, ch)
        invariant forall ch :: ch in toClose <==> ch in items[..i] && ch in Reported(s, timeoutSeconds, now)
        invariant Distinct(toClose)
      {
        var ch := items[i];
        assert items[..i + 1] == items[..i] + [ch];
        assert ch !in items[..i];
        var idle := now - connections[ch].lastData;
        if ch in warned {
          if now - warned[ch] >= timeoutSeconds {
            toClose := toClose + [ch];
            warned := warned - {ch};
          }
        } else if idle >= timeoutSeconds {
          warned := warned[ch := now];
        }
      }
      assert items[..|items|] == items;
      forall ch ensures SameEntry(warned, w, ch) {
        assert SameEntry(warned, if ch in items[..|items|] then w else s.warned, ch);
      }
      SameMap(warned, w);
    }

    /** The channels warned about for the timeout are reported and their warnings taken back; those silent for it are
        warned about. */
    method OnCheck(now: Time) returns (toClose: seq<Channel>)
      modifies this
      ensures Contents() == Checked(old(Contents()), timeoutSeconds, now)
      ensures forall ch :: ch in toClose <==> ch in Reported(old(Contents()), timeoutSeconds, now)
      ensures Distinct(toClose) && connections == old(connections)
      ensures forall ch :: ch in toClose <==>
                ch in connections && ch in old(warned) && now - old(warned)[ch] >= timeoutSeconds
      ensures forall ch ::
                && (ch in warned && ch !in old(warned) <==>
                      ch in connections && ch !in old(warned) && now - connections[ch].lastData >= timeoutSeconds)
                && (ch in warned ==> warned[ch] == if ch in old(warned) then old(warned)[ch] else now)
                && (ch in old(warned) ==> (ch in warned <==> ch !in toClose))
    {
      ghost var s := Contents();
      toClose := CheckAll(now);
      CheckIsExact(s, timeoutSeconds, now);
    }
  }

  // ---------------------------------------------------------------- runs

  datatype Event = Open(ch: Channel, proto: string, addr: string) | Close(ch: Channel) | Data(ch: Channel) | Check

  function After(s: Tables, timeout: real, e: Event, now: Time): Tables {
    match e
    case Open(ch, proto, addr) => Opened(s, ch, proto, addr, now)
    case Close(ch) => Closed(s, ch)
    case Data(ch) => Touched(s, ch, now)
    case Check => Checked(s, timeout, now)
  }

  /** A run: event `i` happens at `ts[i]`, on a clock that does not go back, and leads from `ss[i]` to `ss[i + 1]`. */
  ghost predicate Run(timeout: real, ss: seq<Tables>, es: seq<Event>, ts: seq<Time>) {
    && |ss| == |es| + 1 && |ts| == |es|
    && ss[0] == Tables(map[], map[])
    && (forall i :: 0 <= i < |es| ==> ss[i + 1] == After(ss[i], timeout, es[i], ts[i]))
    && (forall i, j :: 0 <= i <= j < |ts| ==> ts[i] <= ts[j])
  }

  /** Only open channels are warned about, and only after `timeout` of silence. */
  ghost predicate Inv(s: Tables, timeout: real) {
    && s.warned.Keys <= s.connections.Keys
    && forall ch :: ch in s.warned ==> s.warned[ch] - s.connections[ch].lastData >= timeout
  }

  lemma {:induction false} RunInv(timeout: real, ss: seq<Tables>, es: seq<Event>, ts: seq<Time>, i: nat)
    requires Run(timeout, ss, es, ts) && i < |ss|
    ensures Inv(ss[i], timeout)
  {
    if i > 0 {
      RunInv(timeout, ss, es, ts, i - 1);
      assert ss[i - 1 + 1] == After(ss[i - 1], timeout, es[i - 1], ts[i - 1]);
    }
  }

  predicate Sounds(e: Event, ch: Channel) { (e.Open? || e.Data?) && e.ch == ch }

  /** `lastData` is as late as every packet of the channel, and the channel was opened. */
  lemma {:induction false} LastDataIsLast(timeout: real, ss: seq<Tables>, es: seq<Event>, ts: seq<Time>,
      i: nat, ch: Channel)
    requires Run(timeout, ss, es, ts) && i < |ss| && ch in ss[i].connections
    ensures forall j :: 0 <= j < i && Sounds(es[j], ch) ==> ts[j] <= ss[i].connections[ch].lastData
    ensures exists j :: 0 <= j < i && Sounds(es[j], ch) && ts[j] == ss[i].connections[ch].lastData
  {
    var k := i - 1;
    assert i > 0;
    assert ss[k + 1] == After(ss[k], timeout, es[k], ts[k]);
    if Sounds(es[k], ch) {
      assert ts[k] == ss[i].connections[ch].lastData;
    } else {
      LastDataIsLast(timeout, ss, es, ts, k, ch);
    }
  }

  predicate Opens(e: Event, ch: Channel) { e.Open? && e.ch == ch }

  predicate Closes(e: Event, ch: Channel) { e.Close? && e.ch == ch }

  /** Event `j` opens the channel, and it is not closed before event `i`. */
  ghost predicate OpenFrom(es: seq<Event>, j: int, i: nat, ch: Channel) {
    0 <= j < i <= |es| && Opens(es[j], ch) && forall k :: j < k < i ==> !Closes(es[k], ch)
  }

  lemma OpenFromGrows(es: seq<Event>, i: nat, ch: Channel)
    requires i < |es|
    ensures Opens(es[i], ch) ==> OpenFrom(es, i, i + 1, ch)
    ensures forall j :: OpenFrom(es, j, i, ch) && !Closes(es[i], ch) ==> OpenFrom(es, j, i + 1, ch)
    ensures forall j :: OpenFrom(es, j, i + 1, ch) && !Opens(es[i], ch) ==> OpenFrom(es, j, i, ch) && !Closes(es[i], ch)
  {
    forall j | OpenFrom(es, j, i + 1, ch) && !Opens(es[i], ch) ensures OpenFrom(es, j, i, ch) && !Closes(es[i], ch) {
      assert j != i;
    }
  }

  /** A channel is tracked exactly while it is open: some event opened it and none closed it since. */
  lemma {:induction false} TrackedIff(timeout: real, ss: seq<Tables>, es: seq<Event>, ts: seq<Time>,
      i: nat, ch: Channel)
    requires Run(timeout, ss, es, ts) && i < |ss|
    ensures ch in ss[i].connections <==> exists j :: OpenFrom(es, j, i, ch)
  {
    if i > 0 {
      var k := i - 1;
      TrackedIff(timeout, ss, es, ts, k, ch);
      assert ss[k + 1] == After(ss[k], timeout, es[k], ts[k]);
      OpenFromGrows(es, k, ch);
      if Opens(es[k], ch) {
        assert OpenFrom(es, k, i, ch);
      } else if Closes(es[k], ch) {
        assert forall j :: OpenFrom(es, j, i, ch) ==> OpenFrom(es, j, k + 1, ch);
      } else {
        assert forall j :: OpenFrom(es, j, i, ch) <==> OpenFrom(es, j, k, ch);
      }
    }
  }

  /** What is kept of a tracked channel comes from the event that opened it last: when, and its protocol and address. */
  lemma {:induction false} TrackedSince(timeout: real, ss: seq<Tables>, es: seq<Event>, ts: seq<Time>,
      i: nat, ch: Channel) returns (j: nat)
    requires Run(timeout, ss, es, ts) && i < |ss| && ch in ss[i].connections
    ensures OpenFrom(es, j, i, ch) && forall k :: j < k < i ==> !Opens(es[k], ch)
    ensures var info := ss[i].connections[ch];
            info.openTime == ts[j] && info.proto == es[j].proto && info.addr == es[j].addr && ts[j] <= info.lastData
  {
    var k := i - 1;
    assert i > 0;
    assert ss[k + 1] == After(ss[k], timeout, es[k], ts[k]);
    if Opens(es[k], ch) {
      j := k;
    } else {
      j := TrackedSince(timeout, ss, es, ts, k, ch);
      assert ts[j] <= ts[k];
    }
  }

  /** No channel is reported unless it was opened, not closed since, and had been silent for twice the timeout. */
  lemma ReportMeansSilence(timeout: real, ss: seq<Tables>, es: seq<Event>, ts: seq<Time>, i: nat, ch: Channel)
    requires Run(timeout, ss, es, ts) && i < |es| && es[i].Check? && ch in Reported(ss[i], timeout, ts[i])
    ensures exists j :: OpenFrom(es, j, i, ch)
    ensures forall j :: 0 <= j < i && Sounds(es[j], ch) ==> ts[i] - ts[j] >= 2.0 * timeout
  {
    TrackedIff(timeout, ss, es, ts, i, ch);
    RunInv(timeout, ss, es, ts, i);
    LastDataIsLast(timeout, ss, es, ts, i, ch);
  }

  lemma {:induction false} WarnedAfterReport(timeout: real, ss: seq<Tables>, es: seq<Event>, ts: seq<Time>,
      i: nat, k: nat, ch: Channel)
    requires Run(timeout, ss, es, ts) && i < k < |ss| && es[i].Check? && ch in Reported(ss[i], timeout, ts[i])
    ensures ch in ss[k].warned ==> ss[k].warned[ch] >= ts[i]
  {
    var m := k - 1;
    assert ss[m + 1] == After(ss[m], timeout, es[m], ts[m]);
    if i < m { WarnedAfterReport(timeout, ss, es, ts, i, m, ch); }
  }

  /** Two reports of a channel are at least the timeout apart, whatever happens in between. */
  lemma ReportsAreApart(timeout: real, ss: seq<Tables>, es: seq<Event>, ts: seq<Time>, i: nat, j: nat, ch: Channel)
    requires Run(timeout, ss, es, ts) && i < j < |es| && es[i].Check? && es[j].Check?
    requires ch in Reported(ss[i], timeout, ts[i]) && ch in Reported(ss[j], timeout, ts[j])
    ensures ts[j] - ts[i] >= timeout
  {
    WarnedAfterReport(timeout, ss, es, ts, i, j, ch);
  }

  // ---------------------------------------------------------------- how soon a silent channel is reported

  /** When the last check before event `i` took place; `start` if there was none. */
  function LastCheck(es: seq<Event>, ts: seq<Time>, start: Time, i: nat): Time
    requires i <= |es| == |ts|
  {
    if i == 0 then start else if es[i - 1].Check? then ts[i - 1] else LastCheck(es, ts, start, i - 1)
  }

  lemma {:induction false} LastCheckPast(es: seq<Event>, ts: seq<Time>, start: Time, i: nat)
    requires i < |es| == |ts| && start <= ts[0] && forall a, b :: 0 <= a <= b < |ts| ==> ts[a] <= ts[b]
    ensures LastCheck(es, ts, start, i) <= ts[i]
  {
    if i == 0 {
    } else { LastCheckPast(es, ts, start, i - 1); }
  }

  /** The channel is heard of at event `a` and not again before event `n`. */
  ghost predicate SilentFrom(s: Tables, es: seq<Event>, a: nat, n: nat, ch: Channel)
    requires n <= |es|
  {
    && a < n
    && (es[a].Open? || (es[a].Data? && ch in s.connections)) && es[a].ch == ch
    && forall k :: a < k < n ==> es[k].Check? || es[k].ch != ch
  }

  /** Every event comes at most `p` after the last check before it. */
  ghost predicate CheckedEvery(p: real, es: seq<Event>, ts: seq<Time>, start: Time) {
    && |es| == |ts|
    && (|ts| > 0 ==> start <= ts[0])
    && forall k :: 0 <= k < |es| ==> ts[k] - LastCheck(es, ts, start, k) <= p
  }

  function Max(x: real, y: real): real { if x < y then y else x }

  /** Not reported yet: still unwarned and the checks so far were too early, or warned in time. */
  predicate Pending(s: Tables, ch: Channel, last: Time, checked: Time, timeout: real, p: real) {
    && ch in s.connections && s.connections[ch].lastData == last
    && var m := Max(timeout, 0.0);
    if ch in s.warned then s.warned[ch] <= last + m + p && checked <= s.warned[ch] + m else checked <= last + m
  }

  /** Check `j` lies between events `a` and `n`, no later than `limit`, and reports the channel. */
  ghost predicate ReportAt(timeout: real, ss: seq<Tables>, es: seq<Event>, ts: seq<Time>, a: nat, n: nat, ch: Channel,
      j: nat, limit: Time)
    requires |ss| == |es| + 1 && |ts| == |es| && n <= |es|
  {
    a < j < n && es[j].Check? && ch in Reported(ss[j], timeout, ts[j]) && ts[j] <= limit
  }

  lemma PendingAtFirst(s: Tables, e: Event, now: Time, ch: Channel, checked: Time, timeout: real, p: real)
    requires (e.Open? || (e.Data? && ch in s.connections)) && e.ch == ch && checked <= now
    ensures Pending(After(s, timeout, e, now), ch, now, checked, timeout, p)
  {}

  lemma PendingStep(s: Tables, e: Event, now: Time, ch: Channel, last: Time, checked: Time, timeout: real, p: real)
    requires Pending(s, ch, last, checked, timeout, p) && checked <= now <= checked + p
    requires e.Check? || e.ch != ch
    ensures e.Check? && ch in Reported(s, timeout, now) ==> now <= last + 2.0 * Max(timeout, 0.0) + 2.0 * p
    ensures (e.Check? && ch in Reported(s, timeout, now))
            || Pending(After(s, timeout, e, now), ch, last, if e.Check? then now else checked, timeout, p)
  {}

  lemma Timely(timeout: real, ss: seq<Tables>, es: seq<Event>, ts: seq<Time>, start: Time, p: real, k: nat)
    requires Run(timeout, ss, es, ts) && CheckedEvery(p, es, ts, start) && k < |es|
    ensures ss[k + 1] == After(ss[k], timeout, es[k], ts[k])
    ensures LastCheck(es, ts, start, k) <= ts[k] <= LastCheck(es, ts, start, k) + p
    ensures LastCheck(es, ts, start, k + 1) == if es[k].Check? then ts[k] else LastCheck(es, ts, start, k)
  {
    LastCheckPast(es, ts, start, k);
  }

  lemma SilentSoFar(s: Tables, es: seq<Event>, a: nat, k: nat, ch: Channel)
    requires a <= k < |es| && SilentFrom(s, es, a, k + 1, ch)
    ensures a == k ==> (es[a].Open? || (es[a].Data? && ch in s.connections)) && es[a].ch == ch
    ensures a < k ==> SilentFrom(s, es, a, k, ch) && (es[k].Check? || es[k].ch != ch)
  {}

  lemma ReportGrows(timeout: real, ss: seq<Tables>, es: seq<Event>, ts: seq<Time>, a: nat, n: nat, ch: Channel,
      j: nat, limit: Time)
    requires |ss| == |es| + 1 && |ts| == |es| && n < |es|
    ensures ReportAt(timeout, ss, es, ts, a, n, ch, j, limit) ==> ReportAt(timeout, ss, es, ts, a, n + 1, ch, j, limit)
    ensures a < n && es[n].Check? && ch in Reported(ss[n], timeout, ts[n]) && ts[n] <= limit
            ==> ReportAt(timeout, ss, es, ts, a, n + 1, ch, n, limit)
  {}

  lemma SilentOn(timeout: real, ss: seq<Tables>, es: seq<Event>, ts: seq<Time>, start: Time, p: real,
      a: nat, k: nat, ch: Channel, limit: Time, j: nat) returns (j': nat)
    requires Run(timeout, ss, es, ts) && CheckedEvery(p, es, ts, start)
    requires a < k < |es| && (es[k].Check? || es[k].ch != ch)
    requires limit == ts[a] + 2.0 * Max(timeout, 0.0) + 2.0 * p
    requires ReportAt(timeout, ss, es, ts, a, k, ch, j, limit)
             || Pending(ss[k], ch, ts[a], LastCheck(es, ts, start, k), timeout, p)
    ensures ReportAt(timeout, ss, es, ts, a, k + 1, ch, j', limit)
            || Pending(ss[k + 1], ch, ts[a], LastCheck(es, ts, start, k + 1), timeout, p)
  {
    hide CheckedEvery, Pending, Reported, After, Max, LastCheck, ReportAt;
    j' := j;
    Timely(timeout, ss, es, ts, start, p, k);
    hide Run;
    ReportGrows(timeout, ss, es, ts, a, k, ch, j, limit);
    if !ReportAt(timeout, ss, es, ts, a, k, ch, j, limit) {
      PendingStep(ss[k], es[k], ts[k], ch, ts[a], LastCheck(es, ts, start, k), timeout, p);
      if es[k].Check? && ch in Reported(ss[k], timeout, ts[k]) { j' := k; }
    }
  }

  lemma {:induction false} SilentState(timeout: real, ss: seq<Tables>, es: seq<Event>, ts: seq<Time>, start: Time,
      p: real, a: nat, k: nat, ch: Channel, limit: Time) returns (j: nat)
    requires Run(timeout, ss, es, ts) && CheckedEvery(p, es, ts, start)
    requires a <= k < |es| && SilentFrom(ss[a], es, a, k + 1, ch)
    requires limit == ts[a] + 2.0 * Max(timeout, 0.0) + 2.0 * p
    ensures ReportAt(timeout, ss, es, ts, a, k + 1, ch, j, limit)
            || Pending(ss[k + 1], ch, ts[a], LastCheck(es, ts, start, k + 1), timeout, p)
  {
    hide CheckedEvery, Pending, Reported, After, Max, LastCheck, SilentFrom, ReportAt;
    SilentSoFar(ss[a], es, a, k, ch);
    if k == a {
      j := k;
      Timely(timeout, ss, es, ts, start, p, k);
      PendingAtFirst(ss[k], es[k], ts[k], ch, LastCheck(es, ts, start, k), timeout, p);
    } else {
      j := SilentState(timeout, ss, es, ts, start, p, a, k - 1, ch, limit);
      j := SilentOn(timeout, ss, es, ts, start, p, a, k, ch, limit, j);
    }
  }

  /** With a check at least every `p`, a channel silent beyond twice the timeout and twice `p` has been reported,
      and it was reported within that time. */
  lemma SilenceIsReported(timeout: real, ss: seq<Tables>, es: seq<Event>, ts: seq<Time>, start: Time, p: real,
      a: nat, n: nat, ch: Channel) returns (j: nat)
    requires Run(timeout, ss, es, ts) && CheckedEvery(p, es, ts, start)
    requires a < n < |es| && SilentFrom(ss[a], es, a, n, ch)
    requires ts[n] > ts[a] + 2.0 * Max(timeout, 0.0) + 2.0 * p
    ensures ReportAt(timeout, ss, es, ts, a, n, ch, j, ts[a] + 2.0 * Max(timeout, 0.0) + 2.0 * p)
  {
    j := SilentState(timeout, ss, es, ts, start, p, a, n - 1, ch, ts[a] + 2.0 * Max(timeout, 0.0) + 2.0 * p);
  }
}
