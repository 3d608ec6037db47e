/** How long a UDP session lives: packets refresh it, a tick of the cleanup drops it once it has been idle too long
    (signal-server/main.go:840-884, 926-949). */
module UdpSessions {
  import opened RelayTypes

  type Time = real

  const IDLE_LIMIT: Time := 120.0

  datatype Session = Session(channelID: Id, localPort: int, lastActive: Time)

  type Sessions = map<Key, Session>

  predicate Expired(s: Session, now: Time) { now - s.lastActive > IDLE_LIMIT }

  /** What a packet from `key` makes of the table; `admitted` is the limiter's answer, asked only for a new session. */
  function Refreshed(m: Sessions, key: Key, admitted: bool, id: Id, localPort: int, now: Time): Sessions {
    if key in m then m[key := m[key].(lastActive := now)]
    else if admitted then m[key := Session(id, localPort, now)]
    else m
  }

  /** What a tick of the cleanup leaves. */
  function Swept(m: Sessions, now: Time): Sessions { map key | key in m && !Expired(m[key], now) :: m[key] }

  function WithoutChannel(m: Sessions, id: Id): Sessions { map key | key in m && m[key].channelID != id :: m[key] }

  // ---------------------------------------------------------------- runs

  datatype Event = Packet(key: Key, admitted: bool, id: Id, localPort: int) | CloseFrame(id: Id) | Tick

  function After(m: Sessions, e: Event, now: Time): Sessions {
    match e
    case Packet(key, admitted, id, localPort) => Refreshed(m, key, admitted, id, localPort, now)
    case CloseFrame(id) => WithoutChannel(m, id)
    case Tick => Swept(m, now)
  }

  ghost predicate Run(ms: seq<Sessions>, es: seq<Event>, ts: seq<Time>) {
    && |ms| == |es| + 1 && |ts| == |es|
    && ms[0] == map[]
    && (forall i :: 0 <= i < |es| ==> ms[i + 1] == After(ms[i], es[i], ts[i]))
    && (forall i, j :: 0 <= i <= j < |ts| ==> ts[i] <= ts[j])
  }

  predicate From(e: Event, key: Key) { e.Packet? && e.key == key }

  /** `lastActive` is the time of the last packet from the address. */
  lemma {:induction false} LastActiveIsLast(ms: seq<Sessions>, es: seq<Event>, ts: seq<Time>, i: nat, key: Key)
    returns (j: nat)
    requires Run(ms, es, ts) && i < |ms| && key in ms[i]
    ensures j < i && From(es[j], key) && ts[j] == ms[i][key].lastActive
    ensures forall k :: j < k < i ==> !From(es[k], key)
    ensures forall k :: 0 <= k < i && From(es[k], key) ==> ts[k] <= ts[j]
  {
    assert i > 0;
    j := i - 1;
    assert ms[j + 1] == After(ms[j], es[j], ts[j]);
    if !From(es[j], key) { j := LastActiveIsLast(ms, es, ts, j, key); }
  }

  /** A tick drops a session only if no packet came from its address within the last 120 seconds. */
  lemma OnlyIdleSessionsAreDropped(ms: seq<Sessions>, es: seq<Event>, ts: seq<Time>, i: nat, key: Key)
    requires Run(ms, es, ts) && i < |es| && es[i].Tick? && key in ms[i] && key !in ms[i + 1]
    ensures forall j :: 0 <= j < i && From(es[j], key) ==> ts[i] - ts[j] > IDLE_LIMIT
  {
    assert ms[i + 1] == After(ms[i], es[i], ts[i]);
    var j := LastActiveIsLast(ms, es, ts, i, key);
  }

  /** When the last tick before event `i` came; `start` if there was none. */
  function LastTick(es: seq<Event>, ts: seq<Time>, start: Time, i: nat): Time
    requires i <= |es| == |ts|
  {
    if i == 0 then start else if es[i - 1].Tick? then ts[i - 1] else LastTick(es, ts, start, i - 1)
  }

  /** Every event comes at most `p` after the last tick before it. */
  ghost predicate TickedEvery(p: Time, es: seq<Event>, ts: seq<Time>, start: Time) {
    && |es| == |ts|
    && (forall k :: 0 <= k < |es| ==> start <= ts[k])
    && forall k :: 0 <= k < |es| ==> ts[k] - LastTick(es, ts, start, k) <= p
  }

  /** Whatever session survives a tick had not been idle for more than 120 seconds then. */
  lemma {:induction false} TicksLeaveOnlyFresh(ms: seq<Sessions>, es: seq<Event>, ts: seq<Time>, start: Time,
      i: nat, key: Key)
    requires Run(ms, es, ts) && i < |ms| && key in ms[i] && forall k :: 0 <= k < |ts| ==> start <= ts[k]
    ensures LastTick(es, ts, start, i) <= ms[i][key].lastActive + IDLE_LIMIT
    ensures i < |es| ==> LastTick(es, ts, start, i) <= ts[i]
  {
    assert i > 0;
    var k := i - 1;
    assert ms[k + 1] == After(ms[k], es[k], ts[k]);
    LastTickPast(ms, es, ts, start, k);
    if !From(es[k], key) {
      TicksLeaveOnlyFresh(ms, es, ts, start, k, key);
    }
  }

  lemma {:induction false} LastTickPast(ms: seq<Sessions>, es: seq<Event>, ts: seq<Time>, start: Time, i: nat)
    requires Run(ms, es, ts) && i < |es| && forall k :: 0 <= k < |ts| ==> start <= ts[k]
    ensures LastTick(es, ts, start, i) <= ts[i]
  {
    if i > 0 { LastTickPast(ms, es, ts, start, i - 1); }
  }

  /** With a tick at least every `p`, no session outlives the last packet from its address, `j`, by more than
      120 seconds and `p`. */
  lemma IdleSessionsEnd(ms: seq<Sessions>, es: seq<Event>, ts: seq<Time>, start: Time, p: Time, i: nat, key: Key)
    returns (j: nat)
    requires Run(ms, es, ts) && TickedEvery(p, es, ts, start)
    requires i < |es| && key in ms[i]
    ensures j < i && From(es[j], key) && forall k :: j < k < i ==> !From(es[k], key)
    ensures ts[i] <= ts[j] + IDLE_LIMIT + p
  {
    j := LastActiveIsLast(ms, es, ts, i, key);
    TicksLeaveOnlyFresh(ms, es, ts, start, i, key);
  }
}
