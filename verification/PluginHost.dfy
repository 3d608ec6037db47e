/** The host's half of the RPC: concurrent calls, one reader, timeouts, and stop (dynplugin/process.go:100-197). */
module PluginHost {
  import opened Options
  import opened PluginSdk

  datatype Outcome = Replied(resp: Response) | TimedOut | Stopped | NotSent

  datatype CallPc = Registered | Unsent | Waiting | Returned(outcome: Outcome)

  /** A call: what it asks, how many lines had been written when it began, and where it stands. */
  datatype CallState = CallState(name: string, params: Json, since: nat, pc: CallPc)

  datatype Reader = Scanning | Delivering(resp: Response)

  /** `buffers` are the reply channels, each with room for one response. */
  datatype Host = Host(
    nextID: int,
    pending: set<int>,
    calls: map<int, CallState>,
    buffers: map<int, Option<Response>>,
    reader: Reader,
    stopped: bool)

  /** The host, every line it wrote, how many of them the plugin has read, every response the plugin wrote,
      how many of them the host has scanned, and every response put into a channel. */
  datatype System = System(
    host: Host,
    lines: seq<Line>, served: nat,
    outputs: seq<Response>, scanned: nat,
    delivered: seq<Response>)

  /** Either any plugin at all, or one built with the SDK. */
  datatype Plugin = Anything | Sdk(filters: Filters, vars: Json)

  datatype Step =
    | Begin(name: string, params: Json) | Send(id: int, ok: bool) | GiveUp(id: int)
    | Receive(id: int) | Timeout(id: int) | SeeStop(id: int)
    | Notify(name: string, params: Json) | Scan | Deliver | Stop
    | Emit(resp: Response) | Serve

  function Start(): System {
    System(Host(0, {}, map[], map[], Scanning, false), [], 0, [], 0, [])
  }

  predicate At(h: Host, id: int, pc: CallPc) { id in h.calls && h.calls[id].pc == pc }

  function Moved(h: Host, id: int, pc: CallPc): map<int, CallState>
    requires id in h.calls
  {
    h.calls[id := h.calls[id].(pc := pc)]
  }

  // ---------------------------------------------------------------- Call

  function Begun(s: System, name: string, params: Json): System {
    var h, id := s.host, s.host.nextID + 1;
    s.(host := h.(nextID := id, pending := h.pending + {id},
                  calls := h.calls[id := CallState(name, params, |s.lines|, Registered)],
                  buffers := h.buffers[id := None]))
  }

  predicate DoBegin(s: System, name: string, params: Json, s': System) { s' == Begun(s, name, params) }

  /** sendRaw: a whole line, or nothing. */
  predicate DoSend(s: System, id: int, ok: bool, s': System) {
    var h := s.host;
    && At(h, id, Registered)
    && s' == if ok
             then s.(lines := s.lines + [RequestLine(Request(id, h.calls[id].name, h.calls[id].params))],
                     host := h.(calls := Moved(h, id, Waiting)))
             else s.(host := h.(calls := Moved(h, id, Unsent)))
  }

  /** The call leaves the table and returns without a reply. */
  function Forgotten(s: System, id: int, outcome: Outcome): System
    requires id in s.host.calls
  {
    var h := s.host;
    s.(host := h.(pending := h.pending - {id}, calls := Moved(h, id, Returned(outcome))))
  }

  predicate DoGiveUp(s: System, id: int, s': System) {
    At(s.host, id, Unsent) && s' == Forgotten(s, id, NotSent)
  }

  function Received(s: System, id: int): System
    requires id in s.host.calls && id in s.host.buffers && s.host.buffers[id].Some?
  {
    var h := s.host;
    s.(host := h.(buffers := h.buffers[id := None], calls := Moved(h, id, Returned(Replied(h.buffers[id].value)))))
  }

  predicate DoReceive(s: System, id: int, s': System) {
    && At(s.host, id, Waiting)
    && id in s.host.buffers && s.host.buffers[id].Some?
    && s' == Received(s, id)
  }

  predicate DoTimeout(s: System, id: int, s': System) {
    At(s.host, id, Waiting) && s' == Forgotten(s, id, TimedOut)
  }

  /** The stop case of the select leaves the pending entry behind. */
  predicate DoSeeStop(s: System, id: int, s': System) {
    var h := s.host;
    && At(h, id, Waiting)
    && h.stopped
    && s' == s.(host := h.(calls := Moved(h, id, Returned(Stopped))))
  }

  predicate DoNotify(s: System, name: string, params: Json, s': System) {
    s' == s.(lines := s.lines + [RequestLine(Request(0, name, params))])
  }

  predicate DoStop(s: System, s': System) {
    !s.host.stopped && s' == s.(host := s.host.(stopped := true))
  }

  // ---------------------------------------------------------------- readLoop

  /** Under mu: the entry is looked up and deleted before anything is sent. */
  function Scanned(s: System, resp: Response): System {
    var h := s.host;
    s.(scanned := s.scanned + 1,
       host := if resp.id in h.pending then h.(pending := h.pending - {resp.id}, reader := Delivering(resp)) else h)
  }

  predicate DoScan(s: System, s': System) {
    && s.host.reader == Scanning
    && s.scanned < |s.outputs|
    && s' == Scanned(s, s.outputs[s.scanned])
  }

  /** `ch <- &resp` goes through only when the channel has room. */
  predicate Room(h: Host, id: int) { id in h.buffers && h.buffers[id].None? }

  function Buffered(s: System, resp: Response): System {
    s.(delivered := s.delivered + [resp],
       host := s.host.(reader := Scanning, buffers := s.host.buffers[resp.id := Some(resp)]))
  }

  predicate DoDeliver(s: System, s': System) {
    && s.host.reader.Delivering?
    && Room(s.host, s.host.reader.resp.id)
    && s' == Buffered(s, s.host.reader.resp)
  }

  // ---------------------------------------------------------------- the plugin

  predicate DoEmit(p: Plugin, s: System, resp: Response, s': System) {
    p.Anything? && s' == s.(outputs := s.outputs + [resp])
  }

  predicate DoServe(p: Plugin, s: System, s': System) {
    && p.Sdk?
    && s.served < |s.lines|
    && s' == s.(served := s.served + 1, outputs := Replies(p.filters, p.vars, s.lines[..s.served + 1]))
  }

  predicate Next(p: Plugin, s: System, st: Step, s': System) {
    match st
    case Begin(name, params) => DoBegin(s, name, params, s')
    case Send(id, ok) => DoSend(s, id, ok, s')
    case GiveUp(id) => DoGiveUp(s, id, s')
    case Receive(id) => DoReceive(s, id, s')
    case Timeout(id) => DoTimeout(s, id, s')
    case SeeStop(id) => DoSeeStop(s, id, s')
    case Notify(name, params) => DoNotify(s, name, params, s')
    case Scan => DoScan(s, s')
    case Deliver => DoDeliver(s, s')
    case Stop => DoStop(s, s')
    case Emit(resp) => DoEmit(p, s, resp, s')
    case Serve => DoServe(p, s, s')
  }

  // ---------------------------------------------------------------- invariant

  predicate Open(pc: CallPc) { pc.Registered? || pc.Unsent? || pc.Waiting? }

  ghost predicate Delivered(s: System, id: int) { exists i :: 0 <= i < |s.delivered| && s.delivered[i].id == id }

  /** The host's own tables, for any plugin. */
  ghost predicate Tables(s: System) {
    var h := s.host;
    && (forall id :: id in h.calls <==> 1 <= id <= h.nextID)
    && h.buffers.Keys == h.calls.Keys && h.pending <= h.calls.Keys && h.nextID >= 0
    && (forall id :: id in h.pending ==> Open(h.calls[id].pc) || (h.stopped && h.calls[id].pc == Returned(Stopped)))
    && (forall id :: id in h.pending ==> h.buffers[id].None? && !Delivered(s, id))
    && (forall id :: id in h.buffers && h.buffers[id].Some? ==> h.buffers[id].value.id == id && Delivered(s, id))
    && (h.reader.Delivering? ==>
          var id := h.reader.resp.id;
          id in h.calls && id !in h.pending && h.buffers[id].None? && !Delivered(s, id))
    && (forall i :: 0 <= i < |s.delivered| ==> s.delivered[i].id in h.calls)
    && (forall i, j :: 0 <= i < j < |s.delivered| ==> s.delivered[i].id != s.delivered[j].id)
  }

  /** The responses scanned so far. */
  function Read(s: System): seq<Response>
    requires s.scanned <= |s.outputs|
  {
    s.outputs[..s.scanned]
  }

  /** Where delivered and returned responses come from. */
  ghost predicate Sources(s: System) {
    var h := s.host;
    && s.scanned <= |s.outputs|
    && (h.reader.Delivering? ==> h.reader.resp in Read(s))
    && (forall i :: 0 <= i < |s.delivered| ==> s.delivered[i] in Read(s))
    && (forall id :: id in h.buffers && h.buffers[id].Some? ==> h.buffers[id].value in s.delivered)
    && (forall id :: id in h.calls && h.calls[id].pc.Returned? && h.calls[id].pc.outcome.Replied? ==>
          h.calls[id].pc.outcome.resp.id == id && h.calls[id].pc.outcome.resp in s.delivered)
  }

  /** What was written: each call's request at most once, by that call, after it began. */
  ghost predicate Written(s: System) {
    var h := s.host;
    && s.served <= |s.lines|
    && (forall id :: id in h.calls ==> h.calls[id].since <= |s.lines|)
    && (forall i :: 0 <= i < |s.lines| && Asks(s.lines[i]) ==> Asked(h, s.lines[i].req, i))
    && (forall i, j :: 0 <= i < j < |s.lines| && Asks(s.lines[i]) && Asks(s.lines[j])
          ==> s.lines[i].req.id != s.lines[j].req.id)
  }

  predicate Asks(line: Line) { line.RequestLine? && line.req.id != 0 }

  /** The request on line `i` is that of a call which began before the line was written and was sent. */
  predicate Asked(h: Host, req: Request, i: nat) {
    && req.id in h.calls
    && var call := h.calls[req.id];
    && call.name == req.name && call.params == req.params && call.since <= i
    && !call.pc.Registered? && !call.pc.Unsent?
  }

  ghost predicate Plugged(p: Plugin, s: System) {
    p.Sdk? ==> s.served <= |s.lines| && s.outputs == Replies(p.filters, p.vars, s.lines[..s.served])
  }

  ghost predicate Inv(p: Plugin, s: System) {
    Tables(s) && Sources(s) && Written(s) && Plugged(p, s)
  }

  lemma {:induction false} DeliverKeeps(s: System, s': System)
    requires Tables(s) && DoDeliver(s, s')
    ensures Tables(s')
  {
    var id := s.host.reader.resp.id;
    assert s'.delivered[|s.delivered|].id == id;
    forall k ensures Delivered(s', k) <==> Delivered(s, k) || k == id {
      if Delivered(s, k) {
        var i :| 0 <= i < |s.delivered| && s.delivered[i].id == k;
        assert s'.delivered[i].id == k;
      }
    }
  }

  lemma CallsKeep(p: Plugin, s: System, st: Step, s': System)
    requires Tables(s) && Next(p, s, st, s')
    requires st.Begin? || st.Send? || st.GiveUp? || st.Receive? || st.Timeout? || st.SeeStop?
    ensures Tables(s')
  {
    assert s'.delivered == s.delivered;
    assert forall k :: Delivered(s', k) <==> Delivered(s, k);
  }

  lemma TablesKept(p: Plugin, s: System, st: Step, s': System)
    requires Tables(s) && Next(p, s, st, s')
    ensures Tables(s')
  {
    if st.Deliver? {
      hide Tables;
      DeliverKeeps(s, s');
    } else if st.Begin? || st.Send? || st.GiveUp? || st.Receive? || st.Timeout? || st.SeeStop? {
      hide Tables, Next;
      CallsKeep(p, s, st, s');
    } else {
      assert s'.delivered == s.delivered;
      assert forall k :: Delivered(s', k) <==> Delivered(s, k);
    }
  }

  lemma ServedMore(filters: Filters, vars: Json, lines: seq<Line>, n: nat)
    requires n < |lines|
    ensures Replies(filters, vars, lines[..n]) <= Replies(filters, vars, lines[..n + 1])
  {
    assert lines[..n + 1][..n] == lines[..n];
  }

  lemma ReadGrows(p: Plugin, s: System, st: Step, s': System)
    requires s.scanned <= |s.outputs| && Plugged(p, s) && Next(p, s, st, s')
    ensures s'.scanned <= |s'.outputs|
    ensures forall r :: r in Read(s) ==> r in Read(s')
    ensures st.Scan? ==> s.outputs[s.scanned] in Read(s')
  {
    if st.Serve? { ServedMore(p.filters, p.vars, s.lines, s.served); }
    hide Replies;
    assert s.outputs <= s'.outputs && s.scanned <= s'.scanned;
    assert Read(s) == Read(s')[..s.scanned];
    if st.Scan? { assert Read(s')[s.scanned] == s.outputs[s.scanned]; }
  }

  lemma ScannedSoFar(s: System)
    requires Sources(s)
    ensures s.scanned <= |s.outputs|
  {}

  /** What the origin of the responses rests on. */
  lemma TablesHold(s: System)
    requires Tables(s)
    ensures s.host.nextID + 1 !in s.host.calls
    ensures forall id :: id in s.host.buffers && s.host.buffers[id].Some? ==> s.host.buffers[id].value.id == id
  {}

  lemma SourcesKept(p: Plugin, s: System, st: Step, s': System)
    requires Inv(p, s) && Next(p, s, st, s')
    ensures Sources(s')
  {
    hide Replies, Written, Plugged, Read, Delivered, Tables;
    ScannedSoFar(s);
    ReadGrows(p, s, st, s');
    TablesHold(s);
  }

  lemma WrittenKept(p: Plugin, s: System, st: Step, s': System)
    requires Tables(s) && Written(s) && Next(p, s, st, s')
    ensures Written(s')
  {
    hide Tables, Replies;
    if st.Send? && st.ok {
      SendWrites(s, st.id, s');
    } else if st.Begin? {
      BeginWrites(s, st.name, st.params, s');
    }
  }

  /** A call's request is written once: before, the call had sent nothing. */
  lemma SendWrites(s: System, id: int, s': System)
    requires Tables(s) && Written(s) && DoSend(s, id, true, s')
    ensures Written(s')
  {
    hide Delivered;
    var n := |s.lines|;
    assert s'.lines[n].req.id == id && id != 0;
    assert forall i :: 0 <= i < n ==> s'.lines[i] == s.lines[i];
    forall i | 0 <= i < n && Asks(s.lines[i]) ensures s.lines[i].req.id != id && Asked(s'.host, s.lines[i].req, i) {
      assert Asked(s.host, s.lines[i].req, i);
    }
  }

  lemma BeginWrites(s: System, name: string, params: Json, s': System)
    requires Tables(s) && Written(s) && DoBegin(s, name, params, s')
    ensures Written(s')
  {
    hide Delivered;
    assert s.host.nextID + 1 !in s.host.calls;
    forall i | 0 <= i < |s.lines| && Asks(s.lines[i]) ensures Asked(s'.host, s.lines[i].req, i) {
      assert Asked(s.host, s.lines[i].req, i);
    }
  }

  lemma PluggedKept(p: Plugin, s: System, st: Step, s': System)
    requires Written(s) && Plugged(p, s) && Next(p, s, st, s')
    ensures Plugged(p, s')
  {
    assert s.served <= |s.lines| && s.lines <= s'.lines;
    if !st.Serve? { assert s'.lines[..s.served] == s.lines[..s.served]; }
  }

  lemma InvKept(p: Plugin, s: System, st: Step, s': System)
    requires Inv(p, s) && Next(p, s, st, s')
    ensures Inv(p, s')
  {
    hide Tables, Sources, Written, Plugged, Next;
    TablesKept(p, s, st, s');
    SourcesKept(p, s, st, s');
    WrittenKept(p, s, st, s');
    PluggedKept(p, s, st, s');
  }

  ghost predicate Run(p: Plugin, ss: seq<System>, sts: seq<Step>) {
    && |ss| == |sts| + 1
    && ss[0] == Start()
    && forall i :: 0 <= i < |sts| ==> Next(p, ss[i], sts[i], ss[i + 1])
  }

  lemma {:induction false} RunInv(p: Plugin, ss: seq<System>, sts: seq<Step>, i: nat)
    requires Run(p, ss, sts) && i < |ss|
    ensures Inv(p, ss[i])
  {
    hide Inv, Next;
    if i == 0 {
      StartInv(p);
    } else {
      RunInv(p, ss, sts, i - 1);
      assert Next(p, ss[i - 1], sts[i - 1], ss[i - 1 + 1]);
      InvKept(p, ss[i - 1], sts[i - 1], ss[i]);
    }
  }

  lemma StartInv(p: Plugin)
    ensures Inv(p, Start())
  {}

  // ---------------------------------------------------------------- for any plugin

  /** A call that succeeds returns a response that carries its own id and that the plugin really wrote. */
  lemma ReplyCarriesId(p: Plugin, ss: seq<System>, sts: seq<Step>, i: nat, id: int)
    requires Run(p, ss, sts) && i < |ss|
    requires id in ss[i].host.calls
    requires ss[i].host.calls[id].pc.Returned? && ss[i].host.calls[id].pc.outcome.Replied?
    ensures var resp := ss[i].host.calls[id].pc.outcome.resp; resp.id == id && resp in ss[i].outputs
  {
    RunInv(p, ss, sts, i);
    var s := ss[i];
    var resp := s.host.calls[id].pc.outcome.resp;
    assert resp in Read(s);
  }

  /** No id is delivered twice, whatever the plugin repeats. */
  lemma DeliveredOnce(p: Plugin, ss: seq<System>, sts: seq<Step>, i: nat, a: nat, b: nat)
    requires Run(p, ss, sts) && i < |ss| && a < b < |ss[i].delivered|
    ensures ss[i].delivered[a].id != ss[i].delivered[b].id
  {
    RunInv(p, ss, sts, i);
  }

  /** Pending entries belong to calls made and, before Stop, not yet returned. */
  lemma PendingIsOpen(p: Plugin, ss: seq<System>, sts: seq<Step>, i: nat, id: int)
    requires Run(p, ss, sts) && i < |ss| && id in ss[i].host.pending
    ensures 1 <= id <= ss[i].host.nextID && id in ss[i].host.calls
    ensures Open(ss[i].host.calls[id].pc) || (ss[i].host.stopped && ss[i].host.calls[id].pc == Returned(Stopped))
  {
    RunInv(p, ss, sts, i);
  }

  /** The read loop never blocks: a response taken off the table always finds room in its channel. */
  lemma ReaderNeverBlocks(p: Plugin, ss: seq<System>, sts: seq<Step>, i: nat)
    requires Run(p, ss, sts) && i < |ss| && ss[i].host.reader.Delivering?
    ensures Room(ss[i].host, ss[i].host.reader.resp.id)
  {
    RunInv(p, ss, sts, i);
  }

  // ---------------------------------------------------------------- read off the steps

  /** The calls begun in the first `i` steps: what the n-th asks. */
  function Begins(sts: seq<Step>, i: nat): seq<(string, Json)>
    requires i <= |sts|
  {
    if i == 0 then []
    else Begins(sts, i - 1) + if sts[i - 1].Begin? then [(sts[i - 1].name, sts[i - 1].params)] else []
  }

  /** The line that step `i` writes: a call's request under the call's number, or a notification without one. */
  function LineOf(sts: seq<Step>, i: nat): seq<Line>
    requires i < |sts|
  {
    match sts[i]
    case Send(id, ok) =>
      var begun := Begins(sts, i);
      if ok && 1 <= id <= |begun| then [RequestLine(Request(id, begun[id - 1].0, begun[id - 1].1))] else []
    case Notify(name, params) => [RequestLine(Request(0, name, params))]
    case _ => []
  }

  function Lines(sts: seq<Step>, i: nat): seq<Line>
    requires i <= |sts|
  {
    if i == 0 then [] else Lines(sts, i - 1) + LineOf(sts, i - 1)
  }

  /** How many lines the plugin has read. */
  function Served(sts: seq<Step>, i: nat): nat
    requires i <= |sts|
  {
    if i == 0 then 0 else Served(sts, i - 1) + if sts[i - 1].Serve? then 1 else 0
  }

  /** Whether Stop has been called. */
  predicate Halted(sts: seq<Step>, i: nat)
    requires i <= |sts|
  {
    i > 0 && (sts[i - 1].Stop? || Halted(sts, i - 1))
  }

  /** The step that began call `id`. */
  function BeginStep(sts: seq<Step>, i: nat, id: int): nat
    requires i <= |sts|
  {
    if i == 0 || (sts[i - 1].Begin? && |Begins(sts, i)| == id) then if i == 0 then 0 else i - 1
    else BeginStep(sts, i - 1, id)
  }

  ghost predicate Recorded(s: System, sts: seq<Step>, i: nat)
    requires i <= |sts|
  {
    && s.lines == Lines(sts, i) && s.served == Served(sts, i) && s.host.stopped == Halted(sts, i)
    && s.host.nextID == |Begins(sts, i)|
    && forall id :: id in s.host.calls ==> IsBegun(s.host.calls[id], id, sts, i)
  }

  /** The `id`-th Begin step asked what the call asks, when `since` lines had been written. */
  predicate IsBegun(call: CallState, id: int, sts: seq<Step>, i: nat)
    requires i <= |sts|
  {
    var b := BeginStep(sts, i, id);
    && 1 <= id <= |Begins(sts, i)| && Begins(sts, i)[id - 1] == (call.name, call.params)
    && b < i && sts[b] == Begin(call.name, call.params)
    && |Begins(sts, b)| == id - 1 && call.since == |Lines(sts, b)|
  }

  lemma StillBegun(call: CallState, call': CallState, id: int, sts: seq<Step>, i: nat)
    requires i < |sts| && IsBegun(call, id, sts, i)
    requires call'.name == call.name && call'.params == call.params && call'.since == call.since
    ensures IsBegun(call', id, sts, i + 1)
  {}

  lemma JustBegun(sts: seq<Step>, i: nat)
    requires i < |sts| && sts[i].Begin?
    ensures var call := CallState(sts[i].name, sts[i].params, |Lines(sts, i)|, Registered);
            IsBegun(call, |Begins(sts, i)| + 1, sts, i + 1)
  {}

  /** What a step does to the calls, and to what has been written. */
  lemma CallsMove(p: Plugin, s: System, st: Step, s': System)
    requires Next(p, s, st, s')
    ensures if st.Begin?
            then s'.host.nextID == s.host.nextID + 1
                 && s'.host.calls
                    == s.host.calls[s'.host.nextID := CallState(st.name, st.params, |s.lines|, Registered)]
            else s'.host.nextID == s.host.nextID && s'.host.calls.Keys == s.host.calls.Keys
                 && forall id :: id in s.host.calls ==>
                      s'.host.calls[id].name == s.host.calls[id].name
                      && s'.host.calls[id].params == s.host.calls[id].params
                      && s'.host.calls[id].since == s.host.calls[id].since
    ensures s'.served == s.served + if st.Serve? then 1 else 0
    ensures s'.host.stopped == (s.host.stopped || st.Stop?)
  {
    hide Replies;
  }

  lemma LinesMove(p: Plugin, s: System, sts: seq<Step>, i: nat, s': System)
    requires i < |sts| && Next(p, s, sts[i], s') && s.lines == Lines(sts, i)
    requires forall id :: id in s.host.calls ==> IsBegun(s.host.calls[id], id, sts, i)
    ensures s'.lines == Lines(sts, i + 1)
  {
    hide Replies, BeginStep;
    var st := sts[i];
    if st.Send? && st.ok { assert IsBegun(s.host.calls[st.id], st.id, sts, i); }
  }

  lemma RecordedNext(p: Plugin, s: System, sts: seq<Step>, i: nat, s': System)
    requires i < |sts| && Next(p, s, sts[i], s') && Recorded(s, sts, i)
    ensures Recorded(s', sts, i + 1)
  {
    hide Next, IsBegun, Lines;
    LinesMove(p, s, sts, i, s');
    CallsMove(p, s, sts[i], s');
    forall id | id in s'.host.calls ensures IsBegun(s'.host.calls[id], id, sts, i + 1) {
      if sts[i].Begin? && id == s'.host.nextID {
        JustBegun(sts, i);
      } else {
        StillBegun(s.host.calls[id], s'.host.calls[id], id, sts, i);
      }
    }
  }

  /** Every line the host wrote is the request of the call it is numbered for, with that call's own name and
      parameters, or a notification; numbers count the calls in the order they began. */
  lemma {:induction false} LinesAreWritten(p: Plugin, ss: seq<System>, sts: seq<Step>, i: nat)
    requires Run(p, ss, sts) && i < |ss|
    ensures Recorded(ss[i], sts, i)
  {
    hide Next, Recorded;
    if i == 0 {
      NothingRecorded(sts);
    } else {
      LinesAreWritten(p, ss, sts, i - 1);
      assert Next(p, ss[i - 1], sts[i - 1], ss[i - 1 + 1]);
      RecordedNext(p, ss[i - 1], sts, i - 1, ss[i]);
    }
  }

  lemma NothingRecorded(sts: seq<Step>)
    ensures Recorded(Start(), sts, 0)
  {}

  /** How a call returns is what its last step was: a response taken from its channel, a timer, Stop seen, or a
      request that could not be written. */
  lemma {:induction false} ReturnsAreSteps(p: Plugin, ss: seq<System>, sts: seq<Step>, i: nat, id: int)
    returns (j: nat)
    requires Run(p, ss, sts) && i < |ss| && id in ss[i].host.calls && ss[i].host.calls[id].pc.Returned?
    ensures j < i <= |sts|
    ensures match ss[i].host.calls[id].pc.outcome
            case Replied(resp) =>
              sts[j] == Step.Receive(id) && id in ss[j].host.buffers && ss[j].host.buffers[id] == Some(resp)
            case TimedOut => sts[j] == Timeout(id)
            case Stopped => sts[j] == SeeStop(id) && ss[j].host.stopped
            case NotSent => sts[j] == GiveUp(id)
  {
    hide Replies;
    var k := i - 1;
    assert i > 0 && Next(p, ss[k], sts[k], ss[k + 1]);
    if At(ss[k].host, id, ss[i].host.calls[id].pc) {
      j := ReturnsAreSteps(p, ss, sts, k, id);
    } else {
      j := k;
    }
  }

  // ---------------------------------------------------------------- with a plugin built on the SDK

  /** A call that succeeds returns what the handler registered under its name yields for its own parameters, on the
      variables as the sequential execution of the lines before its own leaves them; and its line was written after
      the call began and was served before it returned. */
  lemma CallsRefineSequential(p: Plugin, ss: seq<System>, sts: seq<Step>, i: nat, id: int)
    returns (b: nat, n: nat, trace: seq<Json>)
    requires p.Sdk? && Run(p, ss, sts) && i < |ss|
    requires id in ss[i].host.calls
    requires ss[i].host.calls[id].pc.Returned? && ss[i].host.calls[id].pc.outcome.Replied?
    ensures b < i <= |sts| && sts[b].Begin? && |Begins(sts, b)| == id - 1
    ensures |Lines(sts, b)| <= n < Served(sts, i) && n < |Lines(sts, i)|
    ensures Lines(sts, i)[n] == RequestLine(Request(id, sts[b].name, sts[b].params))
    ensures Chain(p.filters, trace, Lines(sts, i)[..n]) && trace[0] == p.vars
    ensures var resp := ss[i].host.calls[id].pc.outcome.resp;
            resp.id == id
            && if sts[b].name in p.filters
               then resp.error == "" && resp.result == p.filters[sts[b].name](trace[n], sts[b].params).1
               else resp.error == "unknown method: " + sts[b].name && resp.result == ""
  {
    var s := ss[i];
    var resp := s.host.calls[id].pc.outcome.resp;
    n := SequentialReply(p, ss, sts, i, id);
    hide Inv, Next, Replies;
    LinesAreWritten(p, ss, sts, i);
    assert IsBegun(s.host.calls[id], id, sts, i);
    b := BeginStep(sts, i, id);
    trace := SequentialExecution(p.filters, p.vars, s.lines[..n]);
  }

  lemma SequentialReply(p: Plugin, ss: seq<System>, sts: seq<Step>, i: nat, id: int) returns (n: nat)
    requires p.Sdk? && Run(p, ss, sts) && i < |ss|
    requires id in ss[i].host.calls
    requires ss[i].host.calls[id].pc.Returned? && ss[i].host.calls[id].pc.outcome.Replied?
    ensures var s, call := ss[i], ss[i].host.calls[id];
            && call.since <= n < s.served
            && n < |s.lines| && s.lines[n] == RequestLine(Request(id, call.name, call.params))
            && ReplyTo(p.filters, VarsAfter(p.filters, p.vars, s.lines[..n]), s.lines[n].req, call.pc.outcome.resp)
  {
    RunInv(p, ss, sts, i);
    ReplyCarriesId(p, ss, sts, i, id);
    var s := ss[i];
    var resp := s.host.calls[id].pc.outcome.resp;
    n := RepliesExplained(p.filters, p.vars, s.lines[..s.served], resp);
    assert s.lines[..s.served][..n] == s.lines[..n];
    assert s.lines[..s.served][n] == s.lines[n];
  }
}
