/**
 * The host's process object: `nextID` and `pending` as Call and readLoop change them. Each method is one critical
 * section or one channel operation, and is shown to take exactly the step of PluginHost.
 */
module PluginCalls {
  import opened Options
  import opened PluginSdk
  import opened PluginHost

  /** chan *Response with room for one. */
  class Channel {
    var item: Option<Response>

    constructor ()
      ensures item == None
    {
      item := None;
    }
  }

  ghost predicate ChannelsAgree(channels: map<int, Channel>, buffers: map<int, Option<Response>>)
    reads channels.Values
  {
    && channels.Keys == buffers.Keys
    && (forall id :: id in channels ==> channels[id].item == buffers[id])
    && (forall i, j :: i in channels && j in channels && i != j ==> channels[i] != channels[j])
  }

  predicate PendingAgrees(pending: map<int, Channel>, channels: map<int, Channel>, ids: set<int>) {
    pending.Keys == ids && forall id :: id in pending ==> id in channels && pending[id] == channels[id]
  }

  predicate Leaves(h: Host, id: int, outcome: Outcome) {
    (outcome == NotSent && At(h, id, Unsent)) || (outcome == TimedOut && At(h, id, Waiting))
  }

  /** The steps that change nextID, the table or a channel; each has its method. */
  predicate TableStep(st: Step) {
    st.Begin? || st.GiveUp? || st.Timeout? || st.Scan? || st.Deliver? || st.Receive?
  }

  lemma OtherStepsLeave(p: Plugin, s: System, st: Step, s': System)
    requires Next(p, s, st, s') && !TableStep(st)
    ensures s'.host.nextID == s.host.nextID && s'.host.pending == s.host.pending && s'.host.buffers == s.host.buffers
  {}

  class PluginProcess {
    ghost const plugin: Plugin
    var nextID: int
    var pending: map<int, Channel>
    ghost var channels: map<int, Channel> // the channel of every call ever made
    ghost var s: System

    ghost predicate Valid()
      reads this, channels.Values
    {
      && nextID == s.host.nextID
      && PendingAgrees(pending, channels, s.host.pending)
      && ChannelsAgree(channels, s.host.buffers)
      && Inv(plugin, s)
    }

    constructor (ghost plugin: Plugin)
      ensures Valid() && this.plugin == plugin && s == Start()
    {
      this.plugin := plugin;
      nextID, pending, channels, s := 0, map[], map[], Start();
      new;
      hide Inv;
      StartInv(plugin);
    }

    /** Any step that is none of the methods below: lines written, handed over or answered, stop, and calls that
        see it. It leaves the object agreeing with the system. */
    ghost method Elsewhere(st: Step, s': System)
      requires Valid() && Next(plugin, s, st, s') && !TableStep(st)
      modifies this`s
      ensures Valid() && s == s'
    {
      OtherStepsLeave(plugin, s, st, s');
      hide Inv, Next, ChannelsAgree;
      InvKept(plugin, s, st, s');
      s := s';
    }

    /** Call up to its first unlock: a new id, and a channel to wait on. */
    method Register(name: string, params: Json) returns (id: int, ch: Channel)
      requires Valid()
      modifies this
      ensures Valid() && DoBegin(old(s), name, params, s)
      ensures id == old(nextID) + 1 && fresh(ch) && pending == old(pending)[id := ch]
      ensures channels == old(channels)[id := ch]
      ensures s.host.calls == old(s.host.calls)[id := CallState(name, params, |old(s.lines)|, Registered)]
    {
      hide Inv;
      ch := new Channel();
      NewId(plugin, s);
      nextID := nextID + 1;
      id := nextID;
      pending := pending[id := ch];
      channels := channels[id := ch];
      Registers(plugin, s, name, params);
      s := Begun(s, name, params);
    }

    /** Call gives up: the request was not sent, or the timer fired. */
    method Forget(id: int, outcome: Outcome)
      requires Valid() && Leaves(s.host, id, outcome)
      modifies this`pending, this`s
      ensures Valid() && if outcome == NotSent then DoGiveUp(old(s), id, s) else DoTimeout(old(s), id, s)
      ensures pending == old(pending) - {id}
      ensures s.host.calls == old(s.host.calls)[id := old(s.host.calls)[id].(pc := Returned(outcome))]
    {
      hide Inv, ChannelsAgree;
      pending := pending - {id};
      Forgets(plugin, s, id, outcome);
      s := Forgotten(s, id, outcome);
    }

    /** readLoop under mu: whoever waits for this id is found and taken off the table; null if nobody does. */
    method Take(resp: Response) returns (ch: Channel?)
      requires Valid() && s.host.reader == Scanning && s.scanned < |s.outputs| && s.outputs[s.scanned] == resp
      modifies this`pending, this`s
      ensures Valid() && DoScan(old(s), s)
      ensures ch != null <==> resp.id in old(pending)
      ensures ch != null ==> ch == old(pending)[resp.id] && s.host.reader == Delivering(resp)
      ensures pending == old(pending) - {resp.id}
    {
      hide Inv, ChannelsAgree;
      ch := null;
      if resp.id in pending {
        ch := pending[resp.id];
        pending := pending - {resp.id};
      } else {
        assert pending - {resp.id} == pending;
      }
      Scans(plugin, s, resp);
      s := Scanned(s, resp);
    }

    /** `ch <- &resp`: there always is room, so the read loop goes straight on. */
    method Put(ch: Channel, resp: Response)
      requires Valid() && s.host.reader == Delivering(resp) && resp.id in channels && ch == channels[resp.id]
      modifies this`s, ch
      ensures old(ch.item) == None
      ensures Valid() && DoDeliver(old(s), s) && ch.item == Some(resp)
    {
      hide Inv;
      HasRoom(plugin, s);
      Delivers(plugin, s, resp);
      ch.item := Some(resp);
      s := Buffered(s, resp);
    }

    /** `<-ch` in Call: what is received answers this very call. */
    method Receive(id: int, ch: Channel) returns (resp: Response)
      requires Valid() && At(s.host, id, Waiting) && id in channels && ch == channels[id] && ch.item.Some?
      modifies this`s, ch
      ensures Valid() && DoReceive(old(s), id, s)
      ensures Some(resp) == old(ch.item) && resp.id == id && ch.item == None
      ensures s.host.calls == old(s.host.calls)[id := old(s.host.calls)[id].(pc := Returned(Replied(resp)))]
    {
      hide Inv;
      OwnReply(plugin, s, id);
      Receives(plugin, s, id);
      resp := ch.item.value;
      ch.item := None;
      s := Received(s, id);
    }
  }

  lemma NewId(p: Plugin, s: System)
    requires Inv(p, s)
    ensures s.host.nextID + 1 !in s.host.buffers && s.host.nextID + 1 !in s.host.pending
  {}

  lemma Registers(p: Plugin, s: System, name: string, params: Json)
    requires Inv(p, s)
    ensures Inv(p, Begun(s, name, params))
  {
    hide Inv;
    InvKept(p, s, Begin(name, params), Begun(s, name, params));
  }

  lemma Forgets(p: Plugin, s: System, id: int, outcome: Outcome)
    requires Inv(p, s)
    requires Leaves(s.host, id, outcome)
    ensures Inv(p, Forgotten(s, id, outcome))
  {
    hide Inv;
    InvKept(p, s, if outcome == NotSent then GiveUp(id) else Timeout(id), Forgotten(s, id, outcome));
  }

  lemma Scans(p: Plugin, s: System, resp: Response)
    requires Inv(p, s) && s.host.reader == Scanning && s.scanned < |s.outputs| && s.outputs[s.scanned] == resp
    ensures Inv(p, Scanned(s, resp))
  {
    hide Inv;
    InvKept(p, s, Scan, Scanned(s, resp));
  }

  lemma HasRoom(p: Plugin, s: System)
    requires Inv(p, s) && s.host.reader.Delivering?
    ensures Room(s.host, s.host.reader.resp.id)
  {}

  lemma Delivers(p: Plugin, s: System, resp: Response)
    requires Inv(p, s) && s.host.reader == Delivering(resp) && Room(s.host, resp.id)
    ensures Inv(p, Buffered(s, resp))
  {
    hide Inv;
    InvKept(p, s, Deliver, Buffered(s, resp));
  }

  lemma OwnReply(p: Plugin, s: System, id: int)
    requires Inv(p, s) && id in s.host.buffers && s.host.buffers[id].Some?
    ensures s.host.buffers[id].value.id == id
  {}

  lemma Receives(p: Plugin, s: System, id: int)
    requires Inv(p, s) && At(s.host, id, Waiting) && id in s.host.buffers && s.host.buffers[id].Some?
    ensures Inv(p, Received(s, id))
  {
    hide Inv;
    InvKept(p, s, Step.Receive(id), Received(s, id));
  }
}
