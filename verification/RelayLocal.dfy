/**
 * The life of one channel: each lemma is one move of one goroutine, as seen by the channel it concerns,
 * and says that the move keeps the channel's invariant. `v` is the channel before, `v'` after.
 */
module RelayLocal {
  import opened RelayTypes
  import opened RelayInvariant

  // ---------------------------------------------------------------- accept goroutine

  lemma Numbering(v: View, v': View)
    requires Local(v) && v.s.acc.Unseen? && !v.s.udp
    requires v' == v.(s := v.s.(acc := Numbered), ext := FRESH)
    ensures Local(v')
  {}

  lemma Inserting(v: View, v': View)
    requires Local(v) && v.s.acc.Numbered?
    requires v' == v.(s := v.s.(acc := Inserted, tbl := true))
    ensures Local(v')
  {}

  lemma Announcing(v: View, v': View)
    requires Local(v) && v.s.acc.Inserted? && !v.d.broken
    requires v' == v.(s := v.s.(acc := Announced, pipe := Piping), d := v.d.(newL := true, newQ := true))
    ensures Local(v')
  {}

  lemma NotAnnounced(v: View, v': View)
    requires Local(v) && v.s.acc.Inserted?
    requires v' == v.(s := v.s.(acc := SendFailed), d := v.d.(broken := true))
    ensures Local(v')
  {}

  lemma Dropping(v: View, v': View)
    requires Local(v) && v.s.acc.SendFailed?
    requires v' == v.(s := v.s.(acc := Dropped, tbl := false))
    ensures Local(v')
  {}

  lemma Returning(v: View, v': View)
    requires Local(v) && v.s.acc.Dropped?
    requires v' == v.(s := v.s.(acc := Returned), ext := v.ext.(open := false))
    ensures Local(v')
  {}

  // ---------------------------------------------------------------- pipeExternalToClient

  lemma Reading(v: View, v': View, chunk: Bytes)
    requires Local(v) && v.s.pipe.Piping? && v.ext.open
    requires v' == v.(s := v.s.(pipe := Got(chunk)), ext := v.ext.(input := v.ext.input + chunk))
    ensures Local(v')
  {
    assert InFlightDown(v') == InFlightDown(v) + chunk;
  }

  lemma WritingShape(v: View, v': View)
    requires Shape(v) && v.s.pipe.Got?
    requires v' == v.(s := v.s.(pipe := Piping), d := v.d.(dataQ := true, flat := v.d.flat + v.s.pipe.chunk))
    ensures Shape(v')
  {}

  lemma WritingBytes(v: View, v': View)
    requires Carries(v) && v.s.pipe.Got?
    requires v' == v.(s := v.s.(pipe := Piping), d := v.d.(dataQ := true, flat := v.d.flat + v.s.pipe.chunk))
    ensures Carries(v')
  {
    assert InFlightDown(v') == InFlightDown(v);
    assert ClientLive(v') == ClientLive(v) && InFlightUp(v') == InFlightUp(v);
    hide InFlightDown, InFlightUp, ClientLive;
  }

  lemma Writing(v: View, v': View)
    requires Local(v) && v.s.pipe.Got?
    requires v' == v.(s := v.s.(pipe := Piping), d := v.d.(dataQ := true, flat := v.d.flat + v.s.pipe.chunk))
    ensures Local(v')
  {
    WritingShape(v, v');
    WritingBytes(v, v');
  }

  lemma NotWritten(v: View, v': View)
    requires Local(v) && v.s.pipe.Got?
    requires v' == v.(s := v.s.(pipe := Cleanup), d := v.d.(broken := true))
    ensures Local(v')
  {}

  lemma Ending(v: View, v': View)
    requires Local(v) && v.s.pipe.Piping?
    requires v' == v.(s := v.s.(pipe := OweClose))
    ensures Local(v')
  {}

  lemma Closing(v: View, v': View)
    requires Local(v) && v.s.pipe.OweClose?
    requires v' == v.(s := v.s.(pipe := Cleanup), d := v.d.(closeL := true, closeQ := true))
    ensures Local(v')
  {}

  lemma NotClosed(v: View, v': View)
    requires Local(v) && v.s.pipe.OweClose?
    requires v' == v.(s := v.s.(pipe := Cleanup), d := v.d.(broken := true))
    ensures Local(v')
  {}

  lemma Removing(v: View, v': View)
    requires Local(v) && v.s.pipe.Cleanup? && v.s.tbl
    requires v' == v.(s := v.s.(pipe := Releasing, tbl := false), ext := v.ext.(open := false))
    ensures Local(v')
  {}

  lemma Gone(v: View, v': View)
    requires Local(v) && v.s.pipe.Cleanup? && !v.s.tbl
    requires v' == v.(s := v.s.(pipe := Exited), ext := v.ext.(open := false))
    ensures Local(v')
  {}

  lemma Freeing(v: View, v': View)
    requires Local(v) && v.s.pipe.Releasing?
    requires v' == v.(s := v.s.(pipe := Exited))
    ensures Local(v')
  {}

  // ---------------------------------------------------------------- relayReadLoop

  lemma HearClose(v: View, v': View, id: Id)
    requires Local(v) && v.u.closeQ && v.s.srd.SIdle?
    requires v' == v.(s := v.s.(srd := SClose(id)), u := v.u.(closeQ := false))
    ensures Local(v')
  {}

  lemma HearData(v: View, v': View, id: Id, d: Bytes, rest: Bytes, more: bool)
    requires Local(v) && v.u.dataQ && v.s.srd.SIdle? && v.u.flat == d + rest && (!more ==> rest == [])
    requires v' == v.(s := v.s.(srd := SData(id, d)), u := v.u.(dataQ := more, flat := rest))
    ensures Local(v')
  {
    assert InFlightUp(v') == InFlightUp(v);
  }

  lemma Unlink(v: View, v': View)
    requires Local(v) && v.s.srd.SClose? && v.s.tbl && !v.s.udp
    requires v' == v.(s := v.s.(tbl := false, srd := SRelease(v.s.srd.id)), ext := v.ext.(open := false))
    ensures Local(v')
  {}

  lemma Miss(v: View, v': View)
    requires Local(v) && v.s.srd.SClose? && (!v.s.tbl || v.s.udp)
    requires v' == v.(s := v.s.(srd := SUdp(v.s.srd.id)))
    ensures Local(v')
  {}

  lemma Unlinked(v: View, v': View)
    requires Local(v) && v.s.srd.SRelease?
    requires v' == v.(s := v.s.(srd := SUdp(v.s.srd.id)))
    ensures Local(v')
  {}

  lemma UnlinkUdp(v: View, v': View)
    requires Local(v) && v.s.srd.SUdp? && v.s.tbl
    requires v' == v.(s := v.s.(tbl := false, srd := SUdpRelease(v.s.srd.id), cleaned := false))
    ensures Local(v')
  {}

  lemma MissUdp(v: View, v': View)
    requires Local(v) && v.s.srd.SUdp? && !v.s.tbl
    requires v' == v.(s := v.s.(srd := SIdle))
    ensures Local(v')
  {}

  lemma UnlinkedUdp(v: View, v': View)
    requires Local(v) && v.s.srd.SUdpRelease?
    requires v' == v.(s := v.s.(srd := SIdle))
    ensures Local(v')
  {}

  lemma Find(v: View, v': View)
    requires Local(v) && v.s.srd.SData? && v.s.tbl && !v.s.udp
    requires v' == v.(s := v.s.(srd := SWrite(v.s.srd.id, v.s.srd.data)))
    ensures Local(v')
  {}

  lemma Lose(v: View, v': View)
    requires Local(v) && v.s.srd.SData? && (!v.s.tbl || v.s.udp)
    requires v' == v.(s := v.s.(srd := SIdle))
    ensures Local(v')
  {}

  lemma Deliver(v: View, v': View)
    requires Local(v) && v.s.srd.SWrite? && v.ext.Usable()
    requires v' == v.(s := v.s.(srd := SIdle), ext := v.ext.(output := v.ext.output + v.s.srd.data))
    ensures Local(v')
  {
    assert InFlightUp(v') == InFlightUp(v);
    assert v'.ext.output <= InFlightUp(v);
  }

  lemma FaultShape(v: View, v': View, n: nat)
    requires Shape(v) && v.s.srd.SWrite? && n <= |v.s.srd.data| && (n > 0 ==> v.ext.Usable())
    requires v' == v.(s := v.s.(srd := SIdle),
                      ext := v.ext.(output := v.ext.output + v.s.srd.data[..n], writable := false))
    ensures Shape(v')
  {}

  lemma FaultBytes(v: View, v': View, n: nat)
    requires Local(v) && v.s.srd.SWrite? && n <= |v.s.srd.data| && (n > 0 ==> v.ext.Usable())
    requires v' == v.(s := v.s.(srd := SIdle),
                      ext := v.ext.(output := v.ext.output + v.s.srd.data[..n], writable := false))
    ensures Carries(v')
  {
    assert v'.ext.output <= InFlightUp(v);
  }

  lemma Fault(v: View, v': View, n: nat)
    requires Local(v) && v.s.srd.SWrite? && n <= |v.s.srd.data| && (n > 0 ==> v.ext.Usable())
    requires v' == v.(s := v.s.(srd := SIdle),
                      ext := v.ext.(output := v.ext.output + v.s.srd.data[..n], writable := false))
    ensures Local(v')
  {
    FaultShape(v, v', n);
    FaultBytes(v, v', n);
  }

  // ---------------------------------------------------------------- udpReadLoop and udpSessionCleanup

  lemma Joining(v: View, v': View)
    requires Local(v) && v.s.acc.Unseen? && !v.s.udp
    requires v' == v.(s := v.s.(udp := true, tbl := true, unsaid := true))
    ensures Local(v')
  {}

  lemma Saying(v: View, v': View)
    requires Local(v) && v.s.unsaid && !v.d.broken
    requires v' == v.(s := v.s.(unsaid := false), d := v.d.(newL := true, newQ := true))
    ensures Local(v')
  {}

  lemma NotSaid(v: View, v': View)
    requires Local(v) && v.s.unsaid
    requires v' == v.(s := v.s.(unsaid := false), d := v.d.(broken := true))
    ensures Local(v')
  {}

  lemma Relaying(v: View, v': View, d: Bytes)
    requires Local(v) && v.s.udp && v.d.newL
    requires v' == v.(d := v.d.(dataQ := true, flat := v.d.flat + d))
    ensures Local(v')
  {}

  lemma Cleaning(v: View, v': View)
    requires Local(v) && v.s.udp && v.s.tbl && !v.s.unsaid && !v.s.cleaned && !v.d.broken
    requires v' == v.(s := v.s.(cleaned := true), d := v.d.(closeL := true, closeQ := true))
    ensures Local(v')
  {}

  lemma NotCleaned(v: View, v': View)
    requires Local(v) && v.s.udp && v.s.tbl && !v.s.unsaid && !v.s.cleaned
    requires v' == v.(s := v.s.(cleaned := true), d := v.d.(broken := true))
    ensures Local(v')
  {}

  lemma Forget(v: View, v': View)
    requires Local(v) && v.s.cleaned
    requires v' == v.(s := v.s.(cleaned := false, tbl := false))
    ensures Local(v')
  {}

  // ---------------------------------------------------------------- client readLoop

  lemma TakeNew(v: View, v': View, id: Id)
    requires Local(v) && v.d.newQ
    requires v' == v.(d := v.d.(newQ := false), c := v.c.(lrd := LDial(id, v.s.udp)))
    ensures Local(v')
  {}

  lemma TakeClose(v: View, v': View, id: Id)
    requires Local(v) && v.d.closeQ && !v.d.newQ && v.c.lrd.LIdle?
    requires v' == v.(d := v.d.(closeQ := false), c := v.c.(lrd := LClose(id)))
    ensures Local(v')
  {}

  lemma TakeData(v: View, v': View, id: Id, d: Bytes, rest: Bytes, more: bool)
    requires Local(v) && v.d.newL && !v.d.newQ && v.d.dataQ && v.c.lrd.LIdle?
    requires v.d.flat == d + rest && (!more ==> rest == [])
    requires v' == v.(d := v.d.(dataQ := more, flat := rest), c := v.c.(lrd := LData(id, d)))
    ensures Local(v')
  {
    assert InFlightDown(v') == InFlightDown(v);
  }

  lemma Dialled(v: View, v': View)
    requires Local(v) && v.c.lrd.LDial?
    requires v' == v.(c := v.c.(chan := v.c.chan || !v.s.udp, uchan := v.c.uchan || v.s.udp,
                                lrd := LInserted(v.c.lrd.id, v.c.lrd.udp)), loc := FRESH)
    ensures Local(v')
  {}

  lemma DialError(v: View, v': View)
    requires Local(v) && v.c.lrd.LDial?
    requires v' == v.(c := v.c.(lrd := LDialFailed(v.c.lrd.id)))
    ensures Local(v')
  {}

  lemma Refuse(v: View, v': View)
    requires Local(v) && v.c.lrd.LDialFailed?
    requires v' == v.(u := v.u.(closeL := true, closeQ := true), c := v.c.(lrd := LIdle))
    ensures Local(v')
  {}

  lemma NotRefused(v: View, v': View)
    requires Local(v) && v.c.lrd.LDialFailed?
    requires v' == v.(u := v.u.(broken := true), c := v.c.(lrd := LIdle))
    ensures Local(v')
  {}

  lemma Count(v: View, v': View)
    requires Local(v) && v.c.lrd.LInserted?
    requires v' == v.(c := v.c.(lrd := LCounted(v.c.lrd.id, v.c.lrd.udp)))
    ensures Local(v')
  {}

  lemma Pipe(v: View, v': View)
    requires Local(v) && v.c.lrd.LCounted?
    requires v' == v.(c := v.c.(lrd := LIdle, lpc := LPiping, ludp := v.c.lrd.udp))
    ensures Local(v')
  {}

  lemma NotPiped(v: View, v': View)
    requires Local(v) && v.c.lrd.LCounted?
    requires v' == v.(u := v.u.(broken := true), c := v.c.(lrd := LIdle))
    ensures Local(v')
  {}

  lemma Cut(v: View, v': View)
    requires Local(v) && v.c.lrd.LClose? && v.c.Has()
    requires v' == v.(c := v.c.(lrd := LIdle, chan := false, uchan := false), loc := v.loc.(open := false))
    ensures Local(v')
  {}

  lemma Ignore(v: View, v': View)
    requires Local(v) && v.c.lrd.LClose? && !v.c.Has()
    requires v' == v.(c := v.c.(lrd := LIdle))
    ensures Local(v')
  {}

  lemma FindLocal(v: View, v': View)
    requires Local(v) && v.c.lrd.LData? && v.c.Has()
    requires v' == v.(c := v.c.(lrd := LWrite(v.c.lrd.id, v.c.lrd.data)))
    ensures Local(v')
  {}

  lemma LoseLocal(v: View, v': View)
    requires Local(v) && v.c.lrd.LData? && !v.c.Has()
    requires v' == v.(c := v.c.(lrd := LIdle))
    ensures Local(v')
  {}

  lemma DeliverLocalShape(v: View, v': View)
    requires Shape(v) && v.c.lrd.LWrite? && v.loc.Usable()
    requires v' == v.(c := v.c.(lrd := LIdle), loc := v.loc.(output := v.loc.output + v.c.lrd.data))
    ensures Shape(v')
  {}

  lemma DeliverLocalBytes(v: View, v': View)
    requires Local(v) && v.c.lrd.LWrite? && v.loc.Usable()
    requires v' == v.(c := v.c.(lrd := LIdle), loc := v.loc.(output := v.loc.output + v.c.lrd.data))
    ensures Carries(v')
  {
    assert InFlightDown(v') == InFlightDown(v);
    assert v'.loc.output <= InFlightDown(v);
  }

  lemma DeliverLocal(v: View, v': View)
    requires Local(v) && v.c.lrd.LWrite? && v.loc.Usable()
    requires v' == v.(c := v.c.(lrd := LIdle), loc := v.loc.(output := v.loc.output + v.c.lrd.data))
    ensures Local(v')
  {
    DeliverLocalShape(v, v');
    DeliverLocalBytes(v, v');
  }

  lemma FaultLocalShape(v: View, v': View, n: nat)
    requires Shape(v) && v.c.lrd.LWrite? && n <= |v.c.lrd.data| && (n > 0 ==> v.loc.Usable())
    requires v' == v.(c := v.c.(lrd := LIdle),
                      loc := v.loc.(output := v.loc.output + v.c.lrd.data[..n], writable := false))
    ensures Shape(v')
  {}

  lemma FaultLocalBytes(v: View, v': View, n: nat)
    requires Local(v) && v.c.lrd.LWrite? && n <= |v.c.lrd.data| && (n > 0 ==> v.loc.Usable())
    requires v' == v.(c := v.c.(lrd := LIdle),
                      loc := v.loc.(output := v.loc.output + v.c.lrd.data[..n], writable := false))
    ensures Carries(v')
  {
    assert v'.loc.output <= InFlightDown(v);
  }

  lemma FaultLocal(v: View, v': View, n: nat)
    requires Local(v) && v.c.lrd.LWrite? && n <= |v.c.lrd.data| && (n > 0 ==> v.loc.Usable())
    requires v' == v.(c := v.c.(lrd := LIdle),
                      loc := v.loc.(output := v.loc.output + v.c.lrd.data[..n], writable := false))
    ensures Local(v')
  {
    FaultLocalShape(v, v', n);
    FaultLocalBytes(v, v', n);
  }

  // ---------------------------------------------------------------- pipeLocalToRelay and pipeUDPFromRelay

  lemma LocalReading(v: View, v': View, chunk: Bytes)
    requires Local(v) && v.c.lpc.LPiping? && v.loc.open
    requires v' == v.(c := v.c.(lpc := LGot(chunk)), loc := v.loc.(input := v.loc.input + chunk))
    ensures Local(v')
  {
    assert InFlightUp(v') == InFlightUp(v) + chunk;
  }

  lemma LocalWriting(v: View, v': View)
    requires Local(v) && v.c.lpc.LGot?
    requires v' == v.(u := v.u.(dataQ := true, flat := v.u.flat + v.c.lpc.chunk), c := v.c.(lpc := LPiping))
    ensures Local(v')
  {
    assert InFlightUp(v') == InFlightUp(v);
  }

  lemma LocalNotWritten(v: View, v': View)
    requires Local(v) && v.c.lpc.LGot?
    requires v' == v.(u := v.u.(broken := true), c := v.c.(lpc := LOweClose))
    ensures Local(v')
  {}

  lemma LocalEnding(v: View, v': View)
    requires Local(v) && v.c.lpc.LPiping?
    requires v' == v.(c := v.c.(lpc := LOweClose))
    ensures Local(v')
  {}

  lemma LocalClosing(v: View, v': View)
    requires Local(v) && v.c.lpc.LOweClose?
    requires v' == v.(u := v.u.(closeL := true, closeQ := true), c := v.c.(lpc := LRemove))
    ensures Local(v')
  {}

  lemma LocalNotClosed(v: View, v': View)
    requires Local(v) && v.c.lpc.LOweClose?
    requires v' == v.(u := v.u.(broken := true), c := v.c.(lpc := LRemove))
    ensures Local(v')
  {}

  lemma LocalRemoving(v: View, v': View)
    requires Local(v) && v.c.lpc.LRemove?
    requires v' == v.(c := v.c.(lpc := LShut, chan := v.c.chan && v.c.ludp, uchan := v.c.uchan && !v.c.ludp))
    ensures Local(v')
  {}

  lemma LocalShutting(v: View, v': View)
    requires Local(v) && v.c.lpc.LShut?
    requires v' == v.(c := v.c.(lpc := LExited), loc := v.loc.(open := false))
    ensures Local(v')
  {}

  // ---------------------------------------------------------------- another channel's write failed

  lemma DownLostShape(v: View, v': View)
    requires Shape(v)
    requires v' == v.(d := v.d.(broken := true))
    ensures Shape(v')
  {}

  lemma DownLostBytes(v: View, v': View)
    requires Local(v)
    requires v' == v.(d := v.d.(broken := true))
    ensures Carries(v')
  {}

  lemma DownLost(v: View, v': View)
    requires Local(v)
    requires v' == v.(d := v.d.(broken := true))
    ensures Local(v')
  {
    DownLostShape(v, v');
    DownLostBytes(v, v');
  }

  lemma UpLostShape(v: View, v': View)
    requires Shape(v)
    requires v' == v.(u := v.u.(broken := true))
    ensures Shape(v')
  {}

  lemma UpLostBytes(v: View, v': View)
    requires Local(v)
    requires v' == v.(u := v.u.(broken := true))
    ensures Carries(v')
  {}

  lemma UpLost(v: View, v': View)
    requires Local(v)
    requires v' == v.(u := v.u.(broken := true))
    ensures Local(v')
  {
    UpLostShape(v, v');
    UpLostBytes(v, v');
  }
}
