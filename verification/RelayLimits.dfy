/** How far the client's connection limit can be exceeded, and a run that does it. */
module RelayLimits {
  import opened Options
  import opened RelayTypes
  import opened RelayMachine
  import opened RelayInvariant
  import opened RelayCounts
  import opened RelayRuns

  /** The tables hold more channels than MaxConns exactly while the cleanup sits between giving a place back
      and deleting its session, the limiter is full, and nobody else is on the way in or out. */
  lemma LimitExceededIff(c: Config, ws: seq<World>, sts: seq<Step>, i: nat)
    requires Sound(c) && Run(c, ws, sts) && i < |ws| && c.maxConns > 0
    ensures var s := ws[i].srv;
            |s.conns| + |s.sessions| > c.maxConns
            <==> s.cleaner.CReleased? && s.current == c.maxConns && NotInserted(s) == 0 && NotReleased(s) == 0
  {
    RunGood(c, ws, sts, i);
  }

  const ONE := Config(Lz4(d => None, d => None), false, false, false, false, 1)

  const STEPS: seq<Step> :=
    [UdpAdmit(7, []), UdpInsert, UdpAnnounce(true), UdpWrite(true), CleanLock, CleanClose(7, true), CleanRelease,
     Admit, Number, Insert(2)]

  /** A datagram from address 7 opens a session ... */
  function Joined(): seq<World> {
    var w0 := Init();
    var w1 := w0.(srv := w0.srv.(current := 1, udpReader := UAdmitted(7, [])));
    var w2 := w1.(next := 1, srv := w1.srv.(sessions := map[7 := 1], udpIds := {1}, udpReader := UInserted(1, [])));
    var w3 := w2.(down := Send(w2.down, New(1, true), true), srv := w2.srv.(udpReader := USend(1, [])));
    var w4 := w3.(down := Send(w3.down, Data(1, []), true), srv := w3.srv.(udpReader := UIdle));
    [w0, w1, w2, w3, w4]
  }

  /** ... which the cleanup finds expired ... */
  function Expired(w4: World): seq<World>
    requires !w4.down.broken
  {
    var w5 := w4.(srv := w4.srv.(cleaner := CHold));
    var w6 := w5.(down := Send(w5.down, Close(1), true), srv := w5.srv.(cleaner := CClosed(7)));
    var w7 := w6.(srv := w6.srv.(current := 0, cleaner := CReleased(7)));
    [w5, w6, w7]
  }

  /** ... and before it is deleted a TCP connection takes its place. */
  function Replaced(w7: World): seq<World> {
    var w8 := w7.(srv := w7.srv.(current := 1, admitted := 1));
    var w9 := w8.(next := 2, ext := map[2 := FRESH], srv := w8.srv.(admitted := 0, accepting := map[2 := Numbered]));
    var w10 := w9.(srv := w9.srv.(conns := {2}, accepting := map[2 := Inserted]));
    [w8, w9, w10]
  }

  lemma SessionOpens()
    ensures Next(ONE, Joined()[0], STEPS[0], Joined()[1]) && Next(ONE, Joined()[1], STEPS[1], Joined()[2])
  {
    hide ClientNext, AcceptNext, PipeNext, ReaderNext, CleanNext;
    assert map[][7 := 1] == map[7 := 1];
  }

  lemma SessionSends()
    ensures Next(ONE, Joined()[2], STEPS[2], Joined()[3]) && Next(ONE, Joined()[3], STEPS[3], Joined()[4])
  {
    hide ClientNext, AcceptNext, PipeNext, ReaderNext, CleanNext;
  }

  lemma JoinedRuns()
    ensures var ws := Joined(); forall i :: 0 <= i < 4 ==> Next(ONE, ws[i], STEPS[i], ws[i + 1])
    ensures var s := Joined()[4].srv;
            s.current == 1 && s.sessions == map[7 := 1] && s.admitted == 0 && s.accepting == map[] && s.conns == {}
            && s.udpReader == UIdle && s.cleaner == CIdle
            && Joined()[4].next == 1 && Joined()[4].ext == map[] && !Joined()[4].down.broken
  {
    hide Next;
    SessionOpens();
    SessionSends();
  }

  lemma SessionIsClosed(w4: World)
    requires w4.srv.cleaner == CIdle && w4.srv.udpReader == UIdle && w4.srv.sessions == map[7 := 1] && !w4.down.broken
    ensures Next(ONE, w4, STEPS[4], Expired(w4)[0]) && Next(ONE, Expired(w4)[0], STEPS[5], Expired(w4)[1])
  {
    hide ClientNext, AcceptNext, PipeNext, ReaderNext, PacketNext;
  }

  lemma SessionIsReleased(w4: World)
    requires w4.srv.current == 1 && !w4.down.broken
    ensures Next(ONE, Expired(w4)[1], STEPS[6], Expired(w4)[2])
  {}

  lemma ExpiredRuns(w4: World)
    requires w4.srv.cleaner == CIdle && w4.srv.udpReader == UIdle && w4.srv.current == 1
    requires w4.srv.sessions == map[7 := 1] && !w4.down.broken
    ensures var ws := [w4] + Expired(w4); forall i :: 0 <= i < 3 ==> Next(ONE, ws[i], STEPS[4 + i], ws[i + 1])
  {
    hide Next;
    SessionIsClosed(w4);
    SessionIsReleased(w4);
  }

  lemma ReplacedRuns(w7: World)
    requires w7.srv.current == 0 && w7.srv.admitted == 0 && w7.next == 1
    requires w7.ext == map[] && w7.srv.accepting == map[] && w7.srv.conns == {}
    ensures var ws := [w7] + Replaced(w7); forall i :: 0 <= i < 3 ==> Next(ONE, ws[i], STEPS[7 + i], ws[i + 1])
  {
    hide ClientNext, PipeNext, ReaderNext, PacketNext, CleanNext;
    var ws := [w7] + Replaced(w7);
    assert Next(ONE, ws[0], STEPS[7], ws[1]);
    assert Next(ONE, ws[1], STEPS[8], ws[2]);
    assert Next(ONE, ws[2], STEPS[9], ws[3]);
  }

  /** With MaxConns == 1 a TCP connection is listed while an expired UDP session still is. */
  lemma LimitExceededRun()
    ensures var w4 := Joined()[4];
            !w4.down.broken
            && var w7 := Expired(w4)[2];
            var ws := Joined() + Expired(w4) + Replaced(w7);
            Sound(ONE) && Run(ONE, ws, STEPS) && |ws[10].srv.conns| + |ws[10].srv.sessions| == 2
  {
    hide Next;
    JoinedRuns();
    var w4 := Joined()[4];
    ExpiredRuns(w4);
    var w7 := Expired(w4)[2];
    ReplacedRuns(w7);
    var ws := Joined() + Expired(w4) + Replaced(w7);
    forall i | 0 <= i < 10 ensures Next(ONE, ws[i], STEPS[i], ws[i + 1]) {
      if i < 4 {
        assert ws[i] == Joined()[i] && ws[i + 1] == Joined()[i + 1];
      } else if i < 7 {
        var es := [w4] + Expired(w4);
        assert ws[i] == es[i - 4] && ws[i + 1] == es[i - 4 + 1] && STEPS[i] == STEPS[4 + (i - 4)];
      } else {
        var rs := [w7] + Replaced(w7);
        assert ws[i] == rs[i - 7] && ws[i + 1] == rs[i - 7 + 1] && STEPS[i] == STEPS[7 + (i - 7)];
      }
    }
  }
}
