/** Many clients on one server: their links draw ids from one counter. */
module RelayHub {
  import opened RelayTypes
  import opened RelayMachine
  import opened RelayInvariant
  import opened RelayRuns
  import opened RelayStreams

  /** Clients by client id, each with its own settings `cs(id)`; the counter names clients as well as channels. */
  datatype Hub = Hub(next: Id, links: map<Id, World>)

  /** Every id a link has given to a TCP channel or a UDP session. */
  function Owned(w: World): set<Id> { w.srv.accepting.Keys + w.srv.udpIds }

  /** One link steps; when it draws an id, the others see the counter move. */
  ghost predicate LinkStep(cs: Id -> Config, h: Hub, cid: Id, st: Step, h': Hub) {
    && cid in h.links && cid in h'.links && h'.links.Keys == h.links.Keys
    && !st.OtherDraw?
    && Next(cs(cid), h.links[cid], st, h'.links[cid])
    && h'.next == h'.links[cid].next
    && forall d :: d in h.links && d != cid ==> h'.links[d] == h.links[d].(next := h'.next)
  }

  /** A client registers: it takes an id, and its link starts empty. */
  ghost predicate Register(h: Hub, h': Hub) {
    && h.next + 1 < WRAP
    && h'.next == h.next + 1
    && h'.links.Keys == h.links.Keys + {h'.next}
    && h'.links[h'.next] == Init().(next := h'.next)
    && forall d :: d in h.links && d != h'.next ==> h'.links[d] == h.links[d].(next := h'.next)
  }

  ghost predicate AllSound(cs: Id -> Config) { forall d :: Sound(cs(d)) }

  ghost predicate HubGood(cs: Id -> Config, h: Hub) {
    && h.next < WRAP
    && (forall d :: d in h.links ==> 0 < d <= h.next && h.links[d].next == h.next && Good(cs(d), h.links[d]))
    && (forall d, k :: d in h.links && k in Owned(h.links[d]) ==> k !in h.links)
    && (forall d, e :: d in h.links && e in h.links && d != e ==> Owned(h.links[d]) !! Owned(h.links[e]))
  }

  /** A link owns only ids that were drawn, and gains none but the one it draws. */
  lemma OwnedGrows(c: Config, w: World, st: Step, w': World)
    requires Good(c, w) && Next(c, w, st, w') && !st.OtherDraw?
    ensures w'.next == w.next ==> Owned(w') == Owned(w)
    ensures w'.next != w.next ==> w'.next == w.next + 1 && w'.next < WRAP && Owned(w') <= Owned(w) + {w'.next}
  {
    hide Good, AcceptNext, PipeNext, ReaderNext, PacketNext, CleanNext, ClientNext;
    if ClientStep(st) {
      StepMoves(c, w, st, w');
    } else if AcceptStep(st) {
      AcceptOwns(c, w, st, w');
    } else if PipeStep(st) {
      PipeLeaves(c, w, st, w');
    } else if ReaderStep(st) {
      ReaderLeaves(c, w, st, w');
    } else if PacketStep(st) {
      PacketOwns(c, w, st, w');
    } else {
      CleanLeaves(c, w, st, w');
    }
  }

  lemma AcceptOwns(c: Config, w: World, st: Step, w': World)
    requires AcceptNext(c, w, st, w')
    ensures w'.next == w.next ==> Owned(w') == Owned(w)
    ensures w'.next != w.next ==> w'.next == w.next + 1 && w'.next < WRAP && Owned(w') <= Owned(w) + {w'.next}
  {
    hide Send, Shut;
  }

  lemma PacketOwns(c: Config, w: World, st: Step, w': World)
    requires PacketNext(c, w, st, w')
    ensures w'.next == w.next ==> Owned(w') == Owned(w)
    ensures w'.next != w.next ==> w'.next == w.next + 1 && w'.next < WRAP && Owned(w') <= Owned(w) + {w'.next}
  {
    hide Send, Pack, UdpFree;
  }

  /** Seeing the counter move does not disturb a link. */
  lemma DrawKeeps(c: Config, w: World, n: Id)
    requires Good(c, w) && w.next <= n < WRAP
    ensures Good(c, w.(next := n))
  {
    var w' := w.(next := n);
    assert Channels(c, w') by {
      hide Local;
      forall k ensures Local(ViewOf(c.lz4, w', k)) {
        assert ViewOf(c.lz4, w', k) == ViewOf(c.lz4, w, k);
      }
    }
  }

  lemma LinkStepKeeps(cs: Id -> Config, h: Hub, cid: Id, st: Step, h': Hub)
    requires AllSound(cs) && HubGood(cs, h) && LinkStep(cs, h, cid, st, h')
    ensures HubGood(cs, h')
  {
    hide Good, Next, Owned;
    var w, w' := h.links[cid], h'.links[cid];
    GoodKept(cs(cid), w, st, w');
    OwnedGrows(cs(cid), w, st, w');
    forall d | d in h.links && d != cid ensures Good(cs(d), h'.links[d]) && Owned(h'.links[d]) == Owned(h.links[d]) {
      DrawKeeps(cs(d), h.links[d], h'.next);
      SameOwned(h.links[d], h'.next);
    }
    forall d | d in h.links ensures forall k :: k in Owned(h.links[d]) ==> k <= h.next {
      OwnedDrawn(cs(d), h.links[d]);
    }
  }

  lemma SameOwned(w: World, n: Id)
    ensures Owned(w.(next := n)) == Owned(w)
  {}

  lemma OwnedDrawn(c: Config, w: World)
    requires Good(c, w)
    ensures forall k :: k in Owned(w) ==> 0 < k <= w.next
  {}

  lemma RegisteredLink(cs: Id -> Config, h: Hub, h': Hub)
    requires Register(h, h')
    ensures h'.links[h'.next].next == h'.next && Good(cs(h'.next), h'.links[h'.next]) && Owned(h'.links[h'.next]) == {}
  {
    hide Good;
    InitGood(cs(h'.next));
    DrawKeeps(cs(h'.next), Init(), h'.next);
  }

  lemma OldLink(cs: Id -> Config, h: Hub, h': Hub, d: Id)
    requires HubGood(cs, h) && Register(h, h') && d in h.links
    ensures d in h'.links && 0 < d < h'.next && h'.links[d].next == h'.next
    ensures Good(cs(d), h'.links[d]) && Owned(h'.links[d]) == Owned(h.links[d])
    ensures forall k :: k in Owned(h.links[d]) ==> 0 < k < h'.next && k !in h.links
  {
    hide Good;
    DrawKeeps(cs(d), h.links[d], h'.next);
    OwnedDrawn(cs(d), h.links[d]);
  }

  lemma RegisterKeeps(cs: Id -> Config, h: Hub, h': Hub)
    requires HubGood(cs, h) && Register(h, h')
    ensures HubGood(cs, h')
  {
    hide Good, Owned;
    var n, links, links' := h'.next, h.links, h'.links;
    assert links'.Keys == links.Keys + {n} && n < WRAP;
    RegisteredLink(cs, h, h');
    hide Register;
    forall d | d in links'
      ensures 0 < d <= n && links'[d].next == n && Good(cs(d), links'[d])
      ensures forall k :: k in Owned(links'[d]) ==> k !in links'
    {
      if d != n { OldLink(cs, h, h', d); }
    }
    forall d, e | d in links' && e in links' && d != e ensures Owned(links'[d]) !! Owned(links'[e]) {
      if d != n { OldLink(cs, h, h', d); }
      if e != n { OldLink(cs, h, h', e); }
    }
  }

  datatype HubStep = Join | Move(cid: Id, st: Step)

  ghost predicate HubNext(cs: Id -> Config, h: Hub, st: HubStep, h': Hub) {
    match st
    case Join => Register(h, h')
    case Move(cid, s) => LinkStep(cs, h, cid, s, h')
  }

  /** A run of the whole server, from before its first client. */
  ghost predicate HubRun(cs: Id -> Config, hs: seq<Hub>, sts: seq<HubStep>) {
    && |hs| == |sts| + 1
    && hs[0] == Hub(0, map[])
    && forall i :: 0 <= i < |sts| ==> HubNext(cs, hs[i], sts[i], hs[i + 1])
  }

  lemma {:induction false} HubRunGood(cs: Id -> Config, hs: seq<Hub>, sts: seq<HubStep>, i: nat)
    requires AllSound(cs) && HubRun(cs, hs, sts) && i < |hs|
    ensures HubGood(cs, hs[i])
  {
    if i > 0 {
      HubRunGood(cs, hs, sts, i - 1);
      hide HubGood, Register, LinkStep, AllSound;
      var h, h' := hs[i - 1], hs[i - 1 + 1];
      assert HubNext(cs, h, sts[i - 1], h');
      match sts[i - 1]
      case Join => RegisterKeeps(cs, h, h');
      case Move(cid, s) => LinkStepKeeps(cs, h, cid, s, h');
    }
  }

  /** Ids are pairwise distinct across all clients, their TCP channels and their UDP sessions. */
  lemma IdsAreGlobal(cs: Id -> Config, hs: seq<Hub>, sts: seq<HubStep>, i: nat, d: Id, e: Id)
    requires AllSound(cs) && HubRun(cs, hs, sts) && i < |hs| && d in hs[i].links && e in hs[i].links && d != e
    ensures Owned(hs[i].links[d]) !! Owned(hs[i].links[e])
    ensures Owned(hs[i].links[d]) !! hs[i].links.Keys
    ensures hs[i].links[d].srv.conns !! hs[i].links[d].srv.udpIds
  {
    HubRunGood(cs, hs, sts, i);
  }

  // ---------------------------------------------------------------- the counter itself

  /** nextCID, a 32-bit word. */
  class Counter {
    var value: Id

    constructor ()
      ensures value == 0
    {
      value := 0;
    }

    /** atomic.AddUint32(&nextCID, 1). */
    method Draw() returns (id: Id)
      requires value < WRAP
      modifies this
      ensures value < WRAP && id == value == After(old(value), 1)
    {
      value := if value + 1 == WRAP then 0 else value + 1;
      id := value;
    }
  }

  /** The counter after a number of draws. */
  function After(value: Id, draws: nat): Id { if draws == 0 then value else (After(value, draws - 1) + 1) % WRAP }

  lemma {:induction false} AfterIs(value: Id, draws: nat)
    requires value < WRAP
    ensures After(value, draws) == (value + draws) % WRAP
  {
    if draws > 0 {
      AfterIs(value, draws - 1);
      Bumped(value + draws - 1);
    }
  }

  lemma Bumped(n: nat)
    ensures (n % WRAP + 1) % WRAP == (n + 1) % WRAP
  {}

  /** While the link may draw, its counter is this one: the model stops exactly where the word would wrap. */
  lemma CanDrawIff(w: World)
    requires w.next < WRAP
    ensures CanDraw(w) <==> After(w.next, 1) == w.next + 1
  {
    AfterIs(w.next, 1);
  }

  /** From any value, two draws give the same id exactly when a multiple of 2^32 draws lies between them. */
  lemma DrawsCollideIff(value: Id, i: nat, j: nat)
    requires value < WRAP && i <= j
    ensures After(value, i) == After(value, j) <==> (j - i) % WRAP == 0
  {
    AfterIs(value, i);
    AfterIs(value, j);
    hide After;
    SameResidue(value + i, value + j);
  }

  lemma SameResidue(m: nat, n: nat)
    requires m <= n
    ensures m % WRAP == n % WRAP <==> (n - m) % WRAP == 0
  {
    var qm, qn := m / WRAP, n / WRAP;
    assert m == qm * WRAP + m % WRAP && n == qn * WRAP + n % WRAP;
    assert n - m == (qn - qm) * WRAP + (n % WRAP - m % WRAP);
  }
}
