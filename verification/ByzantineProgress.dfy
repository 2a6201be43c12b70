/** A round can only stand still if a message is lost: every message that was sent is on its way, lost or
    arrived, so without losses some general can always go on. */
module ByzantineProgress {

  import opened ByzantineRounds
  import opened ByzantineNetwork
  import opened ByzantineRuns

  /** The messages a general has handed over are on record. */
  predicate SendsRecorded(c: Config, s: Net)
    requires WellFormed(c, s)
  {
    forall p: nat, q: nat :: p < c.camp.n && q < c.camp.n && p != q && Sends(s.round, p) && HasSent(c, s, p, q) ==>
      (s.round, p, q) in s.sent
  }

  function MessageOf(s: Net, p: nat, q: nat): Envelope
    requires (s.round, p, q) in s.sent
  {
    Envelope(s.round, p, q, s.sent[(s.round, p, q)])
  }

  /** Every message of this round is on its way, lost or arrived. */
  ghost predicate Traced(c: Config, s: Net)
    requires WellFormed(c, s)
  {
    forall p: nat, q: nat :: (s.round, p, q) in s.sent ==>
      && q < c.camp.n
      && (MessageOf(s, p, q) in s.flying || MessageOf(s, p, q) in s.lost || Arrived(Seen(c, s, q), p))
  }

  predicate ChannelsOpen(c: Config, s: Net)
    requires WellFormed(c, s)
  {
    forall g :: 0 <= g < c.camp.n && (s.stages[g].Sending? || s.stages[g].Collecting?) && HasChannel(s.round, g) ==>
      (g, s.round) in s.channels
  }

  ghost predicate TraceInv(c: Config, s: Net) {
    NetInv(c, s) && SendsRecorded(c, s) && Traced(c, s) && ChannelsOpen(c, s)
  }

  lemma BeginTraced(c: Config)
    requires c.Valid()
    ensures TraceInv(c, Begin(c))
  {
    BeginInv(c);
  }

  /** Nothing is sent or lost, and what has arrived stays. */
  lemma TraceFrame(c: Config, s: Net, s': Net)
    requires WellFormed(c, s) && WellFormed(c, s') && Traced(c, s)
    requires s'.round == s.round && s'.sent == s.sent && s.flying <= s'.flying && s.lost <= s'.lost
    requires forall q :: 0 <= q < c.camp.n ==> Seen(c, s', q) == Seen(c, s, q)
    ensures Traced(c, s')
  {
    hide Seen, Arrived;
    forall p: nat, q: nat | (s'.round, p, q) in s'.sent
      ensures q < c.camp.n
      ensures MessageOf(s', p, q) in s'.flying || MessageOf(s', p, q) in s'.lost || Arrived(Seen(c, s', q), p)
    {
      assert MessageOf(s', p, q) == MessageOf(s, p, q);
    }
  }

  lemma SendsFrame(c: Config, s: Net, s': Net)
    requires WellFormed(c, s) && WellFormed(c, s') && SendsRecorded(c, s)
    requires s'.round == s.round && s'.sent == s.sent
    requires forall p: nat, q: nat :: p < c.camp.n && q < c.camp.n && p != q && Sends(s.round, p) && HasSent(c, s', p, q) ==> HasSent(c, s, p, q)
    ensures SendsRecorded(c, s')
  {
  }

  lemma OpenTraced(c: Config, s: Net, g: nat)
    requires TraceInv(c, s) && Enabled(c, s, Open(g))
    ensures var s' := Apply(c, s, Open(g)); SendsRecorded(c, s') && Traced(c, s') && ChannelsOpen(c, s')
  {
    assert WellFormed(c, s);
    hide NetInv;
    var s' := Apply(c, s, Open(g));
    OpenSame(c, s, g);
    TraceFrame(c, s, s');
    SendsFrame(c, s, s');
  }

  lemma OpenSame(c: Config, s: Net, g: nat)
    requires NetInv(c, s) && Enabled(c, s, Open(g))
    ensures forall q :: 0 <= q < c.camp.n ==> Seen(c, Apply(c, s, Open(g)), q) == Seen(c, s, q)
  {
    assert StageOk(c, s, g);
  }

  lemma EndSendsTraced(c: Config, s: Net, g: nat)
    requires TraceInv(c, s) && Enabled(c, s, EndSends(g))
    ensures var s' := Apply(c, s, EndSends(g)); SendsRecorded(c, s') && Traced(c, s') && ChannelsOpen(c, s')
  {
    assert WellFormed(c, s);
    hide NetInv;
    var s' := Apply(c, s, EndSends(g));
    PeersAre(c.camp.n, g);
    forall q: nat | q < c.camp.n && q != g ensures HasSent(c, s, g, q) {
      assert q in Peers(c.camp.n, g);
    }
    TraceFrame(c, s, s');
    SendsFrame(c, s, s');
  }

  /** What taking, deciding and losing leave as it was. */
  lemma OwnSame(c: Config, s: Net, step: Step)
    requires WellFormed(c, s) && Enabled(c, s, step) && (step.Take? || step.Decide? || step.Lose?)
    ensures var s' := Apply(c, s, step);
            && WellFormed(c, s') && s'.round == s.round && s'.sent == s.sent
            && (forall q :: 0 <= q < c.camp.n ==> Seen(c, s', q) == Seen(c, s, q))
            && (forall p: nat, q: nat :: p < c.camp.n && q < c.camp.n ==> (HasSent(c, s', p, q) <==> HasSent(c, s, p, q)))
  {
    hide Decision;
  }

  lemma OwnTraced(c: Config, s: Net, step: Step)
    requires TraceInv(c, s) && Enabled(c, s, step) && (step.Take? || step.Decide? || step.Lose?)
    ensures var s' := Apply(c, s, step); SendsRecorded(c, s') && ChannelsOpen(c, s')
    ensures !step.Lose? ==> Traced(c, Apply(c, s, step))
  {
    assert WellFormed(c, s);
    OwnSame(c, s, step);
    OwnChannels(c, s, step);
    hide NetInv, Decision, Seen, HasSent, ChannelsOpen;
    var s' := Apply(c, s, step);
    SendsFrame(c, s, s');
    if !step.Lose? {
      TraceFrame(c, s, s');
    }
  }

  lemma OwnChannels(c: Config, s: Net, step: Step)
    requires WellFormed(c, s) && ChannelsOpen(c, s) && Enabled(c, s, step) && (step.Take? || step.Decide? || step.Lose?)
    ensures WellFormed(c, Apply(c, s, step)) && ChannelsOpen(c, Apply(c, s, step))
  {
    hide Decision;
  }

  lemma LoseTraced(c: Config, s: Net, e: Envelope)
    requires TraceInv(c, s) && Enabled(c, s, Lose(e))
    ensures Traced(c, Apply(c, s, Lose(e)))
  {
    assert WellFormed(c, s);
    hide NetInv, Arrived;
    var s' := Apply(c, s, Lose(e));
    forall p: nat, q: nat | (s'.round, p, q) in s'.sent
      ensures q < c.camp.n
      ensures MessageOf(s', p, q) in s'.flying || MessageOf(s', p, q) in s'.lost || Arrived(Seen(c, s', q), p)
    {
      assert MessageOf(s', p, q) == MessageOf(s, p, q) && Seen(c, s', q) == Seen(c, s, q);
    }
  }

  lemma DeliverTraced(c: Config, s: Net, e: Envelope)
    requires TraceInv(c, s) && Enabled(c, s, Deliver(e))
    ensures var s' := Apply(c, s, Deliver(e)); SendsRecorded(c, s') && Traced(c, s') && ChannelsOpen(c, s')
  {
    var s' := Apply(c, s, Deliver(e));
    assert Outstanding(c, s, e);
    DeliverSeen(c, s, e);
    hide NetInv;
    SendsFrame(c, s, s');
    forall p: nat, q: nat | (s'.round, p, q) in s'.sent
      ensures q < c.camp.n
      ensures MessageOf(s', p, q) in s'.flying || MessageOf(s', p, q) in s'.lost || Arrived(Seen(c, s', q), p)
    {
      assert MessageOf(s', p, q) == MessageOf(s, p, q);
      if q == e.recipient {
        ArrivedStays(Seen(c, s, q), e, p);
      } else {
        assert SameFor(s, s', q);
        assert Seen(c, s', q) == Seen(c, s, q);
      }
    }
  }

  lemma ArrivedStays(seen: seq<Envelope>, e: Envelope, p: nat)
    ensures Arrived(seen + [e], e.sender)
    ensures Arrived(seen, p) ==> Arrived(seen + [e], p)
  {
    assert (seen + [e])[|seen|] == e;
    if i :| 0 <= i < |seen| && seen[i].sender == p {
      assert (seen + [e])[i].sender == p;
    }
  }

  lemma SendRecorded(c: Config, s: Net, g: nat, order: string)
    requires WellFormed(c, s) && SendsRecorded(c, s) && Enabled(c, s, Send(g, order))
    ensures var s' := Apply(c, s, Send(g, order)); WellFormed(c, s') && SendsRecorded(c, s')
  {
    var s' := Apply(c, s, Send(g, order));
    var k := s.stages[g].k;
    forall p: nat, q: nat | p < c.camp.n && q < c.camp.n && p != q && Sends(s.round, p) && HasSent(c, s', p, q)
      ensures (s'.round, p, q) in s'.sent
    {
      if p == g && q != Peers(c.camp.n, g)[k] {
        var j :| 0 <= j < k + 1 && j < c.camp.n - 1 && Peers(c.camp.n, g)[j] == q;
        assert j < k && HasSent(c, s, g, q);
      } else if p != g {
        assert HasSent(c, s, p, q);
      }
    }
  }

  lemma SendTraced(c: Config, s: Net, g: nat, order: string)
    requires TraceInv(c, s) && Enabled(c, s, Send(g, order))
    ensures var s' := Apply(c, s, Send(g, order)); SendsRecorded(c, s') && Traced(c, s') && ChannelsOpen(c, s')
  {
    var s' := Apply(c, s, Send(g, order));
    var to := Peers(c.camp.n, g)[s.stages[g].k];
    assert WellFormed(c, s);
    SendIsNew(c, s, g, order);
    SendRecorded(c, s, g, order);
    hide NetInv, Seen, Arrived, SendsRecorded;
    forall p: nat, q: nat | (s'.round, p, q) in s'.sent
      ensures q < c.camp.n
      ensures MessageOf(s', p, q) in s'.flying || MessageOf(s', p, q) in s'.lost || Arrived(Seen(c, s', q), p)
    {
      if (p, q) != (g, to) {
        assert MessageOf(s', p, q) == MessageOf(s, p, q);
        SendSame(c, s, g, order, q);
      }
    }
  }

  lemma BarrierTraced(c: Config, s: Net)
    requires TraceInv(c, s) && Enabled(c, s, Barrier)
    ensures var s' := Apply(c, s, Barrier); SendsRecorded(c, s') && Traced(c, s') && ChannelsOpen(c, s')
  {
    var s' := Apply(c, s, Barrier);
    assert SentOk(c, s);
    forall p: nat, q: nat ensures (s'.round, p, q) !in s'.sent {
    }
  }

  lemma StepTraced(c: Config, s: Net, step: Step)
    requires TraceInv(c, s) && Enabled(c, s, step)
    ensures TraceInv(c, Apply(c, s, step))
  {
    StepKeeps(c, s, step);
    hide NetInv, Apply, Enabled, SendsRecorded, Traced, ChannelsOpen;
    match step
    case Open(g) => OpenTraced(c, s, g);
    case Send(g, order) => SendTraced(c, s, g, order);
    case EndSends(g) => EndSendsTraced(c, s, g);
    case Deliver(e) => DeliverTraced(c, s, e);
    case Lose(e) =>
      OwnTraced(c, s, step);
      LoseTraced(c, s, e);
    case Take(_) => OwnTraced(c, s, step);
    case Decide(_) => OwnTraced(c, s, step);
    case Barrier => BarrierTraced(c, s);
  }

  lemma {:induction false} RunTraced(c: Config, s: Net, steps: seq<Step>)
    requires TraceInv(c, s) && IsRun(c, s, steps)
    ensures TraceInv(c, After(c, s, steps))
    decreases steps
  {
    if steps != [] {
      StepTraced(c, s, steps[0]);
      hide TraceInv, Apply, Enabled;
      RunTraced(c, Apply(c, s, steps[0]), steps[1..]);
    }
  }

  // ---- Who listens ----

  /** A general listens in its round from its start on, except the commander in round 1. */
  predicate ListensOk(c: Config, s: Net)
    requires WellFormed(c, s)
  {
    && ((0, 1) !in s.channels)
    && forall g :: 0 <= g < c.camp.n && !s.stages[g].NotStarted? && !(s.round == 1 && g == 0) ==> (g, s.round) in s.channels
  }

  lemma {:induction false} RunListens(c: Config, s: Net, steps: seq<Step>)
    requires WellFormed(c, s) && IsRun(c, s, steps) && ListensOk(c, s)
    ensures ListensOk(c, After(c, s, steps))
    decreases steps
  {
    if steps != [] {
      StepListens(c, s, steps[0]);
      hide ListensOk, Apply, Enabled;
      RunListens(c, Apply(c, s, steps[0]), steps[1..]);
    }
  }

  lemma StepListens(c: Config, s: Net, step: Step)
    requires WellFormed(c, s) && Enabled(c, s, step) && ListensOk(c, s) && WellFormed(c, Apply(c, s, step))
    ensures ListensOk(c, Apply(c, s, step))
  {
    hide Decision;
  }

  /** In every run: a general has the channel of the current round exactly from its start in that round on; the
      commander has none in round 1. */
  lemma ListensIff(c: Config, steps: seq<Step>, g: nat)
    requires c.Valid() && IsRun(c, Begin(c), steps) && g < c.camp.n
    ensures var s := After(c, Begin(c), steps);
            (g, s.round) in s.channels <==> !s.stages[g].NotStarted? && !(s.round == 1 && g == 0)
  {
    BeginInv(c);
    RunKeeps(c, Begin(c), steps);
    RunListens(c, Begin(c), steps);
    assert StageOk(c, After(c, Begin(c), steps), g);
  }

  // ---- Someone can go on ----

  /** Someone a general expects a message from has not been heard. */
  lemma MissingSender(c: Config, s: Net, g: nat) returns (p: nat)
    requires WellFormed(c, s) && g < c.camp.n && SeenOk(c, s, g) && |Seen(c, s, g)| < Need(c, s.round, g)
    ensures p < c.camp.n && p != g && Sends(s.round, p) && !Arrived(Seen(c, s, g), p)
  {
    hide SeenOk, Seen;
    var seen := Seen(c, s, g);
    var senders := Senders(c, s.round, g);
    SendersSize(c, s.round, g);
    PartOfSeen(c, s, g, seen);
    SenderSetSize(seen);
    if senders <= SenderSet(seen) {
      SubsetSize(senders, SenderSet(seen));
    }
    p :| p in senders && p !in SenderSet(seen);
  }

  /** A general that waits on an empty channel is owed a message that can be delivered. */
  lemma OwedMessage(c: Config, s: Net, g: nat) returns (e: Envelope)
    requires TraceInv(c, s) && s.lost == {} && g < c.camp.n && s.stages[g].Collecting?
    requires |s.stages[g].got| < Need(c, s.round, g) && Chan(s, g) == []
    requires forall p :: 0 <= p < c.camp.n ==> s.stages[p].Collecting? || s.stages[p].Finished?
    ensures Enabled(c, s, Deliver(e))
  {
    assert SeenOk(c, s, g) && StageOk(c, s, g) && WellFormed(c, s);
    hide NetInv, SeenOk;
    assert Seen(c, s, g) == s.stages[g].got;
    var p := MissingSender(c, s, g);
    assert HasSent(c, s, p, g);
    e := MessageOf(s, p, g);
  }

  /** Who can go on, and how. */
  lemma NextMove(c: Config, s: Net, g: nat) returns (step: Step)
    requires TraceInv(c, s) && s.lost == {} && g < c.camp.n && !s.stages[g].Finished?
    ensures Enabled(c, s, step) && !step.Lose?
  {
    if h :| 0 <= h < c.camp.n && s.stages[h].NotStarted? {
      step := Open(h);
    } else if h :| 0 <= h < c.camp.n && s.stages[h].Sending? {
      assert StageOk(c, s, h);
      step := if s.stages[h].k < c.camp.n - 1 then Send(h, s.orders[h]) else EndSends(h);
    } else if |s.stages[g].got| == Need(c, s.round, g) {
      step := Decide(g);
    } else if Chan(s, g) != [] {
      assert SeenOk(c, s, g);
      step := Take(g);
    } else {
      assert SeenOk(c, s, g);
      var e := OwedMessage(c, s, g);
      step := Deliver(e);
    }
  }

  /** No deadlock without loss: in every run, as long as no message has been lost and some general has not
      finished its round, some step other than a loss is possible. */
  lemma StandsStillOnlyByLoss(c: Config, steps: seq<Step>, g: nat)
    requires c.Valid() && IsRun(c, Begin(c), steps) && g < c.camp.n
    requires After(c, Begin(c), steps).lost == {} && !After(c, Begin(c), steps).stages[g].Finished?
    ensures exists step: Step :: !step.Lose? && Enabled(c, After(c, Begin(c), steps), step)
  {
    BeginTraced(c);
    RunTraced(c, Begin(c), steps);
    var step := NextMove(c, After(c, Begin(c), steps), g);
  }
}
