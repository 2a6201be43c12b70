/** Every run of the simulation: each round a general finishes is the synchronous round, losses
    only block, and with an honest commander the honest generals agree. */
module ByzantineRuns {

  import opened ByzantineRounds
  import opened ByzantineGenerals
  import opened ByzantineNetwork

  // ---- What one general relies on ----

  /** Nothing general `g` knows has changed. */
  predicate SameFor(s: Net, s': Net, g: nat)
    requires |s.stages| == |s'.stages| == |s.orders| == |s'.orders|
    requires g < |s.stages|
  {
    && s'.round == s.round && s'.start == s.start
    && s'.stages[g] == s.stages[g] && s'.orders[g] == s.orders[g]
    && ((g, s.round) in s'.channels <==> (g, s.round) in s.channels)
    && Chan(s', g) == Chan(s, g)
  }

  predicate RecordsKept(s: Net, s': Net) {
    s'.round == s.round && forall key :: key in s.sent ==> key in s'.sent && s'.sent[key] == s.sent[key]
  }

  lemma GeneralFrame(c: Config, s: Net, s': Net, g: nat)
    requires WellFormed(c, s) && WellFormed(c, s') && g < c.camp.n
    requires SameFor(s, s', g) && RecordsKept(s, s')
    requires SeenOk(c, s, g) && StageOk(c, s, g)
    ensures SeenOk(c, s', g) && StageOk(c, s', g)
  {
    hide Senders, Decision, Need;
    assert Seen(c, s', g) == Seen(c, s, g);
  }

  lemma OutstandingFrame(c: Config, s: Net, s': Net, e: Envelope)
    requires WellFormed(c, s) && WellFormed(c, s') && RecordsKept(s, s')
    requires Outstanding(c, s, e) && Seen(c, s', e.recipient) == Seen(c, s, e.recipient)
    ensures Outstanding(c, s', e)
  {
  }

  /** The whole invariant from its per-general parts, for steps that send nothing new. */
  lemma Assemble(c: Config, s: Net, s': Net, g: nat)
    requires NetInv(c, s) && WellFormed(c, s') && g < c.camp.n
    requires s'.round == s.round && s'.start == s.start && s'.sent == s.sent
    requires forall h :: 0 <= h < c.camp.n && h != g ==> SameFor(s, s', h)
    requires SeenOk(c, s', g) && StageOk(c, s', g)
    requires SentOk(c, s')
    requires forall e :: e in s'.flying || e in s'.lost ==> Outstanding(c, s', e)
    requires s'.flying !! s'.lost
    requires forall key :: key in s'.channels ==> key.1 <= s'.round
    ensures NetInv(c, s')
  {
    hide SeenOk, StageOk, SentOk, Outstanding, OrdersAfter;
    forall h | 0 <= h < c.camp.n ensures SeenOk(c, s', h) && StageOk(c, s', h) {
      if h != g {
        GeneralFrame(c, s, s', h);
      }
    }
  }

  lemma SentFrame(c: Config, s: Net, s': Net, g: nat)
    requires WellFormed(c, s) && WellFormed(c, s') && g < c.camp.n
    requires SentOk(c, s) && s'.sent == s.sent && s'.round == s.round && s'.start == s.start
    requires forall h :: 0 <= h < c.camp.n && h != g ==> s'.stages[h] == s.stages[h]
    requires forall q: nat :: HasSent(c, s, g, q) ==> HasSent(c, s', g, q)
    ensures SentOk(c, s')
  {
  }

  // ---- Steps ----

  /** A step in which only general `g` moves and nothing is sent, delivered or lost. */
  lemma OwnStep(c: Config, s: Net, s': Net, g: nat)
    requires NetInv(c, s) && WellFormed(c, s') && g < c.camp.n
    requires s'.round == s.round && s'.start == s.start && s'.sent == s.sent
    requires s'.flying == s.flying && s'.lost == s.lost
    requires forall h :: 0 <= h < c.camp.n && h != g ==> SameFor(s, s', h)
    requires Seen(c, s', g) == Seen(c, s, g) && SeenOk(c, s', g) && StageOk(c, s', g)
    requires forall q: nat :: HasSent(c, s, g, q) ==> HasSent(c, s', g, q)
    requires forall key :: key in s'.channels ==> key.1 <= s'.round
    ensures NetInv(c, s')
  {
    hide SeenOk, StageOk, SentOk, OrdersAfter, Outstanding, HasSent;
    forall h | 0 <= h < c.camp.n && h != g ensures s'.stages[h] == s.stages[h] {
      assert SameFor(s, s', h);
    }
    SentFrame(c, s, s', g);
    forall e | e in s'.flying || e in s'.lost ensures Outstanding(c, s', e) {
      assert Outstanding(c, s, e);
      RecipientInRange(c, s, e);
      assert e.recipient != g ==> SameFor(s, s', e.recipient);
      OutstandingFrame(c, s, s', e);
    }
    Assemble(c, s, s', g);
  }

  lemma RecipientInRange(c: Config, s: Net, e: Envelope)
    requires WellFormed(c, s) && Outstanding(c, s, e)
    ensures e.recipient < c.camp.n
  {
  }

  lemma OpenSeen(c: Config, s: Net, g: nat)
    requires WellFormed(c, s) && Enabled(c, s, Open(g)) && SeenOk(c, s, g) && StageOk(c, s, g)
    ensures var s' := Apply(c, s, Open(g));
            Seen(c, s', g) == Seen(c, s, g) && SeenOk(c, s', g) && StageOk(c, s', g)
  {
    hide Senders, OrdersAfter, Decision;
    assert Seen(c, s, g) == [] == Seen(c, Apply(c, s, Open(g)), g);
    SendersSize(c, s.round, g);
  }

  lemma OpenKeeps(c: Config, s: Net, g: nat)
    requires NetInv(c, s) && Enabled(c, s, Open(g))
    ensures NetInv(c, Apply(c, s, Open(g)))
  {
    hide SeenOk, StageOk, SentOk, OrdersAfter, Outstanding, Seen;
    assert SeenOk(c, s, g) && StageOk(c, s, g);
    OpenSeen(c, s, g);
    OwnStep(c, s, Apply(c, s, Open(g)), g);
  }

  lemma EndSendsKeeps(c: Config, s: Net, g: nat)
    requires NetInv(c, s) && Enabled(c, s, EndSends(g))
    ensures NetInv(c, Apply(c, s, EndSends(g)))
  {
    hide Senders, OrdersAfter, SentOk, Outstanding;
    var s' := Apply(c, s, EndSends(g));
    assert SeenOk(c, s, g) && StageOk(c, s, g);
    assert Seen(c, s', g) == Seen(c, s, g);
    OwnStep(c, s, s', g);
  }

  lemma TakeSeen(c: Config, s: Net, g: nat)
    requires WellFormed(c, s) && Enabled(c, s, Take(g)) && SeenOk(c, s, g) && StageOk(c, s, g)
    ensures var s' := Apply(c, s, Take(g));
            Seen(c, s', g) == Seen(c, s, g) && SeenOk(c, s', g) && StageOk(c, s', g)
  {
  }

  lemma TakeKeeps(c: Config, s: Net, g: nat)
    requires NetInv(c, s) && Enabled(c, s, Take(g))
    ensures NetInv(c, Apply(c, s, Take(g)))
  {
    hide SeenOk, StageOk, SentOk, OrdersAfter, Outstanding;
    var s' := Apply(c, s, Take(g));
    assert SeenOk(c, s, g) && StageOk(c, s, g);
    TakeSeen(c, s, g);
    OwnStep(c, s, s', g);
  }

  lemma DecideKeeps(c: Config, s: Net, g: nat)
    requires NetInv(c, s) && Enabled(c, s, Decide(g))
    ensures NetInv(c, Apply(c, s, Decide(g)))
  {
    hide Senders, OrdersAfter, SentOk, Outstanding, Need, RoundOrder;
    var s' := Apply(c, s, Decide(g));
    assert SeenOk(c, s, g) && StageOk(c, s, g);
    assert Seen(c, s', g) == Seen(c, s, g);
    OwnStep(c, s, s', g);
  }

  lemma LoseKeeps(c: Config, s: Net, e: Envelope)
    requires NetInv(c, s) && Enabled(c, s, Lose(e))
    ensures NetInv(c, Apply(c, s, Lose(e)))
  {
    hide Senders, OrdersAfter, Decision;
    var s' := Apply(c, s, Lose(e));
    SentFrame(c, s, s', 0);
    assert Outstanding(c, s, e);
    forall x | x in s'.flying || x in s'.lost ensures Outstanding(c, s', x) {
      assert Outstanding(c, s, x);
      OutstandingFrame(c, s, s', x);
    }
    assert SeenOk(c, s, 0) && StageOk(c, s, 0);
    GeneralFrame(c, s, s', 0);
    Assemble(c, s, s', 0);
  }

  lemma DeliverSeen(c: Config, s: Net, e: Envelope)
    requires WellFormed(c, s) && Enabled(c, s, Deliver(e)) && Outstanding(c, s, e)
    ensures var s' := Apply(c, s, Deliver(e));
            && Seen(c, s', e.recipient) == Seen(c, s, e.recipient) + [e]
            && forall h :: 0 <= h < c.camp.n && h != e.recipient ==> SameFor(s, s', h)
  {
  }

  lemma DeliverRecipient(c: Config, s: Net, e: Envelope)
    requires NetInv(c, s) && Enabled(c, s, Deliver(e))
    ensures var s' := Apply(c, s, Deliver(e));
            e.recipient < c.camp.n && SeenOk(c, s', e.recipient) && StageOk(c, s', e.recipient)
  {
    hide OrdersAfter, SentOk, Senders, Need, Decision, Seen;
    var g := e.recipient;
    assert Outstanding(c, s, e);
    assert SeenOk(c, s, g) && StageOk(c, s, g);
    DeliverSeen(c, s, e);
    var seen := Seen(c, s, g);
    forall i | 0 <= i < |seen| ensures seen[i].sender != e.sender {
    }
  }

  lemma DeliverKeeps(c: Config, s: Net, e: Envelope)
    requires NetInv(c, s) && Enabled(c, s, Deliver(e))
    ensures NetInv(c, Apply(c, s, Deliver(e)))
  {
    var s' := Apply(c, s, Deliver(e));
    var g := e.recipient;
    DeliverRecipient(c, s, e);
    assert Outstanding(c, s, e);
    DeliverSeen(c, s, e);
    forall x | x in s'.flying || x in s'.lost ensures Outstanding(c, s', x) {
      assert Outstanding(c, s, x);
      if x.recipient == g {
        assert x != e;
        assert x.sender != e.sender;
        ArrivedAppend(Seen(c, s, g), e, x.sender);
      } else {
        OutstandingFrame(c, s, s', x);
      }
    }
    SentFrame(c, s, s', g);
    Assemble(c, s, s', g);
  }

  lemma ArrivedAppend(seen: seq<Envelope>, e: Envelope, sender: nat)
    requires !Arrived(seen, sender) && e.sender != sender
    ensures !Arrived(seen + [e], sender)
  {
  }

  /** A general has not sent to its next peer before. */
  lemma SendIsNew(c: Config, s: Net, g: nat, order: string)
    requires NetInv(c, s) && Enabled(c, s, Send(g, order))
    ensures var to := Peers(c.camp.n, g)[s.stages[g].k];
            && to < c.camp.n && to != g && (s.round, g, to) !in s.sent
            && g in Senders(c, s.round, to) && !Arrived(Seen(c, s, to), g)
            && (forall e :: e in s.flying || e in s.lost ==> !(e.sender == g && e.recipient == to))
  {
    var k := s.stages[g].k;
    var to := Peers(c.camp.n, g)[k];
    PeersAre(c.camp.n, g);
    assert to in Peers(c.camp.n, g);
    assert StageOk(c, s, g);
    EveryoneIs(c.camp.n);
    assert !HasSent(c, s, g, to);
    assert SeenOk(c, s, to);
    forall i | 0 <= i < |Seen(c, s, to)| ensures Seen(c, s, to)[i].sender != g {
      assert OnRecord(s, Seen(c, s, to)[i]);
    }
    forall e | e in s.flying || e in s.lost ensures !(e.sender == g && e.recipient == to) {
      assert Outstanding(c, s, e);
    }
  }

  lemma SendSentOk(c: Config, s: Net, g: nat, order: string)
    requires NetInv(c, s) && Enabled(c, s, Send(g, order))
    ensures SentOk(c, Apply(c, s, Send(g, order)))
  {
    var s' := Apply(c, s, Send(g, order));
    var k := s.stages[g].k;
    var to := Peers(c.camp.n, g)[k];
    assert StageOk(c, s, g);
    assert HasSent(c, s', g, to) by { assert Peers(c.camp.n, g)[k] == to; }
    forall key | key in s'.sent && key.0 == s.round ensures HasSent(c, s', key.1, key.2) {
      if key != (s.round, g, to) {
        assert HasSent(c, s, key.1, key.2);
      }
    }
  }

  lemma SendSame(c: Config, s: Net, g: nat, order: string, h: nat)
    requires WellFormed(c, s) && Enabled(c, s, Send(g, order)) && h < c.camp.n
    ensures var s' := Apply(c, s, Send(g, order));
            Seen(c, s', h) == Seen(c, s, h) && (h != g ==> SameFor(s, s', h))
  {
  }

  lemma SendGeneral(c: Config, s: Net, g: nat, order: string, h: nat)
    requires NetInv(c, s) && Enabled(c, s, Send(g, order)) && h < c.camp.n
    ensures var s' := Apply(c, s, Send(g, order));
            Seen(c, s', h) == Seen(c, s, h) && SeenOk(c, s', h) && StageOk(c, s', h)
  {
    hide Senders, OrdersAfter, SentOk, Outstanding, Need, Seen, SameFor;
    var s' := Apply(c, s, Send(g, order));
    SendIsNew(c, s, g, order);
    assert SeenOk(c, s, h) && StageOk(c, s, h);
    SendSame(c, s, g, order, h);
    if h != g {
      GeneralFrame(c, s, s', h);
    }
  }

  lemma SendOutstanding(c: Config, s: Net, g: nat, order: string, x: Envelope)
    requires NetInv(c, s) && Enabled(c, s, Send(g, order))
    ensures var s' := Apply(c, s, Send(g, order));
            x in s'.flying || x in s'.lost ==> Outstanding(c, s', x) && !(x in s'.flying && x in s'.lost)
  {
    hide OrdersAfter, SentOk, SeenOk, StageOk;
    var s' := Apply(c, s, Send(g, order));
    SendIsNew(c, s, g, order);
    var e := Envelope(s.round, g, Peers(c.camp.n, g)[s.stages[g].k], order);
    if x == e {
      SendGeneral(c, s, g, order, e.recipient);
    } else if x in s.flying || x in s.lost {
      assert Outstanding(c, s, x);
      SendGeneral(c, s, g, order, x.recipient);
      OutstandingFrame(c, s, s', x);
    }
  }

  lemma SendKeeps(c: Config, s: Net, g: nat, order: string)
    requires NetInv(c, s) && Enabled(c, s, Send(g, order))
    ensures NetInv(c, Apply(c, s, Send(g, order)))
  {
    hide OrdersAfter, SentOk, SeenOk, StageOk, Outstanding;
    var s' := Apply(c, s, Send(g, order));
    SendSentOk(c, s, g, order);
    forall h | 0 <= h < c.camp.n ensures SeenOk(c, s', h) && StageOk(c, s', h) {
      SendGeneral(c, s, g, order, h);
    }
    forall x | x in s'.flying || x in s'.lost
      ensures Outstanding(c, s', x) && !(x in s'.flying && x in s'.lost)
    {
      SendOutstanding(c, s, g, order, x);
    }
    PastRounds(c, s.sent, s'.sent, s.round - 1);
  }

  /** At a barrier the orders are those of the synchronous execution. */
  lemma BarrierIsSynchronous(c: Config, s: Net)
    requires NetInv(c, s) && forall g :: 0 <= g < c.camp.n ==> s.stages[g].Finished?
    ensures s.orders == OrdersAfter(c.camp, c.initial, LiesOf(s.sent), s.round)
    ensures s.flying == {} && s.lost == {}
  {
    forall g | 0 <= g < c.camp.n
      ensures s.orders[g] == OrdersAfter(c.camp, c.initial, LiesOf(s.sent), s.round)[g]
    {
      DecisionIsSynchronous(c, s, g);
    }
    forall e | e in s.flying || e in s.lost ensures false {
      FinishedOwedNothing(c, s, e);
    }
  }

  lemma FreshGeneral(c: Config, s: Net, g: nat)
    requires WellFormed(c, s) && g < c.camp.n && s.stages[g] == NotStarted
    requires s.orders[g] == s.start[g] && (g, s.round) !in s.channels
    ensures SeenOk(c, s, g) && StageOk(c, s, g)
  {
  }

  lemma BarrierKeeps(c: Config, s: Net)
    requires NetInv(c, s) && Enabled(c, s, Barrier)
    ensures NetInv(c, Apply(c, s, Barrier))
  {
    hide OrdersAfter, SeenOk, StageOk, Outstanding;
    BarrierIsSynchronous(c, s);
    var s' := Apply(c, s, Barrier);
    forall g | 0 <= g < c.camp.n ensures SeenOk(c, s', g) && StageOk(c, s', g) {
      FreshGeneral(c, s', g);
    }
  }

  lemma StepKeeps(c: Config, s: Net, step: Step)
    requires NetInv(c, s) && Enabled(c, s, step)
    ensures NetInv(c, Apply(c, s, step))
  {
    hide NetInv, Apply, Enabled;
    match step
    case Open(g) => OpenKeeps(c, s, g);
    case Send(g, order) => SendKeeps(c, s, g, order);
    case EndSends(g) => EndSendsKeeps(c, s, g);
    case Deliver(e) => DeliverKeeps(c, s, e);
    case Lose(e) => LoseKeeps(c, s, e);
    case Take(g) => TakeKeeps(c, s, g);
    case Decide(g) => DecideKeeps(c, s, g);
    case Barrier => BarrierKeeps(c, s);
  }

  lemma {:induction false} RunKeeps(c: Config, s: Net, steps: seq<Step>)
    requires NetInv(c, s) && IsRun(c, s, steps)
    ensures NetInv(c, After(c, s, steps))
    decreases steps
  {
    hide Apply, Enabled;
    if steps != [] {
      StepKeeps(c, s, steps[0]);
      RunKeeps(c, Apply(c, s, steps[0]), steps[1..]);
    }
  }

  // ---- Results over runs ----

  /** Asynchronous rounds refine synchronous ones: whatever the interleaving, a general that has
      finished round `r` has taken exactly one round-r message from each general it expects, and
      holds the order the synchronous rounds give it; the orders before the round are those of
      the synchronous execution up to `r - 1`. */
  lemma AsynchronousRefinesSynchronous(c: Config, steps: seq<Step>, g: nat)
    requires c.Valid() && IsRun(c, Begin(c), steps) && g < c.camp.n
    ensures var s := After(c, Begin(c), steps);
            && |s.stages| == |s.orders| == c.camp.n
            && s.start == OrdersAfter(c.camp, c.initial, LiesOf(s.sent), s.round - 1)
            && (s.stages[g].Finished? ==>
                  && s.orders[g] == OrdersAfter(c.camp, c.initial, LiesOf(s.sent), s.round)[g]
                  && DistinctSenders(s.stages[g].got)
                  && SenderSet(s.stages[g].got) == Senders(c, s.round, g)
                  && forall i :: 0 <= i < |s.stages[g].got| ==>
                       s.stages[g].got[i].round == s.round && s.stages[g].got[i].recipient == g)
  {
    BeginInv(c);
    RunKeeps(c, Begin(c), steps);
    var s := After(c, Begin(c), steps);
    if s.stages[g].Finished? {
      DecisionIsSynchronous(c, s, g);
      FinishedHasAll(c, s, g);
    }
  }

  /** Traitors hold the order they started with in every state of every run. */
  lemma TraitorsKeepOrders(c: Config, steps: seq<Step>, g: nat)
    requires c.Valid() && IsRun(c, Begin(c), steps) && g in c.camp.traitors
    ensures g < c.camp.n && After(c, Begin(c), steps).orders[g] == c.initial[g]
  {
    BeginInv(c);
    RunKeeps(c, Begin(c), steps);
    var s := After(c, Begin(c), steps);
    assert StageOk(c, s, g);
    TraitorsKeep(c.camp, c.initial, LiesOf(s.sent), s.round - 1, g);
    TraitorsKeep(c.camp, c.initial, LiesOf(s.sent), s.round, g);
    if s.stages[g].Finished? {
      DecisionIsSynchronous(c, s, g);
    }
  }

  lemma {:induction false} RoundsFrom(c: Config, s: Net, steps: seq<Step>)
    requires WellFormed(c, s) && IsRun(c, s, steps)
    ensures s.round <= After(c, s, steps).round <= if s.round <= c.rounds then c.rounds else s.round
    decreases steps
  {
    if steps != [] {
      assert s.round <= Apply(c, s, steps[0]).round <= s.round + if s.round < c.rounds then 1 else 0;
      hide Apply, Enabled;
      RoundsFrom(c, Apply(c, s, steps[0]), steps[1..]);
    }
  }

  /** The simulation has t + 1 rounds and no more, the next one starting exactly when everyone has finished. */
  lemma RoundsBounded(c: Config, steps: seq<Step>)
    requires c.Valid() && c.rounds >= 1 && IsRun(c, Begin(c), steps)
    ensures var s := After(c, Begin(c), steps);
            && 1 <= s.round <= c.rounds
            && (Enabled(c, s, Barrier) <==> s.round < c.rounds && forall g :: 0 <= g < c.camp.n ==> s.stages[g].Finished?)
            && (Enabled(c, s, Barrier) ==> Apply(c, s, Barrier).round == s.round + 1)
  {
    RoundsFrom(c, Begin(c), steps);
  }

  lemma {:induction false} LostForever(c: Config, s: Net, steps: seq<Step>, e: Envelope)
    requires NetInv(c, s) && IsRun(c, s, steps) && e in s.lost
    ensures var s' := After(c, s, steps);
            NetInv(c, s') && s'.round == s.round && e in s'.lost
    decreases steps
  {
    if steps != [] {
      FinishedOwedNothing(c, s, e);
      StepKeeps(c, s, steps[0]);
      LostForever(c, Apply(c, s, steps[0]), steps[1..], e);
    }
  }

  /** A lost message can only block: its recipient never finishes the round, and in no
      continuation does the round end. */
  lemma LossOnlyBlocks(c: Config, steps: seq<Step>, e: Envelope, more: seq<Step>)
    requires c.Valid() && IsRun(c, Begin(c), steps)
    requires e in After(c, Begin(c), steps).lost && IsRun(c, After(c, Begin(c), steps), more)
    ensures var s := After(c, Begin(c), steps);
            var s' := After(c, s, more);
            && s'.round == s.round && e.recipient < |s'.stages| && !s'.stages[e.recipient].Finished?
  {
    BeginInv(c);
    RunKeeps(c, Begin(c), steps);
    LostForever(c, After(c, Begin(c), steps), more, e);
    FinishedOwedNothing(c, After(c, After(c, Begin(c), steps), more), e);
  }

  /** The simulation's set-up: the first `t` lieutenants are traitors, the commander attacks. */
  function Traitors(t: nat): set<nat> {
    if t == 0 then {} else Traitors(t - 1) + {t}
  }

  lemma {:induction false} TraitorsAre(t: nat)
    ensures |Traitors(t)| == t && forall p: nat :: p in Traitors(t) <==> 1 <= p <= t
  {
    if t != 0 {
      TraitorsAre(t - 1);
    }
  }

  predicate IsSetup(c: Config, n: nat, t: nat) {
    && n > 3 * t && c.camp == Camp(n, Traitors(t)) && |c.initial| == n && c.rounds == t + 1
    && c.initial[0] == ATTACK
    && forall p :: 0 < p < n ==> if p <= t then IsOrder(c.initial[p]) else c.initial[p] == ""
  }

  lemma {:induction false} HonestOfAll(camp: Camp, orders: seq<string>, k: nat, v: string)
    requires k <= |orders| == camp.n && AllHonestHold(camp, orders, v)
    ensures forall i :: 0 <= i < |HonestOf(camp, orders, k)| ==> HonestOf(camp, orders, k)[i] == v
    ensures k > 0 && camp.Honest(0) ==> |HonestOf(camp, orders, k)| > 0
  {
    if k != 0 {
      HonestOfAll(camp, orders, k - 1, v);
    }
  }

  /** Agreement, end to end: for an honest commander and at most t of more than 3t generals
      traitors, in every run every honest general that has finished a round holds the commander's
      order, and once all have finished the final check reports consensus. */
  lemma HonestGeneralsAgree(c: Config, steps: seq<Step>, t: nat)
    requires c.Valid() && c.camp.n > 3 * t && |c.camp.traitors| <= t
    requires c.camp.Honest(0) && IsOrder(c.initial[0])
    requires IsRun(c, Begin(c), steps)
    ensures var s := After(c, Begin(c), steps);
            && |s.stages| == |s.orders| == c.camp.n
            && (forall g :: 0 <= g < c.camp.n && c.camp.Honest(g) && s.stages[g].Finished? ==> s.orders[g] == c.initial[0])
            && ((forall g :: 0 <= g < c.camp.n ==> s.stages[g].Finished?) ==>
                  Verdict(HonestOf(c.camp, s.orders, c.camp.n)) && AllEqual(HonestOf(c.camp, s.orders, c.camp.n)))
  {
    BeginInv(c);
    RunKeeps(c, Begin(c), steps);
    var s := After(c, Begin(c), steps);
    Validity(c.camp, c.initial, LiesOf(s.sent), t, s.round);
    forall g | 0 <= g < c.camp.n && c.camp.Honest(g) && s.stages[g].Finished?
      ensures s.orders[g] == c.initial[0]
    {
      DecisionIsSynchronous(c, s, g);
    }
    if forall g :: 0 <= g < c.camp.n ==> s.stages[g].Finished? {
      HonestOfAll(c.camp, s.orders, c.camp.n, c.initial[0]);
      VerdictIff(HonestOf(c.camp, s.orders, c.camp.n));
    }
  }

  /** The final loop of the simulation, over the generals as a run leaves them. */
  method ReportConsensus(generals: seq<General>, ghost c: Config, ghost steps: seq<Step>, ghost t: nat)
    returns (consensus: bool, final: string)
    requires c.Valid() && c.camp.n > 3 * t && |c.camp.traitors| <= t
    requires c.camp.Honest(0) && IsOrder(c.initial[0])
    requires IsRun(c, Begin(c), steps) && Mirrors(generals, c.camp, After(c, Begin(c), steps).orders)
    requires forall g :: 0 <= g < c.camp.n ==> After(c, Begin(c), steps).stages[g].Finished?
    ensures consensus && final == c.initial[0]
  {
    HonestGeneralsAgree(c, steps, t);
    ghost var orders := After(c, Begin(c), steps).orders;
    HonestOfAll(c.camp, orders, c.camp.n, c.initial[0]);
    consensus, final := CheckConsensus(generals, c.camp, orders);
  }

  /** The main program's own set-up satisfies the conditions of `HonestGeneralsAgree`. */
  lemma SetupIsCovered(c: Config, n: nat, t: nat)
    requires IsSetup(c, n, t)
    ensures c.Valid() && c.camp.n > 3 * t && |c.camp.traitors| <= t && c.camp.Honest(0) && IsOrder(c.initial[0])
  {
    TraitorsAre(t);
  }
}
