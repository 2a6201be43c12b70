/** The simulation as it runs: generals open channels, send, receive and decide in any order,
    messages are delivered or lost in any order, and a barrier separates the rounds. */
module ByzantineNetwork {

  import opened ByzantineRounds
  import opened ByzantineGenerals

  /** A message on its way; the channel keeps only `order`. */
  datatype Envelope = Envelope(round: nat, sender: nat, recipient: nat, order: string)

  /** Where a general is in its round: `Sending(k)` has handed its first `k` messages to the
      network, `Collecting(got)` has taken `got` from its channel. */
  datatype Stage = NotStarted | Sending(k: nat) | Collecting(got: seq<Envelope>) | Finished(got: seq<Envelope>)

  /** `start` are the orders at the last barrier; `sent` and `lost` are history. */
  datatype Net = Net(
    round: nat,
    start: seq<string>,
    orders: seq<string>,
    stages: seq<Stage>,
    channels: map<(nat, nat), seq<Envelope>>,
    flying: set<Envelope>,
    lost: set<Envelope>,
    sent: map<(nat, nat, nat), string>)

  /** `rounds` is t + 1. */
  datatype Config = Config(camp: Camp, initial: seq<string>, rounds: nat) {
    predicate Valid() {
      camp.Valid() && |initial| == camp.n
    }
  }

  function Begin(c: Config): Net
    requires c.Valid()
  {
    Net(1, c.initial, c.initial, seq(c.camp.n, _ => NotStarted), map[], {}, {}, map[])
  }

  /** How many messages a general waits for. */
  function Need(c: Config, round: nat, g: nat): int {
    if round == 1 then (if g == 0 then 0 else 1) else c.camp.n - 1
  }

  function Capacity(c: Config, round: nat): int {
    if round == 1 then 1 else c.camp.n - 1
  }

  /** In round 1 the commander opens no channel, and only the commander sends. */
  predicate HasChannel(round: nat, g: nat) { round != 1 || g != 0 }
  predicate Sends(round: nat, g: nat) { round != 1 || g == 0 }

  datatype Step =
    | Open(g: nat)
    | Send(g: nat, order: string)
    | EndSends(g: nat)
    | Deliver(e: Envelope)
    | Lose(e: Envelope)
    | Take(g: nat)
    | Decide(g: nat)
    | Barrier

  predicate WellFormed(c: Config, s: Net) {
    c.Valid() && |s.start| == c.camp.n && |s.orders| == c.camp.n && |s.stages| == c.camp.n && s.round >= 1
  }

  predicate Enabled(c: Config, s: Net, step: Step)
    requires WellFormed(c, s)
  {
    match step
    case Open(g) => g < c.camp.n && s.stages[g].NotStarted?
    case Send(g, order) =>
      && g < c.camp.n && s.stages[g].Sending? && s.stages[g].k < c.camp.n - 1
      && (g !in c.camp.traitors ==> order == s.orders[g])
    case EndSends(g) => g < c.camp.n && s.stages[g].Sending? && s.stages[g].k == c.camp.n - 1
    case Deliver(e) =>
      && e in s.flying && (e.recipient, e.round) in s.channels
      && |s.channels[(e.recipient, e.round)]| < Capacity(c, e.round)
    case Lose(e) => e in s.flying
    case Take(g) =>
      && g < c.camp.n && s.stages[g].Collecting? && |s.stages[g].got| < Need(c, s.round, g)
      && (g, s.round) in s.channels && s.channels[(g, s.round)] != []
    case Decide(g) => g < c.camp.n && s.stages[g].Collecting? && |s.stages[g].got| == Need(c, s.round, g)
    case Barrier => (forall g :: 0 <= g < c.camp.n ==> s.stages[g].Finished?) && s.round < c.rounds
  }

  function OrdersOf(got: seq<Envelope>): seq<string> {
    seq(|got|, i requires 0 <= i < |got| => got[i].order)
  }

  function Chan(s: Net, g: nat): seq<Envelope> {
    if (g, s.round) in s.channels then s.channels[(g, s.round)] else []
  }

  function Decision(c: Config, round: nat, g: nat, own: string, got: seq<Envelope>): string
    requires |got| == Need(c, round, g)
  {
    RoundOrder(g == 0, g in c.camp.traitors, round, own, OrdersOf(got))
  }

  function Apply(c: Config, s: Net, step: Step): Net
    requires WellFormed(c, s) && Enabled(c, s, step)
  {
    match step
    case Open(g) =>
      s.(channels := if HasChannel(s.round, g) then s.channels[(g, s.round) := []] else s.channels,
         stages := s.stages[g := if Sends(s.round, g) then Sending(0) else Collecting([])])
    case Send(g, order) =>
      var to := Peers(c.camp.n, g)[s.stages[g].k];
      s.(flying := s.flying + {Envelope(s.round, g, to, order)},
         sent := s.sent[(s.round, g, to) := order],
         stages := s.stages[g := Sending(s.stages[g].k + 1)])
    case EndSends(g) => s.(stages := s.stages[g := if HasChannel(s.round, g) then Collecting([]) else Finished([])])
    case Deliver(e) =>
      var key := (e.recipient, e.round);
      s.(flying := s.flying - {e}, channels := s.channels[key := s.channels[key] + [e]])
    case Lose(e) => s.(flying := s.flying - {e}, lost := s.lost + {e})
    case Take(g) =>
      var key := (g, s.round);
      s.(stages := s.stages[g := Collecting(s.stages[g].got + [s.channels[key][0]])],
         channels := s.channels[key := s.channels[key][1..]])
    case Decide(g) =>
      var got := s.stages[g].got;
      s.(orders := s.orders[g := Decision(c, s.round, g, s.orders[g], got)], stages := s.stages[g := Finished(got)])
    case Barrier =>
      s.(round := s.round + 1, start := s.orders, stages := seq(c.camp.n, _ => NotStarted))
  }

  predicate IsRun(c: Config, s: Net, steps: seq<Step>)
    requires WellFormed(c, s)
    decreases steps
  {
    steps == [] ||
    (Enabled(c, s, steps[0]) && WellFormed(c, Apply(c, s, steps[0])) && IsRun(c, Apply(c, s, steps[0]), steps[1..]))
  }

  function After(c: Config, s: Net, steps: seq<Step>): (s': Net)
    requires WellFormed(c, s) && IsRun(c, s, steps)
    ensures WellFormed(c, s')
    decreases steps
  {
    if steps == [] then s else After(c, Apply(c, s, steps[0]), steps[1..])
  }

  // ---- Invariant ----

  /** Those who send to `g` in a round. */
  function Senders(c: Config, round: nat, g: nat): set<nat> {
    if round == 1 then (if g == 0 then {} else {0}) else Everyone(c.camp.n) - {g}
  }

  lemma SendersSize(c: Config, round: nat, g: nat)
    requires c.Valid() && g < c.camp.n
    ensures |Senders(c, round, g)| == Need(c, round, g)
    ensures forall p: nat :: p in Senders(c, round, g) ==> p < c.camp.n && p != g && Sends(round, p)
  {
    EveryoneIs(c.camp.n);
  }

  function Got(stage: Stage): seq<Envelope> {
    match stage
    case Collecting(got) => got
    case Finished(got) => got
    case _ => []
  }

  /** Everything that has reached `g` in this round, taken or not. */
  function Seen(c: Config, s: Net, g: nat): seq<Envelope>
    requires WellFormed(c, s) && g < c.camp.n
  {
    Got(s.stages[g]) + Chan(s, g)
  }

  predicate Arrived(seen: seq<Envelope>, sender: nat) {
    exists i :: 0 <= i < |seen| && seen[i].sender == sender
  }

  /** Has `p` handed its message for `q` to the network in this round? */
  predicate HasSent(c: Config, s: Net, p: nat, q: nat)
    requires WellFormed(c, s) && p < c.camp.n
  {
    match s.stages[p]
    case NotStarted => false
    case Sending(k) => exists j :: 0 <= j < k && j < c.camp.n - 1 && Peers(c.camp.n, p)[j] == q
    case Collecting(_) => true
    case Finished(_) => true
  }

  predicate SentOk(c: Config, s: Net)
    requires WellFormed(c, s)
  {
    forall key :: key in s.sent ==>
      && 1 <= key.0 <= s.round && key.1 < c.camp.n
      && (key.0 == s.round ==>
            && Sends(s.round, key.1)
            && HasSent(c, s, key.1, key.2)
            && (key.1 !in c.camp.traitors ==> s.sent[key] == s.start[key.1]))
  }

  predicate OnRecord(s: Net, e: Envelope) {
    && e.round == s.round
    && (e.round, e.sender, e.recipient) in s.sent && s.sent[(e.round, e.sender, e.recipient)] == e.order
  }

  /** A message not yet arrived: on record, for a sender `g` expects and has not heard from. */
  predicate Outstanding(c: Config, s: Net, e: Envelope)
    requires WellFormed(c, s)
  {
    && OnRecord(s, e) && e.recipient < c.camp.n
    && e.sender in Senders(c, s.round, e.recipient)
    && !Arrived(Seen(c, s, e.recipient), e.sender)
  }

  predicate SeenOk(c: Config, s: Net, g: nat)
    requires WellFormed(c, s) && g < c.camp.n
  {
    var seen := Seen(c, s, g);
    && (forall i :: 0 <= i < |seen| ==>
          OnRecord(s, seen[i]) && seen[i].recipient == g && seen[i].sender in Senders(c, s.round, g))
    && (forall i, j :: 0 <= i < j < |seen| ==> seen[i].sender != seen[j].sender)
    && |Got(s.stages[g])| <= Need(c, s.round, g)
  }

  predicate StageOk(c: Config, s: Net, g: nat)
    requires WellFormed(c, s) && g < c.camp.n
  {
    match s.stages[g]
    case NotStarted => s.orders[g] == s.start[g] && (g, s.round) !in s.channels
    case Sending(k) => s.orders[g] == s.start[g] && Sends(s.round, g) && k <= c.camp.n - 1
    case Collecting(_) => s.orders[g] == s.start[g] && HasChannel(s.round, g)
    case Finished(got) =>
      |got| == Need(c, s.round, g) && s.orders[g] == Decision(c, s.round, g, s.start[g], got)
  }

  function LiesOf(sent: map<(nat, nat, nat), string>): nat -> Lies {
    r => (p, g) => if (r, p, g) in sent then sent[(r, p, g)] else ""
  }

  ghost predicate NetInv(c: Config, s: Net) {
    && WellFormed(c, s)
    && s.start == OrdersAfter(c.camp, c.initial, LiesOf(s.sent), s.round - 1)
    && SentOk(c, s)
    && (forall g :: 0 <= g < c.camp.n ==> SeenOk(c, s, g) && StageOk(c, s, g))
    && (forall e :: e in s.flying || e in s.lost ==> Outstanding(c, s, e))
    && s.flying !! s.lost
    && (forall key :: key in s.channels ==> key.1 <= s.round)
  }

  lemma BeginInv(c: Config)
    requires c.Valid()
    ensures NetInv(c, Begin(c))
  {
  }

  // ---- Counting arrivals ----

  function SenderSet(seen: seq<Envelope>): set<nat> {
    set i | 0 <= i < |seen| :: seen[i].sender
  }

  predicate DistinctSenders(seen: seq<Envelope>) {
    forall i, j :: 0 <= i < j < |seen| ==> seen[i].sender != seen[j].sender
  }

  lemma {:induction false} SenderSetSize(seen: seq<Envelope>)
    requires DistinctSenders(seen)
    ensures |SenderSet(seen)| == |seen|
  {
    if seen == [] {
      assert SenderSet(seen) == {};
    } else {
      var init, last := seen[..|seen| - 1], seen[|seen| - 1];
      SenderSetSize(init);
      assert forall i :: 0 <= i < |seen| ==> seen[i] == if i < |init| then init[i] else last;
      assert SenderSet(seen) == SenderSet(init) + {last.sender};
      assert last.sender !in SenderSet(init);
    }
  }

  lemma DistinctInto(part: seq<Envelope>, from: set<nat>)
    requires DistinctSenders(part) && SenderSet(part) <= from
    ensures |part| <= |from|
    ensures |part| == |from| ==> SenderSet(part) == from
  {
    SenderSetSize(part);
    SubsetSize(SenderSet(part), from);
    assert from == SenderSet(part) + (from - SenderSet(part));
    assert |from| == |SenderSet(part)| + |from - SenderSet(part)|;
  }

  lemma PartOfSeen(c: Config, s: Net, g: nat, part: seq<Envelope>)
    requires WellFormed(c, s) && g < c.camp.n && SeenOk(c, s, g) && part <= Seen(c, s, g)
    ensures DistinctSenders(part) && SenderSet(part) <= Senders(c, s.round, g)
  {
  }

  /** A general never sees more messages than it expects; with all of them it has heard from
      everyone it expects. */
  lemma ArrivalsBounded(c: Config, s: Net, g: nat, part: seq<Envelope>)
    requires WellFormed(c, s) && g < c.camp.n && SeenOk(c, s, g) && part <= Seen(c, s, g)
    ensures |part| <= Need(c, s.round, g)
    ensures |part| == Need(c, s.round, g) ==> SenderSet(part) == Senders(c, s.round, g)
    ensures DistinctSenders(part)
  {
    hide Seen, SeenOk, Senders;
    PartOfSeen(c, s, g, part);
    SendersSize(c, s.round, g);
    DistinctInto(part, Senders(c, s.round, g));
  }

  lemma AllArrived(c: Config, s: Net, g: nat, part: seq<Envelope>, sender: nat)
    requires WellFormed(c, s) && g < c.camp.n && SeenOk(c, s, g) && part <= Seen(c, s, g)
    requires sender in Senders(c, s.round, g)
    ensures |part| == Need(c, s.round, g) ==> Arrived(Seen(c, s, g), sender)
  {
    ArrivalsBounded(c, s, g, part);
    if |part| == Need(c, s.round, g) {
      var i :| 0 <= i < |part| && part[i].sender == sender;
      assert Seen(c, s, g)[i].sender == sender;
    }
  }

  /** A finished general is owed nothing. */
  lemma FinishedOwedNothing(c: Config, s: Net, e: Envelope)
    requires NetInv(c, s) && (e in s.flying || e in s.lost)
    ensures e.recipient < c.camp.n && !s.stages[e.recipient].Finished?
  {
    assert Outstanding(c, s, e);
    assert SeenOk(c, s, e.recipient) && StageOk(c, s, e.recipient);
    AllArrived(c, s, e.recipient, Got(s.stages[e.recipient]), e.sender);
  }

  /** No message handler ever blocks: a channel that is owed a message has room for it. */
  lemma HandlerNeverBlocks(c: Config, s: Net, e: Envelope)
    requires NetInv(c, s) && e in s.flying && (e.recipient, e.round) in s.channels
    ensures |s.channels[(e.recipient, e.round)]| < Capacity(c, e.round) == if e.round == 1 then 1 else c.camp.n - 1
  {
    assert Outstanding(c, s, e);
    assert SeenOk(c, s, e.recipient);
    var seen := Seen(c, s, e.recipient);
    AllArrived(c, s, e.recipient, seen, e.sender);
    ArrivalsBounded(c, s, e.recipient, seen);
  }

  // ---- A finished general has computed the synchronous round ----

  /** A message on record says what its sender says in the synchronous round. */
  lemma RecordIsSaid(c: Config, s: Net, e: Envelope, g: nat)
    requires WellFormed(c, s) && SentOk(c, s) && OnRecord(s, e) && e.recipient == g
    ensures e.sender < c.camp.n && e.order == Said(c.camp, s.start, LiesOf(s.sent)(s.round), e.sender, g)
  {
  }

  /** A finished general has taken exactly one message from everyone it expects. */
  lemma FinishedHasAll(c: Config, s: Net, g: nat)
    requires NetInv(c, s) && g < c.camp.n && s.stages[g].Finished?
    ensures var got := s.stages[g].got;
            && |got| == Need(c, s.round, g) && s.orders[g] == Decision(c, s.round, g, s.start[g], got)
            && DistinctSenders(got) && SenderSet(got) == Senders(c, s.round, g)
            && forall i :: 0 <= i < |got| ==> OnRecord(s, got[i]) && got[i].recipient == g
  {
    var got := s.stages[g].got;
    assert StageOk(c, s, g) && SeenOk(c, s, g);
    ArrivalsBounded(c, s, g, got);
    assert forall i :: 0 <= i < |got| ==> got[i] == Seen(c, s, g)[i];
  }

  /** Same messages, any order of arrival: the same decision. */
  lemma DecisionIsSynchronous(c: Config, s: Net, g: nat)
    requires NetInv(c, s) && g < c.camp.n && s.stages[g].Finished?
    ensures s.orders[g] == OrdersAfter(c.camp, c.initial, LiesOf(s.sent), s.round)[g]
  {
    hide Decision, SentOk, SeenOk, StageOk, Outstanding, Said, FirstRound, VoteRound, OnRecord, Senders;
    var got := s.stages[g].got;
    FinishedHasAll(c, s, g);
    forall i | 0 <= i < |got|
      ensures got[i].sender < c.camp.n
      ensures got[i].order == Said(c.camp, s.start, LiesOf(s.sent)(s.round), got[i].sender, g)
    {
      RecordIsSaid(c, s, got[i], g);
    }
    SynchronousDecision(c, s.round, s.start, LiesOf(s.sent)(s.round), g, got);
  }

  lemma SynchronousDecision(c: Config, round: nat, orders: seq<string>, lies: Lies, g: nat, got: seq<Envelope>)
    requires c.Valid() && |orders| == c.camp.n && g < c.camp.n && round >= 1 && |got| == Need(c, round, g)
    requires DistinctSenders(got) && SenderSet(got) == Senders(c, round, g)
    requires forall i :: 0 <= i < |got| ==>
      got[i].sender < c.camp.n && got[i].order == Said(c.camp, orders, lies, got[i].sender, g)
    ensures Decision(c, round, g, orders[g], got)
         == (if round == 1 then FirstRound(c.camp, orders, lies) else VoteRound(c.camp, orders, lies))[g]
  {
    if round != 1 {
      SameBallots(c.camp, orders, lies, g, got);
    } else if g != 0 {
      assert got[0].sender in SenderSet(got);
    }
  }

  lemma SameBallots(camp: Camp, orders: seq<string>, lies: Lies, g: nat, got: seq<Envelope>)
    requires |orders| == camp.n && g < camp.n
    requires DistinctSenders(got) && SenderSet(got) == Everyone(camp.n) - {g}
    requires forall i :: 0 <= i < |got| ==>
      got[i].sender < camp.n && got[i].order == Said(camp, orders, lies, got[i].sender, g)
    ensures Majority(OrdersOf(got) + [orders[g]]) == Majority(Inbox(camp, orders, lies, g) + [orders[g]])
  {
    forall v: string
      ensures multiset(OrdersOf(got) + [orders[g]])[v] == multiset(Inbox(camp, orders, lies, g) + [orders[g]])[v]
    {
      SameCount(camp, orders, lies, g, got, v);
    }
  }

  lemma SameCount(camp: Camp, orders: seq<string>, lies: Lies, g: nat, got: seq<Envelope>, v: string)
    requires |orders| == camp.n && g < camp.n
    requires DistinctSenders(got) && SenderSet(got) == Everyone(camp.n) - {g}
    requires forall i :: 0 <= i < |got| ==>
      got[i].sender < camp.n && got[i].order == Said(camp, orders, lies, got[i].sender, g)
    ensures multiset(OrdersOf(got) + [orders[g]])[v] == Votes(camp, orders, lies, g, v)
  {
    hide Said, Inbox;
    var ids := seq(|got|, i requires 0 <= i < |got| => got[i].sender) + [g];
    var f := Ballot(camp, orders, lies, g);
    EveryoneIs(camp.n);
    assert forall i :: 0 <= i < |got| ==> ids[i] == got[i].sender && ids[i] in SenderSet(got);
    CountSenders(ids, f, v);
    assert Heard(ids, f) == OrdersOf(got) + [orders[g]];
    forall p: nat ensures p in ids <==> p < camp.n {
      if p < camp.n && p != g {
        assert p in SenderSet(got);
        var i :| 0 <= i < |got| && got[i].sender == p;
        assert ids[i] == p;
      }
      if p == g { assert ids[|got|] == p; }
    }
    VotesAreVoters(camp, orders, lies, g, v);
    assert SayersOf(ids, f, v) == Voters(camp, orders, lies, g, v);
  }

  // ---- Steps keep the invariant ----

  /** The messages of rounds up to `r` are the same. */
  predicate SameUpTo(a: map<(nat, nat, nat), string>, b: map<(nat, nat, nat), string>, r: nat) {
    && (forall key :: key in a && key.0 <= r ==> key in b && b[key] == a[key])
    && (forall key :: key in b && key.0 <= r ==> key in a)
  }

  lemma RoundsFrame(camp: Camp, orders: seq<string>, a: Lies, b: Lies)
    requires camp.n > 0 && |orders| == camp.n
    requires forall p: nat, g: nat :: a(p, g) == b(p, g)
    ensures FirstRound(camp, orders, a) == FirstRound(camp, orders, b)
    ensures VoteRound(camp, orders, a) == VoteRound(camp, orders, b)
  {
    forall g: nat | g < camp.n ensures Inbox(camp, orders, a, g) == Inbox(camp, orders, b, g) {
    }
  }

  /** Past rounds do not depend on what is sent later. */
  lemma {:induction false} PastRounds(c: Config, a: map<(nat, nat, nat), string>, b: map<(nat, nat, nat), string>, r: nat)
    requires c.Valid() && SameUpTo(a, b, r)
    ensures OrdersAfter(c.camp, c.initial, LiesOf(a), r) == OrdersAfter(c.camp, c.initial, LiesOf(b), r)
  {
    hide FirstRound, VoteRound;
    forall p: nat, g: nat ensures LiesOf(a)(r)(p, g) == LiesOf(b)(r)(p, g) {
      assert (r, p, g) in a <==> (r, p, g) in b;
    }
    if r == 1 {
      RoundsFrame(c.camp, c.initial, LiesOf(a)(1), LiesOf(b)(1));
    } else if r > 1 {
      PastRounds(c, a, b, r - 1);
      RoundsFrame(c.camp, OrdersAfter(c.camp, c.initial, LiesOf(a), r - 1), LiesOf(a)(r), LiesOf(b)(r));
    }
  }
}
