/** The synchronous meaning of the simulation: one round as a function of the orders before it and
    of whatever the traitors choose to say, and what rounds do to the honest generals. */
module ByzantineRounds {

  const ATTACK := "Attack"
  const RETREAT := "Retreat"

  /** Attack if it has strictly more votes than Retreat; other strings count for neither. */
  function Majority(messages: seq<string>): string {
    if multiset(messages)[ATTACK] > multiset(messages)[RETREAT] then ATTACK else RETREAT
  }

  /** Generals 0 .. n-1; general 0 is the commander. */
  datatype Camp = Camp(n: nat, traitors: set<nat>) {
    predicate Valid() {
      n > 0 && forall p :: p in traitors ==> p < n
    }

    predicate Honest(p: nat) {
      p < n && p !in traitors
    }
  }

  /** What traitor `p` tells general `g` in a round. */
  type Lies = (nat, nat) -> string

  /** The message from `p` to `g`: honest generals send their order, traitors anything. */
  function Said(camp: Camp, orders: seq<string>, lies: Lies, p: nat, g: nat): string
    requires |orders| == camp.n && p < camp.n
  {
    if p in camp.traitors then lies(p, g) else orders[p]
  }

  /** All generals but `g`, by position. */
  function Peers(n: nat, g: nat): seq<nat>
    requires g < n
  {
    seq(n - 1, k requires 0 <= k < n - 1 => if k < g then k else k + 1)
  }

  function Inbox(camp: Camp, orders: seq<string>, lies: Lies, g: nat): seq<string>
    requires |orders| == camp.n && g < camp.n
  {
    seq(camp.n - 1, k requires 0 <= k < camp.n - 1 => Said(camp, orders, lies, Peers(camp.n, g)[k], g))
  }

  /** A general's order after it has collected `received`: its own order votes too, and a traitor
      keeps its order. */
  function NextOrder(isTraitor: bool, own: string, received: seq<string>): string {
    if isTraitor then own else Majority(received + [own])
  }

  /** Rounds 2 and later. */
  function VoteRound(camp: Camp, orders: seq<string>, lies: Lies): seq<string>
    requires |orders| == camp.n
  {
    seq(camp.n, g requires 0 <= g < camp.n => NextOrder(g in camp.traitors, orders[g], Inbox(camp, orders, lies, g)))
  }

  /** Round 1: honest lieutenants adopt what the commander tells them. */
  function FirstRound(camp: Camp, orders: seq<string>, lies: Lies): seq<string>
    requires |orders| == camp.n && camp.n > 0
  {
    seq(camp.n, g requires 0 <= g < camp.n =>
      if g == 0 || g in camp.traitors then orders[g] else Said(camp, orders, lies, 0, g))
  }

  /** The orders after `r` rounds; `lies(r)` is what the traitors say in round `r`. */
  function OrdersAfter(camp: Camp, start: seq<string>, lies: nat -> Lies, r: nat): (orders: seq<string>)
    requires |start| == camp.n && camp.n > 0
    ensures |orders| == camp.n
  {
    if r == 0 then start
    else if r == 1 then FirstRound(camp, start, lies(1))
    else VoteRound(camp, OrdersAfter(camp, start, lies, r - 1), lies(r))
  }

  /** A traitor ignores what it hears: it keeps the order it starts with; and so does the commander through
      the first round. */
  lemma {:induction false} TraitorsKeep(camp: Camp, start: seq<string>, lies: nat -> Lies, r: nat, g: nat)
    requires |start| == camp.n && g < camp.n
    ensures g in camp.traitors ==> OrdersAfter(camp, start, lies, r)[g] == start[g]
    ensures OrdersAfter(camp, start, lies, 1)[0] == start[0]
  {
    hide Majority, Said;
    if r > 1 {
      TraitorsKeep(camp, start, lies, r - 1, g);
    }
  }

  // ---- Counting votes ----

  predicate DistinctIds(ids: seq<nat>) {
    forall i, j :: 0 <= i < j < |ids| ==> ids[i] != ids[j]
  }

  function Heard(ids: seq<nat>, f: nat -> string): seq<string> {
    seq(|ids|, i requires 0 <= i < |ids| => f(ids[i]))
  }

  function SayersOf(ids: seq<nat>, f: nat -> string, v: string): set<nat> {
    set p | p in ids && f(p) == v
  }

  lemma SayersStep(ids: seq<nat>, last: nat, f: nat -> string, v: string)
    requires last !in ids
    ensures |SayersOf(ids + [last], f, v)| == |SayersOf(ids, f, v)| + if f(last) == v then 1 else 0
  {
    assert SayersOf(ids + [last], f, v) == SayersOf(ids, f, v) + if f(last) == v then {last} else {};
  }

  lemma NoSayers(f: nat -> string, v: string)
    ensures SayersOf([], f, v) == {}
  {
  }

  /** Counting a string among what distinct senders say is counting senders. */
  lemma {:induction false} CountSenders(ids: seq<nat>, f: nat -> string, v: string)
    requires DistinctIds(ids)
    ensures multiset(Heard(ids, f))[v] == |SayersOf(ids, f, v)|
  {
    hide SayersOf;
    if ids == [] {
      NoSayers(f, v);
    } else {
      var init, last := ids[..|ids| - 1], ids[|ids| - 1];
      CountSenders(init, f, v);
      assert Heard(ids, f) == Heard(init, f) + [f(last)];
      assert ids == init + [last];
      SayersStep(init, last, f, v);
    }
  }

  /** What general `p` contributes to the vote of `g`: its own order if they are the same. */
  function Ballot(camp: Camp, orders: seq<string>, lies: Lies, g: nat): nat -> string
    requires |orders| == camp.n && g < camp.n
  {
    (p: nat) => if p == g then orders[g] else if p < camp.n then Said(camp, orders, lies, p, g) else ""
  }

  function Voters(camp: Camp, orders: seq<string>, lies: Lies, g: nat, v: string): set<nat>
    requires |orders| == camp.n && g < camp.n
  {
    set p | 0 <= p < camp.n && Ballot(camp, orders, lies, g)(p) == v
  }

  /** Number of votes for `v` that general `g` counts. */
  function Votes(camp: Camp, orders: seq<string>, lies: Lies, g: nat, v: string): nat
    requires |orders| == camp.n && g < camp.n
  {
    multiset(Inbox(camp, orders, lies, g) + [orders[g]])[v]
  }

  lemma PeersAre(n: nat, g: nat)
    requires g < n
    ensures DistinctIds(Peers(n, g)) && g !in Peers(n, g)
    ensures forall p: nat :: p in Peers(n, g) <==> p < n && p != g
  {
    var peers := Peers(n, g);
    forall p: nat | p < n && p != g ensures p in peers {
      assert peers[if p < g then p else p - 1] == p;
    }
  }

  lemma VotesAreVoters(camp: Camp, orders: seq<string>, lies: Lies, g: nat, v: string)
    requires |orders| == camp.n && g < camp.n
    ensures Votes(camp, orders, lies, g, v) == |Voters(camp, orders, lies, g, v)|
  {
    var ids := Peers(camp.n, g) + [g];
    var f := Ballot(camp, orders, lies, g);
    PeersAre(camp.n, g);
    assert DistinctIds(ids);
    CountSenders(ids, f, v);
    forall k | 0 <= k < camp.n - 1 ensures f(Peers(camp.n, g)[k]) == Inbox(camp, orders, lies, g)[k] {
      assert Peers(camp.n, g)[k] in Peers(camp.n, g);
    }
    assert Heard(ids, f) == Inbox(camp, orders, lies, g) + [orders[g]];
    assert SayersOf(ids, f, v) == Voters(camp, orders, lies, g, v);
  }

  function HonestFor(camp: Camp, orders: seq<string>, v: string): set<nat>
    requires |orders| == camp.n
  {
    set p | 0 <= p < camp.n && p !in camp.traitors && orders[p] == v
  }

  lemma SubsetSize<T>(a: set<T>, b: set<T>)
    requires a <= b
    ensures |a| <= |b|
  {
    assert |b| == |a| + |b - a| by { assert b == a + (b - a); }
  }

  /** An honest general counts every honest vote, and at most one more per traitor. */
  lemma VoteBounds(camp: Camp, orders: seq<string>, lies: Lies, g: nat, v: string)
    requires camp.Valid() && |orders| == camp.n && camp.Honest(g)
    ensures |HonestFor(camp, orders, v)| <= Votes(camp, orders, lies, g, v) <= |HonestFor(camp, orders, v)| + |camp.traitors|
  {
    var voters, honest := Voters(camp, orders, lies, g, v), HonestFor(camp, orders, v);
    VotesAreVoters(camp, orders, lies, g, v);
    assert honest <= voters;
    var lying := voters - honest;
    assert lying <= camp.traitors;
    SubsetSize(lying, camp.traitors);
    assert voters == honest + lying;
  }

  /** Traitors who all tell `g` the string `v` add exactly their number to it and nothing to
      any other string. */
  lemma UnanimousLies(camp: Camp, orders: seq<string>, lies: Lies, g: nat, v: string, w: string)
    requires camp.Valid() && |orders| == camp.n && camp.Honest(g)
    requires forall p :: p in camp.traitors ==> lies(p, g) == v
    ensures Votes(camp, orders, lies, g, w) == |HonestFor(camp, orders, w)| + if w == v then |camp.traitors| else 0
  {
    var voters, honest := Voters(camp, orders, lies, g, w), HonestFor(camp, orders, w);
    VotesAreVoters(camp, orders, lies, g, w);
    if w == v {
      assert voters == honest + camp.traitors;
      assert honest !! camp.traitors;
    } else {
      assert voters == honest;
    }
  }

  // ---- One round ----

  predicate AllHonestHold(camp: Camp, orders: seq<string>, v: string)
    requires |orders| == camp.n
  {
    forall g :: 0 <= g < camp.n && camp.Honest(g) ==> orders[g] == v
  }

  /** Bounded divergence: in one round the Attack counts of two honest generals differ by at most
      the number of traitors. */
  lemma BoundedDivergence(camp: Camp, orders: seq<string>, lies: Lies, g: nat, h: nat)
    requires camp.Valid() && |orders| == camp.n && camp.Honest(g) && camp.Honest(h)
    ensures Votes(camp, orders, lies, g, ATTACK) - Votes(camp, orders, lies, h, ATTACK) <= |camp.traitors|
  {
    VoteBounds(camp, orders, lies, g, ATTACK);
    VoteBounds(camp, orders, lies, h, ATTACK);
  }

  predicate AttackAhead(camp: Camp, orders: seq<string>)
    requires |orders| == camp.n
  {
    |HonestFor(camp, orders, ATTACK)| > |HonestFor(camp, orders, RETREAT)| + |camp.traitors|
  }

  predicate RetreatAhead(camp: Camp, orders: seq<string>)
    requires |orders| == camp.n
  {
    |HonestFor(camp, orders, RETREAT)| >= |HonestFor(camp, orders, ATTACK)| + |camp.traitors|
  }

  /** Sharp convergence, the sure side: whatever the traitors say. */
  lemma SureDecision(camp: Camp, orders: seq<string>, lies: Lies)
    requires camp.Valid() && |orders| == camp.n
    ensures AttackAhead(camp, orders) ==> AllHonestHold(camp, VoteRound(camp, orders, lies), ATTACK)
    ensures RetreatAhead(camp, orders) ==> AllHonestHold(camp, VoteRound(camp, orders, lies), RETREAT)
  {
    forall g: nat | camp.Honest(g)
      ensures AttackAhead(camp, orders) ==> VoteRound(camp, orders, lies)[g] == ATTACK
      ensures RetreatAhead(camp, orders) ==> VoteRound(camp, orders, lies)[g] == RETREAT
    {
      VoteBounds(camp, orders, lies, g, ATTACK);
      VoteBounds(camp, orders, lies, g, RETREAT);
    }
  }

  /** Lies that make general `g` count every traitor for Attack and everyone else for Retreat. */
  function SplitLies(g: nat): Lies {
    (p, q) => if q == g then ATTACK else RETREAT
  }

  /** Sharp convergence, the open side: between the two thresholds the traitors can make any one
      honest general attack and every other honest general retreat. */
  lemma OpenDecision(camp: Camp, orders: seq<string>, g: nat, h: nat)
    requires camp.Valid() && |orders| == camp.n && camp.Honest(g) && camp.Honest(h) && g != h
    requires !AttackAhead(camp, orders) && !RetreatAhead(camp, orders)
    ensures VoteRound(camp, orders, SplitLies(g))[g] == ATTACK
    ensures VoteRound(camp, orders, SplitLies(g))[h] == RETREAT
  {
    UnanimousLies(camp, orders, SplitLies(g), g, ATTACK, ATTACK);
    UnanimousLies(camp, orders, SplitLies(g), g, ATTACK, RETREAT);
    UnanimousLies(camp, orders, SplitLies(g), h, RETREAT, ATTACK);
    UnanimousLies(camp, orders, SplitLies(g), h, RETREAT, RETREAT);
  }

  ghost predicate AlwaysDecides(camp: Camp, orders: seq<string>, v: string)
    requires |orders| == camp.n
  {
    forall lies: Lies :: AllHonestHold(camp, VoteRound(camp, orders, lies), v)
  }

  ghost predicate AlwaysAgree(camp: Camp, orders: seq<string>)
    requires |orders| == camp.n
  {
    forall lies: Lies, g, h :: 0 <= g < camp.n && 0 <= h < camp.n && camp.Honest(g) && camp.Honest(h) ==>
      VoteRound(camp, orders, lies)[g] == VoteRound(camp, orders, lies)[h]
  }

  /** With two honest generals or more, a round makes them agree whatever the traitors say exactly
      when one of the two thresholds is met. */
  lemma AgreementIff(camp: Camp, orders: seq<string>, g: nat, h: nat)
    requires camp.Valid() && |orders| == camp.n && camp.Honest(g) && camp.Honest(h) && g != h
    ensures AlwaysAgree(camp, orders) <==> AttackAhead(camp, orders) || RetreatAhead(camp, orders)
  {
    if AttackAhead(camp, orders) || RetreatAhead(camp, orders) {
      forall lies: Lies, a, b | 0 <= a < camp.n && 0 <= b < camp.n && camp.Honest(a) && camp.Honest(b)
        ensures VoteRound(camp, orders, lies)[a] == VoteRound(camp, orders, lies)[b]
      {
        SureDecision(camp, orders, lies);
      }
    } else {
      OpenDecision(camp, orders, g, h);
      assert VoteRound(camp, orders, SplitLies(g))[g] != VoteRound(camp, orders, SplitLies(g))[h];
    }
  }

  /** The decision itself is sure exactly beyond its own threshold. */
  lemma DecisionIff(camp: Camp, orders: seq<string>, g: nat)
    requires camp.Valid() && |orders| == camp.n && camp.Honest(g)
    ensures AlwaysDecides(camp, orders, ATTACK) <==> AttackAhead(camp, orders)
    ensures AlwaysDecides(camp, orders, RETREAT) <==> RetreatAhead(camp, orders)
  {
    forall lies: Lies
      ensures AttackAhead(camp, orders) ==> AllHonestHold(camp, VoteRound(camp, orders, lies), ATTACK)
      ensures RetreatAhead(camp, orders) ==> AllHonestHold(camp, VoteRound(camp, orders, lies), RETREAT)
    {
      SureDecision(camp, orders, lies);
    }
    if AlwaysDecides(camp, orders, ATTACK) { DownLies(camp, orders, g); }
    if AlwaysDecides(camp, orders, RETREAT) { UpLies(camp, orders, g); }
  }

  lemma DownLies(camp: Camp, orders: seq<string>, g: nat)
    requires camp.Valid() && |orders| == camp.n && camp.Honest(g)
    requires AlwaysDecides(camp, orders, ATTACK)
    ensures AttackAhead(camp, orders)
  {
    var down: Lies := (p, q) => RETREAT;
    UnanimousLies(camp, orders, down, g, RETREAT, ATTACK);
    UnanimousLies(camp, orders, down, g, RETREAT, RETREAT);
    assert AllHonestHold(camp, VoteRound(camp, orders, down), ATTACK);
    assert VoteRound(camp, orders, down)[g] == ATTACK;
  }

  lemma UpLies(camp: Camp, orders: seq<string>, g: nat)
    requires camp.Valid() && |orders| == camp.n && camp.Honest(g)
    requires AlwaysDecides(camp, orders, RETREAT)
    ensures RetreatAhead(camp, orders)
  {
    var up: Lies := (p, q) => ATTACK;
    UnanimousLies(camp, orders, up, g, ATTACK, ATTACK);
    UnanimousLies(camp, orders, up, g, ATTACK, RETREAT);
    assert AllHonestHold(camp, VoteRound(camp, orders, up), RETREAT);
    assert VoteRound(camp, orders, up)[g] == RETREAT;
  }

  // ---- All rounds ----

  function Other(v: string): string {
    if v == ATTACK then RETREAT else ATTACK
  }

  predicate IsOrder(v: string) {
    v == ATTACK || v == RETREAT
  }

  lemma HonestCount(camp: Camp, orders: seq<string>, v: string)
    requires camp.Valid() && |orders| == camp.n && IsOrder(v) && AllHonestHold(camp, orders, v)
    ensures |HonestFor(camp, orders, v)| == camp.n - |camp.traitors|
    ensures |HonestFor(camp, orders, Other(v))| == 0
  {
    var all := Everyone(camp.n);
    EveryoneIs(camp.n);
    assert HonestFor(camp, orders, v) == all - camp.traitors;
    assert all == (all - camp.traitors) + camp.traitors;
    assert HonestFor(camp, orders, Other(v)) == {};
  }

  function Everyone(n: nat): set<nat> {
    if n == 0 then {} else Everyone(n - 1) + {n - 1}
  }

  lemma {:induction false} EveryoneIs(n: nat)
    ensures forall p: nat :: p in Everyone(n) <==> p < n
    ensures |Everyone(n)| == n
  {
    if n != 0 {
      EveryoneIs(n - 1);
    }
  }

  /** Once the honest agree on an order they keep it, and each of their votes is won by more than
      `t`. */
  lemma AgreementKept(camp: Camp, orders: seq<string>, lies: Lies, v: string, t: nat)
    requires camp.Valid() && |orders| == camp.n && IsOrder(v) && AllHonestHold(camp, orders, v)
    requires camp.n > 3 * t && |camp.traitors| <= t
    ensures AllHonestHold(camp, VoteRound(camp, orders, lies), v)
    ensures forall g :: 0 <= g < camp.n && camp.Honest(g) ==>
              Votes(camp, orders, lies, g, v) > Votes(camp, orders, lies, g, Other(v)) + t
  {
    HonestCount(camp, orders, v);
    SureDecision(camp, orders, lies);
    forall g | 0 <= g < camp.n && camp.Honest(g)
      ensures Votes(camp, orders, lies, g, v) > Votes(camp, orders, lies, g, Other(v)) + t
    {
      VoteBounds(camp, orders, lies, g, v);
      VoteBounds(camp, orders, lies, g, Other(v));
    }
  }

  /** Convergence lasts: whatever first makes the honest agree after a round, they agree after
      every later round. */
  lemma {:induction false} AgreementPersists(camp: Camp, start: seq<string>, lies: nat -> Lies, v: string, t: nat, r: nat, later: nat)
    requires camp.Valid() && |start| == camp.n && IsOrder(v) && camp.n > 3 * t && |camp.traitors| <= t
    requires 1 <= r <= later && AllHonestHold(camp, OrdersAfter(camp, start, lies, r), v)
    ensures AllHonestHold(camp, OrdersAfter(camp, start, lies, later), v)
  {
    hide VoteRound, FirstRound, AllHonestHold;
    if r < later {
      AgreementPersists(camp, start, lies, v, t, r, later - 1);
      AgreementKept(camp, OrdersAfter(camp, start, lies, later - 1), lies(later), v, t);
    }
  }

  /** Validity and agreement: with an honest commander holding an order, more than 3t generals and
      at most t traitors, every honest general holds that order after every round, and wins every
      vote by more than t. */
  lemma Validity(camp: Camp, start: seq<string>, lies: nat -> Lies, t: nat, r: nat)
    requires camp.Valid() && |start| == camp.n && camp.n > 3 * t && |camp.traitors| <= t
    requires camp.Honest(0) && IsOrder(start[0]) && r >= 1
    ensures AllHonestHold(camp, OrdersAfter(camp, start, lies, r), start[0])
    ensures r >= 2 ==> forall g :: 0 <= g < camp.n && camp.Honest(g) ==>
              var before := OrdersAfter(camp, start, lies, r - 1);
              Votes(camp, before, lies(r), g, start[0]) > Votes(camp, before, lies(r), g, Other(start[0])) + t
  {
    assert AllHonestHold(camp, OrdersAfter(camp, start, lies, 1), start[0]);
    AgreementPersists(camp, start, lies, start[0], t, 1, r);
    if r >= 2 {
      AgreementPersists(camp, start, lies, start[0], t, 1, r - 1);
      AgreementKept(camp, OrdersAfter(camp, start, lies, r - 1), lies(r), start[0], t);
    }
  }

  // ---- A traitorous commander ----

  function HonestOnes(camp: Camp): set<nat> {
    Everyone(camp.n) - camp.traitors
  }

  lemma {:induction false} SubsetOfSize(s: set<nat>, k: nat) returns (part: set<nat>)
    requires k <= |s|
    ensures part <= s && |part| == k
  {
    if k == 0 {
      part := {};
    } else {
      var x :| x in s;
      var rest := SubsetOfSize(s - {x}, k - 1);
      part := rest + {x};
    }
  }

  /** In every round the traitors, commander included, tell one camp to attack and everyone else to
      retreat. */
  function Divide(attackers: set<nat>): nat -> Lies {
    r => (p, g) => if g in attackers then ATTACK else RETREAT
  }

  /** The honest generals are split as the traitors want them. */
  predicate Divided(camp: Camp, orders: seq<string>, attackers: set<nat>)
    requires |orders| == camp.n
  {
    forall g :: 0 <= g < camp.n && camp.Honest(g) ==> orders[g] == if g in attackers then ATTACK else RETREAT
  }

  lemma DividedCounts(camp: Camp, orders: seq<string>, attackers: set<nat>)
    requires camp.Valid() && |orders| == camp.n && attackers <= HonestOnes(camp) && Divided(camp, orders, attackers)
    ensures |HonestFor(camp, orders, ATTACK)| == |attackers|
    ensures |HonestFor(camp, orders, RETREAT)| == |HonestOnes(camp)| - |attackers|
  {
    EveryoneIs(camp.n);
    assert HonestFor(camp, orders, ATTACK) == attackers;
    assert HonestFor(camp, orders, RETREAT) == HonestOnes(camp) - attackers;
    assert HonestOnes(camp) == attackers + (HonestOnes(camp) - attackers);
  }

  /** Halves that differ by at most one stay apart: a single traitor tips both. */
  lemma DividedStays(camp: Camp, orders: seq<string>, attackers: set<nat>)
    requires camp.Valid() && |orders| == camp.n && attackers <= HonestOnes(camp) && Divided(camp, orders, attackers)
    requires |camp.traitors| > 0 && |HonestOnes(camp)| <= 2 * |attackers| <= |HonestOnes(camp)| + 1
    ensures Divided(camp, VoteRound(camp, orders, Divide(attackers)(0)), attackers)
  {
    var lies := Divide(attackers)(0);
    DividedCounts(camp, orders, attackers);
    forall g: nat | camp.Honest(g)
      ensures VoteRound(camp, orders, lies)[g] == if g in attackers then ATTACK else RETREAT
    {
      var v := if g in attackers then ATTACK else RETREAT;
      UnanimousLies(camp, orders, lies, g, v, ATTACK);
      UnanimousLies(camp, orders, lies, g, v, RETREAT);
    }
  }

  lemma {:induction false} DividedForGood(camp: Camp, start: seq<string>, attackers: set<nat>, r: nat)
    requires camp.Valid() && |start| == camp.n && 0 in camp.traitors && attackers <= HonestOnes(camp) && r >= 1
    requires |HonestOnes(camp)| <= 2 * |attackers| <= |HonestOnes(camp)| + 1
    ensures Divided(camp, OrdersAfter(camp, start, Divide(attackers), r), attackers)
  {
    hide VoteRound;
    assert |camp.traitors| > 0;
    if r > 1 {
      DividedForGood(camp, start, attackers, r - 1);
      DividedStays(camp, OrdersAfter(camp, start, Divide(attackers), r - 1), attackers);
      assert Divide(attackers)(r) == Divide(attackers)(0);
    }
  }

  /** The traitors use nothing but the two orders. */
  ghost predicate TwoOrders(lies: nat -> Lies) {
    forall r: nat, p: nat, g: nat :: IsOrder(lies(r)(p, g))
  }

  /** A traitorous commander, with two honest generals or more, can split two of them for good: there
      are lies, made of the two orders only, and two honest generals that hold different orders after
      every round, whatever the orders at the start. */
  lemma TraitorCommanderSplits(camp: Camp, start: seq<string>) returns (lies: nat -> Lies, x: nat, y: nat)
    requires camp.Valid() && |start| == camp.n && 0 in camp.traitors && |HonestOnes(camp)| >= 2
    ensures TwoOrders(lies) && camp.Honest(x) && camp.Honest(y)
    ensures forall r: nat :: r >= 1 ==>
              OrdersAfter(camp, start, lies, r)[x] == ATTACK && OrdersAfter(camp, start, lies, r)[y] == RETREAT
  {
    hide VoteRound, FirstRound, OrdersAfter, Divide;
    var attackers: set<nat>;
    attackers, x, y := Halves(camp);
    lies := Divide(attackers);
    DivideSpeaks(attackers);
    forall r: nat | r >= 1
      ensures OrdersAfter(camp, start, lies, r)[x] == ATTACK && OrdersAfter(camp, start, lies, r)[y] == RETREAT
    {
      DividedForGood(camp, start, attackers, r);
    }
  }

  lemma DivideSpeaks(attackers: set<nat>)
    ensures TwoOrders(Divide(attackers))
  {
  }

  lemma Halves(camp: Camp) returns (attackers: set<nat>, x: nat, y: nat)
    requires camp.Valid() && |HonestOnes(camp)| >= 2
    ensures attackers <= HonestOnes(camp) && |HonestOnes(camp)| <= 2 * |attackers| <= |HonestOnes(camp)| + 1
    ensures camp.Honest(x) && camp.Honest(y) && x in attackers && y !in attackers
  {
    var honest := HonestOnes(camp);
    EveryoneIs(camp.n);
    attackers := SubsetOfSize(honest, (|honest| + 1) / 2);
    x :| x in attackers;
    assert honest == attackers + (honest - attackers);
    y :| y in honest - attackers;
  }

  predicate HonestAgree(camp: Camp, orders: seq<string>)
    requires |orders| == camp.n
  {
    forall g, h :: 0 <= g < camp.n && 0 <= h < camp.n && camp.Honest(g) && camp.Honest(h) ==> orders[g] == orders[h]
  }

  /** Whatever the traitors say, the honest generals agree after round `r`. */
  ghost predicate AlwaysAgreeAfter(camp: Camp, start: seq<string>, r: nat)
    requires camp.Valid() && |start| == camp.n
  {
    forall lies: nat -> Lies :: HonestAgree(camp, OrdersAfter(camp, start, lies, r))
  }

  /** The exact condition for the whole execution: with more than 3t generals, at most t traitors and a
      commander who holds an order, the honest generals agree after a round (the last one, or any
      other) of every execution if and only if the commander is honest. */
  lemma AgreementIffHonestCommander(camp: Camp, start: seq<string>, t: nat, r: nat)
    requires camp.Valid() && |start| == camp.n && camp.n > 3 * t && |camp.traitors| <= t && IsOrder(start[0])
    requires r >= 1
    ensures AlwaysAgreeAfter(camp, start, r) <==> camp.Honest(0)
  {
    hide VoteRound, FirstRound, OrdersAfter;
    if camp.Honest(0) {
      forall lies: nat -> Lies ensures HonestAgree(camp, OrdersAfter(camp, start, lies, r)) {
        Validity(camp, start, lies, t, r);
      }
    } else {
      EveryoneIs(camp.n);
      assert Everyone(camp.n) == HonestOnes(camp) + camp.traitors;
      var lies, x, y := TraitorCommanderSplits(camp, start);
      assert OrdersAfter(camp, start, lies, r)[x] != OrdersAfter(camp, start, lies, r)[y];
      assert !HonestAgree(camp, OrdersAfter(camp, start, lies, r));
    }
  }
}
