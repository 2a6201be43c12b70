/** The generals as objects: their message handler, one round of their loop, and the final check
    of the simulation. */
module ByzantineGenerals {

  import opened ByzantineRounds

  /** What one call of the round function does, given the messages it takes from its channel. */
  function RoundOrder(isCommander: bool, isTraitor: bool, round: int, own: string, received: seq<string>): string
    requires round == 1 && !isCommander ==> received != []
  {
    if round == 1 then (if isCommander || isTraitor then own else received[0])
    else NextOrder(isTraitor, own, received)
  }

  class General {
    const id: nat
    const isCommander: bool
    var isTraitor: bool
    var currentOrder: string
    /** What each open channel holds, oldest message first. */
    var roundChannels: map<int, seq<string>>

    constructor (id: nat, isCommander: bool)
      ensures this.id == id && this.isCommander == isCommander && !isTraitor
      ensures currentOrder == "" && roundChannels == map[]
    {
      this.id, this.isCommander, isTraitor := id, isCommander, false;
      currentOrder, roundChannels := "", map[];
    }

    /** The RPC handler: into the channel of the round, or nowhere. */
    method SendMessage(round: int, order: string)
      modifies this`roundChannels
      ensures round in old(roundChannels) ==>
                roundChannels == old(roundChannels)[round := old(roundChannels)[round] + [order]]
      ensures round !in old(roundChannels) ==> roundChannels == old(roundChannels)
    {
      if round in roundChannels {
        roundChannels := roundChannels[round := roundChannels[round] + [order]];
      }
    }

    /** `coin` is the random draw of a traitor. */
    method GetMessageForPeer(coin: nat) returns (order: string)
      ensures !isTraitor ==> order == currentOrder
      ensures isTraitor ==> order == if coin % 2 == 0 then ATTACK else RETREAT
    {
      if !isTraitor { return currentOrder; }
      var orders := [ATTACK, RETREAT];
      return orders[coin % 2];
    }

    /** One round: `arrivals` is what the channel delivers, in order of arrival; `sent` is what is
        handed to the network, in order. */
    method RunRound(round: int, peers: seq<General>, coins: seq<nat>, arrivals: seq<string>)
      returns (sent: seq<(nat, string)>)
      requires |coins| == |peers|
      requires round == 1 ==> |arrivals| == if isCommander then 0 else 1
      requires round != 1 ==> |arrivals| == |peers|
      modifies this`currentOrder, this`roundChannels
      ensures currentOrder == RoundOrder(isCommander, isTraitor, round, old(currentOrder), arrivals)
      ensures isTraitor || (round == 1 && isCommander) ==> currentOrder == old(currentOrder)
      ensures !isTraitor && round == 1 && !isCommander ==> arrivals == [currentOrder]
      ensures !isTraitor && round != 1 ==>
                var votes := multiset(arrivals + [old(currentOrder)]);
                currentOrder == if votes["Attack"] > votes["Retreat"] then "Attack" else "Retreat"
      ensures round == 1 && isCommander ==> roundChannels == old(roundChannels)
      ensures !(round == 1 && isCommander) ==> roundChannels == old(roundChannels)[round := []]
      ensures round == 1 && !isCommander ==> sent == []
      ensures !(round == 1 && !isCommander) ==>
                |sent| == |peers| && forall k :: 0 <= k < |peers| ==>
                  && sent[k].0 == peers[k].id
                  && sent[k].1 == if !isTraitor then old(currentOrder) else if coins[k] % 2 == 0 then ATTACK else RETREAT
    {
      sent := [];
      if round == 1 && !isCommander {
        roundChannels := roundChannels[round := []];
        var msg := arrivals[0];
        if !isTraitor {
          currentOrder := msg;
        }
        return;
      }
      if round != 1 {
        roundChannels := roundChannels[round := []];
      }
      for k := 0 to |peers|
        invariant |sent| == k
        invariant currentOrder == old(currentOrder)
        invariant roundChannels == if round == 1 then old(roundChannels) else old(roundChannels)[round := []]
        invariant forall j :: 0 <= j < k ==>
          && sent[j].0 == peers[j].id
          && sent[j].1 == if !isTraitor then currentOrder else if coins[j] % 2 == 0 then ATTACK else RETREAT
      {
        var order := GetMessageForPeer(coins[k]);
        sent := sent + [(peers[k].id, order)];
      }
      if round == 1 { return; }
      var received: seq<string> := [];
      for i := 0 to |peers|
        invariant received == arrivals[..i]
        invariant currentOrder == old(currentOrder)
      {
        received := received + [arrivals[i]];
      }
      assert received == arrivals;
      received := received + [currentOrder];
      var newDecision := CountMajority(received);
      if !isTraitor {
        currentOrder := newDecision;
      }
    }
  }

  /** The vote count. */
  method CountMajority(messages: seq<string>) returns (decision: string)
    ensures decision == Majority(messages)
  {
    var countAttack, countRetreat := 0, 0;
    for i := 0 to |messages|
      invariant countAttack == multiset(messages[..i])[ATTACK]
      invariant countRetreat == multiset(messages[..i])[RETREAT]
    {
      assert messages[..i + 1] == messages[..i] + [messages[i]];
      if messages[i] == "Attack" {
        countAttack := countAttack + 1;
      } else if messages[i] == "Retreat" {
        countRetreat := countRetreat + 1;
      }
    }
    assert messages[..|messages|] == messages;
    return if countAttack > countRetreat then "Attack" else "Retreat";
  }

  /** The peers of general `selfID`: everyone else, in order. */
  method GeneralsExcept(all: seq<General>, selfID: nat) returns (others: seq<General>)
    requires forall i :: 0 <= i < |all| ==> all[i].id == i
    requires selfID < |all|
    ensures |others| == |all| - 1
    ensures forall k :: 0 <= k < |others| ==> others[k].id == Peers(|all|, selfID)[k] && others[k] in all
  {
    others := [];
    for i := 0 to |all|
      invariant |others| == if i <= selfID then i else i - 1
      invariant forall k :: 0 <= k < |others| ==> others[k] == all[if k < selfID then k else k + 1]
    {
      if all[i].id != selfID {
        others := others + [all[i]];
      }
    }
  }

  // ---- The final check ----

  /** The orders of the honest among the first `k` generals, in order. */
  function HonestOf(camp: Camp, orders: seq<string>, k: nat): seq<string>
    requires k <= |orders| == camp.n
  {
    if k == 0 then []
    else
      var init := HonestOf(camp, orders, k - 1);
      if k - 1 in camp.traitors then init else init + [orders[k - 1]]
  }

  /** The objects hold what `camp` and `orders` say. */
  ghost predicate Mirrors(generals: seq<General>, camp: Camp, orders: seq<string>)
    reads generals
  {
    && |generals| == camp.n == |orders|
    && forall i :: 0 <= i < |generals| ==>
         (generals[i].isTraitor <==> i in camp.traitors) && generals[i].currentOrder == orders[i]
  }

  function FirstNonEmpty(orders: seq<string>): (k: nat)
    ensures k <= |orders|
    ensures forall j :: 0 <= j < k ==> orders[j] == ""
    ensures k < |orders| ==> orders[k] != ""
  {
    if orders == [] || orders[0] != "" then 0 else 1 + FirstNonEmpty(orders[1..])
  }

  /** What the loop reports: everything after the first non-empty order equals it. */
  predicate Verdict(orders: seq<string>) {
    forall j :: FirstNonEmpty(orders) < j < |orders| ==> orders[j] == orders[FirstNonEmpty(orders)]
  }

  predicate AllEqual(orders: seq<string>) {
    forall i, j :: 0 <= i < j < |orders| ==> orders[i] == orders[j]
  }

  /** The loop never misses agreement, and it claims agreement wrongly exactly when the first
      honest order is empty and a later one is not, with all orders equal from there on: the empty
      order doubles as "none seen yet". */
  lemma VerdictIff(orders: seq<string>)
    ensures AllEqual(orders) ==> Verdict(orders)
    ensures Verdict(orders) && !AllEqual(orders) <==>
            0 < FirstNonEmpty(orders) < |orders| && AllEqual(orders[FirstNonEmpty(orders)..])
  {
  }

  /** Such a list of orders. */
  lemma VerdictWrong()
    ensures Verdict(["", ATTACK]) && !AllEqual(["", ATTACK])
  {
    assert ["", ATTACK][0] != ["", ATTACK][1];
    assert FirstNonEmpty([ATTACK]) == 0;
    assert ["", ATTACK][1..] == [ATTACK];
  }

  lemma FirstNonEmptyAppend(orders: seq<string>, v: string)
    ensures FirstNonEmpty(orders + [v]) ==
            if FirstNonEmpty(orders) < |orders| then FirstNonEmpty(orders)
            else if v == "" then |orders| + 1 else |orders|
  {
    var k, all := FirstNonEmpty(orders), orders + [v];
    var m := FirstNonEmpty(all);
    assert forall j :: 0 <= j < |orders| ==> all[j] == orders[j];
    assert all[|orders|] == v;
  }

  method CheckConsensus(generals: seq<General>, ghost camp: Camp, ghost orders: seq<string>)
    returns (consensus: bool, final: string)
    requires Mirrors(generals, camp, orders)
    ensures var honest := HonestOf(camp, orders, camp.n);
            && consensus == Verdict(honest)
            && final == if FirstNonEmpty(honest) < |honest| then honest[FirstNonEmpty(honest)] else ""
  {
    consensus, final := true, "";
    for i := 0 to |generals|
      invariant var honest := HonestOf(camp, orders, i);
                && consensus == Verdict(honest)
                && final == if FirstNonEmpty(honest) < |honest| then honest[FirstNonEmpty(honest)] else ""
    {
      if !generals[i].isTraitor {
        ghost var honest := HonestOf(camp, orders, i);
        FirstNonEmptyAppend(honest, generals[i].currentOrder);
        StepVerdict(honest, generals[i].currentOrder);
        if final == "" {
          final := generals[i].currentOrder;
        } else if generals[i].currentOrder != final {
          consensus := false;
        }
      }
    }
  }

  lemma StepVerdict(orders: seq<string>, v: string)
    ensures var k := FirstNonEmpty(orders);
            Verdict(orders + [v]) <==> Verdict(orders) && (k < |orders| ==> v == orders[k])
  {
    var k, all := FirstNonEmpty(orders), orders + [v];
    FirstNonEmptyAppend(orders, v);
    if k < |orders| {
      assert all[|orders|] == v && all[k] == orders[k];
      forall j | k < j < |orders| ensures all[j] == orders[j] { }
    }
  }
}
