/** Every payment can return by steps of its own: what it still has to do, and what it leaves. */
module PaymentReturns {

  import opened PaymentBank
  import opened PaymentGateway
  import opened PaymentWorld
  import opened PaymentAgreement
  import opened PaymentRuns
  import opened PaymentStore

  /** A step of the coordinator of `t` that waits for nobody. */
  predicate IsOwn(step: Step, t: nat) {
    || step == Lookup(t) || step == Launch(t) || step == Timeout(t) || step == AbortReturns(t)
    || step == StoreFailure(t) || step == LoadBalance(t) || step == StoreBalance(t) || step == StoreSuccess(t)
  }

  predicate AllOwn(steps: seq<Step>, t: nat) {
    forall k :: 0 <= k < |steps| ==> IsOwn(steps[k], t)
  }

  function NextOwn(call: Call, t: nat): Step
    requires Active(call) && !call.stage.Panicked?
  {
    match call.stage
    case Arrived => Lookup(t)
    case Missed => Launch(t)
    case Collecting(_, _, _, _) => Timeout(t)
    case Aborting(_, _) => AbortReturns(t)
    case Failing(_) => StoreFailure(t)
    case Debiting => LoadBalance(t)
    case DebitLoaded(_) => StoreBalance(t)
    case Succeeding(_) => StoreSuccess(t)
  }

  /** How many such steps are left at most. */
  function Rank(stage: Stage): nat {
    match stage
    case Arrived => 7
    case Missed => 6
    case Collecting(_, _, _, _) => 5
    case Aborting(side, _) => if side == Sender then 4 else 3
    case Failing(_) => 1
    case Debiting => 3
    case DebitLoaded(_) => 2
    case Succeeding(_) => 1
    case _ => 0
  }

  /** Will call `t` store a result if it is left alone? */
  predicate WillStore(w: World, t: nat) {
    t in w.calls && Contender(w, w.calls[t]) && (w.calls[t].stage.Arrived? ==> w.calls[t].req.key !in w.stored)
  }

  /** Only call `t` has moved, and no bank has done anything. */
  predicate OnlyCall(w: World, w': World, t: nat) {
    && t in w.calls && t in w'.calls && w'.calls == w.calls[t := w'.calls[t]] && w'.calls[t].req == w.calls[t].req
    && w'.banks == w.banks
  }

  /** It has stored one result, its own. */
  predicate StoredOne(w: World, w': World, t: nat)
    requires t in w.calls
  {
    var req := w.calls[t].req;
    && req.key in w'.stored && w'.stored == w.stored[req.key := w'.stored[req.key]]
    && |w'.log| == |w.log| + 1
    && w'.log == w.log + [Entry(t, req.key, req.client, req.amount, w'.stored[req.key].success)]
  }

  predicate StoredNone(w: World, w': World) {
    w'.stored == w.stored && w'.log == w.log
  }

  lemma OwnCallStep(w: World, t: nat)
    requires t in w.calls && CallOk(w.calls[t]) && Active(w.calls[t])
    requires !w.calls[t].stage.Failing? && !w.calls[t].stage.Succeeding?
    ensures var step := NextOwn(w.calls[t], t);
            && CallEnabled(w, w.calls[t], step)
            && var next := StepCall(w, w.calls[t], step);
               && next.req == w.calls[t].req && Rank(next.stage) < Rank(w.calls[t].stage)
               && (WillStore(w, t) ==> Contender(w, next) && !next.stage.Arrived?)
               && (!WillStore(w, t) ==> !Contender(w, next))
  {
    hide Agreement, Channels, OnTimeout;
  }

  lemma OwnEnabled(w: World, t: nat)
    requires t in w.calls && Active(w.calls[t]) && !w.calls[t].stage.Panicked?
    requires CallEnabled(w, w.calls[t], NextOwn(w.calls[t], t))
    ensures Enabled(w, NextOwn(w.calls[t], t)) && NextOwn(w.calls[t], t).t == t
    ensures !w.calls[t].stage.Failing? && !w.calls[t].stage.Succeeding? ==> IsCallStep(NextOwn(w.calls[t], t))
  {
    hide CallEnabled;
  }

  lemma OwnMove(w: World, t: nat)
    requires t in w.calls && Active(w.calls[t]) && !w.calls[t].stage.Panicked?
    requires !w.calls[t].stage.Failing? && !w.calls[t].stage.Succeeding?
    requires CallEnabled(w, w.calls[t], NextOwn(w.calls[t], t))
    requires StepCall(w, w.calls[t], NextOwn(w.calls[t], t)).req == w.calls[t].req
    ensures var step := NextOwn(w.calls[t], t);
            && Enabled(w, step)
            && var w' := Apply(w, step);
               OnlyCall(w, w', t) && StoredNone(w, w') && w'.calls[t] == StepCall(w, w.calls[t], step)
  {
    hide StepCall, CallEnabled, NextOwn, Enabled, Apply, IsCallStep;
    OwnEnabled(w, t);
    ApplyCallStep(w, NextOwn(w.calls[t], t));
  }

  lemma FinishOne(w: World, t: nat, r: Response)
    requires t in w.calls
    ensures var w' := Finish(w, t, w.calls[t], r);
            OnlyCall(w, w', t) && StoredOne(w, w', t) && w'.calls[t].stage.Returned?
  {
  }

  lemma OwnEnd(w: World, t: nat)
    requires t in w.calls && (w.calls[t].stage.Failing? || w.calls[t].stage.Succeeding?)
    ensures var step := NextOwn(w.calls[t], t);
            && Enabled(w, step)
            && var w' := Apply(w, step);
               OnlyCall(w, w', t) && StoredOne(w, w', t) && w'.calls[t].stage.Returned? && WillStore(w, t)
  {
    hide Finish, OnlyCall, StoredOne;
    FinishOne(w, t, if w.calls[t].stage.Failing? then Response(false, Text(w.calls[t].stage.why))
                    else Response(true, Paid(w.calls[t].req.amount, t)));
  }

  /** The next step of its own: the call gets closer to its return, and stores at the end or not at all. */
  lemma OwnStep(w: World, t: nat)
    requires WorldOk(w) && t in w.calls && Active(w.calls[t])
    ensures !w.calls[t].stage.Panicked?
    ensures var step := NextOwn(w.calls[t], t);
            && Enabled(w, step)
            && var w' := Apply(w, step);
               && OnlyCall(w, w', t) && Rank(w'.calls[t].stage) < Rank(w.calls[t].stage)
               && (if Active(w'.calls[t]) then StoredNone(w, w') && WillStore(w', t) == WillStore(w, t)
                   else if WillStore(w, t) then StoredOne(w, w', t) else StoredNone(w, w'))
  {
    OneCallOk(w, t);
    assert !w.calls[t].stage.Panicked?;
    hide StepCall, CallEnabled, CallOk, WorldOk;
    if w.calls[t].stage.Failing? || w.calls[t].stage.Succeeding? {
      OwnEnd(w, t);
    } else {
      OwnCallStep(w, t);
      hide Contender;
      OwnMove(w, t);
    }
  }

  /** Every unfinished call, in every reachable world, has a run of its own, of at most seven steps,
      after which it has returned; it has then stored its one result if it was going to, and nobody else
      has moved. */
  lemma {:induction false} CanReturn(w: World, t: nat) returns (steps: seq<Step>)
    requires WorldOk(w) && t in w.calls && Active(w.calls[t])
    ensures IsRun(w, steps) && AllOwn(steps, t) && |steps| <= Rank(w.calls[t].stage) <= 7
    ensures var w' := After(w, steps);
            && WorldOk(w') && OnlyCall(w, w', t) && w'.calls[t].stage.Returned?
            && if WillStore(w, t) then StoredOne(w, w', t) else StoredNone(w, w')
    decreases Rank(w.calls[t].stage)
  {
    hide WorldOk, Apply, Enabled, WillStore;
    OwnStep(w, t);
    var step := NextOwn(w.calls[t], t);
    var w1 := Apply(w, step);
    StepKeeps(w, step);
    var rest: seq<Step>;
    if Active(w1.calls[t]) {
      rest := CanReturn(w1, t);
    } else {
      rest := [];
    }
    steps := [step] + rest;
    assert steps[0] == step && steps[1..] == rest;
  }

  // ---- Which keys can run twice ----

  /** `w'` can follow `w` without any new call. */
  ghost predicate Leads(w: World, w': World) {
    exists steps :: IsRun(w, steps) && NoSubmits(steps) && After(w, steps) == w'
  }

  lemma OwnLeads(w: World, steps: seq<Step>, t: nat)
    requires IsRun(w, steps) && AllOwn(steps, t)
    ensures Leads(w, After(w, steps))
  {
    assert NoSubmits(steps);
  }

  lemma LeadsThen(w: World, w1: World, w2: World)
    requires Leads(w, w1) && Leads(w1, w2)
    ensures Leads(w, w2)
  {
    hide Apply, Enabled;
    var a :| IsRun(w, a) && NoSubmits(a) && After(w, a) == w1;
    var b :| IsRun(w1, b) && NoSubmits(b) && After(w1, b) == w2;
    RunAppend(w, a, b);
    assert NoSubmits(a + b);
  }

  lemma LeadsSelf(w: World)
    ensures Leads(w, w)
  {
    assert IsRun(w, []) && NoSubmits([]) && After(w, []) == w;
  }

  lemma StepLeads(w: World, step: Step)
    requires Enabled(w, step) && !step.Submit?
    ensures Leads(w, Apply(w, step))
  {
    hide Apply, Enabled;
    assert [step][0] == step && [step][1..] == [];
    assert IsRun(Apply(w, step), []) && After(Apply(w, step), []) == Apply(w, step);
    assert IsRun(w, [step]) && NoSubmits([step]) && After(w, [step]) == Apply(w, step);
  }

  /** A call that is going to store can first be brought past its lookup. */
  lemma PastLookup(w: World, u: nat) returns (w1: World)
    requires WorldOk(w) && WillStore(w, u)
    ensures Leads(w, w1) && WorldOk(w1) && OnlyCall(w, w1, u) && StoredNone(w, w1) && Running(w1, w1.calls[u])
  {
    hide WorldOk;
    if w.calls[u].stage.Arrived? {
      OwnStep(w, u);
      StepKeeps(w, NextOwn(w.calls[u], u));
      StepLeads(w, NextOwn(w.calls[u], u));
      w1 := Apply(w, NextOwn(w.calls[u], u));
      assert WillStore(w1, u) by { StillActive(w, u); }
    } else {
      LeadsSelf(w);
      w1 := w;
    }
  }

  lemma StillActive(w: World, u: nat)
    requires WorldOk(w) && WillStore(w, u) && w.calls[u].stage.Arrived?
    ensures Enabled(w, Lookup(u)) && u in Apply(w, Lookup(u)).calls && Apply(w, Lookup(u)).calls[u].stage == Missed
    ensures WillStore(Apply(w, Lookup(u)), u)
  {
  }

  /** Two calls that contend for a key without a result can both run. */
  lemma BothRun(w: World, t: nat, u: nat) returns (w': World)
    requires WorldOk(w) && t != u && WillStore(w, t) && WillStore(w, u) && w.calls[t].req.key == w.calls[u].req.key
    ensures Leads(w, w') && !DistinctKeys(w'.log)
  {
    hide WorldOk, Leads;
    var w1 := PastLookup(w, u);
    assert WillStore(w1, t);
    var a := CanReturn(w1, t);
    OwnLeads(w1, a, t);
    var w2 := After(w1, a);
    assert WillStore(w2, u);
    var b := CanReturn(w2, u);
    OwnLeads(w2, b, u);
    w' := After(w2, b);
    LeadsThen(w, w1, w2);
    LeadsThen(w, w2, w');
    var n := |w1.log|;
    assert w'.log[n] == w2.log[n] && w'.log[n].key == w'.log[n + 1].key;
  }

  /** The exact condition for running at most once: in a reachable world whose keys have run once each so
      far, every continuation without a new call runs every key at most once if and only if no two calls
      contend for a key that has no result yet. */
  lemma DistinctKeysIff(w: World)
    requires WorldOk(w) && StoreInv(w)
    ensures (forall w' :: Leads(w, w') ==> DistinctKeys(w'.log)) <==> KeysApart(w)
  {
    hide WorldOk, StoreInv;
    if KeysApart(w) {
      forall w' | Leads(w, w') ensures DistinctKeys(w'.log) {
        var steps :| IsRun(w, steps) && NoSubmits(steps) && After(w, steps) == w';
        ApartIsDistinct(w, steps);
      }
    } else {
      var t, u :| t in w.calls && u in w.calls && t != u && Contender(w, w.calls[t]) && Contender(w, w.calls[u])
                  && w.calls[t].req.key == w.calls[u].req.key && w.calls[t].req.key !in w.stored;
      var w' := BothRun(w, t, u);
    }
  }

  /** The exact condition for a response to be final: a key with a result runs in no continuation, new calls
      included, if and only if no running call carries it. */
  lemma SettledIff(w: World, key: string)
    requires WorldOk(w) && key in w.stored
    ensures (forall steps :: IsRun(w, steps) ==> AddsOther(w, After(w, steps), key)) <==> Settled(w, key)
  {
    hide WorldOk, Apply, Enabled;
    if Settled(w, key) {
      forall steps | IsRun(w, steps) ensures AddsOther(w, After(w, steps), key) {
        RunSettled(w, steps, key);
      }
    } else {
      var t :| t in w.calls && Running(w, w.calls[t]) && w.calls[t].req.key == key;
      var steps := CanReturn(w, t);
      assert After(w, steps).log[|w.log|].key == key;
    }
  }
}
