/** The gateway's idempotency store: when a key runs at most once, and what replays of it get. */
module PaymentStore {

  import opened PaymentBank
  import opened PaymentGateway
  import opened PaymentWorld
  import opened PaymentRuns

  predicate Active(call: Call) {
    !call.stage.Returned?
  }

  /** An active call that can still store a result: one that has not launched needs its two banks. */
  predicate Contender(w: World, call: Call) {
    && Active(call)
    && (call.stage.Arrived? || call.stage.Missed? ==> call.req.fromBank in w.banks && call.req.toBank in w.banks)
  }

  /** No two calls contend for a key that has no result yet. */
  predicate KeysApart(w: World) {
    forall t, u :: t in w.calls && u in w.calls && t != u && Contender(w, w.calls[t]) && Contender(w, w.calls[u])
                   && w.calls[t].req.key == w.calls[u].req.key ==>
      w.calls[t].req.key in w.stored
  }

  /** A run in whose every world keys are apart. */
  predicate IsKeyRun(w: World, steps: seq<Step>)
    decreases steps
  {
    KeysApart(w) && (steps == [] || (Enabled(w, steps[0]) && IsKeyRun(Apply(w, steps[0]), steps[1..])))
  }

  predicate DistinctKeys(log: seq<Entry>) {
    forall i, j :: 0 <= i < j < |log| ==> log[i].key != log[j].key
  }

  predicate Logged(log: seq<Entry>, key: string) {
    exists i :: 0 <= i < |log| && log[i].key == key
  }

  /** The store and the log agree, and every entry is the request of the call that ran. */
  predicate StoreOk(w: World) {
    && DistinctKeys(w.log)
    && (forall k :: k in w.stored ==> Logged(w.log, k))
    && (forall i :: 0 <= i < |w.log| ==>
          && w.log[i].key in w.stored && w.stored[w.log[i].key].success == w.log[i].success
          && (w.log[i].success ==> w.stored[w.log[i].key].message == Paid(w.log[i].amount, w.log[i].txn))
          && w.log[i].txn in w.calls
          && var req := w.calls[w.log[i].txn].req;
             w.log[i].key == req.key && w.log[i].client == req.client && w.log[i].amount == req.amount)
  }

  /** Past its lookup, and able to store. */
  predicate Running(w: World, call: Call) {
    Contender(w, call) && !call.stage.Arrived?
  }

  /** A returned response is what the store holds for its key. */
  predicate AnswerStored(w: World, call: Call)
    requires call.stage.Returned?
  {
    call.stage.out.Replied? ==> call.req.key in w.stored && w.stored[call.req.key] == call.stage.out.r
  }

  predicate StoreInv(w: World) {
    && StoreOk(w)
    && (forall t :: t in w.calls && Running(w, w.calls[t]) ==> w.calls[t].req.key !in w.stored)
    && (forall t :: t in w.calls && w.calls[t].stage.Returned? ==> AnswerStored(w, w.calls[t]))
  }

  lemma InitialStore(banks: map<string, Bank>)
    ensures StoreInv(Initial(banks))
  {
  }

  /** Only call `t` moves, no bank opens or closes, and `t` does not get past a lookup that found its key. */
  predicate QuietMove(w: World, w': World, t: nat) {
    && t in w'.calls && w'.calls == w.calls[t := w'.calls[t]]
    && w'.banks.Keys == w.banks.Keys && w'.stored == w.stored && w'.log == w.log
    && (t in w.calls ==> w'.calls[t].req == w.calls[t].req && (Contender(w, w'.calls[t]) ==> Contender(w, w.calls[t])))
    && (w'.calls[t].stage.Returned? ==>
          AnswerStored(w, w'.calls[t]) || (t in w.calls && w.calls[t].stage == w'.calls[t].stage))
    && (Running(w, w'.calls[t]) ==> w'.calls[t].req.key !in w.stored || (t in w.calls && Running(w, w.calls[t])))
  }

  lemma QuietStore(w: World, w': World, t: nat)
    requires StoreInv(w) && QuietMove(w, w', t)
    ensures StoreInv(w')
  {
    assert forall call :: Contender(w', call) == Contender(w, call);
  }

  lemma CallStage(w: World, call: Call, step: Step)
    requires CallEnabled(w, call, step) && IsCallStep(step)
    ensures var next := StepCall(w, call, step);
            && next.req == call.req && (Contender(w, next) ==> Contender(w, call))
            && (Running(w, next) ==> call.req.key !in w.stored || Running(w, call))
            && (next.stage.Returned? ==> AnswerStored(w, next) || call.stage == next.stage)
  {
  }

  /** Every step but a submission, a registration and the storing of a result. */
  predicate IsQuiet(step: Step) {
    IsCallStep(step) || step.LoadEntry? || step.Handle?
  }

  lemma QuietStep(w: World, step: Step)
    requires Enabled(w, step) && IsQuiet(step)
    ensures QuietMove(w, Apply(w, step), step.t) && step.t in w.calls
  {
    hide HandleRpc, LookUp;
    if IsCallStep(step) {
      hide Apply, Enabled, StepCall, CallEnabled, Contender;
      ApplyCallStep(w, step);
      CallStage(w, w.calls[step.t], step);
    }
  }

  lemma LoggedAfter(log: seq<Entry>, e: Entry, key: string)
    requires Logged(log, key) || key == e.key
    ensures Logged(log + [e], key)
  {
    if key == e.key {
      assert (log + [e])[|log|].key == key;
    } else {
      var i :| 0 <= i < |log| && log[i].key == key;
      assert (log + [e])[i].key == key;
    }
  }

  lemma StoreOnce(w: World, t: nat, r: Response)
    requires StoreOk(w) && t in w.calls && w.calls[t].req.key !in w.stored
    requires r.success ==> r.message == Paid(w.calls[t].req.amount, t)
    ensures StoreOk(Finish(w, t, w.calls[t], r))
  {
    var w' := Finish(w, t, w.calls[t], r);
    forall k | k in w'.stored ensures Logged(w'.log, k) {
      LoggedAfter(w.log, w'.log[|w.log|], k);
    }
    hide Logged;
  }

  lemma FinishContends(w: World, t: nat, r: Response, call: Call)
    requires t in w.calls
    ensures Contender(Finish(w, t, w.calls[t], r), call) == Contender(w, call)
  {
  }

  lemma FinishAnswers(w: World, t: nat, r: Response, u: nat)
    requires StoreInv(w) && KeysApart(w) && t in w.calls && Running(w, w.calls[t]) && u in w.calls
    ensures var w' := Finish(w, t, w.calls[t], r);
            && (Running(w', w'.calls[u]) ==> w'.calls[u].req.key !in w'.stored)
            && (w'.calls[u].stage.Returned? ==> AnswerStored(w', w'.calls[u]))
  {
    hide StoreOk;
    FinishContends(w, t, r, w.calls[u]);
    assert u != t && w.calls[u].stage.Returned? ==> AnswerStored(w, w.calls[u]);
  }

  lemma FinishStore(w: World, t: nat, r: Response)
    requires StoreInv(w) && KeysApart(w) && t in w.calls && Running(w, w.calls[t])
    requires r.success ==> r.message == Paid(w.calls[t].req.amount, t)
    ensures StoreInv(Finish(w, t, w.calls[t], r))
  {
    StoreOnce(w, t, r);
    var w' := Finish(w, t, w.calls[t], r);
    assert w'.calls.Keys == w.calls.Keys;
    hide StoreOk, KeysApart, Finish, Running, AnswerStored;
    forall u | u in w'.calls
      ensures Running(w', w'.calls[u]) ==> w'.calls[u].req.key !in w'.stored
      ensures w'.calls[u].stage.Returned? ==> AnswerStored(w', w'.calls[u])
    {
      FinishAnswers(w, t, r, u);
    }
  }

  lemma StepStore(w: World, step: Step)
    requires StoreInv(w) && KeysApart(w) && Enabled(w, step)
    ensures StoreInv(Apply(w, step))
  {
    hide StoreInv, KeysApart, QuietMove;
    if IsQuiet(step) {
      hide Apply, Enabled;
      QuietStep(w, step);
      QuietStore(w, Apply(w, step), step.t);
    } else if step.Submit? {
      SubmitStore(w, step);
    } else if step.StoreFailure? {
      FinishStore(w, step.t, Response(false, Text(w.calls[step.t].stage.why)));
    } else if step.StoreSuccess? {
      FinishStore(w, step.t, Response(true, Paid(w.calls[step.t].req.amount, step.t)));
    } else {
      SameStore(w, Apply(w, step));
    }
  }

  lemma SubmitStore(w: World, step: Step)
    requires StoreInv(w) && Enabled(w, step) && step.Submit?
    ensures StoreInv(Apply(w, step))
  {
    QuietStore(w, Apply(w, step), step.t);
  }

  lemma SameStore(w: World, w': World)
    requires StoreInv(w) && w'.calls == w.calls && w'.stored == w.stored && w'.log == w.log && w'.banks == w.banks
    ensures StoreInv(w')
  {
  }

  lemma {:induction false} RunStore(w: World, steps: seq<Step>)
    requires StoreInv(w) && IsKeyRun(w, steps)
    ensures IsRun(w, steps) && StoreInv(After(w, steps)) && KeysApart(After(w, steps))
    decreases steps
  {
    hide StoreInv, KeysApart, Apply, Enabled;
    if steps != [] {
      StepStore(w, steps[0]);
      RunStore(Apply(w, steps[0]), steps[1..]);
    }
  }

  // ---- Results ----

  /** And in such runs every call that has returned a response, whether it ran or was a replay, has returned
      what the store holds for its key: all calls of a key get the same response. */
  lemma OneAnswerPerKey(banks: map<string, Bank>, steps: seq<Step>, t: nat)
    requires IsKeyRun(Initial(banks), steps)
    ensures IsRun(Initial(banks), steps)
    ensures var w := After(Initial(banks), steps);
            t in w.calls && w.calls[t].stage.Returned? && w.calls[t].stage.out.Replied? ==>
              w.calls[t].req.key in w.stored && w.stored[w.calls[t].req.key] == w.calls[t].stage.out.r
  {
    InitialStore(banks);
    RunStore(Initial(banks), steps);
    var w := After(Initial(banks), steps);
    if t in w.calls && w.calls[t].stage.Returned? {
      assert AnswerStored(w, w.calls[t]);
    }
  }

  /** At most once: if no two calls contend for a key, no key runs twice, under any errors, timeouts,
      replays and overlaps of clients, and the store holds exactly the results of the keys that ran. */
  lemma AtMostOncePerKey(banks: map<string, Bank>, steps: seq<Step>)
    requires IsKeyRun(Initial(banks), steps)
    ensures IsRun(Initial(banks), steps) && StoreOk(After(Initial(banks), steps))
    ensures var log := After(Initial(banks), steps).log;
            forall i, j :: 0 <= i < j < |log| ==> log[i].key != log[j].key
  {
    InitialStore(banks);
    RunStore(Initial(banks), steps);
  }

  // ---- Without new calls ----

  predicate NoSubmits(steps: seq<Step>) {
    forall k :: 0 <= k < |steps| ==> !steps[k].Submit?
  }

  lemma QuietApart(w: World, w': World, t: nat)
    requires KeysApart(w) && QuietMove(w, w', t) && t in w.calls
    ensures KeysApart(w')
  {
    assert forall call :: Contender(w', call) == Contender(w, call);
  }

  lemma FinishApart(w: World, t: nat, r: Response)
    requires KeysApart(w) && t in w.calls
    ensures KeysApart(Finish(w, t, w.calls[t], r))
  {
    assert forall call :: Contender(Finish(w, t, w.calls[t], r), call) == Contender(w, call);
  }

  lemma SameApart(w: World, w': World)
    requires KeysApart(w) && w'.calls == w.calls && w'.stored == w.stored && w'.banks == w.banks
    ensures KeysApart(w')
  {
  }

  /** Only a new call can contend for a key. */
  lemma StepApart(w: World, step: Step)
    requires KeysApart(w) && Enabled(w, step) && !step.Submit?
    ensures KeysApart(Apply(w, step))
  {
    hide KeysApart, QuietMove;
    if IsQuiet(step) {
      hide Apply, Enabled;
      QuietStep(w, step);
      QuietApart(w, Apply(w, step), step.t);
    } else if step.StoreFailure? {
      FinishApart(w, step.t, Response(false, Text(w.calls[step.t].stage.why)));
    } else if step.StoreSuccess? {
      FinishApart(w, step.t, Response(true, Paid(w.calls[step.t].req.amount, step.t)));
    } else {
      SameApart(w, Apply(w, step));
    }
  }

  /** So a world in which keys are apart keeps every key to one run until another call arrives. */
  lemma {:induction false} ApartIsDistinct(w: World, steps: seq<Step>)
    requires StoreInv(w) && KeysApart(w) && IsRun(w, steps) && NoSubmits(steps)
    ensures IsKeyRun(w, steps) && DistinctKeys(After(w, steps).log)
    decreases steps
  {
    hide StoreInv, KeysApart, Apply, Enabled;
    if steps == [] {
      StoreIsDistinct(w);
    } else {
      StepStore(w, steps[0]);
      StepApart(w, steps[0]);
      ApartIsDistinct(Apply(w, steps[0]), steps[1..]);
    }
  }

  lemma StoreIsDistinct(w: World)
    requires StoreInv(w)
    ensures DistinctKeys(w.log)
  {
  }

  // ---- Replays ----

  /** The key has its result, and no running call can store another one. */
  predicate Settled(w: World, key: string) {
    && key in w.stored
    && forall t :: t in w.calls && Running(w, w.calls[t]) ==> w.calls[t].req.key != key
  }

  /** In a world whose keys have been apart so far, having a result is being settled. */
  lemma StoredIsSettled(w: World, key: string)
    requires StoreInv(w) && key in w.stored
    ensures Settled(w, key)
  {
  }

  lemma QuietSettled(w: World, w': World, t: nat, key: string)
    requires Settled(w, key) && QuietMove(w, w', t)
    ensures Settled(w', key)
  {
    assert forall call :: Contender(w', call) == Contender(w, call);
  }

  /** The log has grown, and not by an entry of `key`. */
  predicate AddsOther(w: World, w': World, key: string) {
    && |w.log| <= |w'.log| && w'.log[..|w.log|] == w.log
    && forall i :: |w.log| <= i < |w'.log| ==> w'.log[i].key != key
  }

  lemma FinishSettled(w: World, t: nat, r: Response, key: string)
    requires Settled(w, key) && t in w.calls && Running(w, w.calls[t])
    ensures var w' := Finish(w, t, w.calls[t], r);
            Settled(w', key) && w'.stored[key] == w.stored[key] && AddsOther(w, w', key)
  {
    assert forall call :: Contender(Finish(w, t, w.calls[t], r), call) == Contender(w, call);
  }

  lemma StepSettled(w: World, step: Step, key: string)
    requires Settled(w, key) && Enabled(w, step)
    ensures var w' := Apply(w, step);
            Settled(w', key) && w'.stored[key] == w.stored[key] && AddsOther(w, w', key)
  {
    hide QuietMove, Settled, AddsOther;
    assert key in w.stored by { SettledStored(w, key); }
    if IsQuiet(step) {
      hide Apply, Enabled;
      QuietStep(w, step);
      QuietSettled(w, Apply(w, step), step.t, key);
      QuietLog(w, Apply(w, step), step.t, key);
    } else if step.Submit? {
      SubmitSettled(w, step, key);
    } else if step.StoreFailure? {
      FinishSettled(w, step.t, Response(false, Text(w.calls[step.t].stage.why)), key);
    } else if step.StoreSuccess? {
      FinishSettled(w, step.t, Response(true, Paid(w.calls[step.t].req.amount, step.t)), key);
    } else {
      SameSettled(w, Apply(w, step), key);
    }
  }

  lemma SameSettled(w: World, w': World, key: string)
    requires Settled(w, key) && w'.calls == w.calls && w'.stored == w.stored && w'.log == w.log && w'.banks == w.banks
    ensures Settled(w', key) && AddsOther(w, w', key)
  {
  }

  lemma QuietLog(w: World, w': World, t: nat, key: string)
    requires QuietMove(w, w', t)
    ensures w'.stored == w.stored && AddsOther(w, w', key)
  {
  }

  lemma SubmitSettled(w: World, step: Step, key: string)
    requires Settled(w, key) && Enabled(w, step) && step.Submit?
    ensures var w' := Apply(w, step);
            Settled(w', key) && w'.stored[key] == w.stored[key] && AddsOther(w, w', key)
  {
    QuietSettled(w, Apply(w, step), step.t, key);
  }

  lemma AddsOtherThen(w: World, w1: World, w2: World, key: string)
    requires AddsOther(w, w1, key) && AddsOther(w1, w2, key)
    ensures AddsOther(w, w2, key)
  {
    assert w2.log[..|w.log|] == w2.log[..|w1.log|][..|w.log|];
    assert forall i :: |w.log| <= i < |w1.log| ==> w2.log[i] == w2.log[..|w1.log|][i];
  }

  /** A settled key keeps its response and runs no more, whatever arrives and overlaps. */
  lemma {:induction false} RunSettled(w: World, steps: seq<Step>, key: string)
    requires Settled(w, key) && IsRun(w, steps)
    ensures var w' := After(w, steps);
            Settled(w', key) && w'.stored[key] == w.stored[key] && AddsOther(w, w', key)
    decreases steps
  {
    hide Settled, AddsOther, Apply, Enabled;
    assert key in w.stored by { SettledStored(w, key); }
    if steps == [] {
      assert AddsOther(w, w, key) by { NothingAdded(w, key); }
    } else {
      var w1 := Apply(w, steps[0]);
      StepSettled(w, steps[0], key);
      SettledStored(w1, key);
      RunSettled(w1, steps[1..], key);
      SettledStored(After(w, steps), key);
      AddsOtherThen(w, w1, After(w, steps), key);
    }
  }

  lemma SettledStored(w: World, key: string)
    requires Settled(w, key)
    ensures key in w.stored
  {
  }

  lemma NothingAdded(w: World, key: string)
    ensures AddsOther(w, w, key)
  {
  }

  /** A replay: a call with the key that still has to look it up, or has returned its result; it has sent
      nothing. */
  predicate IsReplay(call: Call, r: Response) {
    (call.stage.Arrived? || call.stage == Returned(Replied(r))) && call.rpcs == map[]
  }

  lemma StepReplay(w: World, step: Step, key: string, t: nat)
    requires Settled(w, key) && Enabled(w, step)
    requires t in w.calls ==> w.calls[t].req.key != key || IsReplay(w.calls[t], w.stored[key])
    ensures var w' := Apply(w, step);
            t in w'.calls ==> w'.calls[t].req.key != key || IsReplay(w'.calls[t], w.stored[key])
  {
    if IsCallStep(step) {
      hide Apply, Enabled;
      ApplyCallStep(w, step);
      if step.t == t {
        CallReplay(w, step, key);
      }
    }
  }

  lemma CallReplay(w: World, step: Step, key: string)
    requires IsCallStep(step) && step.t in w.calls && CallEnabled(w, w.calls[step.t], step) && key in w.stored
    requires w.calls[step.t].req.key != key || IsReplay(w.calls[step.t], w.stored[key])
    ensures var next := StepCall(w, w.calls[step.t], step);
            next.req.key != key || IsReplay(next, w.stored[key])
  {
    if w.calls[step.t].req.key != key {
      CallStage(w, w.calls[step.t], step);
    }
  }

  lemma {:induction false} RunReplay(w: World, steps: seq<Step>, key: string, t: nat)
    requires Settled(w, key) && IsRun(w, steps)
    requires t in w.calls ==> w.calls[t].req.key != key || IsReplay(w.calls[t], w.stored[key])
    ensures var w' := After(w, steps);
            t in w'.calls ==> w'.calls[t].req.key != key || IsReplay(w'.calls[t], w.stored[key])
    decreases steps
  {
    hide Settled, IsReplay, Apply, Enabled;
    assert key in w.stored by { SettledStored(w, key); }
    if steps != [] {
      StepReplay(w, steps[0], key, t);
      StepSettled(w, steps[0], key);
      SettledStored(Apply(w, steps[0]), key);
      RunReplay(Apply(w, steps[0]), steps[1..], key, t);
    }
  }

  /** Replays: once a key is settled, then in every continuation, with any overlaps of any calls, its response
      never changes and it runs no more; every call that arrives with it from then on still has its lookup to
      do or has returned that response, and has sent nothing; and that lookup changes nothing else. */
  lemma ReplayReturnsStored(w: World, more: seq<Step>, key: string, t: nat)
    requires Settled(w, key) && IsRun(w, more) && (t in w.calls ==> w.calls[t].stage.Arrived? && w.calls[t].rpcs == map[])
    ensures var r := w.stored[key];
            var w' := After(w, more);
            && key in w'.stored && w'.stored[key] == r && AddsOther(w, w', key)
            && (t in w'.calls && w'.calls[t].req.key == key ==>
                  && IsReplay(w'.calls[t], r)
                  && (w'.calls[t].stage.Arrived? ==>
                        && Enabled(w', Lookup(t))
                        && Apply(w', Lookup(t)) == w'.(calls := w'.calls[t := w'.calls[t].(stage := Returned(Replied(r)))])))
  {
    RunSettled(w, more, key);
    RunReplay(w, more, key, t);
  }

  /** An answered call that has sent nothing takes no further step. */
  lemma ReplayIsOver(w: World, call: Call, step: Step)
    requires call.stage.Returned? && call.rpcs == map[]
    ensures !CallEnabled(w, call, step)
  {
  }
}
