/** The select loops of the interleaved world end as the gateway's method says they do. */
module PaymentSelect {

  import opened Options
  import opened PaymentBank
  import opened PaymentGateway
  import opened PaymentWorld
  import opened PaymentAgreement
  import opened PaymentRuns

  predicate Takes(step: Step) {
    step.TakeReply? || step.TakeError? || step.Timeout?
  }

  /** What a step of a select loop takes. */
  function EventOf(w: World, call: Call, step: Step): Event
    requires Takes(step) && CallEnabled(w, call, step)
  {
    match step
    case TakeReply(_, id) => Answer(id.side, call.box[id])
    case TakeError(_) => Failure(call.errs[0].text)
    case Timeout(_) => Deadline
  }

  /** Where a call goes after a phase: to the commit phase or the debit, to the aborts, or to
      storing its failure. */
  function StageAfter(kind: Kind, failure: Option<string>): Stage {
    match (kind, failure)
    case (PrepareRpc, None) => Collecting(CommitRpc, 0, None, None)
    case (PrepareRpc, Some(why)) => Aborting(Sender, why)
    case (_, None) => Debiting
    case (_, Some(why)) => Failing(why)
  }

  /** An error or the deadline ends the loop at once. */
  lemma LoopInterrupted(w: World, call: Call, step: Step)
    requires call.stage.Collecting? && Takes(step) && CallEnabled(w, call, step) && !step.TakeReply?
    ensures StepCall(w, call, step).stage
         == StageAfter(call.stage.kind, Interrupted(call.stage.kind, [EventOf(w, call, step)]))
  {
    hide TakeAnswer, Decide, OnError, OnTimeout;
  }

  /** Otherwise the second thing taken decides; it cannot be another answer of the same side. */
  lemma LoopEnds(w: World, first: Call, step: Step, w': World, call: Call, step': Step)
    requires Takes(step) && CallEnabled(w, first, step) && Takes(step') && CallEnabled(w', call, step')
    requires first.stage == Collecting(first.stage.kind, 0, None, None)
    requires step.TakeReply? && call.stage == StepCall(w, first, step).stage && CallOk(call)
    ensures var events := [EventOf(w, first, step), EventOf(w', call, step')];
            Deliverable(events) &&
            StepCall(w', call, step').stage == StageAfter(first.stage.kind, PhaseFailure(first.stage.kind, events))
  {
    var kind := first.stage.kind;
    var events := [EventOf(w, first, step), EventOf(w', call, step')];
    assert events[1..] == [events[1]] && events[1..][1..] == [];
    assert Interrupted(kind, events) == Interrupted(kind, [events[1]]);
    if step'.TakeReply? {
      SecondAnswer(call, step'.id);
      hide CallOk;
      assert Interrupted(kind, [events[1]]) == None;
    } else {
      LoopInterrupted(w', call, step');
    }
  }

  /** The select loop of call `t` takes nothing in these steps. */
  predicate Waits(steps: seq<Step>, t: nat) {
    forall k :: 0 <= k < |steps| ==> !(Takes(steps[k]) && steps[k].t == t)
  }

  lemma StepWaits(w: World, step: Step, t: nat)
    requires t in w.calls && w.calls[t].stage.Collecting? && Enabled(w, step) && !(Takes(step) && step.t == t)
    ensures t in Apply(w, step).calls && Apply(w, step).calls[t].stage == w.calls[t].stage
  {
    hide HandleRpc, TakeAnswer, GiveUp;
  }

  lemma {:induction false} RunWaits(w: World, steps: seq<Step>, t: nat)
    requires t in w.calls && w.calls[t].stage.Collecting? && IsRun(w, steps) && Waits(steps, t)
    ensures t in After(w, steps).calls && After(w, steps).calls[t].stage == w.calls[t].stage
    decreases steps
  {
    hide Apply, Enabled;
    if steps != [] {
      StepWaits(w, steps[0], t);
      RunWaits(Apply(w, steps[0]), steps[1..], t);
    }
  }

  lemma TakeStage(w: World, step: Step)
    requires Enabled(w, step) && Takes(step)
    ensures step.t in w.calls && CallEnabled(w, w.calls[step.t], step)
    ensures step.t in Apply(w, step).calls
    ensures Apply(w, step).calls[step.t] == StepCall(w, w.calls[step.t], step)
  {
    hide StepCall, CallEnabled;
  }

  /** In every run, whatever the goroutines, the banks and the other payments do around and between
      the two things a select loop takes, it ends as the gateway's method says of those two. */
  lemma LoopInRun(banks: map<string, Bank>, before: seq<Step>, step: Step, between: seq<Step>, step': Step)
    requires IsRun(Initial(banks), before)
    requires Enabled(After(Initial(banks), before), step) && step.TakeReply?
    requires IsRun(Apply(After(Initial(banks), before), step), between) && Waits(between, step.t)
    requires Enabled(After(Apply(After(Initial(banks), before), step), between), step') && Takes(step') && step'.t == step.t
    requires var w := After(Initial(banks), before);
             step.t in w.calls && w.calls[step.t].stage.Collecting? && w.calls[step.t].stage.i == 0
    ensures var w := After(Initial(banks), before);
            var w' := After(Apply(w, step), between);
            var kind := w.calls[step.t].stage.kind;
            && CallEnabled(w, w.calls[step.t], step)
            && step.t in w'.calls && CallEnabled(w', w'.calls[step.t], step')
            && var events := [EventOf(w, w.calls[step.t], step), EventOf(w', w'.calls[step.t], step')];
               Deliverable(events) && step.t in Apply(w', step').calls &&
               Apply(w', step').calls[step.t].stage == StageAfter(kind, PhaseFailure(kind, events))
  {
    hide Apply, Enabled, WorldOk, StepCall, CallEnabled, Deliverable, PhaseFailure, StageAfter;
    InitialOk(banks);
    RunKeeps(Initial(banks), before);
    var w := After(Initial(banks), before);
    FirstTaken(w, step);
    StepKeeps(w, step);
    RunWaits(Apply(w, step), between, step.t);
    var w' := After(Apply(w, step), between);
    RunKeeps(Apply(w, step), between);
    TakeStage(w, step);
    TakeStage(w', step');
    OneCallOk(w', step.t);
    LoopEnds(w, w.calls[step.t], step, w', w'.calls[step.t], step');
  }

  lemma FirstTaken(w: World, step: Step)
    requires WorldOk(w) && Enabled(w, step) && step.TakeReply? && w.calls[step.t].stage.i == 0
    ensures w.calls[step.t].stage == Collecting(w.calls[step.t].stage.kind, 0, None, None)
    ensures step.t in Apply(w, step).calls && Apply(w, step).calls[step.t].stage.Collecting?
  {
    assert CallOk(w.calls[step.t]);
  }
}
