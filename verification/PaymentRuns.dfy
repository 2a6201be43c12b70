/** Two-phase commit over whole runs: agreement, success, and what the banks keep afterwards. */
module PaymentRuns {

  import opened Options
  import opened PaymentBank
  import opened PaymentGateway
  import opened PaymentWorld
  import opened PaymentAgreement

  // ---- Invariant over all calls ----

  predicate RepliedAt(call: Call, id: RpcId) {
    id in call.rpcs && call.rpcs[id].reply.Some?
  }

  predicate PendingAt(w: World, name: string, t: nat) {
    name in w.banks && t in w.banks[name].pending
  }

  function OtherSide(side: Side): Side {
    if side == Sender then Receiver else Sender
  }

  predicate OneBank(req: Request) {
    req.fromBank == req.toBank
  }

  /** A bank that has handled Commit for `t` holds no entry for it. Commit answers yes exactly when
      its lookup found the entry, and what it found stays until it deletes it, unless the other
      Commit goes to the same bank and deletes it first. */
  predicate CommitOk(w: World, t: nat, side: Side)
    requires t in w.calls
  {
    var call, id := w.calls[t], RpcId(CommitRpc, side);
    && (RepliedAt(call, id) ==>
          && !PendingAt(w, BankOf(call.req, side), t)
          && (call.rpcs[id].reply.value.ok <==> call.rpcs[id].loaded))
    && (id in call.rpcs && call.rpcs[id].loaded && call.rpcs[id].reply.None?
        && (OneBank(call.req) ==> !RepliedAt(call, RpcId(CommitRpc, OtherSide(side)))) ==>
          PendingAt(w, BankOf(call.req, side), t))
  }

  predicate BanksOk(w: World, t: nat)
    requires t in w.calls
  {
    CommitOk(w, t, Sender) && CommitOk(w, t, Receiver)
  }

  predicate WorldOk(w: World) {
    forall t :: t in w.calls ==> CallOk(w.calls[t]) && BanksOk(w, t)
  }

  lemma OneCallOk(w: World, t: nat)
    requires WorldOk(w) && t in w.calls
    ensures CallOk(w.calls[t])
  {
  }

  lemma InitialOk(banks: map<string, Bank>)
    ensures WorldOk(Initial(banks))
  {
  }

  /** A call's request never changes, and no reply and no found entry is changed or forgotten. */
  predicate CallGrows(a: Call, b: Call) {
    && a.req == b.req
    && forall id :: id in a.rpcs && (a.rpcs[id].reply.Some? || a.rpcs[id].loaded) ==>
         && id in b.rpcs
         && (a.rpcs[id].reply.Some? ==> b.rpcs[id].reply == a.rpcs[id].reply)
         && (a.rpcs[id].loaded ==> b.rpcs[id].loaded)
  }

  /** What the banks have done for the call is the same. */
  predicate SameReplies(a: Call, b: Call) {
    CallGrows(a, b) && CallGrows(b, a)
  }

  lemma SameRepliesSelf(call: Call, stage: Stage)
    ensures SameReplies(call, call.(stage := stage))
  {
  }

  lemma DecideReplies(call: Call, kind: Kind, sender: Option<Reply>, receiver: Option<Reply>)
    requires kind == PrepareRpc ==> !HasSent(call, AbortRpc) && !HasSent(call, CommitRpc)
    ensures SameReplies(call, Decide(call, kind, sender, receiver))
  {
  }

  lemma AnswerReplies(call: Call, id: RpcId)
    requires CallOk(call) && call.stage.Collecting? && id in call.box
    ensures SameReplies(call, TakeAnswer(call, id))
  {
    hide Decide, Agreement, Channels;
    var Collecting(kind, i, s, r) := call.stage;
    var reply := call.box[id];
    DecideReplies(call.(box := call.box - {id}), kind,
                  if id.side == Sender then Some(reply) else s, if id.side == Receiver then Some(reply) else r);
  }

  lemma GiveUpReplies(call: Call, why: string)
    requires call.stage.Collecting? && !HasSent(call, AbortRpc)
    ensures SameReplies(call, GiveUp(call, why))
  {
  }

  lemma LaunchReplies(w: World, call: Call, t: nat)
    requires CallOk(call) && CallEnabled(w, call, Launch(t))
    ensures SameReplies(call, StepCall(w, call, Launch(t)))
  {
    assert call.rpcs == map[];
  }

  lemma ReturnReplies(w: World, call: Call, step: Step)
    requires CallEnabled(w, call, step) && (step.ReturnReply? || step.ReturnError?)
    ensures SameReplies(call, StepCall(w, call, step))
  {
  }

  lemma AbortReplies(w: World, call: Call, t: nat)
    requires CallOk(call) && CallEnabled(w, call, AbortReturns(t))
    ensures SameReplies(call, StepCall(w, call, AbortReturns(t)))
  {
  }

  lemma TakeErrorReplies(w: World, call: Call, t: nat)
    requires CallOk(call) && CallEnabled(w, call, TakeError(t))
    ensures SameReplies(call, StepCall(w, call, TakeError(t)))
  {
    hide GiveUp, OnError;
    GiveUpReplies(call.(errs := call.errs[1..]), OnError(call.stage.kind, call.errs[0].text));
  }

  lemma TimeoutReplies(w: World, call: Call, t: nat)
    requires CallOk(call) && CallEnabled(w, call, Timeout(t))
    ensures SameReplies(call, StepCall(w, call, Timeout(t)))
  {
    hide GiveUp;
    GiveUpReplies(call, OnTimeout(call.stage.kind));
  }

  lemma StepCallReplies(w: World, call: Call, step: Step)
    requires CallOk(call) && CallEnabled(w, call, step)
    ensures SameReplies(call, StepCall(w, call, step))
  {
    hide SameReplies, CallOk;
    match step
    case Launch(t) => LaunchReplies(w, call, t);
    case ReturnReply(_, _) => ReturnReplies(w, call, step);
    case ReturnError(_, _, _) => ReturnReplies(w, call, step);
    case TakeReply(_, id) => AnswerReplies(call, id);
    case TakeError(t) => TakeErrorReplies(w, call, t);
    case Timeout(t) => TimeoutReplies(w, call, t);
    case AbortReturns(t) => AbortReplies(w, call, t);
    case Lookup(_) => SameRepliesSelf(call, StepCall(w, call, step).stage);
    case LoadBalance(_) => SameRepliesSelf(call, StepCall(w, call, step).stage);
    case StoreBalance(_) => SameRepliesSelf(call, StepCall(w, call, step).stage);
    case _ => SameRepliesSelf(call, call.stage);
  }

  lemma SetCallOk(w: World, t: nat, call: Call, w': World)
    requires WorldOk(w) && CallOk(call)
    requires w'.calls == w.calls[t := call] && w'.banks == w.banks
    requires if t in w.calls then SameReplies(w.calls[t], call) else call.rpcs == map[]
    ensures WorldOk(w')
  {
  }

  lemma HandleElsewhere(b: Bank, t: nat, req: Request, id: RpcId, u: nat)
    requires u != t
    ensures u in HandleRpc(b, t, req, id).0.pending <==> u in b.pending
    ensures u in b.pending ==> HandleRpc(b, t, req, id).0.pending[u] == b.pending[u]
  {
  }

  /** Prepare is not handled any more once Commit has been. */
  lemma PrepareFirst(call: Call, side: Side)
    requires CallOk(call) && RpcId(PrepareRpc, side) in call.rpcs && call.rpcs[RpcId(PrepareRpc, side)].reply.None?
    ensures !HasSent(call, CommitRpc)
  {
  }

  lemma HandlePrepareBanks(w: World, t: nat, id: RpcId)
    requires WorldOk(w) && Enabled(w, Handle(t, id)) && id.kind == PrepareRpc
    ensures BanksOk(Apply(w, Handle(t, id)), t)
  {
    hide HandleRpc, CallOk;
    PrepareFirst(w.calls[t], id.side);
    assert !(RpcId(CommitRpc, Sender) in w.calls[t].rpcs) && !(RpcId(CommitRpc, Receiver) in w.calls[t].rpcs);
  }

  lemma HandleAbortBanks(w: World, t: nat, id: RpcId)
    requires WorldOk(w) && Enabled(w, Handle(t, id)) && id.kind == AbortRpc
    ensures BanksOk(Apply(w, Handle(t, id)), t)
  {
    hide HandleRpc, CallOk;
    SentOf(w.calls[t], id);
    NeverBoth(w.calls[t]);
    assert !(RpcId(CommitRpc, Sender) in w.calls[t].rpcs) && !(RpcId(CommitRpc, Receiver) in w.calls[t].rpcs);
  }

  /** What finishing a Commit changes for its transaction. */
  lemma CommitEffect(w: World, t: nat, id: RpcId, name: string)
    requires Enabled(w, Handle(t, id)) && id.kind == CommitRpc
    ensures var w' := Apply(w, Handle(t, id));
            && t in w'.calls && w'.calls[t].req == w.calls[t].req
            && w'.calls[t].rpcs == w.calls[t].rpcs[id := w.calls[t].rpcs[id].(reply := Some(COMMITTED))]
            && (PendingAt(w', name, t) <==> PendingAt(w, name, t) && name != BankOf(w.calls[t].req, id.side))
  {
  }

  lemma HandleCommitSide(w: World, t: nat, id: RpcId, side: Side)
    requires t in w.calls && CommitOk(w, t, Sender) && CommitOk(w, t, Receiver)
    requires Enabled(w, Handle(t, id)) && id.kind == CommitRpc
    ensures CommitOk(Apply(w, Handle(t, id)), t, side)
  {
    hide Apply;
    CommitEffect(w, t, id, BankOf(w.calls[t].req, side));
    assert side == Sender || side == Receiver;
    assert id == RpcId(CommitRpc, id.side);
  }

  lemma HandleCommitBanks(w: World, t: nat, id: RpcId)
    requires WorldOk(w) && Enabled(w, Handle(t, id)) && id.kind == CommitRpc
    ensures BanksOk(Apply(w, Handle(t, id)), t)
  {
    hide CallOk, CommitOk;
    assert BanksOk(w, t);
    HandleCommitSide(w, t, id, Sender);
    HandleCommitSide(w, t, id, Receiver);
  }

  lemma HandleOwnBanks(w: World, t: nat, id: RpcId)
    requires WorldOk(w) && Enabled(w, Handle(t, id))
    ensures BanksOk(Apply(w, Handle(t, id)), t)
  {
    hide WorldOk, BanksOk, Apply, Enabled;
    match id.kind
    case PrepareRpc => HandlePrepareBanks(w, t, id);
    case CommitRpc => HandleCommitBanks(w, t, id);
    case AbortRpc => HandleAbortBanks(w, t, id);
  }

  lemma NeverBoth(call: Call)
    requires CallOk(call) && HasSent(call, AbortRpc)
    ensures !HasSent(call, CommitRpc)
  {
  }

  lemma LookUpEffect(w: World, t: nat, id: RpcId)
    requires Enabled(w, LoadEntry(t, id))
    ensures var w' := Apply(w, LoadEntry(t, id));
            var rpc := w.calls[t].rpcs[id];
            && t in w'.calls && w'.calls[t].req == w.calls[t].req && w'.banks == w.banks
            && w'.calls[t].rpcs == w.calls[t].rpcs[id :=
                 if PendingAt(w, BankOf(w.calls[t].req, id.side), t) then rpc.(loaded := true) else rpc.(reply := Some(NOT_FOUND))]
  {
  }

  lemma LookUpSide(w: World, t: nat, id: RpcId, side: Side)
    requires t in w.calls && CommitOk(w, t, Sender) && CommitOk(w, t, Receiver) && Enabled(w, LoadEntry(t, id))
    ensures CommitOk(Apply(w, LoadEntry(t, id)), t, side)
  {
    hide Apply;
    LookUpEffect(w, t, id);
    assert side == Sender || side == Receiver;
    assert id == RpcId(CommitRpc, id.side);
  }

  lemma LookUpOwnBanks(w: World, t: nat, id: RpcId)
    requires WorldOk(w) && Enabled(w, LoadEntry(t, id))
    ensures BanksOk(Apply(w, LoadEntry(t, id)), t)
  {
    hide CallOk, CommitOk;
    assert BanksOk(w, t);
    LookUpSide(w, t, id, Sender);
    LookUpSide(w, t, id, Receiver);
  }

  lemma LookUpKeeps(w: World, t: nat, id: RpcId)
    requires WorldOk(w) && Enabled(w, LoadEntry(t, id))
    ensures WorldOk(Apply(w, LoadEntry(t, id)))
  {
    var w' := Apply(w, LoadEntry(t, id));
    var call := w.calls[t];
    LookedUpOk(call, id, w.banks[BankOf(call.req, id.side)], t);
    LookUpOwnBanks(w, t, id);
    forall u | u in w'.calls ensures CallOk(w'.calls[u]) && BanksOk(w', u) {
      if u != t {
        assert BanksOk(w, u);
      }
    }
  }

  lemma HandleOther(w: World, t: nat, id: RpcId, u: nat)
    requires Enabled(w, Handle(t, id)) && u in w.calls && u != t && BanksOk(w, u)
    ensures var w' := Apply(w, Handle(t, id)); u in w'.calls && w'.calls[u] == w.calls[u] && BanksOk(w', u)
  {
    hide HandleRpc;
    HandleElsewhere(w.banks[BankOf(w.calls[t].req, id.side)], t, w.calls[t].req, id, u);
  }

  lemma HandleOwn(w: World, t: nat, id: RpcId)
    requires Enabled(w, Handle(t, id)) && CallOk(w.calls[t])
    ensures var w' := Apply(w, Handle(t, id));
            w'.calls.Keys == w.calls.Keys && CallOk(w'.calls[t])
  {
    hide HandleRpc, CallOk;
    var call := w.calls[t];
    HandledOk(call, id, HandleRpc(w.banks[BankOf(call.req, id.side)], t, call.req, id).1);
  }

  lemma HandleKeeps(w: World, t: nat, id: RpcId)
    requires WorldOk(w) && Enabled(w, Handle(t, id))
    ensures WorldOk(Apply(w, Handle(t, id)))
  {
    var w' := Apply(w, Handle(t, id));
    assert t in w.calls;
    hide Apply, Enabled, CallOk, BanksOk;
    HandleOwn(w, t, id);
    HandleOwnBanks(w, t, id);
    forall u | u in w'.calls ensures CallOk(w'.calls[u]) && BanksOk(w', u) {
      if u != t {
        HandleOther(w, t, id, u);
      }
    }
  }

  /** The steps of the coordinator and its goroutines that only move one call. */
  predicate IsCallStep(step: Step) {
    || step.Lookup? || step.Launch? || step.ReturnReply? || step.ReturnError? || step.TakeReply? || step.TakeError?
    || step.Timeout? || step.AbortReturns? || step.LoadBalance? || step.StoreBalance?
  }

  lemma ApplyCallStep(w: World, step: Step)
    requires Enabled(w, step) && IsCallStep(step)
    ensures step.t in w.calls && CallEnabled(w, w.calls[step.t], step)
    ensures Apply(w, step).calls == w.calls[step.t := StepCall(w, w.calls[step.t], step)]
    ensures Apply(w, step).banks == w.banks && Apply(w, step).stored == w.stored && Apply(w, step).log == w.log
    ensures Apply(w, step).registrations == w.registrations && Apply(w, step).openedAt == w.openedAt
    ensures !step.StoreBalance? ==> Apply(w, step).accounts == w.accounts
  {
  }

  lemma CallStepKeeps(w: World, step: Step)
    requires WorldOk(w) && Enabled(w, step) && IsCallStep(step)
    ensures WorldOk(Apply(w, step))
  {
    hide StepCall, CallEnabled, Enabled, Apply, CallOk, BanksOk, SameReplies;
    ApplyCallStep(w, step);
    CallStepOk(w, w.calls[step.t], step);
    StepCallReplies(w, w.calls[step.t], step);
    SetCallOk(w, step.t, StepCall(w, w.calls[step.t], step), Apply(w, step));
  }

  lemma FinishKeeps(w: World, t: nat, r: Response)
    requires WorldOk(w) && t in w.calls
    requires (w.calls[t].stage.Failing? && !r.success) || w.calls[t].stage.Succeeding?
    ensures WorldOk(Finish(w, t, w.calls[t], r))
  {
    hide CallOk, BanksOk;
    FinishedOk(w.calls[t], r);
    var w' := Finish(w, t, w.calls[t], r);
    SetCallOk(w, t, w'.calls[t], w');
  }

  lemma SubmitKeeps(w: World, t: nat, req: Request)
    requires WorldOk(w) && t !in w.calls
    ensures WorldOk(Apply(w, Submit(t, req)))
  {
  }

  lemma StepKeeps(w: World, step: Step)
    requires WorldOk(w) && Enabled(w, step)
    ensures WorldOk(Apply(w, step))
  {
    hide WorldOk;
    match step
    case Submit(t, req) => SubmitKeeps(w, t, req);
    case LoadEntry(t, id) => LookUpKeeps(w, t, id);
    case Handle(t, id) => HandleKeeps(w, t, id);
    case StoreFailure(t) => FinishKeeps(w, t, Response(false, Text(w.calls[t].stage.why)));
    case StoreSuccess(t) => FinishKeeps(w, t, Response(true, Paid(w.calls[t].req.amount, t)));
    case SubmitRegistration(_, _) => SameCalls(w, Apply(w, step));
    case LoadRegistration(_) => SameCalls(w, Apply(w, step));
    case StoreRegistration(_) => SameCalls(w, Apply(w, step));
    case _ => CallStepKeeps(w, step);
  }

  lemma SameCalls(w: World, w': World)
    requires WorldOk(w) && w'.calls == w.calls && w'.banks == w.banks
    ensures WorldOk(w')
  {
  }

  lemma {:induction false} RunKeeps(w: World, steps: seq<Step>)
    requires WorldOk(w) && IsRun(w, steps)
    ensures WorldOk(After(w, steps))
    decreases steps
  {
    hide WorldOk, Apply, Enabled;
    if steps != [] {
      StepKeeps(w, steps[0]);
      RunKeeps(Apply(w, steps[0]), steps[1..]);
    }
  }

  // ---- Results ----

  /** Agreement: in every interleaving, a Commit that has gone out for a transaction was preceded
      by two positive votes and no Abort goes out for it, so no bank commits what another is told
      to abort. */
  lemma TwoPhaseCommitAgreement(banks: map<string, Bank>, steps: seq<Step>, t: nat, a: Side, b: Side)
    requires IsRun(Initial(banks), steps) && t in After(Initial(banks), steps).calls
    ensures var call := After(Initial(banks), steps).calls[t];
            RpcId(CommitRpc, a) in call.rpcs ==>
              && SaidYes(call, RpcId(PrepareRpc, Sender)) && SaidYes(call, RpcId(PrepareRpc, Receiver))
              && RpcId(AbortRpc, b) !in call.rpcs
  {
    InitialOk(banks);
    RunKeeps(Initial(banks), steps);
    var call := After(Initial(banks), steps).calls[t];
    assert CallOk(call);
    if RpcId(CommitRpc, a) in call.rpcs {
      SentOf(call, RpcId(CommitRpc, a));
      if RpcId(AbortRpc, b) in call.rpcs {
        SentOf(call, RpcId(AbortRpc, b));
      }
    }
  }

  /** Channel protocol: in every scheduling no answer is read before it is taken, no goroutine
      blocks on a send, and the answer that ends a select loop leaves both answers set and the
      shared error channel empty. */
  lemma ChannelProtocol(banks: map<string, Bank>, steps: seq<Step>, t: nat, id: RpcId)
    requires IsRun(Initial(banks), steps) && t in After(Initial(banks), steps).calls
    ensures var call := After(Initial(banks), steps).calls[t];
            && !call.stage.Panicked?
            && (Live(call, id) ==> id !in call.box && |call.errs| < 2)
            && (call.stage.Collecting? && call.stage.i == 1 && id in call.box && id.kind == call.stage.kind ==>
                  && call.errs == []
                  && (if id.side == Sender then call.stage.receiver.Some? else call.stage.sender.Some?)
                  && TakeAnswer(call, id).errs == [] && TakeAnswer(call, id).box == map[])
  {
    InitialOk(banks);
    RunKeeps(Initial(banks), steps);
    var call := After(Initial(banks), steps).calls[t];
    assert CallOk(call);
    if Live(call, id) {
      SendsNeverBlock(call, id);
    }
    if call.stage.Collecting? && call.stage.i == 1 && id in call.box && id.kind == call.stage.kind {
      SecondAnswer(call, id);
      LastMessage(call, id);
    }
  }

  lemma LastMessage(call: Call, id: RpcId)
    requires CallOk(call) && call.stage.Collecting? && call.stage.i == 1 && id in call.box && id.kind == call.stage.kind
    ensures call.box - {id} == map[]
  {
    SecondAnswer(call, id);
    forall x | x in call.box ensures x == id {
      assert FromDone(call, x);
      SentOf(call, x);
      SentOf(call, id);
    }
  }

  lemma HandleGrows(w: World, t: nat, id: RpcId)
    requires Enabled(w, Handle(t, id))
    ensures t in Apply(w, Handle(t, id)).calls && CallGrows(w.calls[t], Apply(w, Handle(t, id)).calls[t])
    ensures forall u :: u in w.calls && u != t ==> u in Apply(w, Handle(t, id)).calls && Apply(w, Handle(t, id)).calls[u] == w.calls[u]
  {
  }

  lemma LookUpGrows(w: World, t: nat, id: RpcId)
    requires Enabled(w, LoadEntry(t, id))
    ensures t in Apply(w, LoadEntry(t, id)).calls && CallGrows(w.calls[t], Apply(w, LoadEntry(t, id)).calls[t])
    ensures forall u :: u in w.calls && u != t ==> u in Apply(w, LoadEntry(t, id)).calls && Apply(w, LoadEntry(t, id)).calls[u] == w.calls[u]
  {
  }

  lemma StepGrows(w: World, step: Step, t: nat)
    requires WorldOk(w) && Enabled(w, step) && t in w.calls
    ensures t in Apply(w, step).calls && CallGrows(w.calls[t], Apply(w, step).calls[t])
  {
    hide StepCall, CallGrows, CallOk, HandleRpc;
    assert CallOk(w.calls[t]);
    SameRepliesSelf(w.calls[t], w.calls[t].stage);
    if IsCallStep(step) {
      hide Apply;
      ApplyCallStep(w, step);
      if step.t == t {
        StepCallReplies(w, w.calls[t], step);
      }
    } else if step.Handle? {
      hide Apply;
      HandleGrows(w, step.t, step.id);
    } else if step.LoadEntry? {
      hide Apply;
      LookUpGrows(w, step.t, step.id);
    } else if step.StoreFailure? || step.StoreSuccess? {
      SameRepliesSelf(w.calls[t], Apply(w, step).calls[t].stage);
    }
  }

  /** What success says about the banks. */
  predicate Committed(w: World, t: nat)
    requires t in w.calls
  {
    var call := w.calls[t];
    && BothYes(call, PrepareRpc) && BothYes(call, CommitRpc)
    && !PendingAt(w, call.req.fromBank, t) && !PendingAt(w, call.req.toBank, t)
  }

  /** A first-time success: the call ran and was answered with success. */
  predicate Succeeded(call: Call) {
    call.stage.Returned? && call.stage.out.Replied? && call.stage.out.r.success && call.rpcs != map[]
  }

  lemma {:induction false} RunGrows(w: World, steps: seq<Step>, t: nat)
    requires WorldOk(w) && IsRun(w, steps) && t in w.calls
    ensures t in After(w, steps).calls && CallGrows(w.calls[t], After(w, steps).calls[t])
    decreases steps
  {
    hide WorldOk, Apply, Enabled;
    if steps != [] {
      StepKeeps(w, steps[0]);
      StepGrows(w, steps[0], t);
      RunGrows(Apply(w, steps[0]), steps[1..], t);
    }
  }

  lemma SuccessCommitted(w: World, t: nat)
    requires WorldOk(w) && t in w.calls && Succeeded(w.calls[t])
    ensures Committed(w, t)
  {
    assert CallOk(w.calls[t]) && BanksOk(w, t);
  }

  // ---- Turning points of a run ----

  /** What a run does to a fact: it is false before some step and true after it. */
  lemma {:induction false} TurningPoint(w: World, steps: seq<Step>, fact: World -> bool) returns (k: nat)
    requires IsRun(w, steps) && !fact(w) && fact(After(w, steps))
    ensures k < |steps| && IsRun(w, steps[..k]) && Enabled(After(w, steps[..k]), steps[k])
    ensures !fact(After(w, steps[..k])) && fact(Apply(After(w, steps[..k]), steps[k]))
    decreases steps
  {
    hide Apply, Enabled;
    var next := Apply(w, steps[0]);
    if fact(next) {
      k := 0;
    } else {
      k := TurningPoint(next, steps[1..], fact);
      assert steps[1..][..k] == steps[..k + 1][1..];
      k := k + 1;
    }
  }

  lemma {:induction false} RunSplit(w: World, a: seq<Step>, b: seq<Step>)
    requires IsRun(w, a + b)
    ensures IsRun(w, a) && IsRun(After(w, a), b) && After(After(w, a), b) == After(w, a + b)
    decreases a
  {
    hide Apply, Enabled;
    if a == [] {
      assert a + b == b;
    } else {
      assert (a + b)[0] == a[0] && (a + b)[1..] == a[1..] + b;
      RunSplit(Apply(w, a[0]), a[1..], b);
    }
  }

  lemma RunPrefix(w: World, steps: seq<Step>, k: nat)
    requires IsRun(w, steps) && k <= |steps|
    ensures IsRun(w, steps[..k]) && IsRun(After(w, steps[..k]), steps[k..])
    ensures After(After(w, steps[..k]), steps[k..]) == After(w, steps)
  {
    hide IsRun, After;
    assert steps == steps[..k] + steps[k..];
    RunSplit(w, steps[..k], steps[k..]);
  }

  lemma OneStepRun(w: World, step: Step)
    requires IsRun(w, [step])
    ensures Enabled(w, step) && After(w, [step]) == Apply(w, step)
  {
    hide Apply, Enabled;
    assert [step][0] == step && [step][1..] == [];
    assert After(Apply(w, step), []) == Apply(w, step);
  }

  lemma PrefixStep(w: World, steps: seq<Step>, k: nat)
    requires IsRun(w, steps) && k < |steps|
    ensures IsRun(w, steps[..k]) && IsRun(w, steps[..k + 1])
    ensures Enabled(After(w, steps[..k]), steps[k])
    ensures After(w, steps[..k + 1]) == Apply(After(w, steps[..k]), steps[k])
  {
    hide IsRun, After, Apply, Enabled;
    RunPrefix(w, steps, k + 1);
    assert steps[..k + 1] == steps[..k] + [steps[k]];
    RunSplit(w, steps[..k], [steps[k]]);
    OneStepRun(After(w, steps[..k]), steps[k]);
  }

  /** The run has a step in which the bank of one side removes the entry of `t` for its Commit. */
  predicate RemovesEntry(w: World, steps: seq<Step>, t: nat, side: Side, k: nat)
    requires k < |steps|
  {
    && IsRun(w, steps[..k]) && steps[k] == Handle(t, RpcId(CommitRpc, side))
    && var before := After(w, steps[..k]);
       && Enabled(before, steps[k])
       && PendingAt(before, BankOf(before.calls[t].req, side), t)
       && !PendingAt(Apply(before, steps[k]), BankOf(before.calls[t].req, side), t)
  }

  predicate Removes(w: World, steps: seq<Step>, t: nat, side: Side) {
    exists k :: 0 <= k < |steps| && RemovesEntry(w, steps, t, side, k)
  }

  predicate SaidYesIn(w: World, t: nat, id: RpcId) {
    t in w.calls && SaidYes(w.calls[t], id)
  }

  lemma YesComesFromHandle(w: World, step: Step, t: nat, side: Side)
    requires WorldOk(w) && Enabled(w, step)
    requires !SaidYesIn(w, t, RpcId(CommitRpc, side)) && SaidYesIn(Apply(w, step), t, RpcId(CommitRpc, side))
    ensures step == Handle(t, RpcId(CommitRpc, side))
  {
    if IsCallStep(step) {
      hide Apply, Enabled, StepCall, CallEnabled, CallOk;
      ApplyCallStep(w, step);
      StepCallReplies(w, w.calls[step.t], step);
    }
  }

  lemma HandledCommit(w: World, t: nat, side: Side)
    requires WorldOk(w) && Enabled(w, Handle(t, RpcId(CommitRpc, side)))
    ensures var name := BankOf(w.calls[t].req, side);
            var w' := Apply(w, Handle(t, RpcId(CommitRpc, side)));
            && SaidYes(w'.calls[t], RpcId(CommitRpc, side))
            && !PendingAt(w', name, t)
            && (PendingAt(w, name, t) <==>
                  OneBank(w.calls[t].req) ==> !RepliedAt(w.calls[t], RpcId(CommitRpc, OtherSide(side))))
  {
    var w' := Apply(w, Handle(t, RpcId(CommitRpc, side)));
    assert BanksOk(w, t);
    HandleOwnBanks(w, t, RpcId(CommitRpc, side));
    assert side == Sender || side == Receiver;
  }

  lemma CommitOnceEach(w: World, steps: seq<Step>, t: nat, side: Side)
    requires WorldOk(w) && IsRun(w, steps)
    requires !SaidYesIn(w, t, RpcId(CommitRpc, side)) && SaidYesIn(After(w, steps), t, RpcId(CommitRpc, side))
    requires !OneBank(After(w, steps).calls[t].req)
    ensures Removes(w, steps, t, side)
  {
    var id := RpcId(CommitRpc, side);
    var k := TurningPoint(w, steps, (x: World) => SaidYesIn(x, t, id));
    var before := After(w, steps[..k]);
    RunKeeps(w, steps[..k]);
    YesComesFromHandle(before, steps[k], t, side);
    RunPrefix(w, steps, k);
    RunGrows(before, steps[k..], t);
    HandledCommit(before, t, side);
    assert RemovesEntry(w, steps, t, side, k);
  }

  /** Success means both sides committed once: after a first-time success both banks have voted yes
      and committed, and in every continuation neither holds an entry for the transaction again. If
      they are two different banks, each has removed exactly the entry it held. */
  lemma SuccessMeansCommitted(banks: map<string, Bank>, steps: seq<Step>, more: seq<Step>, t: nat)
    requires IsRun(Initial(banks), steps) && IsRun(After(Initial(banks), steps), more)
    requires t in After(Initial(banks), steps).calls && Succeeded(After(Initial(banks), steps).calls[t])
    ensures var w := After(After(Initial(banks), steps), more); t in w.calls && Committed(w, t)
    ensures !OneBank(After(Initial(banks), steps).calls[t].req) ==>
              Removes(Initial(banks), steps, t, Sender) && Removes(Initial(banks), steps, t, Receiver)
  {
    hide Apply, Enabled, WorldOk, Removes;
    InitialOk(banks);
    RunKeeps(Initial(banks), steps);
    var w := After(Initial(banks), steps);
    SuccessCommitted(w, t);
    if !OneBank(w.calls[t].req) {
      CommitOnceEach(Initial(banks), steps, t, Sender);
      CommitOnceEach(Initial(banks), steps, t, Receiver);
    }
    RunKeeps(w, more);
    RunGrows(w, more, t);
    StillCommitted(w, After(w, more), t);
  }

  lemma StillCommitted(w: World, w': World, t: nat)
    requires t in w.calls && t in w'.calls && Committed(w, t) && CallGrows(w.calls[t], w'.calls[t]) && WorldOk(w')
    ensures Committed(w', t)
  {
    assert BanksOk(w', t);
  }

  /** Finishing Commit answers yes, removes the transaction's entry and no other, and finds it there
      unless the other Commit of the payment went to the same bank and was faster. */
  lemma CommitRemovesItsEntry(banks: map<string, Bank>, steps: seq<Step>, t: nat, side: Side)
    requires IsRun(Initial(banks), steps) && Enabled(After(Initial(banks), steps), Handle(t, RpcId(CommitRpc, side)))
    ensures var w := After(Initial(banks), steps);
            var w' := Apply(w, Handle(t, RpcId(CommitRpc, side)));
            var name := BankOf(w.calls[t].req, side);
            && SaidYes(w'.calls[t], RpcId(CommitRpc, side))
            && w'.banks == w.banks[name := w'.banks[name]]
            && w'.banks[name].pending == w.banks[name].pending - {t}
            && (PendingAt(w, name, t) <==>
                  OneBank(w.calls[t].req) ==> !RepliedAt(w.calls[t], RpcId(CommitRpc, OtherSide(side))))
  {
    InitialOk(banks);
    RunKeeps(Initial(banks), steps);
    HandledCommit(After(Initial(banks), steps), t, side);
  }

  /** No step but a bank's handling of one of its own RPCs changes the entries of a transaction. */
  lemma OthersUntouched(w: World, step: Step, name: string, u: nat)
    requires Enabled(w, step) && (step.Handle? ==> step.t != u)
    ensures PendingAt(Apply(w, step), name, u) <==> PendingAt(w, name, u)
    ensures PendingAt(w, name, u) ==> Apply(w, step).banks[name].pending[u] == w.banks[name].pending[u]
  {
    if step.Handle? {
      var call := w.calls[step.t];
      HandleElsewhere(w.banks[BankOf(call.req, step.id.side)], step.t, call.req, step.id, u);
    }
  }

  // ---- Payments inside one bank ----

  predicate LoadedAt(call: Call, id: RpcId) {
    id in call.rpcs && call.rpcs[id].loaded
  }

  predicate BothLoaded(w: World, t: nat) {
    t in w.calls && LoadedAt(w.calls[t], RpcId(CommitRpc, Sender)) && LoadedAt(w.calls[t], RpcId(CommitRpc, Receiver))
  }

  /** Both Commit handlers have found the entry and neither has deleted it. */
  predicate Overlapping(w: World, t: nat) {
    && BothLoaded(w, t)
    && !RepliedAt(w.calls[t], RpcId(CommitRpc, Sender)) && !RepliedAt(w.calls[t], RpcId(CommitRpc, Receiver))
  }

  predicate EverOverlapping(w: World, steps: seq<Step>, t: nat) {
    exists k :: 0 <= k <= |steps| && IsRun(w, steps[..k]) && Overlapping(After(w, steps[..k]), t)
  }

  lemma LoadedComesFromLookUp(w: World, step: Step, t: nat, id: RpcId)
    requires WorldOk(w) && Enabled(w, step) && t in Apply(w, step).calls
    requires !(t in w.calls && LoadedAt(w.calls[t], id)) && LoadedAt(Apply(w, step).calls[t], id)
    ensures step == LoadEntry(t, id)
  {
    if IsCallStep(step) {
      hide Apply, Enabled, StepCall, CallEnabled, CallOk;
      ApplyCallStep(w, step);
      StepCallReplies(w, w.calls[step.t], step);
    }
  }

  /** The second lookup finds the entry only if nothing has deleted it. */
  lemma SecondLookUp(w: World, step: Step, t: nat)
    requires WorldOk(w) && Enabled(w, step) && !BothLoaded(w, t) && BothLoaded(Apply(w, step), t)
    requires OneBank(Apply(w, step).calls[t].req)
    ensures Overlapping(Apply(w, step), t)
  {
    var w' := Apply(w, step);
    var side := if t in w.calls && LoadedAt(w.calls[t], RpcId(CommitRpc, Sender)) then Receiver else Sender;
    LoadedComesFromLookUp(w, step, t, RpcId(CommitRpc, side));
    assert BanksOk(w, t);
  }

  /** A payment inside one bank: once both Commits are answered, both are answered with yes if and
      only if, somewhere in the run, both had found the one entry before either deleted it. */
  lemma OneBankCommitsIff(banks: map<string, Bank>, steps: seq<Step>, t: nat)
    requires IsRun(Initial(banks), steps) && t in After(Initial(banks), steps).calls
    requires var call := After(Initial(banks), steps).calls[t];
             && OneBank(call.req)
             && RepliedAt(call, RpcId(CommitRpc, Sender)) && RepliedAt(call, RpcId(CommitRpc, Receiver))
    ensures BothYes(After(Initial(banks), steps).calls[t], CommitRpc) <==>
            EverOverlapping(Initial(banks), steps, t)
  {
    var w0, w := Initial(banks), After(Initial(banks), steps);
    InitialOk(banks);
    RunKeeps(w0, steps);
    assert BanksOk(w, t);
    if BothYes(w.calls[t], CommitRpc) {
      OneBankOverlaps(w0, steps, t);
    }
    if k :| 0 <= k <= |steps| && IsRun(w0, steps[..k]) && Overlapping(After(w0, steps[..k]), t) {
      RunKeeps(w0, steps[..k]);
      RunPrefix(w0, steps, k);
      RunGrows(After(w0, steps[..k]), steps[k..], t);
    }
  }

  lemma OneBankOverlaps(w0: World, steps: seq<Step>, t: nat)
    requires WorldOk(w0) && IsRun(w0, steps) && t !in w0.calls
    requires BothLoaded(After(w0, steps), t) && OneBank(After(w0, steps).calls[t].req)
    ensures EverOverlapping(w0, steps, t)
  {
    hide Apply, Enabled, WorldOk, Overlapping;
    var k := TurningPoint(w0, steps, (x: World) => BothLoaded(x, t));
    var before := After(w0, steps[..k]);
    RunKeeps(w0, steps[..k]);
    RunPrefix(w0, steps, k);
    RunPrefix(w0, steps, k + 1);
    PrefixStep(w0, steps, k);
    StepKeeps(before, steps[k]);
    RunGrows(After(w0, steps[..k + 1]), steps[k + 1..], t);
    SecondLookUp(before, steps[k], t);
  }

  /** So a payment inside one bank is answered with success only in such runs. */
  lemma OneBankSucceedsOnlyIf(banks: map<string, Bank>, steps: seq<Step>, t: nat)
    requires IsRun(Initial(banks), steps) && t in After(Initial(banks), steps).calls
    requires OneBank(After(Initial(banks), steps).calls[t].req) && Succeeded(After(Initial(banks), steps).calls[t])
    ensures EverOverlapping(Initial(banks), steps, t)
  {
    InitialOk(banks);
    RunKeeps(Initial(banks), steps);
    SuccessCommitted(After(Initial(banks), steps), t);
    OneBankCommitsIff(banks, steps, t);
  }
}
