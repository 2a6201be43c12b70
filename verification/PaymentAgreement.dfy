/** Two-phase commit over every interleaving of any number of payments, replies, errors and
    timeouts: what the coordinator sends, what its channels deliver, and what the banks keep. */
module PaymentAgreement {

  import opened Options
  import opened PaymentBank
  import opened PaymentGateway
  import opened PaymentWorld

  // ---- One call ----

  predicate HasSent(call: Call, kind: Kind) {
    RpcId(kind, Sender) in call.rpcs || RpcId(kind, Receiver) in call.rpcs
  }

  predicate SentBoth(call: Call, kind: Kind) {
    RpcId(kind, Sender) in call.rpcs && RpcId(kind, Receiver) in call.rpcs
  }

  predicate SaidYes(call: Call, id: RpcId) {
    id in call.rpcs && call.rpcs[id].reply.Some? && call.rpcs[id].reply.value.ok
  }

  predicate BothYes(call: Call, kind: Kind) {
    SaidYes(call, RpcId(kind, Sender)) && SaidYes(call, RpcId(kind, Receiver))
  }

  predicate BothReturned(call: Call, kind: Kind) {
    forall side :: RpcId(kind, side) in call.rpcs ==> call.rpcs[RpcId(kind, side)].returned
  }

  /** Commit goes out only after two positive votes, to both banks, and never with Abort. */
  predicate Agreement(call: Call) {
    HasSent(call, CommitRpc) ==>
      && RpcId(CommitRpc, Sender) in call.rpcs && RpcId(CommitRpc, Receiver) in call.rpcs
      && !HasSent(call, AbortRpc)
      && BothYes(call, PrepareRpc) && BothReturned(call, PrepareRpc)
  }

  predicate ErrorFrom(call: Call, id: RpcId) {
    exists k :: 0 <= k < |call.errs| && call.errs[k].from == id
  }

  function Phase(call: Call): Kind {
    if HasSent(call, CommitRpc) then CommitRpc else PrepareRpc
  }

  /** A message in a channel comes from a goroutine that has ended, and from the current phase. */
  predicate FromDone(call: Call, id: RpcId) {
    id in call.rpcs && call.rpcs[id].returned && id.kind == Phase(call)
  }

  lemma SentOf(call: Call, id: RpcId)
    requires id in call.rpcs
    ensures HasSent(call, id.kind)
    ensures id == RpcId(id.kind, Sender) || id == RpcId(id.kind, Receiver)
  {
    match id.side
    case Sender => assert id == RpcId(id.kind, Sender);
    case Receiver => assert id == RpcId(id.kind, Receiver);
  }

  /** Only goroutines of the current phase are running. */
  lemma LivePhase(call: Call, id: RpcId)
    requires Agreement(call) && Live(call, id)
    ensures id.kind == Phase(call)
  {
    SentOf(call, id);
    assert id == RpcId(id.kind, id.side);
  }

  predicate Channels(call: Call) {
    && (forall id :: id in call.box ==>
          FromDone(call, id) && call.rpcs[id].reply == Some(call.box[id]) && !ErrorFrom(call, id))
    && (forall k :: 0 <= k < |call.errs| ==> FromDone(call, call.errs[k].from))
    && (forall k, l :: 0 <= k < l < |call.errs| ==> call.errs[k].from != call.errs[l].from)
  }

  /** One side of a select loop: its answer has been taken, or its goroutine is still running, or
      its message waits in a channel. */
  predicate SideOk(call: Call, id: RpcId, taken: Option<Reply>) {
    && id in call.rpcs
    && (taken.Some? ==>
          call.rpcs[id].returned && call.rpcs[id].reply == taken && id !in call.box && !ErrorFrom(call, id))
    && (taken.None? && call.rpcs[id].returned ==> id in call.box || ErrorFrom(call, id))
  }

  predicate Idle(call: Call) {
    call.rpcs == map[] && call.box == map[] && call.errs == []
  }

  /** Both banks were asked to prepare, and then both to commit or both to abort. */
  predicate Ended(call: Call) {
    SentBoth(call, PrepareRpc) && (HasSent(call, CommitRpc) || SentBoth(call, AbortRpc))
  }

  predicate StageOk(call: Call) {
    match call.stage
    case Arrived => Idle(call)
    case Missed => Idle(call)
    case Collecting(kind, i, s, r) =>
      && kind != AbortRpc && !HasSent(call, AbortRpc)
      && (kind == CommitRpc <==> HasSent(call, CommitRpc))
      && SideOk(call, RpcId(kind, Sender), s) && SideOk(call, RpcId(kind, Receiver), r)
      && i == (if s.Some? then 1 else 0) + (if r.Some? then 1 else 0) < 2
    case Aborting(side, _) =>
      && !HasSent(call, CommitRpc) && SentBoth(call, PrepareRpc)
      && RpcId(AbortRpc, Sender) in call.rpcs
      && (side == Receiver <==> RpcId(AbortRpc, Receiver) in call.rpcs)
    case Failing(_) => Ended(call)
    case Debiting => BothYes(call, CommitRpc)
    case DebitLoaded(_) => BothYes(call, CommitRpc)
    case Succeeding(_) => BothYes(call, CommitRpc)
    case Panicked => false
    case Returned(out) => Idle(call) || (Ended(call) && (out.Replied? && out.r.success ==> BothYes(call, CommitRpc)))
  }

  predicate CallOk(call: Call) {
    Agreement(call) && Channels(call) && StageOk(call)
  }

  /** No goroutine ever blocks on a send. */
  lemma SendsNeverBlock(call: Call, id: RpcId)
    requires CallOk(call) && Live(call, id)
    ensures id !in call.box && |call.errs| < 2
  {
    LivePhase(call, id);
    if |call.errs| >= 2 {
      ThreeOfOneKind(id, call.errs[0].from, call.errs[1].from);
    }
  }

  lemma ThreeOfOneKind(a: RpcId, b: RpcId, c: RpcId)
    requires a.kind == b.kind == c.kind
    ensures a == b || b == c || a == c
  {
    assert a.side.Sender? || a.side.Receiver?;
    assert b.side.Sender? || b.side.Receiver?;
    assert c.side.Sender? || c.side.Receiver?;
  }

  /** The second iteration of a select loop finds the other side's answer already taken, so both
      are set when they are read, and the shared error channel is empty. */
  lemma SecondAnswer(call: Call, id: RpcId)
    requires CallOk(call) && call.stage.Collecting? && call.stage.i == 1 && id in call.box && id.kind == call.stage.kind
    ensures if id.side == Sender then call.stage.receiver.Some? && call.stage.sender.None?
            else call.stage.sender.Some? && call.stage.receiver.None?
    ensures call.errs == []
  {
    var kind := call.stage.kind;
    if call.errs != [] {
      var e := call.errs[0].from;
      assert FromDone(call, e) && ErrorFrom(call, e);
      SentOf(call, e);
    }
  }

  // ---- Steps of one call ----

  lemma LaunchOk(w: World, call: Call, t: nat)
    requires CallOk(call) && CallEnabled(w, call, Launch(t))
    ensures CallOk(StepCall(w, call, Launch(t)))
  {
  }

  lemma ReturnReplyOk(w: World, call: Call, t: nat, id: RpcId)
    requires CallOk(call) && CallEnabled(w, call, ReturnReply(t, id))
    ensures CallOk(StepCall(w, call, ReturnReply(t, id)))
  {
    var next := StepCall(w, call, ReturnReply(t, id));
    LivePhase(call, id);
    forall x ensures ErrorFrom(next, x) <==> ErrorFrom(call, x) {
    }
    forall k | 0 <= k < |call.errs| ensures FromDone(next, call.errs[k].from) {
      assert FromDone(call, call.errs[k].from);
    }
  }

  lemma ReturnErrorOk(w: World, call: Call, t: nat, id: RpcId, text: string)
    requires CallOk(call) && CallEnabled(w, call, ReturnError(t, id, text))
    ensures CallOk(StepCall(w, call, ReturnError(t, id, text)))
  {
    var next := StepCall(w, call, ReturnError(t, id, text));
    LivePhase(call, id);
    forall x ensures ErrorFrom(next, x) <==> ErrorFrom(call, x) || x == id {
      if x == id { assert next.errs[|call.errs|].from == id; }
      if ErrorFrom(call, x) {
        var k :| 0 <= k < |call.errs| && call.errs[k].from == x;
        assert next.errs[k].from == x;
      }
    }
    forall k | 0 <= k < |next.errs| ensures FromDone(next, next.errs[k].from) {
      if k < |call.errs| {
        assert FromDone(call, call.errs[k].from);
      }
    }
  }

  lemma FirstAnswerOk(call: Call, id: RpcId)
    requires CallOk(call) && call.stage.Collecting? && call.stage.i == 0 && id in call.box && id.kind == call.stage.kind
    ensures CallOk(TakeAnswer(call, id))
  {
  }

  lemma StartAbortOk(call: Call, why: string)
    requires Agreement(call) && Channels(call) && !HasSent(call, CommitRpc) && SentBoth(call, PrepareRpc)
    requires !HasSent(call, AbortRpc)
    ensures CallOk(StartAbort(call, why))
  {
  }

  lemma SecondAnswerOk(call: Call, id: RpcId)
    requires CallOk(call) && call.stage.Collecting? && call.stage.i == 1 && id in call.box && id.kind == call.stage.kind
    ensures CallOk(TakeAnswer(call, id))
  {
    SecondAnswer(call, id);
    var Collecting(kind, i, s, r) := call.stage;
    var reply := call.box[id];
    var s' := if id.side == Sender then Some(reply) else s;
    var r' := if id.side == Receiver then Some(reply) else r;
    var next := call.(box := call.box - {id});
    assert call.rpcs[RpcId(kind, Sender)].reply == s' && call.rpcs[RpcId(kind, Receiver)].reply == r';
    forall side: Side
      ensures RpcId(kind, side) in call.rpcs && call.rpcs[RpcId(kind, side)].returned && RpcId(kind, side) !in next.box
    {
      assert side.Sender? || side.Receiver?;
    }
    forall x | x in call.box ensures x == RpcId(kind, x.side) {
      assert FromDone(call, x);
    }
    assert next.box == map[];
    assert Channels(next);
    if kind == PrepareRpc && !(s'.value.ok && r'.value.ok) {
      StartAbortOk(next, Decide(next, kind, s', r').stage.why);
    }
  }

  lemma GiveUpOk(call: Call, why: string)
    requires Agreement(call) && Channels(call) && call.stage.Collecting?
    requires call.stage.kind != AbortRpc && !HasSent(call, AbortRpc)
    requires call.stage.kind == CommitRpc <==> HasSent(call, CommitRpc)
    requires SentBoth(call, PrepareRpc)
    ensures CallOk(GiveUp(call, why))
  {
  }

  lemma TakeErrorOk(w: World, call: Call, t: nat)
    requires CallOk(call) && CallEnabled(w, call, TakeError(t))
    ensures CallOk(StepCall(w, call, TakeError(t)))
  {
    var rest := call.(errs := call.errs[1..]);
    forall x | ErrorFrom(rest, x) ensures ErrorFrom(call, x) {
      var k :| 0 <= k < |rest.errs| && rest.errs[k].from == x;
      assert call.errs[k + 1].from == x;
    }
    assert Channels(rest);
    GiveUpOk(rest, OnError(call.stage.kind, call.errs[0].text));
  }

  lemma AbortReturnsOk(w: World, call: Call, t: nat)
    requires CallOk(call) && CallEnabled(w, call, AbortReturns(t))
    ensures CallOk(StepCall(w, call, AbortReturns(t)))
  {
  }

  lemma StageOnlyOk(call: Call, stage: Stage)
    requires CallOk(call) && StageOk(call.(stage := stage))
    ensures CallOk(call.(stage := stage))
  {
  }

  lemma TimeoutOk(w: World, call: Call, t: nat)
    requires CallOk(call) && CallEnabled(w, call, Timeout(t))
    ensures CallOk(StepCall(w, call, Timeout(t)))
  {
    GiveUpOk(call, OnTimeout(call.stage.kind));
  }

  lemma StageStepOk(w: World, call: Call, step: Step)
    requires CallOk(call) && CallEnabled(w, call, step) && (step.Lookup? || step.LoadBalance? || step.StoreBalance?)
    ensures CallOk(StepCall(w, call, step))
  {
    StageOnlyOk(call, StepCall(w, call, step).stage);
  }

  lemma CallStepOk(w: World, call: Call, step: Step)
    requires CallOk(call) && CallEnabled(w, call, step)
    ensures CallOk(StepCall(w, call, step))
  {
    hide CallOk, OnTimeout, OnError;
    match step
    case Lookup(_) => StageStepOk(w, call, step);
    case Launch(t) => LaunchOk(w, call, t);
    case ReturnReply(t, id) => ReturnReplyOk(w, call, t, id);
    case ReturnError(t, id, text) => ReturnErrorOk(w, call, t, id, text);
    case TakeReply(t, id) => TakeReplyOk(w, call, t, id);
    case TakeError(t) => TakeErrorOk(w, call, t);
    case Timeout(t) => TimeoutOk(w, call, t);
    case AbortReturns(t) => AbortReturnsOk(w, call, t);
    case LoadBalance(_) => StageStepOk(w, call, step);
    case StoreBalance(_) => StageStepOk(w, call, step);
    case _ =>
  }

  lemma TakeReplyOk(w: World, call: Call, t: nat, id: RpcId)
    requires CallOk(call) && CallEnabled(w, call, TakeReply(t, id))
    ensures CallOk(StepCall(w, call, TakeReply(t, id)))
  {
    hide Agreement, Channels;
    if call.stage.i == 0 {
      FirstAnswerOk(call, id);
    } else {
      SecondAnswerOk(call, id);
    }
  }

  /** A bank's reply arrives at most once and changes no other. */
  lemma HandledOk(call: Call, id: RpcId, reply: Reply)
    requires CallOk(call) && id in call.rpcs && call.rpcs[id].reply.None?
    ensures CallOk(call.(rpcs := call.rpcs[id := call.rpcs[id].(reply := Some(reply))]))
  {
    var next := call.(rpcs := call.rpcs[id := call.rpcs[id].(reply := Some(reply))]);
    forall x ensures ErrorFrom(next, x) <==> ErrorFrom(call, x) {
    }
    forall k | 0 <= k < |call.errs| ensures FromDone(next, call.errs[k].from) {
      assert FromDone(call, call.errs[k].from);
    }
  }

  lemma LookedUpOk(call: Call, id: RpcId, b: Bank, t: nat)
    requires CallOk(call) && id in call.rpcs && call.rpcs[id].reply.None?
    ensures CallOk(call.(rpcs := call.rpcs[id := LookUp(b, t, call.rpcs[id])]))
  {
    var next := call.(rpcs := call.rpcs[id := LookUp(b, t, call.rpcs[id])]);
    forall x ensures ErrorFrom(next, x) <==> ErrorFrom(call, x) {
    }
    forall k | 0 <= k < |call.errs| ensures FromDone(next, call.errs[k].from) {
      assert FromDone(call, call.errs[k].from);
    }
  }

  lemma FinishedOk(call: Call, r: Response)
    requires CallOk(call) && ((call.stage.Failing? && !r.success) || call.stage.Succeeding?)
    ensures CallOk(call.(stage := Returned(Replied(r))))
  {
  }
}
