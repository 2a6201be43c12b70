/** Exactly which payments can succeed: a payment that has missed its lookup can run to success, step by
    step, if its banks exist and know the accounts. */
module PaymentSuccess {

  import opened Options
  import opened PaymentBank
  import opened PaymentGateway
  import opened PaymentWorld
  import opened PaymentAgreement
  import opened PaymentRuns

  const REQ := Request("alice", "key", "A", "a", "B", "b", 100.0)
  const INSIDE := Request("alice", "key", "A", "a", "A", "a", 100.0)
  const BANKS := map["A" := Bank(map["a" := 0.0], map[]), "B" := Bank(map["b" := 0.0], map[])]

  ghost predicate Reaches(w: World, w': World) {
    exists steps :: IsRun(w, steps) && After(w, steps) == w'
  }

  lemma OneStep(w: World, step: Step)
    requires Enabled(w, step)
    ensures Reaches(w, Apply(w, step))
  {
    hide Apply, Enabled;
    assert [step][0] == step && [step][1..] == [];
    assert IsRun(Apply(w, step), []) && After(Apply(w, step), []) == Apply(w, step);
    assert IsRun(w, [step]) && After(w, [step]) == Apply(w, step);
  }

  lemma Then(w: World, w': World, w'': World)
    requires Reaches(w, w') && Reaches(w', w'')
    ensures Reaches(w, w'')
  {
    hide Apply, Enabled;
    var a :| IsRun(w, a) && After(w, a) == w';
    var b :| IsRun(w', b) && After(w', b) == w'';
    RunAppend(w, a, b);
  }

  /** The call after the RPC `id` was answered and the select loop took the answer. */
  function Answered(call: Call, id: RpcId, reply: Reply): Call
    requires call.stage.Collecting?
  {
    TakeAnswer(Delivered(call, id, reply), id)
  }

  function Delivered(call: Call, id: RpcId, reply: Reply): Call {
    call.(rpcs := call.rpcs[id := Rpc(Some(reply), id.kind == CommitRpc, true)], box := map[id := reply])
  }

  /** An RPC that only has to be handled: for Commit, its lookup has found the entry. */
  predicate AtBank(call: Call, id: RpcId) {
    id in call.rpcs && call.rpcs[id] == Rpc(None, id.kind == CommitRpc, false)
  }

  predicate CanAnswer(w: World, t: nat, id: RpcId) {
    && t in w.calls && w.calls[t].stage.Collecting? && w.calls[t].stage.kind == id.kind && id.kind != AbortRpc
    && w.calls[t].box == map[] && AtBank(w.calls[t], id)
    && BankOf(w.calls[t].req, id.side) in w.banks
  }

  function Handled(w: World, t: nat, id: RpcId): (Bank, Reply)
    requires CanAnswer(w, t, id)
  {
    HandleRpc(w.banks[BankOf(w.calls[t].req, id.side)], t, w.calls[t].req, id)
  }

  function AfterAnswer(w: World, t: nat, id: RpcId): World
    requires CanAnswer(w, t, id)
  {
    var (bank, reply) := Handled(w, t, id);
    SetCall(w, t, Answered(w.calls[t], id, reply)).(banks := w.banks[BankOf(w.calls[t].req, id.side) := bank])
  }

  lemma HandleStep(w: World, t: nat, id: RpcId) returns (w1: World)
    requires CanAnswer(w, t, id)
    ensures var (bank, reply) := Handled(w, t, id);
            w1 == SetCall(w, t, w.calls[t].(rpcs := w.calls[t].rpcs[id := Rpc(Some(reply), id.kind == CommitRpc, false)]))
                  .(banks := w.banks[BankOf(w.calls[t].req, id.side) := bank])
    ensures Reaches(w, w1)
  {
    hide HandleRpc, Reaches;
    OneStep(w, Handle(t, id));
    w1 := Apply(w, Handle(t, id));
  }

  lemma DeliverStep(w: World, t: nat, id: RpcId, reply: Reply) returns (w1: World)
    requires t in w.calls && id.kind != AbortRpc && w.calls[t].box == map[] && id in w.calls[t].rpcs
    requires w.calls[t].rpcs[id] == Rpc(Some(reply), id.kind == CommitRpc, false)
    ensures w1 == SetCall(w, t, Delivered(w.calls[t], id, reply)) && Reaches(w, w1)
  {
    hide Reaches;
    OneStep(w, ReturnReply(t, id));
    w1 := Apply(w, ReturnReply(t, id));
    assert w.calls[t].box[id := reply] == map[id := reply];
  }

  lemma TakeStep(w: World, t: nat, id: RpcId) returns (w1: World)
    requires t in w.calls && w.calls[t].stage.Collecting? && w.calls[t].stage.kind == id.kind && id in w.calls[t].box
    ensures w1 == SetCall(w, t, TakeAnswer(w.calls[t], id)) && Reaches(w, w1)
  {
    hide Reaches, TakeAnswer;
    OneStep(w, TakeReply(t, id));
    w1 := Apply(w, TakeReply(t, id));
  }

  /** Three steps: the bank handles the RPC, its goroutine delivers, the select loop takes. */
  lemma AnswerSide(w: World, t: nat, id: RpcId)
    requires CanAnswer(w, t, id)
    ensures Reaches(w, AfterAnswer(w, t, id))
  {
    hide TakeAnswer, HandleRpc, Reaches, Apply;
    var call := w.calls[t];
    var (bank, reply) := Handled(w, t, id);
    var w1 := HandleStep(w, t, id);
    var w2 := DeliverStep(w1, t, id, reply);
    assert Delivered(w1.calls[t], id, reply).rpcs == Delivered(call, id, reply).rpcs;
    assert w2.calls[t] == Delivered(call, id, reply);
    var w3 := TakeStep(w2, t, id);
    assert w3.calls == w.calls[t := Answered(call, id, reply)];
    assert w3 == AfterAnswer(w, t, id);
    Then(w, w1, w2);
    Then(w, w2, w3);
  }

  /** What running call `t` leaves as it was. */
  predicate SameElsewhere(w: World, w': World, t: nat) {
    && t in w.calls && t in w'.calls && w'.calls == w.calls[t := w'.calls[t]] && w'.calls[t].req == w.calls[t].req
    && SameAccounts(w, w') && w'.registrations == w.registrations
  }

  predicate SameAccounts(w: World, w': World) {
    w'.banks.Keys == w.banks.Keys && forall n :: n in w.banks ==> w'.banks[n].accounts == w.banks[n].accounts
  }

  predicate Knows(w: World, req: Request, side: Side) {
    BankOf(req, side) in w.banks && AccountOf(req, side) in w.banks[BankOf(req, side)].accounts
  }

  /** Both banks exist and know the accounts. */
  predicate Payable(w: World, req: Request) {
    && req.fromBank in w.banks && req.fromAccount in w.banks[req.fromBank].accounts
    && req.toBank in w.banks && req.toAccount in w.banks[req.toBank].accounts
  }

  /** Call `t` has looked its key up and found nothing. */
  predicate Ready(w: World, t: nat) {
    t in w.calls && w.calls[t] == Call(w.calls[t].req, Missed, map[], map[], [])
  }

  /** Call `t` starts to collect answers of this kind. */
  predicate Starting(w: World, t: nat, kind: Kind) {
    && t in w.calls && Payable(w, w.calls[t].req)
    && w.calls[t].stage == Collecting(kind, 0, None, None) && w.calls[t].box == map[]
  }

  /** It has an RPC that only has to be handled at each bank. */
  predicate Asking(w: World, t: nat, kind: Kind) {
    && Starting(w, t, kind)
    && AtBank(w.calls[t], RpcId(kind, Sender)) && AtBank(w.calls[t], RpcId(kind, Receiver))
  }

  predicate Unanswered(call: Call, id: RpcId) {
    id in call.rpcs && call.rpcs[id] == SENT
  }

  /** Its two Commits are out and each bank holds its entry. */
  predicate CommitsOut(w: World, t: nat) {
    && Starting(w, t, CommitRpc)
    && Unanswered(w.calls[t], RpcId(CommitRpc, Sender)) && Unanswered(w.calls[t], RpcId(CommitRpc, Receiver))
    && PendingAt(w, w.calls[t].req.fromBank, t) && PendingAt(w, w.calls[t].req.toBank, t)
  }

  lemma LaunchCall(w: World, t: nat) returns (w': World)
    requires Ready(w, t) && Payable(w, w.calls[t].req)
    ensures Reaches(w, w') && SameElsewhere(w, w', t) && w'.accounts == w.accounts && Asking(w', t, PrepareRpc)
  {
    hide Reaches;
    OneStep(w, Launch(t));
    w' := Apply(w, Launch(t));
  }

  /** The first answer is a yes. */
  lemma FirstAnswer(w: World, t: nat, kind: Kind) returns (w': World, reply: Reply)
    requires kind != AbortRpc && Asking(w, t, kind)
    ensures Reaches(w, w') && SameElsewhere(w, w', t) && w'.accounts == w.accounts
    ensures CanAnswer(w', t, RpcId(kind, Receiver)) && reply.ok
    ensures w'.calls[t].stage == Collecting(kind, 1, Some(reply), None)
    ensures kind == PrepareRpc ==> PendingAt(w', w.calls[t].req.fromBank, t)
  {
    hide Reaches, Enabled, Apply, Decide;
    var id := RpcId(kind, Sender);
    AnswerSide(w, t, id);
    w' := AfterAnswer(w, t, id);
    reply := Handled(w, t, id).1;
    assert w'.calls[t].box == map[];
  }

  /** So is the second, and the phase ends. */
  lemma SecondYes(w: World, t: nat, kind: Kind, first: Reply) returns (w': World)
    requires kind != AbortRpc && CanAnswer(w, t, RpcId(kind, Receiver)) && Payable(w, w.calls[t].req)
    requires w.calls[t].stage == Collecting(kind, 1, Some(first), None) && first.ok
    requires kind == PrepareRpc ==> PendingAt(w, w.calls[t].req.fromBank, t)
    ensures Reaches(w, w') && SameElsewhere(w, w', t) && w'.accounts == w.accounts
    ensures if kind == PrepareRpc then CommitsOut(w', t) else w'.calls[t].stage == Debiting && w'.calls[t].rpcs != map[]
  {
    hide Reaches, Enabled, Apply;
    var id := RpcId(kind, Receiver);
    AnswerSide(w, t, id);
    w' := AfterAnswer(w, t, id);
    assert w'.calls[t].box == map[];
  }

  lemma Phase(w: World, t: nat, kind: Kind) returns (w': World)
    requires kind != AbortRpc && Asking(w, t, kind)
    ensures Reaches(w, w') && SameElsewhere(w, w', t) && w'.accounts == w.accounts
    ensures if kind == PrepareRpc then CommitsOut(w', t) else w'.calls[t].stage == Debiting && w'.calls[t].rpcs != map[]
  {
    hide Reaches;
    var w1, reply := FirstAnswer(w, t, kind);
    w' := SecondYes(w1, t, kind, reply);
    Then(w, w1, w');
  }

  /** Both Commit handlers look the entry up before either deletes it. */
  lemma LookUps(w: World, t: nat) returns (w': World)
    requires CommitsOut(w, t)
    ensures Reaches(w, w') && SameElsewhere(w, w', t) && w'.accounts == w.accounts && Asking(w', t, CommitRpc)
  {
    hide Reaches;
    var s, r := RpcId(CommitRpc, Sender), RpcId(CommitRpc, Receiver);
    OneStep(w, LoadEntry(t, s));
    var w1 := Apply(w, LoadEntry(t, s));
    OneStep(w1, LoadEntry(t, r));
    w' := Apply(w1, LoadEntry(t, r));
    Then(w, w1, w');
  }

  /** A call that missed the lookup can get to its debit, whatever has been stored since. */
  lemma RunsToDebit(w: World, t: nat) returns (w': World)
    requires Ready(w, t) && Payable(w, w.calls[t].req)
    ensures Reaches(w, w') && SameElsewhere(w, w', t) && w'.accounts == w.accounts
    ensures w'.calls[t].stage == Debiting && w'.calls[t].rpcs != map[]
  {
    hide Reaches, Asking, CommitsOut;
    var w1 := LaunchCall(w, t);
    var w2 := Phase(w1, t, PrepareRpc);
    var w3 := LookUps(w2, t);
    w' := Phase(w3, t, CommitRpc);
    Then(w, w1, w2);
    Then(w, w2, w3);
    Then(w, w3, w');
  }

  function Debited(accounts: map<string, real>, req: Request): map<string, real> {
    if req.client in accounts then accounts[req.client := accounts[req.client] - req.amount] else accounts
  }

  lemma Debit(w: World, t: nat) returns (w': World)
    requires t in w.calls && w.calls[t].stage == Debiting
    ensures Reaches(w, w') && SameElsewhere(w, w', t)
    ensures w'.accounts == Debited(w.accounts, w.calls[t].req)
    ensures w'.calls[t].stage.Succeeding? && w'.calls[t].rpcs == w.calls[t].rpcs
  {
    hide Reaches;
    OneStep(w, LoadBalance(t));
    w' := Apply(w, LoadBalance(t));
    if w.calls[t].req.client in w.accounts {
      var w1 := w';
      OneStep(w1, StoreBalance(t));
      w' := Apply(w1, StoreBalance(t));
      Then(w, w1, w');
    }
  }

  lemma Store(w: World, t: nat) returns (w': World)
    requires t in w.calls && w.calls[t].stage.Succeeding?
    ensures Reaches(w, w') && SameElsewhere(w, w', t) && w'.accounts == w.accounts
    ensures PaidOut(w', t) && w'.calls[t].rpcs == w.calls[t].rpcs
  {
    hide Reaches;
    OneStep(w, StoreSuccess(t));
    w' := Apply(w, StoreSuccess(t));
  }

  predicate PaidOut(w: World, t: nat) {
    t in w.calls && w.calls[t].stage == Returned(Replied(Response(true, Paid(w.calls[t].req.amount, t))))
  }

  /** And it can run to success and debit. */
  lemma RunsToSuccess(w: World, t: nat) returns (w': World)
    requires Ready(w, t) && Payable(w, w.calls[t].req)
    ensures Reaches(w, w') && SameElsewhere(w, w', t)
    ensures w'.accounts == Debited(w.accounts, w.calls[t].req) && PaidOut(w', t) && w'.calls[t].rpcs != map[]
  {
    hide Reaches;
    var w1 := RunsToDebit(w, t);
    var w2 := Debit(w1, t);
    w' := Store(w2, t);
    Then(w, w1, w2);
    Then(w, w2, w');
  }

  lemma TwoLookups(w0: World, a: Request, b: Request) returns (w: World)
    requires 0 !in w0.calls && 1 !in w0.calls && w0.stored == map[]
    ensures Reaches(w0, w) && Ready(w, 0) && Ready(w, 1) && w.calls[0].req == a && w.calls[1].req == b
    ensures w.banks == w0.banks && w.accounts == w0.accounts && w.registrations == w0.registrations
  {
    hide Reaches;
    OneStep(w0, Submit(0, a));
    var w1 := Apply(w0, Submit(0, a));
    OneStep(w1, Submit(1, b));
    var w2 := Apply(w1, Submit(1, b));
    OneStep(w2, Lookup(0));
    var w3 := Apply(w2, Lookup(0));
    OneStep(w3, Lookup(1));
    w := Apply(w3, Lookup(1));
    Then(w0, w1, w2);
    Then(w0, w2, w3);
    Then(w0, w3, w);
  }

  /** A run from the start in which a payment inside one bank succeeds. */
  lemma OneBankSucceeds() returns (w: World)
    ensures Reaches(Initial(BANKS), w) && 0 in w.calls && w.calls[0].req == INSIDE && Succeeded(w.calls[0])
  {
    hide Reaches;
    var w1 := TwoLookups(Initial(BANKS), INSIDE, INSIDE);
    w := RunsToSuccess(w1, 0);
    Then(Initial(BANKS), w1, w);
  }

  // ---- Exactly which payments can succeed ----

  /** A bank that voted yes exists and knows the account. */
  predicate YesIsKnown(w: World, t: nat)
    requires t in w.calls
  {
    forall side :: SaidYes(w.calls[t], RpcId(PrepareRpc, side)) ==> Knows(w, w.calls[t].req, side)
  }

  lemma StepSameAccounts(w: World, step: Step)
    requires Enabled(w, step)
    ensures SameAccounts(w, Apply(w, step))
  {
    if IsCallStep(step) {
      hide Apply, Enabled;
      ApplyCallStep(w, step);
    }
  }

  lemma SameRepliesKnown(w: World, w': World, t: nat)
    requires t in w.calls && YesIsKnown(w, t) && SameAccounts(w, w') && t in w'.calls && SameReplies(w.calls[t], w'.calls[t])
    ensures YesIsKnown(w', t)
  {
  }

  lemma HandleKnown(w: World, t: nat, id: RpcId)
    requires t in w.calls && YesIsKnown(w, t) && Enabled(w, Handle(t, id))
    ensures YesIsKnown(Apply(w, Handle(t, id)), t)
  {
  }

  lemma LookUpKnown(w: World, t: nat, id: RpcId)
    requires t in w.calls && YesIsKnown(w, t) && Enabled(w, LoadEntry(t, id))
    ensures YesIsKnown(Apply(w, LoadEntry(t, id)), t)
  {
    var w' := Apply(w, LoadEntry(t, id));
    forall side | SaidYes(w'.calls[t], RpcId(PrepareRpc, side)) ensures Knows(w', w'.calls[t].req, side) {
      assert SaidYes(w.calls[t], RpcId(PrepareRpc, side));
    }
  }

  lemma SameOrSet(w: World, w': World, u: nat, call: Call, t: nat)
    requires t in w.calls && YesIsKnown(w, t) && SameAccounts(w, w') && u in w.calls
    requires w'.calls == w.calls[u := call] && SameReplies(w.calls[u], call)
    ensures YesIsKnown(w', t)
  {
  }

  lemma StepKnown(w: World, step: Step, t: nat)
    requires WorldOk(w) && t in w.calls && YesIsKnown(w, t) && Enabled(w, step)
    ensures t in Apply(w, step).calls && YesIsKnown(Apply(w, step), t)
  {
    hide YesIsKnown, SameAccounts, WorldOk, CallOk, SameReplies;
    StepSameAccounts(w, step);
    if IsCallStep(step) {
      hide Apply, Enabled, StepCall, CallEnabled;
      ApplyCallStep(w, step);
      OneCallOk(w, step.t);
      StepCallReplies(w, w.calls[step.t], step);
      SameOrSet(w, Apply(w, step), step.t, StepCall(w, w.calls[step.t], step), t);
    } else if step.Handle? && step.t == t {
      HandleKnown(w, t, step.id);
    } else if step.LoadEntry? && step.t == t {
      LookUpKnown(w, t, step.id);
    } else {
      SameRepliesSelf(w.calls[t], Apply(w, step).calls[t].stage);
      SameRepliesKnown(w, Apply(w, step), t);
    }
  }

  lemma {:induction false} RunKnown(w: World, steps: seq<Step>, t: nat)
    requires WorldOk(w) && t in w.calls && YesIsKnown(w, t) && IsRun(w, steps)
    ensures t in After(w, steps).calls && YesIsKnown(After(w, steps), t) && SameAccounts(w, After(w, steps))
    decreases steps
  {
    hide YesIsKnown, Apply, Enabled;
    if steps != [] {
      StepKnown(w, steps[0], t);
      StepSameAccounts(w, steps[0]);
      StepKeeps(w, steps[0]);
      RunKnown(Apply(w, steps[0]), steps[1..], t);
    }
  }

  /** A payment that missed the lookup can succeed if and only if its banks exist and know the
      accounts: funds never matter. */
  lemma CanSucceedIff(w: World, t: nat)
    requires WorldOk(w) && Ready(w, t)
    ensures (exists w' :: Reaches(w, w') && t in w'.calls && Succeeded(w'.calls[t])) <==> Payable(w, w.calls[t].req)
  {
    if Payable(w, w.calls[t].req) {
      var w' := RunsToSuccess(w, t);
    }
    forall w' | Reaches(w, w') && t in w'.calls && Succeeded(w'.calls[t]) ensures Payable(w, w.calls[t].req) {
      var steps :| IsRun(w, steps) && After(w, steps) == w';
      RunKeeps(w, steps);
      RunKnown(w, steps, t);
      RunGrows(w, steps, t);
      SuccessCommitted(w', t);
    }
  }
}
