/** Any number of payments and registrations at once: each payment's select loops, its goroutines
    and channels, the RPCs on their way, the banks, and the gateway's stores. */
module PaymentWorld {

  import opened Options
  import opened PaymentBank
  import opened PaymentGateway

  /** An RPC that has been sent: the bank's reply once it has handled it (at most once, possibly
      after the caller gave up), whether its Commit handler has found the entry, and whether the
      call has returned. */
  datatype Rpc = Rpc(reply: Option<Reply>, loaded: bool, returned: bool)

  datatype ErrorMessage = ErrorMessage(from: RpcId, text: string)

  /** Where a payment is. `Collecting(kind, i, s, r)` is iteration `i` of a select loop, with the
      answers taken so far; `Panicked` reads an answer that was never taken. */
  datatype Stage =
    | Arrived
    | Missed
    | Collecting(kind: Kind, i: nat, sender: Option<Reply>, receiver: Option<Reply>)
    | Aborting(side: Side, why: string)
    | Failing(why: string)
    | Debiting
    | DebitLoaded(balance: real)
    | Succeeding(debited: bool)
    | Panicked
    | Returned(out: Outcome)

  /** `box` holds the unread message of each response channel (capacity 1), `errs` the error
      channel both phases share (capacity 2). */
  datatype Call = Call(
    req: Request,
    stage: Stage,
    rpcs: map<RpcId, Rpc>,
    box: map<RpcId, Reply>,
    errs: seq<ErrorMessage>)

  datatype RegStage = RegArrived | RegMissing | RegDone

  datatype Registration = Registration(client: string, stage: RegStage)

  /** History: a call that ran and stored its result. */
  datatype Entry = Entry(txn: nat, key: string, client: string, amount: real, success: bool)

  /** Calls are named by their transaction ids. `log` and `openedAt` (the length of the log when an
      account was first opened) are history. */
  datatype World = World(
    stored: map<string, Response>,
    accounts: map<string, real>,
    banks: map<string, Bank>,
    calls: map<nat, Call>,
    registrations: map<nat, Registration>,
    log: seq<Entry>,
    openedAt: map<string, nat>)

  function Initial(banks: map<string, Bank>): World {
    World(map[], map["alice" := OPENING, "bob" := OPENING], banks, map[], map[], [], map["alice" := 0, "bob" := 0])
  }

  datatype Step =
    | Submit(t: nat, req: Request)
    | Lookup(t: nat)
    | Launch(t: nat)
    | LoadEntry(t: nat, id: RpcId)                   // a bank's Commit looks the entry up
    | Handle(t: nat, id: RpcId)                      // a bank executes an RPC, or the rest of it
    | ReturnReply(t: nat, id: RpcId)                 // a goroutine puts the answer in its channel
    | ReturnError(t: nat, id: RpcId, text: string)   // or an error in the shared one
    | TakeReply(t: nat, id: RpcId)                   // the select loop
    | TakeError(t: nat)
    | Timeout(t: nat)
    | AbortReturns(t: nat)
    | StoreFailure(t: nat)
    | LoadBalance(t: nat)
    | StoreBalance(t: nat)
    | StoreSuccess(t: nat)
    | SubmitRegistration(u: nat, client: string)
    | LoadRegistration(u: nat)
    | StoreRegistration(u: nat)

  function BankOf(req: Request, side: Side): string {
    if side == Sender then req.fromBank else req.toBank
  }

  function AccountOf(req: Request, side: Side): string {
    if side == Sender then req.fromAccount else req.toAccount
  }

  /** What is left of a handler: for Commit, what follows a lookup that found the entry. */
  function HandleRpc(b: Bank, t: nat, req: Request, id: RpcId): (Bank, Reply) {
    match id.kind
    case PrepareRpc => Prepare(b, t, AccountOf(req, id.side), req.amount)
    case CommitRpc => (DropEntry(b, t), COMMITTED)
    case AbortRpc => Abort(b, t)
  }

  /** The lookup of a Commit handler: without an entry it answers at once. */
  function LookUp(b: Bank, t: nat, rpc: Rpc): Rpc {
    if t in b.pending then rpc.(loaded := true) else rpc.(reply := Some(NOT_FOUND))
  }

  const SENT := Rpc(None, false, false)

  function Both(kind: Kind): map<RpcId, Rpc> {
    map[RpcId(kind, Sender) := SENT, RpcId(kind, Receiver) := SENT]
  }

  /** Gives up: the first of the two Abort calls goes out. */
  function StartAbort(call: Call, why: string): Call {
    call.(stage := Aborting(Sender, why), rpcs := call.rpcs[RpcId(AbortRpc, Sender) := SENT])
  }

  /** After the second iteration of a select loop. */
  function Decide(call: Call, kind: Kind, sender: Option<Reply>, receiver: Option<Reply>): Call {
    if sender.None? || receiver.None? then call.(stage := Panicked)
    else if kind == PrepareRpc then
      if !sender.value.ok || !receiver.value.ok then
        StartAbort(call, OnRefusal(kind, sender.value, receiver.value))
      else
        call.(stage := Collecting(CommitRpc, 0, None, None), rpcs := call.rpcs + Both(CommitRpc))
    else if !sender.value.ok || !receiver.value.ok then
      call.(stage := Failing(OnRefusal(kind, sender.value, receiver.value)))
    else
      call.(stage := Debiting)
  }

  /** One iteration of a select loop that takes the answer of `id`. */
  function TakeAnswer(call: Call, id: RpcId): Call
    requires call.stage.Collecting? && id in call.box
  {
    var Collecting(kind, i, s, r) := call.stage;
    var reply := call.box[id];
    var s' := if id.side == Sender then Some(reply) else s;
    var r' := if id.side == Receiver then Some(reply) else r;
    var next := call.(box := call.box - {id});
    if i == 0 then next.(stage := Collecting(kind, 1, s', r')) else Decide(next, kind, s', r')
  }

  function GiveUp(call: Call, why: string): Call
    requires call.stage.Collecting?
  {
    if call.stage.kind == PrepareRpc then StartAbort(call, why) else call.(stage := Failing(why))
  }

  predicate Live(call: Call, id: RpcId) {
    id in call.rpcs && !call.rpcs[id].returned && id.kind != AbortRpc
  }

  predicate Unhandled(w: World, call: Call, id: RpcId) {
    id in call.rpcs && call.rpcs[id].reply.None? && BankOf(call.req, id.side) in w.banks
  }

  predicate Enabled(w: World, step: Step) {
    match step
    case Submit(t, _) => t !in w.calls
    case SubmitRegistration(u, _) => u !in w.registrations
    case LoadRegistration(u) => u in w.registrations && w.registrations[u].stage.RegArrived?
    case StoreRegistration(u) => u in w.registrations && w.registrations[u].stage.RegMissing?
    case _ => step.t in w.calls && CallEnabled(w, w.calls[step.t], step)
  }

  predicate CallEnabled(w: World, call: Call, step: Step) {
    match step
    case Lookup(_) => call.stage.Arrived?
    case Launch(_) => call.stage.Missed?
    case LoadEntry(_, id) => Unhandled(w, call, id) && id.kind == CommitRpc && !call.rpcs[id].loaded
    case Handle(_, id) => Unhandled(w, call, id) && (id.kind == CommitRpc ==> call.rpcs[id].loaded)
    case ReturnReply(_, id) => Live(call, id) && call.rpcs[id].reply.Some? && id !in call.box
    case ReturnError(_, id, _) => Live(call, id) && |call.errs| < 2
    case TakeReply(_, id) => call.stage.Collecting? && id in call.box && id.kind == call.stage.kind
    case TakeError(_) => call.stage.Collecting? && call.errs != []
    case Timeout(_) => call.stage.Collecting?
    case AbortReturns(_) => call.stage.Aborting?
    case StoreFailure(_) => call.stage.Failing?
    case LoadBalance(_) => call.stage.Debiting?
    case StoreBalance(_) => call.stage.DebitLoaded?
    case StoreSuccess(_) => call.stage.Succeeding?
    case _ => false
  }

  function SetCall(w: World, t: nat, call: Call): World {
    w.(calls := w.calls[t := call])
  }

  /** Stores the result of a call that ran, and returns it. */
  function Finish(w: World, t: nat, call: Call, r: Response): World {
    SetCall(w, t, call.(stage := Returned(Replied(r))))
    .(stored := w.stored[call.req.key := r],
      log := w.log + [Entry(t, call.req.key, call.req.client, call.req.amount, r.success)])
  }

  /** How one step changes its call, for the steps that change nothing else. */
  function StepCall(w: World, call: Call, step: Step): Call
    requires CallEnabled(w, call, step)
  {
    match step
    case Lookup(_) =>
      call.(stage := if call.req.key in w.stored then Returned(Replied(w.stored[call.req.key])) else Missed)
    case Launch(_) =>
      if call.req.fromBank !in w.banks then call.(stage := Returned(NoSuchBank("sender bank not found")))
      else if call.req.toBank !in w.banks then call.(stage := Returned(NoSuchBank("receiver bank not found")))
      else call.(stage := Collecting(PrepareRpc, 0, None, None), rpcs := Both(PrepareRpc))
    case ReturnReply(_, id) =>
      call.(rpcs := call.rpcs[id := call.rpcs[id].(returned := true)], box := call.box[id := call.rpcs[id].reply.value])
    case ReturnError(_, id, text) =>
      call.(rpcs := call.rpcs[id := call.rpcs[id].(returned := true)], errs := call.errs + [ErrorMessage(id, text)])
    case TakeReply(_, id) => TakeAnswer(call, id)
    case TakeError(_) =>
      GiveUp(call.(errs := call.errs[1..]), OnError(call.stage.kind, call.errs[0].text))
    case Timeout(_) =>
      GiveUp(call, OnTimeout(call.stage.kind))
    case AbortReturns(_) =>
      if call.stage.side == Sender then
        call.(stage := Aborting(Receiver, call.stage.why), rpcs := call.rpcs[RpcId(AbortRpc, Receiver) := SENT])
      else call.(stage := Failing(call.stage.why))
    case LoadBalance(_) =>
      call.(stage := if call.req.client in w.accounts then DebitLoaded(w.accounts[call.req.client]) else Succeeding(false))
    case StoreBalance(_) => call.(stage := Succeeding(true))
    case _ => call
  }

  function Apply(w: World, step: Step): World
    requires Enabled(w, step)
  {
    match step
    case Submit(t, req) => SetCall(w, t, Call(req, Arrived, map[], map[], []))
    case SubmitRegistration(u, client) =>
      w.(registrations := w.registrations[u := Registration(client, RegArrived)])
    case LoadRegistration(u) =>
      var r := w.registrations[u];
      w.(registrations := w.registrations[u := r.(stage := if r.client in w.accounts then RegDone else RegMissing)])
    case StoreRegistration(u) =>
      var r := w.registrations[u];
      w.(registrations := w.registrations[u := r.(stage := RegDone)],
         accounts := w.accounts[r.client := OPENING],
         openedAt := if r.client in w.accounts then w.openedAt else w.openedAt[r.client := |w.log|])
    case LoadEntry(t, id) =>
      var call := w.calls[t];
      SetCall(w, t, call.(rpcs := call.rpcs[id := LookUp(w.banks[BankOf(call.req, id.side)], t, call.rpcs[id])]))
    case Handle(t, id) =>
      var call := w.calls[t];
      var name := BankOf(call.req, id.side);
      var (bank, reply) := HandleRpc(w.banks[name], t, call.req, id);
      SetCall(w, t, call.(rpcs := call.rpcs[id := call.rpcs[id].(reply := Some(reply))]))
      .(banks := w.banks[name := bank])
    case StoreFailure(t) => Finish(w, t, w.calls[t], Response(false, Text(w.calls[t].stage.why)))
    case StoreSuccess(t) => Finish(w, t, w.calls[t], Response(true, Paid(w.calls[t].req.amount, t)))
    case StoreBalance(t) =>
      var call := w.calls[t];
      SetCall(w, t, StepCall(w, call, step)).(accounts := w.accounts[call.req.client := call.stage.balance - call.req.amount])
    case _ => SetCall(w, step.t, StepCall(w, w.calls[step.t], step))
  }

  predicate IsRun(w: World, steps: seq<Step>)
    decreases steps
  {
    steps == [] || (Enabled(w, steps[0]) && IsRun(Apply(w, steps[0]), steps[1..]))
  }

  function After(w: World, steps: seq<Step>): World
    requires IsRun(w, steps)
    decreases steps
  {
    if steps == [] then w else After(Apply(w, steps[0]), steps[1..])
  }

  lemma {:induction false} RunAppend(w: World, a: seq<Step>, b: seq<Step>)
    requires IsRun(w, a) && IsRun(After(w, a), b)
    ensures IsRun(w, a + b) && After(w, a + b) == After(After(w, a), b)
    decreases a
  {
    hide Apply, Enabled;
    if a == [] {
      assert a + b == b;
    } else {
      assert (a + b)[0] == a[0] && (a + b)[1..] == a[1..] + b;
      RunAppend(Apply(w, a[0]), a[1..], b);
    }
  }
}
