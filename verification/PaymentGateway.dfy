/** The payment gateway as an object: its two stores, client registration, and one payment given
    what its two select loops deliver. */
module PaymentGateway {

  import opened Options
  import opened PaymentBank

  datatype Request = Request(
    client: string, key: string,
    fromBank: string, fromAccount: string,
    toBank: string, toAccount: string,
    amount: real)

  /** `Paid` is the text that names the amount and the transaction. */
  datatype Message = Text(s: string) | Paid(amount: real, txn: nat)

  datatype Response = Response(success: bool, message: Message)

  /** What a caller gets: a response, or an error that is not stored. */
  datatype Outcome = Replied(r: Response) | NoSuchBank(error: string)

  datatype Side = Sender | Receiver
  datatype Kind = PrepareRpc | CommitRpc | AbortRpc
  datatype RpcId = RpcId(kind: Kind, side: Side)

  /** What one iteration of a select loop takes. */
  datatype Event = Failure(text: string) | Answer(side: Side, reply: Reply) | Deadline

  const OPENING: real := 1000.0

  /** The two iterations took an answer from each side and both are positive. */
  predicate BothAgree(events: seq<Event>) {
    |events| == 2 && events[0].Answer? && events[1].Answer? && events[0].reply.ok && events[1].reply.ok
  }

  /** What the channels allow: an answer of a side is delivered at most once. */
  predicate Deliverable(events: seq<Event>) {
    |events| == 2 && (events[0].Answer? && events[1].Answer? ==> events[0].side != events[1].side)
  }

  /** How each phase words its failures. */
  function OnTimeout(kind: Kind): string {
    if kind == PrepareRpc then "transaction timeout during prepare phase" else "transaction timeout during commit phase"
  }

  function OnError(kind: Kind, text: string): string {
    if kind == PrepareRpc then text else "commit phase error: " + text
  }

  function OnRefusal(kind: Kind, sender: Reply, receiver: Reply): string {
    (if kind == PrepareRpc then "prepare phase failed: sender: " else "commit failed: sender: ")
    + sender.message + ", receiver: " + receiver.message
  }

  /** Why the select loop stopped early, if it did. */
  function Interrupted(kind: Kind, events: seq<Event>): Option<string> {
    if events == [] then None
    else match events[0]
      case Failure(text) => Some(OnError(kind, text))
      case Deadline => Some(OnTimeout(kind))
      case Answer(_, _) => Interrupted(kind, events[1..])
  }

  /** Why the phase failed, if it did. */
  function PhaseFailure(kind: Kind, events: seq<Event>): (why: Option<string>)
    requires Deliverable(events)
    ensures why.None? <==> BothAgree(events)
  {
    assert events[1..][0] == events[1] && (Interrupted(kind, events[1..]).None? <==> events[1].Answer?);
    match Interrupted(kind, events)
    case Some(why) => Some(why)
    case None =>
      var s, r := ReplyOf(events, Sender), ReplyOf(events, Receiver);
      if s.ok && r.ok then None else Some(OnRefusal(kind, s, r))
  }

  lemma AnswersTaken(kind: Kind, first: Event, second: Event)
    requires first.Answer? && second.Answer? && first.side != second.side
    ensures Interrupted(kind, [first, second]) == None
    ensures ReplyOf([first, second], first.side) == first.reply && ReplyOf([first, second], second.side) == second.reply
  {
    var events := [first, second];
    assert events[1..] == [second] && [second][1..] == [];
    assert Interrupted(kind, [second]) == None;
  }

  /** What a refused phase reports: the sender's message before the receiver's, whichever came first. */
  lemma RefusalTexts(s: Reply, r: Reply)
    requires !s.ok || !r.ok
    ensures var a, b := Answer(Sender, s), Answer(Receiver, r);
            && PhaseFailure(PrepareRpc, [a, b]) == PhaseFailure(PrepareRpc, [b, a])
               == Some("prepare phase failed: sender: " + s.message + ", receiver: " + r.message)
            && PhaseFailure(CommitRpc, [a, b]) == PhaseFailure(CommitRpc, [b, a])
               == Some("commit failed: sender: " + s.message + ", receiver: " + r.message)
  {
    hide Interrupted, ReplyOf;
    var a, b := Answer(Sender, s), Answer(Receiver, r);
    AnswersTaken(PrepareRpc, a, b);
    AnswersTaken(PrepareRpc, b, a);
    AnswersTaken(CommitRpc, a, b);
    AnswersTaken(CommitRpc, b, a);
  }

  /** What an interrupted phase reports: an error of the commit phase is marked as such, and each phase has
      its own timeout text. */
  lemma InterruptionTexts(text: string, other: Event)
    ensures PhaseFailure(PrepareRpc, [Failure(text), other]) == Some(text)
    ensures PhaseFailure(CommitRpc, [Failure(text), other]) == Some("commit phase error: " + text)
    ensures PhaseFailure(PrepareRpc, [Deadline, other]) == Some("transaction timeout during prepare phase")
    ensures PhaseFailure(CommitRpc, [Deadline, other]) == Some("transaction timeout during commit phase")
  {
  }

  function ReplyOf(events: seq<Event>, side: Side): (reply: Reply)
    requires Deliverable(events) && events[0].Answer? && events[1].Answer?
    ensures Answer(side, reply) in events
  {
    if events[0].side == side then events[0].reply else events[1].reply
  }

  class PaymentGatewayServer {
    var idempotencyMap: map<string, Response>
    var accounts: map<string, real>
    const bankClients: set<string>

    constructor (bankClients: set<string>)
      ensures this.bankClients == bankClients && idempotencyMap == map[]
      ensures accounts == map["alice" := OPENING, "bob" := OPENING]
    {
      this.bankClients := bankClients;
      idempotencyMap := map[];
      accounts := map["alice" := OPENING, "bob" := OPENING];
    }

    /** Registration never changes the balance of a known client. */
    method RegisterClient(client: string)
      modifies this`accounts
      ensures accounts == if client in old(accounts) then old(accounts) else old(accounts)[client := OPENING]
    {
      if client !in accounts {
        accounts := accounts[client := OPENING];
      }
    }

    method UpdateLocalBalance(client: string, amount: real)
      modifies this`accounts
      ensures accounts == if client in old(accounts) then old(accounts)[client := old(accounts)[client] - amount]
                          else old(accounts)
    {
      if client in accounts {
        var balance := accounts[client];
        accounts := accounts[client := balance - amount];
      }
    }

    method StoreIdempotency(key: string, success: bool, message: Message)
      modifies this`idempotencyMap
      ensures idempotencyMap == old(idempotencyMap)[key := Response(success, message)]
    {
      idempotencyMap := idempotencyMap[key := Response(success, message)];
    }

    /** A select loop: two iterations, ended early by an error or the deadline. */
    static method Collect(kind: Kind, events: seq<Event>)
      returns (failed: Option<string>, sender: Option<Reply>, receiver: Option<Reply>)
      requires Deliverable(events)
      ensures failed == Interrupted(kind, events)
      ensures failed.None? ==>
                && events[0].Answer? && events[1].Answer?
                && sender == Some(ReplyOf(events, Sender)) && receiver == Some(ReplyOf(events, Receiver))
    {
      failed, sender, receiver := None, None, None;
      for i := 0 to 2
        invariant failed == None
        invariant Interrupted(kind, events) == Interrupted(kind, events[i..])
        invariant forall j :: 0 <= j < i ==> events[j].Answer?
        invariant forall j :: 0 <= j < i ==>
                    (if events[j].side == Sender then sender else receiver) == Some(events[j].reply)
      {
        match events[i]
        case Failure(text) =>
          failed := Some(OnError(kind, text));
          return;
        case Deadline =>
          failed := Some(OnTimeout(kind));
          return;
        case Answer(side, reply) =>
          if side == Sender {
            sender := Some(reply);
          } else {
            receiver := Some(reply);
          }
          assert events[i..][1..] == events[i + 1..];
      }
      assert events[2..] == [];
    }

    /** One payment, given what its two select loops take. `rpcs` are the calls made to the banks,
        in order. */
    method ProcessPayment(transactionID: nat, req: Request, prepare: seq<Event>, commit: seq<Event>)
      returns (out: Outcome, rpcs: seq<RpcId>)
      requires Deliverable(prepare) && Deliverable(commit)
      modifies this`idempotencyMap, this`accounts
      ensures req.key in old(idempotencyMap) ==>
                && out == Replied(old(idempotencyMap)[req.key]) && rpcs == []
                && idempotencyMap == old(idempotencyMap) && accounts == old(accounts)
      ensures req.key !in old(idempotencyMap) && (req.fromBank !in bankClients || req.toBank !in bankClients) ==>
                && out == NoSuchBank(if req.fromBank !in bankClients then "sender bank not found" else "receiver bank not found")
                && rpcs == []
                && idempotencyMap == old(idempotencyMap) && accounts == old(accounts)
      ensures req.key !in old(idempotencyMap) && req.fromBank in bankClients && req.toBank in bankClients ==>
                && out.Replied? && idempotencyMap == old(idempotencyMap)[req.key := out.r]
                && out.r == (match (PhaseFailure(PrepareRpc, prepare), PhaseFailure(CommitRpc, commit))
                             case (Some(why), _) => Response(false, Text(why))
                             case (None, Some(why)) => Response(false, Text(why))
                             case (None, None) => Response(true, Paid(req.amount, transactionID)))
                && (accounts == if out.r.success && req.client in old(accounts)
                                then old(accounts)[req.client := old(accounts)[req.client] - req.amount]
                                else old(accounts))
                && var next := if BothAgree(prepare) then CommitRpc else AbortRpc;
                   rpcs == [RpcId(PrepareRpc, Sender), RpcId(PrepareRpc, Receiver), RpcId(next, Sender), RpcId(next, Receiver)]
    {
      hide OnTimeout, OnError, OnRefusal, Interrupted;
      rpcs := [];
      if req.key in idempotencyMap {
        return Replied(idempotencyMap[req.key]), rpcs;
      }
      if req.fromBank !in bankClients { return NoSuchBank("sender bank not found"), rpcs; }
      if req.toBank !in bankClients { return NoSuchBank("receiver bank not found"), rpcs; }
      var prepares, commits, aborts := BothSides(PrepareRpc), BothSides(CommitRpc), BothSides(AbortRpc);
      rpcs := prepares;
      var failed, senderPrep, receiverPrep := Collect(PrepareRpc, prepare);
      if failed.Some? || !senderPrep.value.ok || !receiverPrep.value.ok {
        rpcs := prepares + aborts;
        var msg := if failed.Some? then failed.value else OnRefusal(PrepareRpc, senderPrep.value, receiverPrep.value);
        StoreIdempotency(req.key, false, Text(msg));
        return Replied(Response(false, Text(msg))), rpcs;
      }
      rpcs := prepares + commits;
      var failed', senderCommit, receiverCommit := Collect(CommitRpc, commit);
      if failed'.Some? || !senderCommit.value.ok || !receiverCommit.value.ok {
        var msg := if failed'.Some? then failed'.value else OnRefusal(CommitRpc, senderCommit.value, receiverCommit.value);
        StoreIdempotency(req.key, false, Text(msg));
        return Replied(Response(false, Text(msg))), rpcs;
      }
      UpdateLocalBalance(req.client, req.amount);
      var paid := Paid(req.amount, transactionID);
      StoreIdempotency(req.key, true, paid);
      return Replied(Response(true, paid)), rpcs;
    }
  }

  function BothSides(kind: Kind): seq<RpcId> {
    [RpcId(kind, Sender), RpcId(kind, Receiver)]
  }
}
