/** A bank as a participant of two-phase commit: its accounts and its pending transactions. */
module PaymentBank {

  datatype Reply = Reply(ok: bool, message: string)

  /** `pending` maps a transaction to the amount it reserved. */
  datatype Bank = Bank(accounts: map<string, real>, pending: map<nat, real>)

  /** Both branches of the funds test reserve and agree; only a missing account refuses. */
  function Prepare(b: Bank, txn: nat, account: string, amount: real): (Bank, Reply) {
    if account !in b.accounts then (b, Reply(false, "Account not found"))
    else
      (b.(pending := b.pending[txn := amount]),
       Reply(true, if b.accounts[account] >= amount then "Funds reserved" else "Ready to credit"))
  }

  const NOT_FOUND := Reply(false, "No pending transaction found")
  const COMMITTED := Reply(true, "Transaction committed")

  function DropEntry(b: Bank, txn: nat): Bank {
    b.(pending := b.pending - {txn})
  }

  /** Commit with nothing in between. It loads the entry and then deletes it; no lock joins the two. */
  function Commit(b: Bank, txn: nat): (Bank, Reply) {
    if txn !in b.pending then (b, NOT_FOUND) else (DropEntry(b, txn), COMMITTED)
  }

  function Abort(b: Bank, txn: nat): (Bank, Reply) {
    (DropEntry(b, txn), Reply(true, "Transaction aborted"))
  }

  class BankServer {
    var accounts: map<string, real>
    var pendingTransactions: map<nat, real>

    ghost function State(): Bank
      reads this
    {
      Bank(accounts, pendingTransactions)
    }

    constructor (initialAccounts: map<string, real>)
      ensures State() == Bank(initialAccounts, map[])
    {
      accounts, pendingTransactions := initialAccounts, map[];
    }

    method PrepareTransaction(txn: nat, account: string, amount: real) returns (reply: Reply)
      modifies this`pendingTransactions
      ensures (State(), reply) == Prepare(old(State()), txn, account, amount)
      ensures reply.ok <==> account in accounts
      ensures reply.message == if account !in accounts then "Account not found"
                               else if accounts[account] < amount then "Ready to credit" else "Funds reserved"
    {
      if account !in accounts {
        return Reply(false, "Account not found");
      }
      var currentBalance := accounts[account];
      if currentBalance >= amount {
        pendingTransactions := pendingTransactions[txn := amount];
        return Reply(true, "Funds reserved");
      }
      pendingTransactions := pendingTransactions[txn := amount];
      return Reply(true, "Ready to credit");
    }

    /** The handler when no other one runs between its two accesses. */
    method CommitTransaction(txn: nat) returns (reply: Reply)
      modifies this`pendingTransactions
      ensures (State(), reply) == Commit(old(State()), txn)
      ensures reply.message == if reply.ok then "Transaction committed" else "No pending transaction found"
    {
      if txn !in pendingTransactions {
        return NOT_FOUND;
      }
      pendingTransactions := pendingTransactions - {txn};
      return COMMITTED;
    }

    method AbortTransaction(txn: nat) returns (reply: Reply)
      modifies this`pendingTransactions
      ensures (State(), reply) == Abort(old(State()), txn)
      ensures reply.message == "Transaction aborted"
    {
      pendingTransactions := pendingTransactions - {txn};
      return Reply(true, "Transaction aborted");
    }
  }

  /** What a bank keeps of a transaction after it has agreed, and after either outcome: an entry
      exactly until it is committed or aborted, and no other entry is ever touched. */
  lemma OneEntryPerTransaction(b: Bank, txn: nat, account: string, amount: real, other: nat)
    requires other != txn
    ensures var (p, yes) := Prepare(b, txn, account, amount);
            && (yes.ok <==> account in b.accounts)
            && (yes.ok ==> txn in p.pending && p.pending[txn] == amount)
            && (yes.ok ==> Commit(p, txn).1.ok && Commit(p, txn).0.pending == b.pending - {txn})
            && (yes.ok ==> !Commit(Commit(p, txn).0, txn).1.ok)
            && (yes.ok ==> Abort(p, txn).0.pending == b.pending - {txn} && !Commit(Abort(p, txn).0, txn).1.ok)
            && (other in p.pending <==> other in b.pending)
            && (other in b.pending ==> p.pending[other] == b.pending[other])
  {
  }
}
