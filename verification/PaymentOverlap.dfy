/** Why the store and the ledger need their conditions: the lookup of a key and the storing of its result
    are far apart, and so are the reading and the writing of a balance. */
module PaymentOverlap {

  import opened PaymentBank
  import opened PaymentGateway
  import opened PaymentWorld
  import opened PaymentSuccess
  import PaymentLedger

  const OTHER_KEY := Request("alice", "other", "A", "a", "B", "b", 100.0)

  /** In every world: two overlapping calls that are past the lookup can both succeed, and both
      debit, whether or not they carry the same idempotency key. */
  lemma OverlapDebitsTwice(w: World, t: nat, u: nat) returns (w': World)
    requires t != u && Ready(w, t) && Payable(w, w.calls[t].req) && Ready(w, u) && Payable(w, w.calls[u].req)
    ensures Reaches(w, w') && PaidOut(w', t) && PaidOut(w', u)
    ensures w'.accounts == Debited(Debited(w.accounts, w.calls[t].req), w.calls[u].req)
    ensures w'.calls[t].req == w.calls[t].req && w'.calls[u].req == w.calls[u].req
  {
    hide Reaches;
    var w1 := RunsToSuccess(w, t);
    w' := RunsToSuccess(w1, u);
    Then(w, w1, w');
  }

  /** A run from the start in which one key debits twice. */
  lemma OneKeyDebitsTwice() returns (w: World)
    ensures Reaches(Initial(BANKS), w) && PaidOut(w, 0) && PaidOut(w, 1) && w.calls[0].req == w.calls[1].req == REQ
    ensures "alice" in w.accounts && w.accounts["alice"] == OPENING - 100.0 - 100.0
  {
    hide Reaches;
    var w1 := TwoLookups(Initial(BANKS), REQ, REQ);
    w := OverlapDebitsTwice(w1, 0, 1);
    Then(Initial(BANKS), w1, w);
  }

  lemma LoadStep(w: World, t: nat) returns (w': World)
    requires t in w.calls && w.calls[t].stage == Debiting && w.calls[t].req.client in w.accounts
    ensures Reaches(w, w')
    ensures w' == SetCall(w, t, w.calls[t].(stage := DebitLoaded(w.accounts[w.calls[t].req.client])))
  {
    hide Reaches;
    OneStep(w, LoadBalance(t));
    w' := Apply(w, LoadBalance(t));
  }

  lemma WriteStep(w: World, t: nat) returns (w': World)
    requires t in w.calls && w.calls[t].stage.DebitLoaded?
    ensures Reaches(w, w') && w'.calls == w.calls[t := w.calls[t].(stage := Succeeding(true))]
    ensures w'.accounts == w.accounts[w.calls[t].req.client := w.calls[t].stage.balance - w.calls[t].req.amount]
  {
    hide Reaches;
    OneStep(w, StoreBalance(t));
    w' := Apply(w, StoreBalance(t));
  }

  /** Both read the balance before either writes it. */
  lemma BothLoad(w: World, t: nat, u: nat) returns (w': World)
    requires t != u && t in w.calls && u in w.calls && w.calls[t].stage == w.calls[u].stage == Debiting
    requires w.calls[t].req.client == w.calls[u].req.client && w.calls[u].req.client in w.accounts
    ensures Reaches(w, w') && w'.accounts == Debited(w.accounts, w.calls[u].req)
    ensures t in w'.calls && u in w'.calls && w'.calls[t].stage == w'.calls[u].stage == Succeeding(true)
    ensures w'.calls[t].req == w.calls[t].req && w'.calls[u].req == w.calls[u].req
  {
    hide Reaches;
    var w1 := LoadStep(w, t);
    var w2 := LoadStep(w1, u);
    var w3 := WriteStep(w2, t);
    w' := WriteStep(w3, u);
    Then(w, w1, w2);
    Then(w, w2, w3);
    Then(w, w3, w');
  }

  /** In every world: two overlapping calls of one client that are past the lookup, with any keys, can
      both succeed while only the last debit counts. */
  lemma OverlapLosesDebit(w: World, t: nat, u: nat) returns (w': World)
    requires t != u && Ready(w, t) && Payable(w, w.calls[t].req) && Ready(w, u) && Payable(w, w.calls[u].req)
    requires w.calls[t].req.client == w.calls[u].req.client && w.calls[u].req.client in w.accounts
    ensures Reaches(w, w') && PaidOut(w', t) && PaidOut(w', u)
    ensures w'.calls[t].req == w.calls[t].req && w'.calls[u].req == w.calls[u].req
    ensures w'.accounts == Debited(w.accounts, w.calls[u].req)
  {
    hide Reaches;
    var w1 := RunsToDebit(w, t);
    var w2 := RunsToDebit(w1, u);
    var w3 := BothLoad(w2, t, u);
    var w4 := Store(w3, t);
    w' := Store(w4, u);
    Then(w, w1, w2);
    Then(w, w2, w3);
    Then(w, w3, w4);
    Then(w, w4, w');
  }

  /** A run from the start in which one client pays twice, with two keys, and is debited once. */
  lemma OneClientLosesDebit() returns (w: World)
    ensures Reaches(Initial(BANKS), w) && PaidOut(w, 0) && PaidOut(w, 1)
    ensures w.calls[0].req == REQ && w.calls[1].req == OTHER_KEY
    ensures "alice" in w.accounts && w.accounts["alice"] == OPENING - 100.0
  {
    hide Reaches;
    var w1 := TwoLookups(Initial(BANKS), REQ, OTHER_KEY);
    w := OverlapLosesDebit(w1, 0, 1);
    Then(Initial(BANKS), w1, w);
  }

  // ---- A reset can be undone ----

  /** A registration that resets an account, followed by the write of a balance read before it: both are stale,
      and what they lose cancels out. */
  lemma ResetUndone(w: World, t: nat, u: nat)
    requires t in w.calls && u in w.registrations && w.registrations[u].stage.RegMissing?
    requires var c := w.registrations[u].client;
             && c in w.accounts && w.accounts[c] != OPENING
             && w.calls[t].req.client == c && w.calls[t].stage == DebitLoaded(w.accounts[c])
    ensures var c, steps := w.registrations[u].client, [StoreRegistration(u), StoreBalance(t)];
            && IsRun(w, steps) && PaymentLedger.AnyReset(w, steps, c) && PaymentLedger.AnyStale(w, steps, c)
            && PaymentLedger.AllLost(w, steps, c) == 0.0
  {
    var c, steps := w.registrations[u].client, [StoreRegistration(u), StoreBalance(t)];
    var w1 := Apply(w, StoreRegistration(u));
    var w2 := Apply(w1, StoreBalance(t));
    assert steps[1..] == [StoreBalance(t)] && steps[1..][1..] == [];
    assert IsRun(w2, []) && PaymentLedger.AllLost(w2, [], c) == 0.0;
    hide Apply, Enabled;
    assert IsRun(w1, steps[1..]);
    assert PaymentLedger.AllLost(w1, steps[1..], c) == PaymentLedger.Lost(w1, StoreBalance(t), c);
  }

  const FIRST := Request("carol", "key", "A", "a", "B", "b", 100.0)
  const SECOND := Request("carol", "other", "A", "a", "B", "b", 50.0)

  lemma RegisterAndLook(w: World, u: nat, client: string) returns (w': World)
    requires u !in w.registrations && client !in w.accounts
    ensures Reaches(w, w') && w' == w.(registrations := w.registrations[u := Registration(client, RegMissing)])
  {
    hide Reaches;
    OneStep(w, SubmitRegistration(u, client));
    var w1 := Apply(w, SubmitRegistration(u, client));
    OneStep(w1, LoadRegistration(u));
    w' := Apply(w1, LoadRegistration(u));
    Then(w, w1, w');
  }

  lemma OpenAccount(w: World, u: nat) returns (w': World)
    requires u in w.registrations && w.registrations[u].stage.RegMissing?
    ensures Reaches(w, w') && w'.accounts == w.accounts[w.registrations[u].client := OPENING]
    ensures w'.registrations == w.registrations[u := w.registrations[u].(stage := RegDone)]
    ensures w'.calls == w.calls && w'.stored == w.stored && w'.banks == w.banks
  {
    hide Reaches;
    OneStep(w, StoreRegistration(u));
    w' := Apply(w, StoreRegistration(u));
  }

  /** Two registrations of a new client look before either opens the account. */
  lemma TwoRegistrations() returns (w: World)
    ensures Reaches(Initial(BANKS), w)
    ensures w.calls == map[] && w.stored == map[] && w.banks == BANKS
    ensures "carol" in w.accounts && w.accounts["carol"] == OPENING
    ensures 1 in w.registrations && w.registrations[1] == Registration("carol", RegMissing)
  {
    hide Reaches;
    var w0 := Initial(BANKS);
    assert "carol" !in w0.accounts;
    var w1 := RegisterAndLook(w0, 0, "carol");
    var w2 := RegisterAndLook(w1, 1, "carol");
    w := OpenAccount(w2, 0);
    Then(w0, w1, w2);
    Then(w0, w2, w);
  }

  /** A run from the start to where a reset can be undone. */
  lemma ResetUndoneHappens() returns (w: World)
    ensures Reaches(Initial(BANKS), w)
    ensures 1 in w.calls && w.calls[1].req == SECOND && 1 in w.registrations
    ensures w.registrations[1] == Registration("carol", RegMissing)
    ensures "carol" in w.accounts && w.accounts["carol"] == OPENING - 100.0
    ensures w.calls[1].stage == DebitLoaded(w.accounts["carol"])
  {
    hide Reaches;
    var w1 := TwoRegistrations();
    var w2 := TwoLookups(w1, FIRST, SECOND);
    var w3 := RunsToSuccess(w2, 0);
    var w4 := RunsToDebit(w3, 1);
    w := LoadStep(w4, 1);
    Then(Initial(BANKS), w1, w2);
    Then(Initial(BANKS), w2, w3);
    Then(Initial(BANKS), w3, w4);
    Then(Initial(BANKS), w4, w);
  }
}
