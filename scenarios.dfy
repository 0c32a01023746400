/**
 * Clients of the payment service that drive it through several calls and
 * state what follows from the operations' contracts alone.
 */
module Scenarios {
  import opened Wrappers
  import opened Text
  import opened Models
  import opened Ledger
  import opened Services

  /** Creates a USD top-up for a wallet that accepts USD and settles it at once. */
  method TopUpUsd(ledger: PaymentService, u: UserId, amount: int) returns (t: Transaction)
    requires ledger.Valid() && u in ledger.users
    requires !RejectsCurrency(EstablishedCurrency(ledger.txs, u), "USD")
    modifies ledger
    ensures ledger.Valid()
    ensures ledger.users == Credit(old(ledger.users), u, amount)
    ensures ledger.txs == old(ledger.txs) + [t]
    ensures t.txType == PaymentType && t.senderId == u && t.receiverId == u
    ensures EstablishedCurrency(ledger.txs, u) == Some("USD")
    ensures History(ledger.txs, u) == [t] + History(old(ledger.txs), u)
  {
    ToUpperFixesUpper("USD");
    var id := ledger.nextPaymentId;
    var created := ledger.CreatePayment(u, amount, "USD");
    var p := ledger.payments[id];
    var verified := ledger.VerifyPayment(id);
    t := FundingRecord(id, p);
    FundingRecordEstablishes(old(ledger.txs), id, p);
  }

  /** Sends USD from a wallet that accepts USD and can cover the amount. */
  method SendUsd(ledger: PaymentService, s: UserId, r: UserId, amount: int) returns (t: Transaction)
    requires ledger.Valid() && s in ledger.users && r in ledger.users && s != r
    requires !RejectsCurrency(EstablishedCurrency(ledger.txs, s), "USD")
    requires ledger.users[s].balance >= amount
    modifies ledger
    ensures ledger.Valid()
    ensures ledger.users == MoveFunds(old(ledger.users), s, r, amount, true)
    ensures ledger.txs == old(ledger.txs) + [t]
    ensures t.txType == TransferType && t.senderId == s && t.receiverId == r
    ensures EstablishedCurrency(ledger.txs, s) == Some("USD")
    ensures History(ledger.txs, s) == [t] + History(old(ledger.txs), s)
  {
    var id := ledger.nextPaymentId;
    var receiver := ledger.users[r];
    var moved := ledger.TransferFunds(s, r, amount, "USD", true);
    t := TransferRecord(id, s, r, amount, "USD", receiver);
    TransferRecordEstablishes(old(ledger.txs), id, s, r, amount, "USD", receiver, s);
  }

  /**
   * Two users with empty wallets, such as freshly registered ones; the first
   * tops up 100.00 USD (amounts in cents) and sends 30.00 to the second.
   */
  method TopUpAndSend(ann: User, bo: User) returns (ledger: PaymentService, credit: Transaction, sent: Transaction)
    requires ann.balance == 0 && bo.balance == 0
    ensures fresh(ledger) && ledger.Valid()
    ensures ledger.users.Keys == {1, 2}
    ensures ledger.users[1].balance == 7000 && ledger.users[2].balance == 3000
    ensures EstablishedCurrency(ledger.txs, 1) == Some("USD")
    ensures History(ledger.txs, 1) == [sent, credit]
    ensures sent.txType == TransferType && credit.txType == PaymentType
  {
    ledger := new PaymentService(map[1 := ann, 2 := bo]);
    credit := TopUpUsd(ledger, 1, 10000);
    assert ledger.users[1].balance == 10000 && ledger.users[2].balance == 0;
    assert History(ledger.txs, 1) == [credit];
    sent := SendUsd(ledger, 1, 2, 3000);
  }

  /**
   * After the top-up and the transfer the wallets hold 70.00 and 30.00, a EUR
   * top-up is refused naming USD, a lower-case "usd" top-up is refused as well
   * (the check compares the raw code with the stored upper-case one), and the
   * sender's history lists the transfer before the top-up.
   */
  method TopUpThenTransfer(ann: User, bo: User)
    returns (senderBalance: int, receiverBalance: int,
             euro: Result<Created, Error>, lower: Result<Created, Error>, history: seq<TxType>)
    requires ann.balance == 0 && bo.balance == 0
    ensures senderBalance == 7000 && receiverBalance == 3000
    ensures euro == Failure(CurrencyMismatch("USD"))
    ensures lower == Failure(CurrencyMismatch("USD"))
    ensures history == [TransferType, PaymentType]
  {
    var ledger, credit, sent := TopUpAndSend(ann, bo);
    senderBalance := ledger.users[1].balance;
    receiverBalance := ledger.users[2].balance;
    euro := ledger.CreatePayment(1, 500, "EUR");
    lower := ledger.CreatePayment(1, 500, "usd");
    var h := ledger.GetPaymentHistory(1);
    history := [h[0].txType, h[1].txType];
  }

  /**
   * Verification has no guard on the payment's status: verifying the same
   * payment twice credits its owner twice and logs two records.
   */
  method VerifyTwice(ledger: PaymentService, paymentId: PaymentId)
    returns (first: Result<Verified, Error>, second: Result<Verified, Error>)
    requires ledger.Valid()
    requires paymentId in ledger.payments && ledger.payments[paymentId].userId in ledger.users
    requires ledger.payments[paymentId].currency != ""
    modifies ledger
    ensures first.Success? && second.Success?
    ensures ledger.users.Keys == old(ledger.users.Keys)
    ensures var p := old(ledger.payments[paymentId]);
      && ledger.users[p.userId].balance == old(ledger.users[p.userId].balance) + 2 * p.amount
      && |ledger.txs| == |old(ledger.txs)| + 2
      && TotalBalance(ledger.users) == TotalBalance(old(ledger.users)) + 2 * p.amount
  {
    ghost var p := ledger.payments[paymentId];
    ghost var before := ledger.users;
    first := ledger.VerifyPayment(paymentId);
    assert ledger.payments[paymentId].userId == p.userId && ledger.payments[paymentId].amount == p.amount;
    assert p.userId in ledger.users;
    ghost var middle := ledger.users;
    second := ledger.VerifyPayment(paymentId);
    assert middle == Credit(before, p.userId, p.amount);
    assert ledger.users == Credit(middle, p.userId, p.amount);
  }

  /**
   * Nothing bounds the amount from below: a transfer of a negative amount from
   * an empty wallet passes the funds check and leaves the receiver overdrawn.
   */
  method NegativeTransfer(ann: User, bo: User) returns (senderBalance: int, receiverBalance: int)
    requires ann.balance == 0 && bo.balance == 0
    ensures senderBalance == 500 && receiverBalance == -500
  {
    var ledger := new PaymentService(map[1 := ann, 2 := bo]);
    var moved := ledger.TransferFunds(1, 2, -500, "USD", true);
    assert moved.Success?;
    senderBalance := ledger.users[1].balance;
    receiverBalance := ledger.users[2].balance;
  }

  /**
   * A transfer from a wallet with no history records the requested code as
   * given, and nothing checks the receiver's currency. A receiver established
   * in "USD" who is sent 0.00 "usd" is established in "usd" afterwards, and
   * their next "USD" top-up is refused.
   */
  method LowerCaseTransfer(ann: User, bo: User)
    returns (moved: Result<Transferred, Error>, topUp: Result<Created, Error>)
    requires ann.balance == 0 && bo.balance == 0
    ensures moved.Success? && moved.value.currency == "usd"
    ensures topUp == Failure(CurrencyMismatch("usd"))
  {
    var ledger := new PaymentService(map[1 := ann, 2 := bo]);
    var credit := TopUpUsd(ledger, 2, 0);
    assert EstablishedCurrency(ledger.txs, 1) == None by {
      LastAfterAppend([], credit, 1);
    }
    var id := ledger.nextPaymentId;
    var receiver := ledger.users[2];
    ghost var before := ledger.txs;
    moved := ledger.TransferFunds(1, 2, 0, "usd", true);
    TransferRecordEstablishes(before, id, 1, 2, 0, "usd", receiver, 2);
    assert EstablishedCurrency(ledger.txs, 2) == Some("usd");
    topUp := ledger.CreatePayment(2, 100, "USD");
  }
}
