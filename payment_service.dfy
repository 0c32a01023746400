/**
 * The payment service: a wallet ledger over three collections (users,
 * payments and the append-only transaction log), with the operations that
 * create and verify top-up payments, move funds between wallets, and read
 * back history and payment details.
 *
 * The store is modelled as one in-memory object whose fields the operations
 * reassign; each operation runs to completion before the next starts, and the
 * writes of one operation become visible together.
 */
module Services {
  import opened Wrappers
  import opened Text
  import opened Models
  import opened Ledger

  /** The errors the service throws, with the data their messages carry. */
  datatype Error =
    | CurrencyMismatch(walletCurrency: string)
    | InsufficientFunds(balance: int, currency: string)
    | PaymentNotFound
    | UserNotFound
    | TransactionInvalid
    | SenderNotFound
    | ReceiverNotFound

  /** What a successful payment creation reports. */
  datatype Created = Created(paymentId: PaymentId, amount: int, currency: string, status: Status)

  /** What a successful verification reports, besides its success. */
  datatype Verified = Verified(payment: Payment, transaction: Transaction, currentBalance: int)

  /** What a successful transfer reports. */
  datatype Transferred = Transferred(
    transaction: Transaction,
    senderBalance: int,
    receiverBalance: int,
    currency: string)

  const FundsAdded: string := "Added funds to wallet"
  const TransferMethod: string := "transfer"

  /** The self-credit record written when a payment is verified. */
  function FundingRecord(id: PaymentId, p: Payment): (t: Transaction)
    ensures t.senderId == p.userId && t.receiverId == p.userId
    ensures t.amount == p.amount && t.currency == p.currency && t.paymentId == id
    ensures t.txType == PaymentType && t.status == Completed
  {
    NewTransaction(id, p.userId, p.userId, p.amount, p.currency, PaymentType)
      .(status := Completed, description := FundsAdded)
  }

  /** The record written for a transfer; its description names the receiver. */
  function TransferRecord(id: PaymentId, senderId: UserId, receiverId: UserId,
                          amount: int, currency: string, receiver: User): (t: Transaction)
    ensures t.senderId == senderId && t.receiverId == receiverId && t.paymentId == id
    ensures t.amount == amount && t.currency == currency
    ensures t.txType == TransferType && t.status == Completed
  {
    NewTransaction(id, senderId, receiverId, amount, currency, TransferType)
      .(status := Completed,
        description := "Transfer to " + receiver.firstName + " " + receiver.lastName)
  }

  /** The completed audit payment a transfer writes, owned by the sender. */
  function TransferPayment(senderId: UserId, amount: int, currency: string): (p: Payment)
    ensures p.userId == senderId && p.amount == amount && p.currency == currency
    ensures p.status == Completed && p.paymentMethod == Some("transfer")
  {
    Payment(senderId, amount, currency, Completed, Some(TransferMethod))
  }

  /**
   * After a verification appends its record, the owner's wallet is
   * established in the payment's currency and the record heads the owner's
   * history.
   */
  lemma FundingRecordEstablishes(txs: seq<Transaction>, id: PaymentId, p: Payment)
    ensures EstablishedCurrency(txs + [FundingRecord(id, p)], p.userId) == Some(p.currency)
    ensures History(txs + [FundingRecord(id, p)], p.userId) ==
      [FundingRecord(id, p)] + History(txs, p.userId)
  {
    LastAfterAppend(txs, FundingRecord(id, p), p.userId);
    HistoryAfterAppend(txs, FundingRecord(id, p), p.userId);
  }

  /**
   * After a transfer appends its record, both wallets are established in the
   * transfer's currency, the record heads both histories, and every other
   * user's history and currency are as before.
   */
  lemma TransferRecordEstablishes(txs: seq<Transaction>, id: PaymentId, s: UserId, r: UserId,
                                  amount: int, currency: string, receiver: User, u: UserId)
    ensures var t := TransferRecord(id, s, r, amount, currency, receiver);
      && EstablishedCurrency(txs + [t], s) == Some(currency)
      && EstablishedCurrency(txs + [t], r) == Some(currency)
      && History(txs + [t], s) == [t] + History(txs, s)
      && History(txs + [t], r) == [t] + History(txs, r)
      && (u != s && u != r ==>
            && EstablishedCurrency(txs + [t], u) == EstablishedCurrency(txs, u)
            && History(txs + [t], u) == History(txs, u))
  {
    var t := TransferRecord(id, s, r, amount, currency, receiver);
    LastAfterAppend(txs, t, s);
    LastAfterAppend(txs, t, r);
    LastAfterAppend(txs, t, u);
    HistoryAfterAppend(txs, t, s);
    HistoryAfterAppend(txs, t, r);
    HistoryAfterAppend(txs, t, u);
  }

  class PaymentService {
    var users: map<UserId, User>
    var payments: map<PaymentId, Payment>
    var txs: seq<Transaction>
    /** The id the store hands to the next payment it saves. */
    var nextPaymentId: PaymentId

    /**
     * Store invariant: payment ids are fresh below the counter, every
     * transaction refers to a stored payment, and every payment-type
     * record is a self-credit.
     */
    ghost predicate Valid()
      reads this
    {
      && (forall id :: id in payments ==> id < nextPaymentId)
      && (forall i :: 0 <= i < |txs| ==> txs[i].paymentId in payments)
      && (forall i :: 0 <= i < |txs| && txs[i].txType == PaymentType ==>
            txs[i].senderId == txs[i].receiverId)
    }

    /** A store over an existing user directory, with no payments and an empty log. */
    constructor (directory: map<UserId, User>)
      ensures Valid()
      ensures users == directory && payments == map[] && txs == [] && nextPaymentId == 0
    {
      users := directory;
      payments := map[];
      txs := [];
      nextPaymentId := 0;
    }

    /**
     * Starts a top-up. Rejected when the wallet's established currency is not
     * literally the requested code; otherwise one pending payment is stored,
     * with the currency upper-cased. No balance and no log entry changes.
     */
    method CreatePayment(userId: UserId, amount: int, currency: string)
      returns (r: Result<Created, Error>)
      requires Valid()
      modifies this
      ensures Valid()
      ensures users == old(users) && txs == old(txs)
      ensures RejectsCurrency(EstablishedCurrency(txs, userId), currency) ==>
        && r == Failure(CurrencyMismatch(EstablishedCurrency(txs, userId).value))
        && payments == old(payments) && nextPaymentId == old(nextPaymentId)
      ensures !RejectsCurrency(EstablishedCurrency(txs, userId), currency) ==>
        var id := old(nextPaymentId);
        && id !in old(payments)
        && r == Success(Created(id, amount, ToUpper(currency), Pending))
        && payments == old(payments)[id := Payment(userId, amount, ToUpper(currency), Pending, None)]
        && nextPaymentId == id + 1
    {
      var established := EstablishedCurrency(txs, userId);
      if RejectsCurrency(established, currency) {
        return Failure(CurrencyMismatch(established.value));
      }
      var id := nextPaymentId;
      var payment := Payment(userId, amount, ToUpper(currency), Pending, None);
      payments := payments[id := payment];
      nextPaymentId := nextPaymentId + 1;
      r := Success(Created(id, amount, payment.currency, Pending));
    }

    /**
     * Settles a payment: marks it completed, appends one self-credit record
     * and credits the owner. There is no guard on the payment's prior status.
     * The log's schema requires a non-empty currency, so a payment with an
     * empty code fails when its record is saved, after the status change.
     * If the owner is missing, the status change and the record are already
     * saved when the error is reported.
     */
    method VerifyPayment(paymentId: PaymentId) returns (r: Result<Verified, Error>)
      requires Valid()
      modifies this
      ensures Valid()
      ensures nextPaymentId == old(nextPaymentId) && users.Keys == old(users).Keys
      ensures paymentId !in old(payments) ==>
        && r == Failure(PaymentNotFound)
        && users == old(users) && payments == old(payments) && txs == old(txs)
      ensures paymentId in old(payments) ==>
        var p := old(payments)[paymentId];
        && payments == old(payments)[paymentId := p.(status := Completed)]
        && (p.currency == "" ==> r == Failure(TransactionInvalid) && txs == old(txs) && users == old(users))
      ensures paymentId in old(payments) && old(payments)[paymentId].currency != "" ==>
        var p := old(payments)[paymentId];
        var t := FundingRecord(paymentId, p);
        && txs == old(txs) + [t]
        && (p.userId !in old(users) ==> r == Failure(UserNotFound) && users == old(users))
        && (p.userId in old(users) ==>
              var b := old(users)[p.userId].balance + p.amount;
              && users == Credit(old(users), p.userId, p.amount)
              && r == Success(Verified(p.(status := Completed), t, b)))
      ensures r.Success? ==> TotalBalance(users) == TotalBalance(old(users)) + r.value.payment.amount
    {
      if paymentId !in payments {
        return Failure(PaymentNotFound);
      }
      var payment := payments[paymentId].(status := Completed);
      payments := payments[paymentId := payment];
      if payment.currency == "" {
        return Failure(TransactionInvalid);
      }
      var t := FundingRecord(paymentId, payment);
      txs := txs + [t];
      if payment.userId !in users {
        return Failure(UserNotFound);
      }
      var user := users[payment.userId];
      var balance := user.balance + payment.amount;
      CreditAddsToTotal(users, payment.userId, payment.amount);
      users := users[payment.userId := user.(balance := balance)];
      r := Success(Verified(payment, t, balance));
    }

    /**
     * Moves `amount` from the sender's wallet to the receiver's. The guards run
     * in this order: sender exists, currency matches the sender's
     * established one, balance covers the amount, receiver exists. On success
     * one completed audit payment and one transfer record are added and both
     * balances change.
     *
     * The sender and the receiver are loaded as two separate copies and saved
     * concurrently; `receiverSavedLast` says which save lands last. It only
     * matters when the two ids are the same user.
     */
    method TransferFunds(senderId: UserId, receiverId: UserId, amount: int, currency: string,
                         receiverSavedLast: bool)
      returns (r: Result<Transferred, Error>)
      requires Valid()
      modifies this
      ensures Valid()
      ensures r.Failure? ==>
        && users == old(users) && payments == old(payments) && txs == old(txs)
        && nextPaymentId == old(nextPaymentId)
      ensures users.Keys == old(users).Keys
      ensures senderId !in old(users) ==> r == Failure(SenderNotFound)
      ensures senderId in old(users) ==>
        var est := EstablishedCurrency(old(txs), senderId);
        var sender := old(users)[senderId];
        && (RejectsCurrency(est, currency) ==> r == Failure(CurrencyMismatch(est.value)))
        && (!RejectsCurrency(est, currency) && sender.balance < amount ==>
              r == Failure(InsufficientFunds(sender.balance, ResolvedCurrency(est, currency))))
        && (!RejectsCurrency(est, currency) && sender.balance >= amount && receiverId !in old(users) ==>
              r == Failure(ReceiverNotFound))
        && (!RejectsCurrency(est, currency) && sender.balance >= amount && receiverId in old(users) ==>
              r.Success?)
      ensures r.Success? ==>
        && senderId in old(users) && receiverId in old(users)
        && !RejectsCurrency(EstablishedCurrency(old(txs), senderId), currency)
        && old(users)[senderId].balance >= amount
      ensures r.Success? ==>
        && old(nextPaymentId) !in old(payments)
        && payments == old(payments)[old(nextPaymentId) := TransferPayment(senderId, amount, currency)]
        && nextPaymentId == old(nextPaymentId) + 1
      ensures r.Success? ==>
        txs == old(txs) + [TransferRecord(old(nextPaymentId), senderId, receiverId, amount, currency,
                                          old(users)[receiverId])]
      ensures r.Success? ==> users == MoveFunds(old(users), senderId, receiverId, amount, receiverSavedLast)
      ensures r.Success? ==>
        && r.value.transaction == txs[|txs| - 1]
        && r.value.senderBalance == old(users)[senderId].balance - amount >= 0
        && r.value.receiverBalance == old(users)[receiverId].balance + amount
        && r.value.currency == currency
      ensures r.Success? && senderId != receiverId ==>
        && TotalBalance(users) == TotalBalance(old(users))
        && users[senderId].balance + users[receiverId].balance ==
           old(users)[senderId].balance + old(users)[receiverId].balance
        && users[senderId].balance >= 0
    {
      if senderId !in users {
        return Failure(SenderNotFound);
      }
      var sender := users[senderId];
      var established := EstablishedCurrency(txs, senderId);
      if RejectsCurrency(established, currency) {
        return Failure(CurrencyMismatch(established.value));
      }
      var cur := ResolvedCurrency(established, currency);
      if sender.balance < amount {
        return Failure(InsufficientFunds(sender.balance, cur));
      }
      if receiverId !in users {
        return Failure(ReceiverNotFound);
      }
      var receiver := users[receiverId];
      var id := nextPaymentId;
      ghost var before := users;
      var t := TransferRecord(id, senderId, receiverId, amount, cur, receiver);
      sender := sender.(balance := sender.balance - amount);
      receiver := receiver.(balance := receiver.balance + amount);
      // The four saves, as one atomic update.
      payments := payments[id := TransferPayment(senderId, amount, cur)];
      nextPaymentId := nextPaymentId + 1;
      txs := txs + [t];
      // Both user copies are saved; with one id, the copy saved last is kept.
      users := MoveFunds(users, senderId, receiverId, amount, receiverSavedLast);
      if senderId != receiverId {
        TransferConservesTotal(before, senderId, receiverId, amount, receiverSavedLast);
      }
      r := Success(Transferred(t, sender.balance, receiver.balance, cur));
    }

    /** The user's transactions, as sender or receiver, newest first. Reads only. */
    function GetPaymentHistory(userId: UserId): (h: seq<Transaction>)
      reads this
      ensures forall t :: t in h <==> t in txs && Involves(t, userId)
      ensures |h| == |HistoryIndices(txs, userId)|
      ensures forall k :: 0 <= k < |h| ==> h[k] == txs[HistoryIndices(txs, userId)[k]]
    {
      HistoryMembership(txs, userId);
      HistoryIsNewestFirst(txs, userId);
      History(txs, userId)
    }

    /** The stored payment, or PaymentNotFound. Reads only. */
    function GetPaymentDetails(paymentId: PaymentId): (r: Result<Payment, Error>)
      reads this
      ensures r.Success? <==> paymentId in payments
      ensures r.Success? ==> r.value == payments[paymentId]
      ensures r.Failure? ==> r.error == PaymentNotFound
    {
      if paymentId in payments then Success(payments[paymentId]) else Failure(PaymentNotFound)
    }
  }
}

