/**
 * The ledger's derived notions. Read-only views of the collections: the transaction a Mongo query
 * `{$or: [{senderId: u}, {receiverId: u}]}` sorted by `createdAt` descending
 * finds, the wallet's established currency, the user's history, and the sum of
 * all balances; and the two ways balances change, a credit and a move
 * between two wallets. The log's order of appending stands in for `createdAt`.
 */
module Ledger {
  import opened Wrappers
  import opened Models

  /** The user takes part in the transaction, as sender or as receiver. */
  predicate Involves(t: Transaction, u: UserId)
  {
    t.senderId == u || t.receiverId == u
  }

  /** Position of the most recent transaction the user takes part in, if any. */
  function LastIndex(txs: seq<Transaction>, u: UserId): (r: Option<nat>)
    ensures r.None? ==> forall j :: 0 <= j < |txs| ==> !Involves(txs[j], u)
    ensures r.Some? ==> r.value < |txs| && Involves(txs[r.value], u)
    ensures r.Some? ==> forall j :: r.value < j < |txs| ==> !Involves(txs[j], u)
    decreases |txs|
  {
    if txs == [] then None
    else if Involves(txs[|txs| - 1], u) then Some(|txs| - 1)
    else LastIndex(txs[..|txs| - 1], u)
  }

  /** The most recent transaction with the user as sender or receiver. */
  function LastTransaction(txs: seq<Transaction>, u: UserId): (r: Option<Transaction>)
    ensures r.None? <==> forall j :: 0 <= j < |txs| ==> !Involves(txs[j], u)
    ensures r.Some? ==> r.value in txs && Involves(r.value, u)
  {
    match LastIndex(txs, u)
    case None => None
    case Some(i) => Some(txs[i])
  }

  /** The wallet's established currency: that of its most recent transaction. */
  function EstablishedCurrency(txs: seq<Transaction>, u: UserId): (r: Option<string>)
    ensures r.None? <==> forall j :: 0 <= j < |txs| ==> !Involves(txs[j], u)
  {
    match LastTransaction(txs, u)
    case None => None
    case Some(t) => Some(t.currency)
  }

  /**
   * The record the currency check reads is the latest one the user takes part
   * in, and the established currency is that record's code.
   */
  lemma LatestInvolvingRecord(txs: seq<Transaction>, u: UserId)
    ensures LastTransaction(txs, u).Some? ==>
      exists i :: 0 <= i < |txs| && txs[i] == LastTransaction(txs, u).value
        && forall j :: i < j < |txs| ==> !Involves(txs[j], u)
    ensures EstablishedCurrency(txs, u).Some? ==>
      exists i :: 0 <= i < |txs| && Involves(txs[i], u) && txs[i].currency == EstablishedCurrency(txs, u).value
        && forall j :: i < j < |txs| ==> !Involves(txs[j], u)
  {
    if LastIndex(txs, u).Some? {
      var i := LastIndex(txs, u).value;
      assert txs[i] == LastTransaction(txs, u).value;
    }
  }

  /**
   * The currency check `createPayment` and `transferFunds` apply: a request is
   * rejected exactly when the wallet has an established currency and the
   * requested code is not literally the same string.
   */
  predicate RejectsCurrency(established: Option<string>, requested: string)
  {
    established.Some? && established.value != requested
  }

  /**
   * The currency a transfer records: the established one when it is a
   * non-empty code, otherwise the requested one. Once the currency check has
   * passed this is always the requested code.
   */
  function ResolvedCurrency(established: Option<string>, requested: string): (r: string)
    ensures !RejectsCurrency(established, requested) ==> r == requested
    ensures established == None ==> r == requested
  {
    if established.Some? && established.value != "" then established.value else requested
  }

  /** Appending a record involving the user makes it the user's most recent one. */
  lemma LastAfterAppend(txs: seq<Transaction>, t: Transaction, u: UserId)
    ensures Involves(t, u) ==> LastTransaction(txs + [t], u) == Some(t)
    ensures Involves(t, u) ==> EstablishedCurrency(txs + [t], u) == Some(t.currency)
    ensures !Involves(t, u) ==> LastTransaction(txs + [t], u) == LastTransaction(txs, u)
    ensures !Involves(t, u) ==> EstablishedCurrency(txs + [t], u) == EstablishedCurrency(txs, u)
  {
    assert (txs + [t])[..|txs|] == txs;
  }

  /**
   * Once a record involving the user is logged, the currency check accepts
   * exactly the code that record carries, compared as a raw string.
   */
  lemma OnlyRecordedCurrencyPasses(txs: seq<Transaction>, t: Transaction, u: UserId, code: string)
    requires Involves(t, u)
    ensures !RejectsCurrency(EstablishedCurrency(txs + [t], u), code) <==> code == t.currency
  {
    LastAfterAppend(txs, t, u);
  }

  /** A wallet with no transactions passes the currency check with any code. */
  lemma NoHistoryPassesAnyCurrency(txs: seq<Transaction>, u: UserId, code: string)
    requires forall j :: 0 <= j < |txs| ==> !Involves(txs[j], u)
    ensures !RejectsCurrency(EstablishedCurrency(txs, u), code)
  {
  }

  /** Positions of the user's transactions, most recent first. */
  function HistoryIndices(txs: seq<Transaction>, u: UserId): (ix: seq<nat>)
    ensures forall k :: 0 <= k < |ix| ==> ix[k] < |txs| && Involves(txs[ix[k]], u)
    ensures forall j :: 0 <= j < |txs| && Involves(txs[j], u) ==> j in ix
    ensures forall k, l :: 0 <= k < l < |ix| ==> ix[k] > ix[l]
    decreases |txs|
  {
    if txs == [] then []
    else
      var n := |txs| - 1;
      var rest := HistoryIndices(txs[..n], u);
      assert forall k :: 0 <= k < |rest| ==> rest[k] < n;
      if Involves(txs[n], u) then [n] + rest else rest
  }

  /** The user's payment history: the transactions they take part in, newest first. */
  function History(txs: seq<Transaction>, u: UserId): (h: seq<Transaction>)
    ensures |h| <= |txs|
    ensures forall k :: 0 <= k < |h| ==> Involves(h[k], u)
    decreases |txs|
  {
    if txs == [] then []
    else
      var n := |txs| - 1;
      (if Involves(txs[n], u) then [txs[n]] else []) + History(txs[..n], u)
  }

  /**
   * The history is exactly the user's transactions, ordered newest first:
   * its k-th entry is the log entry at HistoryIndices[k], and those positions
   * are all the positions involving the user, strictly decreasing.
   */
  lemma {:induction false} HistoryIsNewestFirst(txs: seq<Transaction>, u: UserId)
    ensures |History(txs, u)| == |HistoryIndices(txs, u)|
    ensures forall k :: 0 <= k < |History(txs, u)| ==>
      History(txs, u)[k] == txs[HistoryIndices(txs, u)[k]]
    decreases |txs|
  {
    if txs != [] {
      var n := |txs| - 1;
      var rest := txs[..n];
      HistoryIsNewestFirst(rest, u);
      var h, ix := History(rest, u), HistoryIndices(rest, u);
      var front := Involves(txs[n], u);
      assert History(txs, u) == (if front then [txs[n]] else []) + h;
      assert HistoryIndices(txs, u) == (if front then [n] else []) + ix;
      PrependIndexed(txs, h, ix, n, front);
    }
  }

  /** Putting entry n in front of a list of entries read at the positions ix keeps them aligned. */
  lemma PrependIndexed(txs: seq<Transaction>, h: seq<Transaction>, ix: seq<nat>, n: nat, front: bool)
    requires n < |txs| && |h| == |ix|
    requires forall k :: 0 <= k < |ix| ==> ix[k] < n
    requires forall k :: 0 <= k < |h| ==> h[k] == txs[..n][ix[k]]
    ensures var h', ix' := (if front then [txs[n]] else []) + h, (if front then [n] else []) + ix;
      |h'| == |ix'| && forall k :: 0 <= k < |h'| ==> ix'[k] < |txs| && h'[k] == txs[ix'[k]]
  {
    assert forall k :: 0 <= k < |h| ==> h[k] == txs[ix[k]];
  }

  /** The history holds every transaction the user takes part in, and nothing else. */
  lemma {:induction false} HistoryMembership(txs: seq<Transaction>, u: UserId)
    ensures forall t :: t in History(txs, u) <==> t in txs && Involves(t, u)
    decreases |txs|
  {
    if txs != [] {
      var n := |txs| - 1;
      HistoryMembership(txs[..n], u);
      assert txs == txs[..n] + [txs[n]];
    }
  }

  /** A new record involving the user goes to the front of their history. */
  lemma HistoryAfterAppend(txs: seq<Transaction>, t: Transaction, u: UserId)
    ensures History(txs + [t], u) == (if Involves(t, u) then [t] else []) + History(txs, u)
  {
    assert (txs + [t])[..|txs|] == txs;
  }

  /** The query for the established currency reads the head of the history. */
  lemma {:induction false} LastIsHistoryHead(txs: seq<Transaction>, u: UserId)
    ensures LastTransaction(txs, u) ==
      (if History(txs, u) == [] then None else Some(History(txs, u)[0]))
    decreases |txs|
  {
    if txs != [] && !Involves(txs[|txs| - 1], u) {
      LastIsHistoryHead(txs[..|txs| - 1], u);
    }
  }

  /** Some user of a non-empty directory. */
  ghost function AnyUser(m: map<UserId, User>): (k: UserId)
    requires m != map[]
    ensures k in m
  {
    var k :| k in m; k
  }

  /** Sum of all wallet balances. */
  ghost function TotalBalance(m: map<UserId, User>): (total: int)
    decreases |m|
  {
    if m == map[] then 0
    else
      var k := AnyUser(m);
      m[k].balance + TotalBalance(m - {k})
  }

  /** The sum can be split at any user, not only at the one the definition picks. */
  lemma {:induction false} TotalBalanceSplit(m: map<UserId, User>, k: UserId)
    requires k in m
    ensures TotalBalance(m) == m[k].balance + TotalBalance(m - {k})
    decreases |m|
  {
    var k' := AnyUser(m);
    if k' != k {
      TotalBalanceSplit(m - {k'}, k);
      TotalBalanceSplit(m - {k}, k');
      assert m - {k'} - {k} == m - {k} - {k'};
    }
  }

  /** Replacing one user's record changes the sum by the change in that balance. */
  lemma TotalBalanceUpdate(m: map<UserId, User>, k: UserId, v: User)
    requires k in m
    ensures TotalBalance(m[k := v]) == TotalBalance(m) - m[k].balance + v.balance
  {
    TotalBalanceSplit(m, k);
    TotalBalanceSplit(m[k := v], k);
    assert m[k := v] - {k} == m - {k};
  }

  /** The directory after a verified payment credits its owner. */
  function Credit(users: map<UserId, User>, u: UserId, amount: int): (m: map<UserId, User>)
    requires u in users
    ensures m.Keys == users.Keys
    ensures m[u] == users[u].(balance := users[u].balance + amount)
    ensures forall v :: v in users && v != u ==> m[v] == users[v]
  {
    users[u := users[u].(balance := users[u].balance + amount)]
  }

  /** A credit adds its amount to the sum of all balances. */
  lemma CreditAddsToTotal(users: map<UserId, User>, u: UserId, amount: int)
    requires u in users
    ensures TotalBalance(Credit(users, u, amount)) == TotalBalance(users) + amount
  {
    TotalBalanceUpdate(users, u, users[u].(balance := users[u].balance + amount));
  }

  /**
   * The directory after a transfer saves its two user copies: the sender's
   * copy debited, the receiver's credited. When both ids name the same user
   * the copy saved last wins, which `receiverSavedLast` selects.
   */
  function MoveFunds(users: map<UserId, User>, s: UserId, r: UserId, amount: int,
                     receiverSavedLast: bool): (m: map<UserId, User>)
    requires s in users && r in users
    ensures m.Keys == users.Keys
    ensures forall v :: v in users && v != s && v != r ==> m[v] == users[v]
    ensures s != r ==> m[s] == users[s].(balance := users[s].balance - amount)
    ensures s != r ==> m[r] == users[r].(balance := users[r].balance + amount)
    ensures s == r ==>
      m[s] == users[s].(balance := if receiverSavedLast then users[s].balance + amount
                                                      else users[s].balance - amount)
  {
    var sender := users[s].(balance := users[s].balance - amount);
    var receiver := users[r].(balance := users[r].balance + amount);
    if receiverSavedLast then users[s := sender][r := receiver]
    else users[r := receiver][s := sender]
  }

  /** Between two distinct wallets, a move conserves the sum of all balances. */
  lemma TransferConservesTotal(users: map<UserId, User>, s: UserId, r: UserId, amount: int,
                               receiverSavedLast: bool)
    requires s in users && r in users && s != r
    ensures TotalBalance(MoveFunds(users, s, r, amount, receiverSavedLast)) == TotalBalance(users)
  {
    var sender := users[s].(balance := users[s].balance - amount);
    var receiver := users[r].(balance := users[r].balance + amount);
    TotalBalanceUpdate(users, s, sender);
    TotalBalanceUpdate(users[s := sender], r, receiver);
    TotalBalanceUpdate(users, r, receiver);
    TotalBalanceUpdate(users[r := receiver], s, sender);
  }

  /**
   * A move from a wallet to itself does not conserve the sum: it grows by the
   * amount or shrinks by it, depending on which copy was saved last.
   */
  lemma SelfTransferChangesTotal(users: map<UserId, User>, s: UserId, amount: int,
                                 receiverSavedLast: bool)
    requires s in users
    ensures TotalBalance(MoveFunds(users, s, s, amount, receiverSavedLast)) ==
      TotalBalance(users) + (if receiverSavedLast then amount else -amount)
  {
    var m := MoveFunds(users, s, s, amount, receiverSavedLast);
    assert m == users[s := m[s]];
    TotalBalanceUpdate(users, s, m[s]);
  }
}
