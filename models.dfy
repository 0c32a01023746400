/**
 * The three stored entities of the wallet ledger (users, payments, transactions)
 * and their enumerations, as the Mongoose schemas declare them.
 * Amounts and balances are integers in minor units (cents), not floating point.
 */
module Models {
  import opened Wrappers
  import opened Text

  /** Document ids. Mongo ObjectIds become naturals. */
  type UserId = nat
  type PaymentId = nat

  /** Lifecycle status shared by payments and transactions. */
  datatype Status = Pending | Completed | Failed | Refunded

  /** The `type` field of a transaction. */
  datatype TxType = PaymentType | RefundType | TransferType

  datatype UserStatus = Active | Suspended | Deactivated

  /**
   * A wallet owner. Only the fields the ledger reads or writes are kept;
   * `currency` is stored but the ledger never consults it (a wallet's currency
   * is derived from its transactions instead).
   */
  datatype User = User(
    email: string,
    firstName: string,
    lastName: string,
    balance: int,
    currency: string,
    status: UserStatus)

  const DefaultBalance: int := 0
  const DefaultCurrency: string := "USD"

  /**
   * A freshly registered user. The schema's setters trim the names and the
   * email and lower-case the email; balance, currency and status take their
   * schema defaults.
   */
  function NewUser(email: string, firstName: string, lastName: string): (u: User)
    ensures u.balance == 0 && u.currency == "USD" && u.status == Active
    ensures u.email == ToLower(Trim(email)) && u.email == Trim(ToLower(email))
    ensures forall i :: 0 <= i < |u.email| ==> !IsUpperAscii(u.email[i])
    ensures IsTrimmed(u.email) && IsTrimmed(u.firstName) && IsTrimmed(u.lastName)
    ensures u.firstName == Trim(firstName) && u.lastName == Trim(lastName)
    ensures u.firstName == [] <==> IsBlank(firstName)
    ensures u.lastName == [] <==> IsBlank(lastName)
    ensures u.email == [] <==> IsBlank(email)
  {
    TrimEmptyIffBlank(email);
    TrimEmptyIffBlank(firstName);
    TrimEmptyIffBlank(lastName);
    ToLowerTrimCommute(email);
    User(ToLower(Trim(email)), Trim(firstName), Trim(lastName), DefaultBalance, DefaultCurrency, Active)
  }

  /**
   * The setters are stable: assigning a stored user's email and names again
   * runs the same normalisation and leaves the user as it was.
   */
  lemma NormalisationIsStable(email: string, firstName: string, lastName: string)
    ensures var u := NewUser(email, firstName, lastName);
      NewUser(u.email, u.firstName, u.lastName) == u
  {
    var t := Trim(email);
    TrimIdempotent(email);
    TrimIdempotent(firstName);
    TrimIdempotent(lastName);
    ToLowerTrimCommute(t);
    LowerIdempotent(t);
  }

  /**
   * A payment. `paymentMethod` is absent for top-ups and "transfer" for the
   * audit payment a transfer writes.
   */
  datatype Payment = Payment(
    userId: UserId,
    amount: int,
    currency: string,
    status: Status,
    paymentMethod: Option<string>)

  /** One record of the append-only audit log. */
  datatype Transaction = Transaction(
    paymentId: PaymentId,
    senderId: UserId,
    receiverId: UserId,
    amount: int,
    currency: string,
    status: Status,
    txType: TxType,
    description: string,
    metadata: map<string, string>)

  /** A transaction with the schema defaults: status pending, empty description and metadata. */
  function NewTransaction(paymentId: PaymentId, senderId: UserId, receiverId: UserId,
                          amount: int, currency: string, txType: TxType): (t: Transaction)
    ensures t.status == Pending && t.description == "" && t.metadata == map[]
    ensures t.senderId == senderId && t.receiverId == receiverId && t.amount == amount
    ensures t.currency == currency && t.txType == txType && t.paymentId == paymentId
  {
    Transaction(paymentId, senderId, receiverId, amount, currency, Pending, txType, "", map[])
  }
}
