# Wallet payment service, modelled in Dafny

This project models the core of a small wallet back end: the payment service
and the registration validators.

The payment service keeps three collections:
- users, each with a balance;
- payments;
- an append-only log of transactions.

It offers five operations:
- `createPayment` starts a top-up;
- `verifyPayment` settles a top-up: it marks the payment completed, logs a
  self-credit and credits the owner;
- `transferFunds` moves money from one wallet to another;
- `getPaymentHistory` lists a user's transactions, newest first;
- `getPaymentDetails` reads back one payment.

A wallet has no currency of its own. Its *established currency* is the
currency of the most recent transaction in which the user is sender or
receiver. `createPayment` refuses a code that differs from the requesting
user's established currency, and `transferFunds` one that differs from the
sender's. `verifyPayment` checks no currency, and nothing checks the
receiver's.

The validators check an email address against `^[^\s@]+@[^\s@]+\.[^\s@]+$`
and a password against `^(?=.*[a-z])(?=.*[A-Z])(?=.*\d)[a-zA-Z\d]{8,}$`.
`validateRegistration` then collects one message per failing field.

Files:
- `wrappers.dfy`: `Option` and `Result`.
- `text.dfy`: JavaScript's white-space set with `trim`, and ASCII case mapping.
- `models.dfy`: the user, payment and transaction records with their schema
  defaults and setters.
- `ledger.dfy`: read-only views of the log, and the two ways a balance changes.
  - The views are the last transaction, the established currency, the history
    and the sum of all balances.
  - The two balance changes are a credit and a move between wallets.
- `payment_service.dfy`: the `PaymentService` class.
  - Its fields `users`, `payments` and `txs` are reassigned by its methods.
  - Each method states its whole new state.
- `validators.dfy`: the email, password and registration checks.
  - Each regular expression is stated as a predicate, and the executable
    check is proved equivalent to it.
- `scenarios.dfy`: client code that drives the service through several calls.
  Its results follow from the operations' contracts alone.
- `amounts.dfy`: a transfer amount that arrives as a JSON string (see
  "## Findings").

Amounts and balances are integers in minor units. Each error the service
throws becomes a `Failure` carrying an `Error` value.

The model follows the code and not the behaviour one might expect from a
payment API:
- No amount is checked to be positive. A negative amount passes the funds
  check whenever the sender's balance is at least that amount, and it moves
  money from the receiver to the sender. Between two empty wallets, −5.00
  leaves the receiver at −5.00 (`Scenarios.NegativeTransfer`).
- A transfer to oneself is not rejected. The sender and the receiver are
  loaded as two copies of one user and saved concurrently, so the copy saved
  last wins. The sum of balances then grows or shrinks by the amount
  (`Ledger.SelfTransferChangesTotal`).
- Verification does not look at the payment's status. Verifying twice credits
  twice (`Scenarios.VerifyTwice`).
- The currency check compares the requested code as given with the
  recorded one. A top-up stores its code upper-cased, so once a wallet holds
  `"USD"`, a later request for `"usd"` is refused
  (`Scenarios.TopUpThenTransfer`). A transfer from a wallet with no history
  records the code as given. A `"usd"` transfer therefore establishes both
  wallets in `"usd"`, even a receiver who held `"USD"`
  (`Scenarios.LowerCaseTransfer`).
- Verifying a payment whose code is empty fails when the log record is
  saved, because the transaction schema requires a currency. The payment is
  already marked completed by then, and no one is credited.
- If a verified payment's owner does not exist, the error comes after the
  payment status and the log record have been saved. The model keeps both
  writes.

## Model

| member | source | states |
|---|---|---|
| Models.NewUser | models/user.js:4-71 | a new user's balance is 0, their currency is "USD" and their status is active; the names and the email are trimmed (no white space at either end, empty exactly when the input was blank) and the email has no capital letter, whichever setter runs first |
| Models.NormalisationIsStable | models/user.js:5-26 | assigning a stored user's email and names again leaves the user unchanged |
| Models.NewTransaction | models/transaction.js:3-46 | a new transaction is pending, with an empty description and empty metadata; every given field is kept |
| Text.ToUpper | services/paymentService.js:25 | upper-casing keeps the length, maps each character to its capital, and leaves no lower-case letter |
| Text.ToUpperFixesUpper | services/paymentService.js:18-25 | a code with no lower-case letter is stored exactly as requested, so it passes the later currency check |
| Text.LowerChar | models/user.js:9 | lower-casing one character leaves no capital, and the result is white space exactly when the character was |
| Text.ToLower | models/user.js:9 | lower-casing keeps the length, lower-cases each character in place, and leaves no capital letter |
| Text.LowerIdempotent | models/user.js:9 | lower-casing a lower-cased email changes nothing |
| Text.UpperChar | services/paymentService.js:25 | upper-casing one character leaves no lower-case letter |
| Text.Trim | models/user.js:10 | trimming keeps a contiguous part of the string, and everything cut off at either end is white space |
| Text.TrimEmptyIffBlank | utils/validators.js:23-29 | trimming leaves nothing exactly when the string is all white space; otherwise both ends of the result are not white space |
| Text.TrimIdempotent | models/user.js:17-26 | trimming a trimmed value changes nothing, so a stored name is kept as it is when saved again |
| Text.ToLowerTrimCommute | models/user.js:5-11 | lower-casing then trimming equals trimming then lower-casing |
| Ledger.LastTransaction | services/paymentService.js:10-15 | the query finds nothing exactly when no transaction has the user as sender or receiver; what it finds is in the log and involves the user |
| Ledger.EstablishedCurrency | services/paymentService.js:10-18 | a wallet has no established currency exactly when no transaction involves the user |
| Ledger.LatestInvolvingRecord | services/paymentService.js:10-18 | the record the query finds, and the code the currency check compares against, come from a log entry involving the user with no later entry involving them |
| Ledger.OnlyRecordedCurrencyPasses | services/paymentService.js:18 | after a record involving the user is logged, the currency check (`RejectsCurrency`) lets through exactly the code that record carries, compared as a raw string |
| Ledger.NoHistoryPassesAnyCurrency | services/paymentService.js:106 | a wallet no transaction involves passes the currency check (`RejectsCurrency`) with any code |
| Ledger.History | services/paymentService.js:168-171 | the history is no longer than the log and every entry has the user as sender or receiver |
| Ledger.LastIndex | services/paymentService.js:10-15 | the most recent log position involving the user: it involves them and no later one does; None exactly when no entry involves them |
| Ledger.ResolvedCurrency | services/paymentService.js:135 | the currency a transfer records (the established one, falling back to the requested one) equals the requested code whenever the currency check passed or the wallet has no history |
| Ledger.LastAfterAppend | services/paymentService.js:10-18 | after a record is appended, the user's last transaction and established currency are that record's if it involves them, and unchanged otherwise |
| Ledger.HistoryIndices | services/paymentService.js:168-171 | the positions of the user's transactions: each involves the user, every involving position occurs, and they strictly decrease (newest first) |
| Ledger.HistoryIsNewestFirst | services/paymentService.js:168-171 | the history's k-th entry is the log entry at the k-th of those positions, and the two have the same length |
| Ledger.HistoryMembership | services/paymentService.js:168-170 | a transaction is in the history exactly when it is in the log and the user is its sender or receiver |
| Ledger.HistoryAfterAppend | services/paymentService.js:166-175 | an appended record involving the user becomes the head of their history; any other appended record leaves the history unchanged |
| Ledger.LastIsHistoryHead | services/paymentService.js:10-15 | the record the currency check reads is the first entry of the user's history, or none when the history is empty |
| Ledger.Credit | services/paymentService.js:76 | a credit adds the amount to the owner's balance and leaves the other users and the set of users unchanged |
| Ledger.CreditAddsToTotal | services/paymentService.js:71-77 | a credit raises the sum of all balances by the amount |
| Ledger.MoveFunds | services/paymentService.js:141-151 | between two users, the sender is debited and the receiver credited; for one user, the copy saved last decides the balance and the other fields are kept; no one else changes |
| Ledger.TransferConservesTotal | services/paymentService.js:141-143 | between two distinct wallets, a transfer keeps the sum of all balances |
| Ledger.SelfTransferChangesTotal | services/paymentService.js:146-151 | a transfer to oneself changes the sum of all balances by plus or minus the amount, depending on which save lands last |
| Services.FundingRecord | services/paymentService.js:57-66 | the verification record is a completed payment-type self-credit of the payment's amount and currency |
| Services.TransferRecord | services/paymentService.js:130-139 | the transfer record is a completed transfer-type record from sender to receiver, in the resolved currency |
| Services.TransferPayment | services/paymentService.js:120-127 | a transfer's audit payment is completed, owned by the sender, and has method "transfer" |
| Services.FundingRecordEstablishes | services/paymentService.js:57-68 | after verification, the owner's established currency is the payment's, and the record heads the owner's history |
| Services.TransferRecordEstablishes | services/paymentService.js:130-151 | after a transfer, both parties are established in its currency and the record heads both histories; third parties are unaffected |
| Services.PaymentService.constructor | services/paymentService.js:196 | a new service holds the given users, no payments and an empty log |
| Services.PaymentService.CreatePayment | services/paymentService.js:7-41 | refused with the wallet's currency exactly when the established currency differs from the raw code; otherwise one pending payment with the upper-cased code is stored under a fresh id, and users and log are unchanged |
| Services.PaymentService.VerifyPayment | services/paymentService.js:44-88 | an unknown id changes nothing; otherwise the payment becomes completed; an empty currency then fails the record's save with nothing else written; otherwise one self-credit is logged and the owner is credited, or UserNotFound is returned with the first two writes kept; on success the sum of balances rises by the amount |
| Services.PaymentService.TransferFunds | services/paymentService.js:91-163 | the four guards run in order (sender, the sender's currency, funds, receiver), each with its own error, and a failure changes nothing; success adds one payment and one record and moves the funds; between distinct users the total is conserved and the sender is not overdrawn |
| Services.PaymentService.GetPaymentHistory | services/paymentService.js:166-179 | exactly the user's transactions, in log order from newest to oldest |
| Services.PaymentService.GetPaymentDetails | services/paymentService.js:182-193 | the stored payment when the id is known, otherwise PaymentNotFound |
| Validators.ValidateEmail | utils/validators.js:1-4 | the email check accepts exactly the strings the pattern matches |
| Validators.EmailPatternAtFirstAt | utils/validators.js:2 | the pattern's '@' is the string's first '@', and the pattern holds exactly when the runs before and after it are well formed |
| Validators.EmailCheckSound | utils/validators.js:2 | clean runs around the first '@', with a '.' strictly inside the domain, match the pattern |
| Validators.EmailCheckComplete | utils/validators.js:2 | in every string the pattern matches, the first '@' has a clean run before it and a well-formed domain after it |
| Validators.Classify | utils/validators.js:8 | one scan reports, each as an if-and-only-if, whether all characters are letters or digits and whether a lower-case letter, an upper-case letter and a digit occur |
| Validators.ValidatePassword | utils/validators.js:6-10 | the password check holds exactly when the pattern matches |
| Validators.ValidateRegistration | utils/validators.js:12-35 | each field's key is present exactly when that field is missing or fails its rule, always with that field's fixed message; no other key appears; valid exactly when no message was collected |
| Scenarios.TopUpUsd | services/paymentService.js:7-88 | creating and verifying a USD top-up credits the owner, logs one self-credit, establishes USD and heads the owner's history |
| Scenarios.SendUsd | services/paymentService.js:91-163 | a covered USD transfer between two users moves the funds, logs one record, keeps USD established and heads the sender's history |
| Scenarios.TopUpAndSend | services/paymentService.js:7-163 | a 100.00 top-up followed by a 30.00 transfer leaves 70.00 and 30.00, with the transfer before the top-up in the sender's history |
| Scenarios.TopUpThenTransfer | services/paymentService.js:10-25 | after that, both a "EUR" and a lower-case "usd" top-up are refused naming "USD"; the history lists a transfer, then a payment |
| Scenarios.VerifyTwice | services/paymentService.js:44-77 | verifying one payment twice succeeds both times, credits the owner twice and logs two records |
| Scenarios.LowerCaseTransfer | services/paymentService.js:101-139 | a 0.00 "usd" transfer from a wallet with no history to one established in "USD" succeeds in "usd", after which the receiver's "USD" top-up is refused naming "usd" |
| Amounts.DecimalRoundTrip | services/paymentService.js:143 | reading back the decimal text of a non-negative whole number gives the number |
| Amounts.ValueOfConcat | services/paymentService.js:143 | the value of two digit strings joined is the first shifted left by the second's length, plus the second |
| Amounts.SenderBalanceAsWritten | services/paymentService.js:110-142 | with a string amount, the debit is numeric: the sender loses exactly the amount's value |
| Amounts.SenderLosesTextAmount | services/paymentService.js:142 | a sender who transfers n as decimal text loses exactly n |
| Amounts.ReceiverBalanceAsWritten | services/paymentService.js:143 | with a string amount, the receiver's new balance is the old one shifted left by the amount's digits, plus the amount |
| Amounts.StringAmountOvercredits | services/paymentService.js:142-143 | with a string amount, an empty wallet is credited correctly; otherwise the two balances together grow by at least nine times the receiver's old balance |
| Amounts.FiftyPlusTenIsFiveThousandTen | services/paymentService.js:143 | a receiver holding 50 who is sent "10" ends with 5010 |
| Amounts.TransferBalances | services/paymentService.js:141-143 | with the amount converted to a number first, the receiver gains exactly what the sender loses |
| Amounts.ConvertedAmountMatchesMoveFunds | services/paymentService.js:141-143 | that converted transfer is exactly the move the ledger makes between two distinct wallets |
| Scenarios.NegativeTransfer | services/paymentService.js:110-112 | a transfer of -5.00 from an empty wallet succeeds and leaves the receiver at -5.00 |

## Findings

| source | as written | input that shows it | evidently intended | confidence | as-written member | corrected member |
|---|---|---|---|---|---|---|
| services/paymentService.js:143 | the receiver's credit, written with `+`, joins the balance's text and the amount when the amount arrives as a JSON string (routes/paymentRoutes.js:37); the funds check and the sender's debit convert it to a number | receiver balance 50, sender balance 100, amount "10": the sender ends at 90 and the receiver at 5010 | the receiver gains the 10 the sender loses | not executed | Amounts.StringAmountOvercredits | Amounts.TransferBalances |

## Left out

- Amounts and balances: they are JavaScript numbers (floating point) in the source and integers here. Rounding, NaN and the `|| 0` fallback for a missing balance are not modelled.
- Text.ToUpper: upper-cases ASCII letters only, not the full Unicode mapping of `toUpperCase`.
- Text.UpperChar: maps ASCII lower-case letters only, for the same reason.
- Text.LowerChar: maps ASCII capitals only. `toLowerCase` also maps other capitals, such as "É" to "é".
- Text.ToLower: lower-cases ASCII capitals only, as `Text.LowerChar` does, so an email with a non-ASCII capital is stored differently from the source.
- Models.NewUser: lower-cases the email for ASCII letters only, not the full Unicode mapping of `toLowerCase`. The other schema checks on save (`required`, `unique`, `minlength`, the enumerations) are not modelled.
- Amounts and currency codes are typed as integers and strings, so the paths the source takes for missing or differently typed values are not modelled:
  - A missing currency in `createPayment` is refused at the currency check (services/paymentService.js:18) when the wallet has history. Without history it throws a `TypeError` at `toUpperCase` (:25).
  - A missing currency in `transferFunds` is refused at the currency check (:106) when the wallet has history. Without history the record takes the schema default "USD" (models/transaction.js:23-27); what the payment schema does is not part of this model.
  - A missing transfer amount passes the funds check (`balance < undefined` is false), but the record's save inside `Promise.all` (:146-151) is rejected because the amount is required (models/transaction.js:19-22). The call then fails with "Fund transfer failed".
  - A transfer amount sent as a string is numeric in the funds check and the sender's debit, but concatenated in the receiver's credit. That case is modelled separately in `amounts.dfy` (see "## Findings"), for non-negative whole balances and digit-only amounts.
- Concurrency: requests are modelled one at a time. Two transfers from one sender that run at once can both pass the funds check (services/paymentService.js:110) before either save lands, which overdraws the sender; the model does not capture this interleaving.
- Services.PaymentService.CreatePayment: the payment schema (`models/payment.js`) is not part of this model, so its checks on save are not modelled; an empty or otherwise invalid code is stored as given.
- Services.PaymentService.TransferFunds: with an empty requested code and no history, the transaction schema rejects the record's save while the concurrent saves of the payment and the two users may land; the model writes all four, including a record with an empty currency.
- Persistence: the MongoDB documents, `populate` of sender and receiver, `createdAt` and `updatedAt` timestamps, and the `transactionId` built from `Date.now()` are not modelled. Ids are naturals handed out by a counter.
- Services.PaymentService.TransferFunds: the four concurrent saves of `Promise.all` are one atomic update. A failure of one save, which would leave the others applied, is not modelled. The order of the two user saves is the parameter `receiverSavedLast`.
- Ordering by `createdAt`: two records with equal timestamps could come back in either order. Here the log's append order is the order.
- The payment schema (`models/payment.js`) is not part of this model. Its default status (pending) is taken from what `createPayment` reports.
- The user's stored `currency` field is kept in the record but never read, exactly as in the service.
- Refunds and a balance query do not exist as operations in the service, so they are not modelled. The refund transaction type and the refunded status exist only as enumeration values.
- The HTTP controllers, routes, authentication and password hashing are not part of this model.
