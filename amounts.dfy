/**
 * Transfer amounts that arrive as JSON strings. The funds check and the
 * sender's debit convert such an amount to a number, but the receiver's
 * credit `(receiver.balance || 0) + amount` concatenates it to the decimal
 * text of the balance; the balance field then reads the digits back as a
 * number. Only non-negative whole balances and digit-only amounts are
 * modelled here.
 */
module Amounts {
  import opened Text
  import opened Models
  import opened Ledger

  /** Digits only, and at least one: an amount such as "10". */
  predicate IsDecimal(s: string)
  {
    |s| > 0 && forall i :: 0 <= i < |s| ==> IsDigit(s[i])
  }

  function DigitValue(c: char): (v: nat)
    requires IsDigit(c)
    ensures v < 10
  {
    c as int - '0' as int
  }

  function DigitChar(d: nat): (c: char)
    requires d < 10
    ensures IsDigit(c) && DigitValue(c) == d
  {
    ('0' as int + d) as char
  }

  /** `Number(s)` for a string of digits (0 for the empty string). */
  function DecimalValue(s: string): (v: nat)
    requires forall i :: 0 <= i < |s| ==> IsDigit(s[i])
    decreases |s|
  {
    if s == [] then 0 else 10 * DecimalValue(s[..|s| - 1]) + DigitValue(s[|s| - 1])
  }

  /** `String(n)` for a non-negative whole number. */
  function DecimalString(n: nat): (s: string)
    ensures IsDecimal(s)
  {
    if n < 10 then [DigitChar(n)] else DecimalString(n / 10) + [DigitChar(n % 10)]
  }

  function Pow10(k: nat): (p: nat)
    ensures p >= 1
  {
    if k == 0 then 1 else 10 * Pow10(k - 1)
  }

  /** Reading back the text of a number gives the number. */
  lemma {:induction false} DecimalRoundTrip(n: nat)
    ensures DecimalValue(DecimalString(n)) == n
  {
    if n >= 10 {
      DecimalRoundTrip(n / 10);
      var s := DecimalString(n);
      assert s[..|s| - 1] == DecimalString(n / 10);
    }
  }

  /** The value of two digit strings written one after the other. */
  lemma {:induction false} ValueOfConcat(s: string, t: string)
    requires forall i :: 0 <= i < |s| ==> IsDigit(s[i])
    requires forall i :: 0 <= i < |t| ==> IsDigit(t[i])
    ensures DecimalValue(s + t) == DecimalValue(s) * Pow10(|t|) + DecimalValue(t)
    decreases |t|
  {
    if t != [] {
      var t' := t[..|t| - 1];
      ValueOfConcat(s, t');
      var st := s + t;
      assert st[..|st| - 1] == s + t';
      var d := DigitValue(t[|t| - 1]);
      assert st[|st| - 1] == t[|t| - 1];
      assert DecimalValue(st) == 10 * DecimalValue(s + t') + d;
      assert DecimalValue(t) == 10 * DecimalValue(t') + d;
      assert Pow10(|t|) == 10 * Pow10(|t'|);
      ShiftOneDigit(DecimalValue(s), Pow10(|t'|), DecimalValue(t'), d);
    } else {
      assert s + t == s;
    }
  }

  /** Appending one digit to a shifted value shifts it one place further. */
  lemma ShiftOneDigit(a: nat, p: nat, v: nat, d: nat)
    ensures 10 * (a * p + v) + d == a * (10 * p) + (10 * v + d)
  {
  }

  /**
   * The sender's balance after a transfer of a string amount: the debit
   * converts the amount, so the sender loses exactly its numeric value.
   */
  function SenderBalanceAsWritten(balance: int, amount: string): (b: int)
    requires IsDecimal(amount)
    ensures b <= balance
    ensures balance - b == DecimalValue(amount)
  {
    balance - DecimalValue(amount)
  }

  /** A sender who transfers n as decimal text loses exactly n. */
  lemma SenderLosesTextAmount(balance: int, n: nat)
    ensures SenderBalanceAsWritten(balance, DecimalString(n)) == balance - n
  {
    DecimalRoundTrip(n);
  }

  /**
   * The receiver's balance after a transfer of a string amount: the two texts
   * joined, read back as a number, which is the old balance shifted left by
   * the amount's digits, plus the amount.
   */
  function ReceiverBalanceAsWritten(balance: nat, amount: string): (b: nat)
    requires IsDecimal(amount)
    ensures b == balance * Pow10(|amount|) + DecimalValue(amount)
  {
    DecimalRoundTrip(balance);
    ValueOfConcat(DecimalString(balance), amount);
    DecimalValue(DecimalString(balance) + amount)
  }

  /**
   * With a string amount an empty wallet is credited correctly, and any
   * other receives at least nine times its old balance more than the sender
   * loses.
   */
  lemma StringAmountOvercredits(senderBalance: int, receiverBalance: nat, amount: string)
    requires IsDecimal(amount)
    ensures receiverBalance == 0 ==>
      SenderBalanceAsWritten(senderBalance, amount) + ReceiverBalanceAsWritten(receiverBalance, amount)
        == senderBalance + receiverBalance
    ensures receiverBalance > 0 ==>
      SenderBalanceAsWritten(senderBalance, amount) + ReceiverBalanceAsWritten(receiverBalance, amount)
        >= senderBalance + 10 * receiverBalance
  {
    assert Pow10(|amount|) == 10 * Pow10(|amount| - 1);
    AtLeastTenfold(receiverBalance, Pow10(|amount| - 1));
  }

  lemma AtLeastTenfold(a: nat, p: nat)
    requires p >= 1
    ensures a * (10 * p) >= 10 * a
  {
    assert a * (10 * p) == 10 * a + 10 * (a * (p - 1));
  }

  /** A receiver holding 50 who is sent "10" ends up with 5010. */
  lemma FiftyPlusTenIsFiveThousandTen()
    ensures ReceiverBalanceAsWritten(50, "10") == 5010
  {
    assert "10"[..1] == "1";
    assert DecimalValue("10") == 10;
    assert Pow10(2) == 100;
  }

  /**
   * Both balances after a transfer whose amount is converted to a number
   * before either balance changes: the receiver gains what the sender loses.
   */
  function TransferBalances(senderBalance: int, receiverBalance: int, amount: string): (r: (int, int))
    requires IsDecimal(amount)
    ensures r.0 + r.1 == senderBalance + receiverBalance
    ensures r.1 - receiverBalance == senderBalance - r.0 == DecimalValue(amount)
  {
    (senderBalance - DecimalValue(amount), receiverBalance + DecimalValue(amount))
  }

  /** Converting the amount first gives exactly the move the ledger makes between two wallets. */
  lemma ConvertedAmountMatchesMoveFunds(users: map<UserId, User>, s: UserId, r: UserId,
                                        amount: string, receiverSavedLast: bool)
    requires s in users && r in users && s != r && IsDecimal(amount)
    ensures var m := MoveFunds(users, s, r, DecimalValue(amount), receiverSavedLast);
      var b := TransferBalances(users[s].balance, users[r].balance, amount);
      m[s].balance == b.0 && m[r].balance == b.1
  {
  }
}
