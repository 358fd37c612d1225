/** Sums and counts over an account's history, and the balance the history accounts for. */
module Ledger {
  import opened Transactions

  /** Σ of the amounts of the entries of one kind. */
  function SumOf(h: seq<Transaction>, k: TxKind): real
  {
    if h == [] then 0.0
    else SumOf(h[..|h| - 1], k) + (if h[|h| - 1].kind == k then h[|h| - 1].amount else 0.0)
  }

  /** Number of entries of one kind. */
  function CountOf(h: seq<Transaction>, k: TxKind): (n: nat)
    ensures n <= |h|
  {
    if h == [] then 0
    else CountOf(h[..|h| - 1], k) + (if h[|h| - 1].kind == k then 1 else 0)
  }

  /** Every amount in the history is at least zero (the card-request marker is the one zero). */
  predicate AmountsNonNegative(h: seq<Transaction>)
  {
    forall i :: 0 <= i < |h| ==> h[i].amount >= 0.0
  }

  /** The balance a history accounts for: Σ deposits + Σ interest − Σ withdrawals − Σ fees. Transfer entries do not count. */
  function Balance(h: seq<Transaction>): real
  {
    SumOf(h, Deposit) + SumOf(h, Interest) - SumOf(h, Withdrawal) - SumOf(h, Fee)
  }

  /** What one entry contributes to Balance. */
  function Signed(t: Transaction): (v: real)
    ensures t.kind == Transfer ==> v == 0.0
    ensures IsCredit(t) ==> v == t.amount
    ensures t.kind == Withdrawal || t.kind == Fee ==> v == -t.amount
  {
    match t.kind
    case Deposit => t.amount
    case Interest => t.amount
    case Withdrawal => -t.amount
    case Fee => -t.amount
    case Transfer => 0.0
  }

  lemma {:induction false} SumOfAppend(h: seq<Transaction>, t: Transaction, k: TxKind)
    ensures SumOf(h + [t], k) == SumOf(h, k) + (if t.kind == k then t.amount else 0.0)
    ensures CountOf(h + [t], k) == CountOf(h, k) + (if t.kind == k then 1 else 0)
  {
    assert (h + [t])[..|h|] == h;
  }

  /** Everything one appended entry does to the sums, the counts, the balance and the sign of the amounts. */
  lemma {:induction false} AppendEntry(h: seq<Transaction>, t: Transaction)
    ensures forall k :: SumOf(h + [t], k) == SumOf(h, k) + (if t.kind == k then t.amount else 0.0)
    ensures forall k :: CountOf(h + [t], k) == CountOf(h, k) + (if t.kind == k then 1 else 0)
    ensures Balance(h + [t]) == Balance(h) + Signed(t)
    ensures AmountsNonNegative(h + [t]) <==> AmountsNonNegative(h) && t.amount >= 0.0
  {
    forall k ensures SumOf(h + [t], k) == SumOf(h, k) + (if t.kind == k then t.amount else 0.0)
                && CountOf(h + [t], k) == CountOf(h, k) + (if t.kind == k then 1 else 0) {
      SumOfAppend(h, t, k);
    }
    BalanceAppend(h, t);
    assert (h + [t])[|h|] == t;
    assert forall i :: 0 <= i < |h| ==> (h + [t])[i] == h[i];
  }

  /** Appending one entry moves the balance by exactly that entry's signed amount. */
  lemma {:induction false} BalanceAppend(h: seq<Transaction>, t: Transaction)
    ensures Balance(h + [t]) == Balance(h) + Signed(t)
  {
    SumOfAppend(h, t, Deposit);
    SumOfAppend(h, t, Interest);
    SumOfAppend(h, t, Withdrawal);
    SumOfAppend(h, t, Fee);
  }

  /** Balance is the sum of the entries' signed amounts. */
  function SignedSum(h: seq<Transaction>): real
  {
    if h == [] then 0.0 else SignedSum(h[..|h| - 1]) + Signed(h[|h| - 1])
  }

  lemma {:induction false} BalanceIsSignedSum(h: seq<Transaction>)
    ensures Balance(h) == SignedSum(h)
  {
    if h != [] {
      var p := h[..|h| - 1];
      BalanceIsSignedSum(p);
      assert p + [h[|h| - 1]] == h;
      BalanceAppend(p, h[|h| - 1]);
    }
  }

  /** Each entry has one kind, so the five counts add up to the history's length. */
  lemma {:induction false} CountsPartition(h: seq<Transaction>)
    ensures CountOf(h, Deposit) + CountOf(h, Withdrawal) + CountOf(h, Transfer)
          + CountOf(h, Fee) + CountOf(h, Interest) == |h|
  {
    if h != [] { CountsPartition(h[..|h| - 1]); }
  }

  /** With no negative amount, every per-kind sum is at least zero. */
  lemma {:induction false} SumOfNonNegative(h: seq<Transaction>, k: TxKind)
    requires AmountsNonNegative(h)
    ensures SumOf(h, k) >= 0.0
  {
    if h != [] { SumOfNonNegative(h[..|h| - 1], k); }
  }

  /** A kind that never occurs sums to zero. */
  lemma {:induction false} SumOfAbsent(h: seq<Transaction>, k: TxKind)
    requires CountOf(h, k) == 0
    ensures SumOf(h, k) == 0.0
  {
    if h != [] { SumOfAbsent(h[..|h| - 1], k); }
  }

  /** The balance a credit/debit classification would give (Transfer entries count as debits). */
  function CreditDebitBalance(h: seq<Transaction>): real
  {
    if h == [] then 0.0
    else
      var t := h[|h| - 1];
      CreditDebitBalance(h[..|h| - 1])
        + (if IsCredit(t) then t.amount else if IsDebit(t) then -t.amount else 0.0)
  }

  /** The credit/debit classification undercounts by exactly the received transfers. */
  lemma {:induction false} CreditDebitGap(h: seq<Transaction>)
    ensures CreditDebitBalance(h) == Balance(h) - SumOf(h, Transfer)
  {
    if h != [] {
      var p := h[..|h| - 1];
      var t := h[|h| - 1];
      CreditDebitGap(p);
      assert p + [t] == h;
      BalanceAppend(p, t);
      SumOfAppend(p, t, Transfer);
    }
  }
}
