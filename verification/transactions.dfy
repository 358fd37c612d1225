/** The immutable audit record of one balance-affecting event, and its five kinds. */
module Transactions {
  import opened Wrappers
  import opened Calendar

  /** The five transaction kinds, in declaration order. */
  datatype TxKind = Deposit | Withdrawal | Transfer | Fee | Interest
  {
    /** The fixed display text of each kind; `toString` returns the same text. */
    function Description(): (d: string)
      ensures this == Deposit ==> d == "Depósito"
      ensures this == Withdrawal ==> d == "Saque"
      ensures this == Transfer ==> d == "Transferência"
      ensures this == Fee ==> d == "Taxa"
      ensures this == Interest ==> d == "Rendimento"
    {
      match this
      case Deposit => "Depósito"
      case Withdrawal => "Saque"
      case Transfer => "Transferência"
      case Fee => "Taxa"
      case Interest => "Rendimento"
    }
  }

  /** The five descriptions are pairwise distinct, so a description names its kind. */
  lemma {:induction false} DescriptionsDistinct(j: TxKind, k: TxKind)
    ensures j.Description() == k.Description() <==> j == k
  {
  }

  /**
   * A ledger entry. Account numbers stand for the decimal strings the record keeps;
   * `destination` is None when the four-argument constructor was used.
   */
  datatype Transaction = Transaction(
    kind: TxKind,
    amount: real,
    at: DateTime,
    description: string,
    origin: nat,
    destination: Option<nat>)

  /** The four-argument constructor: no destination account. */
  function Entry(kind: TxKind, amount: real, description: string, origin: nat, at: DateTime): Transaction
  {
    Transaction(kind, amount, at, description, origin, None)
  }

  predicate IsTransfer(t: Transaction) { t.kind == Transfer }

  predicate IsCredit(t: Transaction) { t.kind == Deposit || t.kind == Interest }

  /** Note that a Transfer entry counts as a debit here, although it is booked on the receiving side. */
  predicate IsDebit(t: Transaction) { t.kind == Withdrawal || t.kind == Fee || t.kind == Transfer }

  /** Every entry is exactly one of credit and debit. */
  lemma {:induction false} CreditDebitPartition(t: Transaction)
    ensures IsCredit(t) != IsDebit(t)
    ensures IsTransfer(t) ==> IsDebit(t)
  {
  }

  /** `Transacao.equals`: kind, amount, timestamp and origin; description and destination are ignored. */
  predicate SameEntry(t: Transaction, u: Transaction)
  {
    t.kind == u.kind && t.amount == u.amount && t.at == u.at && t.origin == u.origin
  }

  /** Entries that differ only in description and destination are equal, and the relation is an equivalence. */
  lemma {:induction false} SameEntryIgnoresText(t: Transaction, d: string, dest: Option<nat>, u: Transaction, v: Transaction)
    ensures SameEntry(t, t.(description := d, destination := dest))
    ensures SameEntry(t, t)
    ensures SameEntry(t, u) ==> SameEntry(u, t)
    ensures SameEntry(t, u) && SameEntry(u, v) ==> SameEntry(t, v)
  {
  }
}
