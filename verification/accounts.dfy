/**
 * Bank accounts: the shared deposit/withdraw/transfer behaviour, the checking
 * account's withdrawal fee, card request and credit limit, and the savings
 * account's monthly interest and projections.
 *
 * The two account kinds share one class; `kind` selects the behaviour each
 * subclass overrides (the withdrawal-fee hook, the type label) and guards the
 * operations only one of them offers.
 */
module Accounts {
  import opened Wrappers
  import opened Calendar
  import opened Transactions
  import opened Ledger
  import opened Text
  import opened Customers

  datatype Kind = Checking | Savings

  /** `getTipoConta`. */
  function Label(k: Kind): (s: string)
    ensures k == Checking ==> s == "Conta Corrente"
    ensures k == Savings ==> s == "Conta Poupança"
  {
    match k
    case Checking => "Conta Corrente"
    case Savings => "Conta Poupança"
  }

  /** The label names the kind. */
  lemma {:induction false} LabelsDistinguishKinds(j: Kind, k: Kind)
    ensures Label(j) == Label(k) <==> j == k
  {
    if j != k {
      assert Label(j)[10] != Label(k)[10];
    }
  }

  /** Every account is opened at agency 1. */
  const DefaultAgency: int := 1
  /** Checking accounts pay R$ 0.50 per withdrawal. */
  const WithdrawalFee: real := 0.5
  /** Savings accounts earn 0.5% a month. */
  const MonthlyRate: real := 0.005

  /** What the withdrawal hook deducts after a withdrawal. */
  function HookFee(k: Kind): (f: real)
    ensures f >= 0.0
    ensures f > 0.0 <==> k == Checking
  {
    if k == Checking then WithdrawalFee else 0.0
  }

  /** The balance a transfer of `amount` needs: the amount plus the checking fee. */
  function NeededForTransfer(k: Kind, amount: real): (n: real)
    ensures n - amount == HookFee(k)
  {
    if k == Checking then amount + 0.5 else amount
  }

  /** The lowest balance an account can reach: a checking withdrawal of the whole balance still pays the fee. */
  function Floor(k: Kind): real
  {
    -HookFee(k)
  }

  /** The reasons an account operation is refused. */
  datatype AccountError =
    | NonPositiveAmount
    | InsufficientFunds(balance: real)
    | NullDestination
    | SameAccount

  // The entries each operation books, as the account's history will hold them.

  function DepositEntry(number: nat, amount: real, now: DateTime): Transaction
  {
    Entry(Deposit, amount, "Depósito realizado", number, now)
  }

  function WithdrawalEntry(number: nat, amount: real, now: DateTime): Transaction
  {
    Entry(Withdrawal, amount, "Saque realizado", number, now)
  }

  /** What the withdrawal hook books: one fee on a checking account, nothing on a savings account. */
  function FeeEntries(k: Kind, number: nat, now: DateTime): (es: seq<Transaction>)
    ensures |es| <= 1
  {
    if k == Checking then [Entry(Fee, WithdrawalFee, "Taxa de saque", number, now)] else []
  }

  /** The receiving side's extra record; it carries the receiver as origin and the sender as destination. */
  function TransferEntry(sender: nat, receiver: nat, amount: real, now: DateTime): Transaction
  {
    Transaction(Transfer, amount, now, "Transferência recebida de Conta " + NatToString(sender), receiver, Some(sender))
  }

  function CardRequestEntry(number: nat, now: DateTime): Transaction
  {
    Entry(Fee, 0.0, "Solicitação de cartão de crédito", number, now)
  }

  /** One month's interest on a balance. */
  function InterestOn(balance: real): real
  {
    balance * MonthlyRate
  }

  /** What one interest accrual books: an entry when the interest is positive, nothing otherwise. */
  function InterestEntries(balance: real, number: nat, now: DateTime): (es: seq<Transaction>)
    ensures |es| <= 1
  {
    if InterestOn(balance) > 0.0 then [Entry(Interest, InterestOn(balance), "Rendimento mensal aplicado", number, now)] else []
  }

  /** Interest is paid exactly on positive balances. */
  lemma {:induction false} InterestPaidIffPositive(balance: real)
    ensures InterestOn(balance) > 0.0 <==> balance > 0.0
    ensures balance > 0.0 ==> balance + InterestOn(balance) == balance * 1.005
  {
  }

  /** The balance one interest accrual leaves: grown by 0.5% when positive, untouched otherwise. */
  function Accrued(balance: real): (b: real)
    ensures b >= balance
    ensures balance > 0.0 ==> b > balance
  {
    if balance > 0.0 then balance * 1.005 else balance
  }

  /** The balance after `months` months of interest with nothing else happening. */
  function Compound(balance: real, months: nat): real
  {
    if months == 0 then balance
    else
      var previous := Compound(balance, months - 1);
      previous + previous * MonthlyRate
  }

  function Power(x: real, n: nat): real
  {
    if n == 0 then 1.0 else x * Power(x, n - 1)
  }

  /** Compounding is multiplying by 1.005 once per month. */
  lemma {:induction false} CompoundIsPower(balance: real, months: nat)
    ensures Compound(balance, months) == balance * Power(1.005, months)
  {
    if months > 0 {
      CompoundIsPower(balance, months - 1);
    }
  }

  /** A positive balance grows every month; a zero balance stays zero. */
  lemma {:induction false} CompoundGrows(balance: real, months: nat)
    requires balance >= 0.0
    ensures Compound(balance, months) >= balance
    ensures balance > 0.0 && months > 0 ==> Compound(balance, months) > balance
    ensures balance == 0.0 ==> Compound(balance, months) == 0.0
  {
    if months > 0 {
      CompoundGrows(balance, months - 1);
    }
  }

  /** A longer horizon never projects less. */
  lemma {:induction false} CompoundMonotone(balance: real, m: nat, n: nat)
    requires balance >= 0.0 && m <= n
    ensures Compound(balance, m) <= Compound(balance, n)
  {
    if m < n {
      CompoundMonotone(balance, m, n - 1);
      CompoundGrows(balance, n - 1);
    }
  }

  /** `consultarLimiteCredito`: R$ 1000, doubled above R$ 1000 and tripled above R$ 5000 (both strict). */
  function CreditLimit(balance: real): (limit: real)
    ensures limit == 1000.0 || limit == 2000.0 || limit == 3000.0
    ensures limit == 3000.0 <==> balance > 5000.0
    ensures limit == 1000.0 <==> balance <= 1000.0
  {
    var basic := 1000.0;
    if balance > 5000.0 then basic * 3.0
    else if balance > 1000.0 then basic * 2.0
    else basic
  }

  /** A richer account never gets a lower limit. */
  lemma {:induction false} CreditLimitMonotone(a: real, b: real)
    requires a <= b
    ensures CreditLimit(a) <= CreditLimit(b)
  {
  }

  /** The checking account's annual report: entries, withdrawals, deposits and the fees paid. */
  datatype AnnualReport = AnnualReport(transactions: nat, withdrawals: nat, deposits: nat, fees: real)

  /** The savings account's interest report: total credited and how many times. */
  datatype InterestReport = InterestReport(total: real, count: nat)

  /** The outcome of a savings goal plan. */
  datatype GoalPlan =
    | Reached(projected: real)
      /** `monthly` is None where the division by zero months yields no number. */
    | Shortfall(projected: real, missing: real, monthly: Option<real>)

  class Account {
    const agency: int
    const number: nat
    const kind: Kind
    const owner: Customer
    var balance: real
    var history: seq<Transaction>
    /** The date interest was last credited; a savings account only. */
    var lastAccrual: Option<Date>

    /**
     * The ledger invariant: the balance is what the history accounts for, it
     * never goes below the kind's floor, every amount is non-negative, a
     * checking account has paid exactly one fee per withdrawal, and only
     * savings accounts earn interest.
     */
    ghost predicate Valid()
      reads this
    {
      && balance == Balance(history)
      && balance >= Floor(kind)
      && AmountsNonNegative(history)
      && (kind == Checking ==> SumOf(history, Fee) == WithdrawalFee * (CountOf(history, Withdrawal) as real))
      && (kind == Checking ==> CountOf(history, Interest) == 0)
      && (kind == Savings ==> CountOf(history, Fee) == 0)
      && (kind == Savings <==> lastAccrual.Some?)
    }

    /** A new account: agency 1, the given number, zero balance, empty history; a savings account starts its interest date today. */
    constructor (kind: Kind, owner: Customer, number: nat, today: Date)
      ensures Valid()
      ensures this.kind == kind && this.owner == owner && this.number == number && agency == DefaultAgency
      ensures balance == 0.0 && history == []
      ensures lastAccrual == (if kind == Savings then Some(today) else None)
    {
      this.kind := kind;
      this.owner := owner;
      this.number := number;
      agency := DefaultAgency;
      balance := 0.0;
      history := [];
      lastAccrual := if kind == Savings then Some(today) else None;
    }

    /** `getTipoConta`. */
    function TypeLabel(): (s: string)
      ensures s == "Conta Corrente" <==> kind == Checking
    {
      LabelsDistinguishKinds(kind, Checking);
      Label(kind)
    }

    /** `registrarTransacao`: append to the history. */
    method RecordTransaction(t: Transaction)
      modifies this`history
      ensures history == old(history) + [t]
    {
      history := history + [t];
    }

    /** `aplicarTaxaSaque`: a checking account pays and books the fee; a savings account does nothing. */
    method ApplyWithdrawalFee(now: DateTime)
      modifies this`balance, this`history
      ensures balance == old(balance) - HookFee(kind)
      ensures history == old(history) + FeeEntries(kind, number, now)
    {
      if kind == Checking {
        balance := balance - WithdrawalFee;
        RecordTransaction(Entry(Fee, WithdrawalFee, "Taxa de saque", number, now));
      }
    }

    /** `depositar`: a positive amount is added and booked; anything else is refused with nothing changed. */
    method Deposit(amount: real, now: DateTime) returns (r: Outcome<AccountError>)
      requires Valid()
      modifies this`balance, this`history
      ensures Valid()
      ensures r.Fail? <==> amount <= 0.0
      ensures r.Fail? ==> r.error == NonPositiveAmount && balance == old(balance) && history == old(history)
      ensures r.Pass? ==> balance == old(balance) + amount && history == old(history) + [DepositEntry(number, amount, now)]
    {
      if amount <= 0.0 {
        return Fail(NonPositiveAmount);
      }
      AppendEntry(history, DepositEntry(number, amount, now));
      balance := balance + amount;
      RecordTransaction(DepositEntry(number, amount, now));
      return Pass;
    }

    /**
     * `sacar`: a positive amount no larger than the balance is taken and booked,
     * then the withdrawal hook runs. A checking account may thus end at −0.50.
     */
    method Withdraw(amount: real, now: DateTime) returns (r: Outcome<AccountError>)
      requires Valid()
      modifies this`balance, this`history
      ensures Valid()
      ensures r == (if amount <= 0.0 then Fail(NonPositiveAmount)
                    else if old(balance) < amount then Fail(InsufficientFunds(old(balance)))
                    else Pass)
      ensures r.Fail? ==> balance == old(balance) && history == old(history)
      ensures r.Pass? ==> balance == old(balance) - amount - HookFee(kind)
      ensures r.Pass? ==> history == old(history) + [WithdrawalEntry(number, amount, now)] + FeeEntries(kind, number, now)
    {
      if amount <= 0.0 {
        return Fail(NonPositiveAmount);
      }
      if balance < amount {
        return Fail(InsufficientFunds(balance));
      }
      var w := WithdrawalEntry(number, amount, now);
      AppendEntry(history, w);
      var h1 := history + [w];
      var fees := FeeEntries(kind, number, now);
      if kind == Checking {
        AppendEntry(h1, fees[0]);
        assert h1 + fees == h1 + [fees[0]];
      } else {
        assert h1 + fees == h1;
      }
      balance := balance - amount;
      RecordTransaction(w);
      ApplyWithdrawalFee(now);
      return Pass;
    }

    /**
     * `transferir`: refused, in this order, for a non-positive amount, a missing
     * destination, the same account number, or a balance below the amount plus
     * the checking fee. Otherwise the source withdraws (paying its fee), the
     * destination deposits, and the destination books a transfer record.
     */
    method Transfer(amount: real, dest: Account?, now: DateTime) returns (r: Outcome<AccountError>)
      requires Valid()
      requires dest != null ==> dest.Valid()
      modifies this, dest
      ensures Valid()
      ensures dest != null ==> dest.Valid()
      ensures r == (if amount <= 0.0 then Fail(NonPositiveAmount)
                    else if dest == null then Fail(NullDestination)
                    else if dest.number == number then Fail(SameAccount)
                    else if old(balance) < NeededForTransfer(kind, amount) then Fail(InsufficientFunds(old(balance)))
                    else Pass)
      ensures r.Fail? ==> unchanged(this) && (dest != null ==> unchanged(dest))
      ensures lastAccrual == old(lastAccrual) && (dest != null ==> dest.lastAccrual == old(dest.lastAccrual))
      ensures r.Pass? ==> dest != null && dest != this
      ensures r.Pass? ==> balance == old(balance) - amount - HookFee(kind) && balance >= 0.0
      ensures r.Pass? ==> history == old(history) + [WithdrawalEntry(number, amount, now)] + FeeEntries(kind, number, now)
      ensures r.Pass? ==> dest.balance == old(dest.balance) + amount
      ensures r.Pass? ==> dest.history == old(dest.history)
                                          + [DepositEntry(dest.number, amount, now), TransferEntry(number, dest.number, amount, now)]
      ensures r.Pass? ==> balance + dest.balance == old(balance) + old(dest.balance) - HookFee(kind)
    {
      if amount <= 0.0 {
        return Fail(NonPositiveAmount);
      }
      if dest == null {
        return Fail(NullDestination);
      }
      if number == dest.number {
        return Fail(SameAccount);
      }
      var needed := amount;
      if kind == Checking {
        needed := needed + 0.5;
      }
      if balance < needed {
        return Fail(InsufficientFunds(balance));
      }
      CompleteTransfer(amount, dest, now);
      return Pass;
    }

    /** The part of `transferir` after every check passed: withdraw here, deposit there, book the record there. */
    method CompleteTransfer(amount: real, dest: Account, now: DateTime)
      requires Valid() && dest.Valid() && dest != this
      requires amount > 0.0 && balance >= NeededForTransfer(kind, amount)
      modifies this, dest
      ensures Valid() && dest.Valid()
      ensures lastAccrual == old(lastAccrual) && dest.lastAccrual == old(dest.lastAccrual)
      ensures balance == old(balance) - amount - HookFee(kind) && balance >= 0.0
      ensures history == old(history) + [WithdrawalEntry(number, amount, now)] + FeeEntries(kind, number, now)
      ensures dest.balance == old(dest.balance) + amount
      ensures dest.history == old(dest.history)
                              + [DepositEntry(dest.number, amount, now), TransferEntry(number, dest.number, amount, now)]
    {
      var w := Withdraw(amount, now);
      dest.ReceiveTransfer(amount, number, now);
    }

    /** The receiving side of `transferir`: a deposit, then the transfer record naming the sender. */
    method ReceiveTransfer(amount: real, sender: nat, now: DateTime)
      requires Valid() && amount > 0.0
      modifies this`balance, this`history
      ensures Valid()
      ensures balance == old(balance) + amount
      ensures history == old(history) + [DepositEntry(number, amount, now), TransferEntry(sender, number, amount, now)]
    {
      var d := Deposit(amount, now);
      var t := TransferEntry(sender, number, amount, now);
      AppendEntry(history, t);
      RecordTransaction(t);
      assert history == old(history) + [DepositEntry(number, amount, now)] + [t];
    }

    /** `solicitarCartaoCredito`: books a zero-amount fee as a service marker; the balance is untouched. */
    method RequestCreditCard(now: DateTime)
      requires Valid() && kind == Checking
      modifies this`history
      ensures Valid()
      ensures history == old(history) + [CardRequestEntry(number, now)]
    {
      AppendEntry(history, CardRequestEntry(number, now));
      RecordTransaction(CardRequestEntry(number, now));
    }

    /** `gerarRelatorioAnual`: the figures the report prints. */
    function AnnualSummary(): AnnualReport
      reads this
      requires kind == Checking
    {
      AnnualReport(|history|, CountOf(history, Withdrawal), CountOf(history, TxKind.Deposit), SumOf(history, Fee))
    }

    /**
     * `aplicarRendimento`: a positive balance earns one month's interest, which
     * is credited and booked and moves the interest date to today; a zero
     * balance changes nothing.
     */
    method AccrueInterest(now: DateTime)
      requires Valid() && kind == Savings
      modifies this`balance, this`history, this`lastAccrual
      ensures Valid()
      ensures old(balance) > 0.0 ==> balance == old(balance) * 1.005 && lastAccrual == Some(now.date)
      ensures old(balance) <= 0.0 ==> balance == old(balance) && lastAccrual == old(lastAccrual)
      ensures balance == Accrued(old(balance))
      ensures history == old(history) + InterestEntries(old(balance), number, now)
    {
      InterestPaidIffPositive(balance);
      var interest := balance * MonthlyRate;
      if interest > 0.0 {
        var t := Entry(Interest, interest, "Rendimento mensal aplicado", number, now);
        AppendEntry(history, t);
        balance := balance + interest;
        lastAccrual := Some(now.date);
        RecordTransaction(t);
      }
    }

    /** `consultarRendimento`: the balance after twelve months of interest and the interest earned. */
    method ProjectYear() returns (projected: real, earned: real)
      requires kind == Savings
      ensures projected == Compound(balance, 12) && earned == projected - balance
    {
      var current := balance;
      for month := 1 to 13
        invariant current == Compound(balance, month - 1)
      {
        var interest := current * MonthlyRate;
        current := current + interest;
      }
      projected := current;
      earned := current - balance;
    }

    /**
     * `definirMetaPoupanca`: the balance after `months` months of interest
     * (none for a non-positive count), compared with the goal; when short,
     * the missing amount and the even monthly deposit the plan suggests.
     */
    method PlanGoal(goal: real, months: int) returns (plan: GoalPlan)
      requires kind == Savings
      ensures plan.projected == Compound(balance, if months > 0 then months else 0)
      ensures plan.Reached? <==> plan.projected >= goal
      ensures plan.Shortfall? ==> plan.missing == goal - plan.projected && plan.missing > 0.0
      ensures plan.Shortfall? ==> (plan.monthly.Some? <==> months != 0)
      ensures plan.Shortfall? && plan.monthly.Some? ==> plan.monthly.value * (months as real) == plan.missing
    {
      var future := balance;
      var i := 0;
      while i < months
        invariant 0 <= i && (months > 0 ==> i <= months) && (months <= 0 ==> i == 0)
        invariant future == Compound(balance, i)
      {
        future := future * (1.0 + MonthlyRate);
        i := i + 1;
      }
      var difference := goal - future;
      if difference <= 0.0 {
        plan := Reached(future);
      } else if months == 0 {
        plan := Shortfall(future, difference, None);
      } else {
        plan := Shortfall(future, difference, Some(difference / (months as real)));
      }
    }

    /** `gerarRelatorioRendimentos`: the interest credited so far and how many times. */
    function InterestSummary(): InterestReport
      reads this
      requires kind == Savings
    {
      InterestReport(SumOf(history, Interest), CountOf(history, Interest))
    }
  }

  /**
   * On a valid checking account the report's fee total is R$ 0.50 per
   * withdrawal, withdrawals and deposits are among the entries counted, and
   * the balance is what was deposited less what was withdrawn and paid.
   */
  lemma {:induction false} AnnualReportConsistent(a: Account)
    requires a.Valid() && a.kind == Checking
    ensures a.AnnualSummary().fees == 0.5 * (a.AnnualSummary().withdrawals as real)
    ensures a.AnnualSummary().withdrawals + a.AnnualSummary().deposits <= a.AnnualSummary().transactions
    ensures a.balance == SumOf(a.history, Deposit) - SumOf(a.history, Withdrawal) - a.AnnualSummary().fees
  {
    CountsPartition(a.history);
    SumOfAbsent(a.history, Interest);
  }

  /**
   * On a valid savings account the interest total is never negative, it is
   * zero until interest was credited once, and the balance is deposits plus
   * interest less withdrawals: savings accounts pay no fees.
   */
  lemma {:induction false} InterestReportConsistent(a: Account)
    requires a.Valid() && a.kind == Savings
    ensures a.InterestSummary().total >= 0.0
    ensures a.InterestSummary().count == 0 ==> a.InterestSummary().total == 0.0
    ensures a.balance == SumOf(a.history, Deposit) + a.InterestSummary().total - SumOf(a.history, Withdrawal)
  {
    SumOfNonNegative(a.history, Interest);
    SumOfAbsent(a.history, Fee);
    if a.InterestSummary().count == 0 {
      SumOfAbsent(a.history, Interest);
    }
  }
}
