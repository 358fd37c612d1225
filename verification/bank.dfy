/**
 * The bank's registry: its customers and accounts in insertion order, the
 * account-number counter, the rules for opening, looking up and closing
 * accounts, and the read-only aggregations of its management report.
 */
module Registry {
  import opened Wrappers
  import opened Calendar
  import opened Customers
  import opened Accounts
  import opened Transactions
  import Ranking

  /** The first account number the bank hands out. */
  const FirstAccountNumber: nat := 1001

  /** The reasons a registry operation is refused. */
  datatype RegistryError =
    | NullCustomer
    | DuplicateCpf
    | CustomerNotFound
    | HasActiveAccounts
    | NotEligible(kind: Kind)
    | AlreadyHolds(kind: Kind)
    | AccountNotFound(number: int)
    | NonZeroBalance

  // ---------------------------------------------------------------- sequences of customers

  /** Some customer in `s` has this CPF. */
  predicate HasCpf(s: seq<Customer>, cpf: string)
    reads s
  {
    exists i :: 0 <= i < |s| && s[i].cpf == cpf
  }

  /** No two customers in `s` share a CPF. */
  ghost predicate UniqueCpfs(s: seq<Customer>)
    reads s
  {
    forall i, j :: 0 <= i < j < |s| ==> s[i].cpf != s[j].cpf
  }

  /** The position of the first customer with this CPF, or |s| when there is none. */
  function FirstWithCpf(s: seq<Customer>, cpf: string): (i: nat)
    reads s
    ensures i <= |s|
    ensures i < |s| ==> s[i].cpf == cpf
    ensures forall j :: 0 <= j < i ==> s[j].cpf != cpf
  {
    if s == [] then 0
    else if s[0].cpf == cpf then 0
    else 1 + FirstWithCpf(s[1..], cpf)
  }

  /** `removeIf`: the customers whose CPF differs, in their order. */
  function WithoutCpf(s: seq<Customer>, cpf: string): (r: seq<Customer>)
    reads s
    ensures |r| <= |s|
  {
    if s == [] then []
    else WithoutCpf(s[..|s| - 1], cpf) + (if s[|s| - 1].cpf != cpf then [s[|s| - 1]] else [])
  }

  /** Removing by CPF keeps exactly the customers with another CPF. */
  lemma {:induction false} WithoutCpfKeepsOthers(s: seq<Customer>, cpf: string)
    ensures forall c :: c in WithoutCpf(s, cpf) ==> c in s && c.cpf != cpf
    ensures forall c :: c in s && c.cpf != cpf ==> c in WithoutCpf(s, cpf)
  {
    if s != [] {
      var p, x := s[..|s| - 1], s[|s| - 1];
      WithoutCpfKeepsOthers(p, cpf);
      assert s == p + [x];
    }
  }

  /** Removing by CPF keeps CPFs unique. */
  lemma {:induction false} WithoutCpfKeepsUnique(s: seq<Customer>, cpf: string)
    requires UniqueCpfs(s)
    ensures UniqueCpfs(WithoutCpf(s, cpf))
  {
    if s != [] {
      var p, x := s[..|s| - 1], s[|s| - 1];
      assert s == p + [x];
      WithoutCpfKeepsUnique(p, cpf);
      WithoutCpfKeepsOthers(p, cpf);
      var r := WithoutCpf(s, cpf);
      var q := WithoutCpf(p, cpf);
      if x.cpf != cpf {
        assert r == q + [x];
        forall i | 0 <= i < |q| ensures q[i].cpf != x.cpf {
          assert q[i] in q;
          var k :| 0 <= k < |p| && p[k] == q[i];
          assert s[k] == p[k];
        }
      }
    }
  }

  /** Removing by CPF shortens the list exactly when some customer has that CPF. */
  lemma {:induction false} WithoutCpfShrinks(s: seq<Customer>, cpf: string)
    ensures |WithoutCpf(s, cpf)| < |s| <==> HasCpf(s, cpf)
  {
    if s != [] {
      var p, x := s[..|s| - 1], s[|s| - 1];
      assert s == p + [x];
      WithoutCpfShrinks(p, cpf);
      if HasCpf(p, cpf) {
        var k :| 0 <= k < |p| && p[k].cpf == cpf;
        assert s[k] == p[k];
      }
      if HasCpf(s, cpf) && x.cpf != cpf {
        var k :| 0 <= k < |s| && s[k].cpf == cpf;
        assert p[k] == s[k];
      }
    }
  }

  // ---------------------------------------------------------------- sequences of accounts

  /** The customers owning the accounts in `s`. */
  ghost function Owners(s: seq<Account>): set<Customer>
  {
    set a | a in s :: a.owner
  }

  /** Account numbers strictly increase along the list; in particular no number occurs twice. */
  predicate NumbersIncreasing(s: seq<Account>)
  {
    forall i, j :: 0 <= i < j < |s| ==> s[i].number < s[j].number
  }

  /** Every number lies between 1001 and the bound, the bound excluded. */
  predicate NumbersBelow(s: seq<Account>, bound: nat)
  {
    forall i :: 0 <= i < |s| ==> FirstAccountNumber <= s[i].number < bound
  }

  /** Every account keeps its ledger invariant. */
  ghost predicate AllValid(s: seq<Account>)
    reads s
  {
    forall i :: 0 <= i < |s| ==> s[i].Valid()
  }

  /** No two accounts of the same kind belong to customers with the same CPF. */
  ghost predicate OnePerKind(s: seq<Account>)
    reads Owners(s)
  {
    forall i, j :: 0 <= i < j < |s| && s[i].kind == s[j].kind ==> s[i].owner.cpf != s[j].owner.cpf
  }

  /** `conta.getCliente().equals(cliente)` for some account of the given kind. */
  predicate Holds(s: seq<Account>, c: Customer, k: Kind)
    reads Owners(s), c
  {
    exists i :: 0 <= i < |s| && s[i].kind == k && s[i].owner.Equals(c)
  }

  /** Some account in `s` belongs to a customer with this CPF. */
  predicate OwnedByCpf(s: seq<Account>, cpf: string)
    reads Owners(s)
  {
    exists i :: 0 <= i < |s| && s[i].owner.cpf == cpf
  }

  /** The position of the first account with this number, or |s| when there is none. */
  function IndexOfNumber(s: seq<Account>, number: int): (i: nat)
    ensures i <= |s|
    ensures i < |s| ==> s[i].number == number
    ensures forall j :: 0 <= j < i ==> s[j].number != number
  {
    if s == [] then 0
    else if s[0].number == number then 0
    else 1 + IndexOfNumber(s[1..], number)
  }

  /** The accounts whose owner equals (`owned`) or does not equal (`!owned`) the customer, in their order. */
  function Filter(s: seq<Account>, c: Customer, owned: bool): (r: seq<Account>)
    reads Owners(s), c
    ensures |r| <= |s|
    ensures forall a :: a in r ==> a in s
  {
    if s == [] then []
    else
      var last := s[|s| - 1];
      Filter(s[..|s| - 1], c, owned) + (if last.owner.Equals(c) == owned then [last] else [])
  }

  /** The filter keeps exactly the matching accounts, and keeps the numbers increasing. */
  lemma {:induction false} FilterKeepsMatching(s: seq<Account>, c: Customer, owned: bool)
    ensures forall a :: a in Filter(s, c, owned) ==> a in s && a.owner.Equals(c) == owned
    ensures forall a :: a in s && a.owner.Equals(c) == owned ==> a in Filter(s, c, owned)
    ensures NumbersIncreasing(s) ==> NumbersIncreasing(Filter(s, c, owned))
  {
    if s != [] {
      var p, x := s[..|s| - 1], s[|s| - 1];
      FilterKeepsMatching(p, c, owned);
      assert s == p + [x];
      var r := Filter(s, c, owned);
      var q := Filter(p, c, owned);
      if NumbersIncreasing(s) && x.owner.Equals(c) == owned {
        assert r == q + [x];
        LastAboveKept(s, q);
      }
    }
  }

  /** An increasing list's last account, appended to increasing picks from the others, keeps them increasing. */
  lemma {:induction false} LastAboveKept(s: seq<Account>, q: seq<Account>)
    requires s != [] && NumbersIncreasing(s)
    requires NumbersIncreasing(q) && forall a :: a in q ==> a in s[..|s| - 1]
    ensures NumbersIncreasing(q + [s[|s| - 1]])
  {
    var p, x, r := s[..|s| - 1], s[|s| - 1], q + [s[|s| - 1]];
    forall i, j | 0 <= i < j < |r| ensures r[i].number < r[j].number {
      if j < |q| {
        assert r[i] == q[i] && r[j] == q[j];
      } else {
        assert r[i] == q[i] && q[i] in q;
        var k :| 0 <= k < |p| && p[k] == r[i];
        assert s[k] == p[k];
      }
    }
  }

  /**
   * Appending a valid account numbered from the counter, whose owner holds no
   * account of its kind yet, keeps every invariant of the list.
   */
  lemma {:induction false} AppendKeeps(s: seq<Account>, a: Account, bound: nat)
    requires NumbersIncreasing(s) && NumbersBelow(s, bound) && FirstAccountNumber <= bound
    requires a.number == bound
    ensures NumbersIncreasing(s + [a]) && NumbersBelow(s + [a], bound + 1)
    ensures OnePerKind(s) && (forall i :: 0 <= i < |s| && s[i].kind == a.kind ==> s[i].owner.cpf != a.owner.cpf)
            ==> OnePerKind(s + [a])
    ensures AllValid(s) && a.Valid() ==> AllValid(s + [a])
  {
    assert forall i :: 0 <= i < |s| ==> (s + [a])[i] == s[i];
  }

  /** Removing the account at position i shifts the later ones down by one. */
  lemma {:induction false} RemoveAtShifts(s: seq<Account>, i: nat)
    requires i < |s|
    ensures |s[..i] + s[i + 1..]| == |s| - 1
    ensures forall k :: 0 <= k < |s| - 1 ==> (s[..i] + s[i + 1..])[k] == if k < i then s[k] else s[k + 1]
  {
  }

  /** Removing the account at position i keeps the others in order, and every invariant of the list. */
  lemma {:induction false} RemoveAtKeeps(s: seq<Account>, i: nat)
    requires i < |s| && NumbersIncreasing(s)
    ensures NumbersIncreasing(s[..i] + s[i + 1..])
    ensures OnePerKind(s) ==> OnePerKind(s[..i] + s[i + 1..])
    ensures forall n: nat :: NumbersBelow(s, n) ==> NumbersBelow(s[..i] + s[i + 1..], n)
    ensures AllValid(s) ==> AllValid(s[..i] + s[i + 1..])
  {
    RemoveAtShifts(s, i);
  }

  /** Removing the account at position i removes exactly the account with its number. */
  lemma {:induction false} RemoveAtRemovesOne(s: seq<Account>, i: nat)
    requires i < |s| && NumbersIncreasing(s)
    ensures forall a :: a in s[..i] + s[i + 1..] <==> a in s && a.number != s[i].number
  {
    var t := s[..i] + s[i + 1..];
    RemoveAtShifts(s, i);
    forall a ensures a in t <==> a in s && a.number != s[i].number {
      if a in s && a.number != s[i].number {
        var k :| 0 <= k < |s| && s[k] == a;
        assert k < i ==> t[k] == a;
        assert k > i ==> t[k - 1] == a;
      }
    }
  }

  function SumBalances(s: seq<Account>): real
    reads s
  {
    if s == [] then 0.0 else SumBalances(s[..|s| - 1]) + s[|s| - 1].balance
  }

  /** Every account is either the customer's or not, so the two filtered sums make up the whole. */
  lemma {:induction false} SumSplits(s: seq<Account>, c: Customer)
    ensures SumBalances(s) == SumBalances(Filter(s, c, true)) + SumBalances(Filter(s, c, false))
  {
    if s != [] {
      var p, x := s[..|s| - 1], s[|s| - 1];
      SumSplits(p, c);
      var pt, pf := Filter(p, c, true), Filter(p, c, false);
      if x.owner.Equals(c) {
        assert (pt + [x])[..|pt|] == pt;
        assert pf + [] == pf;
      } else {
        assert (pf + [x])[..|pf|] == pf;
        assert pt + [] == pt;
      }
    }
  }

  /** The number of accounts of one kind. */
  function CountKind(s: seq<Account>, k: Kind): (n: nat)
    ensures n <= |s|
  {
    if s == [] then 0 else CountKind(s[..|s| - 1], k) + (if s[|s| - 1].kind == k then 1 else 0)
  }

  /** A kind no account has is counted zero times. */
  lemma {:induction false} CountKindAbsent(s: seq<Account>, k: Kind)
    requires forall i :: 0 <= i < |s| ==> s[i].kind != k
    ensures CountKind(s, k) == 0
  {
    if s != [] {
      CountKindAbsent(s[..|s| - 1], k);
    }
  }

  /** Where no two accounts share a kind, each kind is counted at most once. */
  lemma {:induction false} DistinctKindsCountOnce(s: seq<Account>, k: Kind)
    requires forall p, q :: 0 <= p < q < |s| ==> s[p].kind != s[q].kind
    ensures CountKind(s, k) <= 1
  {
    if s != [] {
      var n := |s| - 1;
      DistinctKindsCountOnce(s[..n], k);
      if s[n].kind == k {
        CountKindAbsent(s[..n], k);
      }
    }
  }

  /** Every account is checking or savings, so the two counts add up to the number of accounts. */
  lemma {:induction false} KindCountsPartition(s: seq<Account>)
    ensures CountKind(s, Checking) + CountKind(s, Savings) == |s|
  {
    if s != [] {
      KindCountsPartition(s[..|s| - 1]);
    }
  }

  // ---------------------------------------------------------------- age brackets

  datatype AgeBracket = Minor | Young | Adult | Senior

  /** The four filters of the report: under 18, 18 to 29, 30 to 59, 60 and over. */
  predicate InBracket(age: int, b: AgeBracket)
  {
    match b
    case Minor => age < 18
    case Young => age >= 18 && age < 30
    case Adult => age >= 30 && age < 60
    case Senior => age >= 60
  }

  /** Every age lies in exactly one bracket. */
  lemma {:induction false} BracketsPartitionAges(age: int)
    ensures exists b :: InBracket(age, b)
    ensures forall b, b' :: InBracket(age, b) && InBracket(age, b') ==> b == b'
  {
    if age < 18 {
      assert InBracket(age, Minor);
    } else if age < 30 {
      assert InBracket(age, Young);
    } else if age < 60 {
      assert InBracket(age, Adult);
    } else {
      assert InBracket(age, Senior);
    }
  }

  /** The number of customers whose age today lies in the bracket. */
  function CountBracket(s: seq<Customer>, b: AgeBracket, today: Date): (n: nat)
    reads s
    ensures n <= |s|
  {
    if s == [] then 0
    else CountBracket(s[..|s| - 1], b, today) + (if InBracket(s[|s| - 1].Age(today), b) then 1 else 0)
  }

  /** The four bracket counts add up to the number of customers. */
  lemma {:induction false} BracketCountsPartition(s: seq<Customer>, today: Date)
    ensures CountBracket(s, Minor, today) + CountBracket(s, Young, today)
          + CountBracket(s, Adult, today) + CountBracket(s, Senior, today) == |s|
  {
    if s != [] {
      BracketCountsPartition(s[..|s| - 1], today);
    }
  }

  // ---------------------------------------------------------------- sums of reals

  function Sum(xs: seq<real>): real
  {
    if xs == [] then 0.0 else Sum(xs[..|xs| - 1]) + xs[|xs| - 1]
  }

  /** A sequence that is pointwise at least another sums to at least as much. */
  lemma {:induction false} SumMonotone(xs: seq<real>, ys: seq<real>)
    requires |xs| == |ys|
    requires forall i :: 0 <= i < |xs| ==> xs[i] <= ys[i]
    ensures Sum(xs) <= Sum(ys)
  {
    if xs != [] {
      SumMonotone(xs[..|xs| - 1], ys[..|ys| - 1]);
    }
  }

  /** Changing one entry by `d` changes the sum by `d`. */
  lemma {:induction false} SumUpdate(xs: seq<real>, i: nat, v: real)
    requires i < |xs|
    ensures Sum(xs[i := v]) == Sum(xs) - xs[i] + v
  {
    var n := |xs| - 1;
    if i < n {
      SumUpdate(xs[..n], i, v);
      assert xs[i := v][..n] == xs[..n][i := v];
    } else {
      assert xs[i := v][..n] == xs[..n];
    }
  }

  /** Moving `amount` from one entry to another and dropping `fee` on the way lowers the sum by the fee. */
  lemma {:induction false} SumMoveWithFee(xs: seq<real>, i: nat, j: nat, amount: real, fee: real)
    requires i < |xs| && j < |xs| && i != j
    ensures Sum(xs[i := xs[i] - amount - fee][j := xs[j] + amount]) == Sum(xs) - fee
  {
    var ys := xs[i := xs[i] - amount - fee];
    SumUpdate(xs, i, xs[i] - amount - fee);
    SumUpdate(ys, j, xs[j] + amount);
  }

  /**
   * A transfer from the registry's account i to its account j, with every
   * other balance as it was, lowers the bank's total assets by exactly the
   * sender's withdrawal fee: `before` holds the balances before the transfer,
   * and the sender and receiver moved as `Account.Transfer` promises.
   */
  lemma {:induction false} TransferLowersTotalByFee(b: Bank, before: seq<real>, i: nat, j: nat, amount: real)
    requires |before| == |b.accounts| && i < |b.accounts| && j < |b.accounts| && i != j
    requires b.accounts[i].balance == before[i] - amount - HookFee(b.accounts[i].kind)
    requires b.accounts[j].balance == before[j] + amount
    requires forall k :: 0 <= k < |b.accounts| && k != i && k != j ==> b.accounts[k].balance == before[k]
    ensures b.TotalAssets() == Sum(before) - HookFee(b.accounts[i].kind)
  {
    var fee := HookFee(b.accounts[i].kind);
    SumMoveWithFee(before, i, j, amount, fee);
    SumOfBalances(b.accounts);
    assert Balances(b.accounts) == before[i := before[i] - amount - fee][j := before[j] + amount];
  }

  /** The balances of the accounts, in order. */
  function Balances(s: seq<Account>): (xs: seq<real>)
    reads s
    ensures |xs| == |s|
    ensures forall i :: 0 <= i < |s| ==> xs[i] == s[i].balance
  {
    if s == [] then [] else Balances(s[..|s| - 1]) + [s[|s| - 1].balance]
  }

  lemma {:induction false} SumOfBalances(s: seq<Account>)
    ensures SumBalances(s) == Sum(Balances(s))
  {
    if s != [] {
      SumOfBalances(s[..|s| - 1]);
      assert Balances(s)[..|s| - 1] == Balances(s[..|s| - 1]);
    }
  }

  // ---------------------------------------------------------------- the bank

  class Bank {
    const name: string
    var customers: seq<Customer>
    var accounts: seq<Account>
    /** The next account number to hand out; it only ever grows. */
    var nextNumber: nat

    /**
     * The registry invariant: account numbers increase along the list and lie
     * below the counter, CPFs are unique among customers, nobody holds two
     * accounts of one kind, and every account keeps its ledger invariant.
     */
    ghost predicate Valid()
      reads this, customers, accounts, Owners(accounts)
    {
      Structure() && AllValid(accounts)
    }

    /** The part of the invariant that no balance change can affect. */
    ghost predicate Structure()
      reads this, customers, Owners(accounts)
    {
      && FirstAccountNumber <= nextNumber
      && NumbersIncreasing(accounts)
      && NumbersBelow(accounts, nextNumber)
      && UniqueCpfs(customers)
      && OnePerKind(accounts)
    }

    /** A new bank: no customers, no accounts, numbering from 1001. */
    constructor (name: string)
      ensures Valid()
      ensures this.name == name && customers == [] && accounts == [] && nextNumber == FirstAccountNumber
    {
      this.name := name;
      customers := [];
      accounts := [];
      nextNumber := FirstAccountNumber;
    }

    /** `adicionarCliente`: refuses a missing customer and a CPF already present; otherwise appends. */
    method AddCustomer(c: Customer?) returns (r: Outcome<RegistryError>)
      requires Valid()
      modifies this`customers
      ensures Valid()
      ensures r == (if c == null then Fail(NullCustomer)
                    else if HasCpf(old(customers), c.cpf) then Fail(DuplicateCpf)
                    else Pass)
      ensures r.Fail? ==> customers == old(customers)
      ensures r.Pass? ==> customers == old(customers) + [c]
    {
      if c == null {
        return Fail(NullCustomer);
      }
      if HasCpf(customers, c.cpf) {
        return Fail(DuplicateCpf);
      }
      customers := customers + [c];
      return Pass;
    }

    /** `buscarClientePorCpf`: the first customer with that CPF, or CustomerNotFound. */
    function FindCustomer(cpf: string): (r: Result<Customer, RegistryError>)
      reads this, customers
      ensures r.Success? <==> HasCpf(customers, cpf)
      ensures r.Failure? ==> r.error == CustomerNotFound
      ensures r.Success? ==> r.value in customers && r.value.cpf == cpf
    {
      var i := FirstWithCpf(customers, cpf);
      if i < |customers| then Success(customers[i]) else Failure(CustomerNotFound)
    }

    /**
     * `removerCliente`: refused while any account belongs to a customer with
     * that CPF; otherwise removes every customer with that CPF and tells
     * whether there was one.
     */
    method RemoveCustomer(cpf: string) returns (r: Result<bool, RegistryError>)
      requires Valid()
      modifies this`customers
      ensures Valid()
      ensures r.Failure? <==> OwnedByCpf(accounts, cpf)
      ensures r.Failure? ==> r.error == HasActiveAccounts && customers == old(customers)
      ensures r.Success? ==> customers == WithoutCpf(old(customers), cpf)
      ensures r.Success? ==> (r.value <==> HasCpf(old(customers), cpf))
      ensures r.Success? ==> !HasCpf(customers, cpf)
    {
      if OwnedByCpf(accounts, cpf) {
        return Failure(HasActiveAccounts);
      }
      WithoutCpfKeepsOthers(customers, cpf);
      WithoutCpfKeepsUnique(customers, cpf);
      WithoutCpfShrinks(customers, cpf);
      var before := |customers|;
      customers := WithoutCpf(customers, cpf);
      forall k | 0 <= k < |customers| ensures customers[k].cpf != cpf {
        assert customers[k] in customers;
      }
      return Success(|customers| < before);
    }

    /** The duplicate check and account creation shared by both kinds. */
    method Open(c: Customer, kind: Kind, today: Date) returns (r: Result<Account, RegistryError>)
      requires Valid()
      modifies this`accounts, this`nextNumber
      ensures Valid()
      ensures r.Failure? <==> Holds(old(accounts), c, kind)
      ensures r.Failure? ==> r.error == AlreadyHolds(kind) && accounts == old(accounts) && nextNumber == old(nextNumber)
      ensures r.Success? ==> fresh(r.value) && accounts == old(accounts) + [r.value]
      ensures r.Success? ==> r.value.kind == kind && r.value.owner == c && r.value.agency == DefaultAgency
      ensures r.Success? ==> r.value.balance == 0.0 && r.value.history == []
      ensures r.Success? ==> r.value.lastAccrual == (if kind == Savings then Some(today) else None)
      ensures r.Success? ==> r.value.number == old(nextNumber) && nextNumber == old(nextNumber) + 1
      ensures r.Success? ==> forall a :: a in old(accounts) ==> a.number < r.value.number
    {
      if Holds(accounts, c, kind) {
        return Failure(AlreadyHolds(kind));
      }
      var a := new Account(kind, c, nextNumber, today);
      forall i | 0 <= i < |accounts| && accounts[i].kind == kind ensures accounts[i].owner.cpf != c.cpf {
        assert !accounts[i].owner.Equals(c);
      }
      AppendKeeps(accounts, a, nextNumber);
      accounts := accounts + [a];
      nextNumber := nextNumber + 1;
      return Success(a);
    }

    /** `criarContaCorrente`: the customer must be eligible and hold no checking account yet. */
    method OpenChecking(c: Customer, today: Date) returns (r: Result<Account, RegistryError>)
      requires Valid()
      modifies this`accounts, this`nextNumber
      ensures Valid()
      ensures r.Failure? <==> !c.CanOpenChecking(today) || Holds(old(accounts), c, Checking)
      ensures r.Failure? ==> r.error == (if !c.CanOpenChecking(today) then NotEligible(Checking) else AlreadyHolds(Checking))
      ensures r.Failure? ==> accounts == old(accounts) && nextNumber == old(nextNumber)
      ensures r.Success? ==> fresh(r.value) && accounts == old(accounts) + [r.value]
      ensures r.Success? ==> r.value.kind == Checking && r.value.owner == c && r.value.balance == 0.0
      ensures r.Success? ==> r.value.agency == DefaultAgency && r.value.history == [] && r.value.lastAccrual == None
      ensures r.Success? ==> r.value.number == old(nextNumber) && nextNumber == old(nextNumber) + 1
    {
      if !c.CanOpenChecking(today) {
        return Failure(NotEligible(Checking));
      }
      r := Open(c, Checking, today);
    }

    /** `criarContaPoupanca`: every customer is eligible; the customer must hold no savings account yet. */
    method OpenSavings(c: Customer, today: Date) returns (r: Result<Account, RegistryError>)
      requires Valid()
      modifies this`accounts, this`nextNumber
      ensures Valid()
      ensures r.Failure? <==> Holds(old(accounts), c, Savings)
      ensures r.Failure? ==> r.error == AlreadyHolds(Savings)
      ensures r.Failure? ==> accounts == old(accounts) && nextNumber == old(nextNumber)
      ensures r.Success? ==> fresh(r.value) && accounts == old(accounts) + [r.value]
      ensures r.Success? ==> r.value.kind == Savings && r.value.owner == c && r.value.balance == 0.0
      ensures r.Success? ==> r.value.agency == DefaultAgency && r.value.history == [] && r.value.lastAccrual == Some(today)
      ensures r.Success? ==> r.value.number == old(nextNumber) && nextNumber == old(nextNumber) + 1
    {
      if !c.CanOpenSavings() {
        return Failure(NotEligible(Savings));
      }
      r := Open(c, Savings, today);
    }

    /** `buscarContaPorNumero`: the account with that number, or AccountNotFound. */
    function FindAccount(number: int): (r: Result<Account, RegistryError>)
      reads this
      ensures r.Success? <==> exists i :: 0 <= i < |accounts| && accounts[i].number == number
      ensures r.Failure? ==> r.error == AccountNotFound(number)
      ensures r.Success? ==> r.value in accounts && r.value.number == number
    {
      var i := IndexOfNumber(accounts, number);
      if i < |accounts| then Success(accounts[i]) else Failure(AccountNotFound(number))
    }

    /** `buscarContasPorCliente`: the customer's accounts, in registry order. */
    function AccountsOf(c: Customer): (r: seq<Account>)
      reads this, Owners(accounts), c
      ensures forall a :: a in r ==> a in accounts
    {
      Filter(accounts, c, true)
    }

    /**
     * `encerrarConta`: an unknown number yields false and a non-zero balance is
     * refused, both leaving the registry as it was; otherwise exactly that
     * account is removed and the others keep their order.
     */
    method CloseAccount(number: int) returns (r: Result<bool, RegistryError>)
      requires Valid()
      modifies this`accounts
      ensures Valid()
      ensures var i := IndexOfNumber(old(accounts), number);
              r == (if i == |old(accounts)| then Success(false)
                    else if old(accounts)[i].balance != 0.0 then Failure(NonZeroBalance)
                    else Success(true))
      ensures r != Success(true) ==> accounts == old(accounts)
      ensures var i := IndexOfNumber(old(accounts), number);
              r == Success(true) ==> accounts == old(accounts)[..i] + old(accounts)[i + 1..]
      ensures r == Success(true) ==> forall a :: a in accounts <==> a in old(accounts) && a.number != number
    {
      var i := IndexOfNumber(accounts, number);
      if i == |accounts| {
        return Success(false);
      }
      if accounts[i].balance != 0.0 {
        return Failure(NonZeroBalance);
      }
      RemoveAt(i);
      return Success(true);
    }

    /** `contas.remove(conta)`: drops the account at position i, keeping the others in order. */
    method RemoveAt(i: nat)
      requires Valid() && i < |accounts|
      modifies this`accounts
      ensures Valid()
      ensures accounts == old(accounts)[..i] + old(accounts)[i + 1..]
      ensures forall a :: a in accounts <==> a in old(accounts) && a.number != old(accounts)[i].number
    {
      RemoveAtKeeps(accounts, i);
      RemoveAtRemovesOne(accounts, i);
      accounts := accounts[..i] + accounts[i + 1..];
    }

    /** `calcularPatrimonioCliente`: the sum of the customer's balances. */
    function ClientAssets(c: Customer): real
      reads this, (set a | a in accounts), Owners(accounts), c
    {
      SumBalances(AccountsOf(c))
    }

    /** `getPatrimonioTotal`: the sum of all balances. */
    function TotalAssets(): real
      reads this, accounts
    {
      SumBalances(accounts)
    }

    /** Each customer paired with what it holds, in list order. */
    function AssetsTable(s: seq<Customer>): (t: seq<(Customer, real)>)
      reads this, (set a | a in accounts), Owners(accounts), s
      ensures |t| == |s|
      ensures forall i :: 0 <= i < |s| ==> t[i] == (s[i], ClientAssets(s[i]))
    {
      if s == [] then [] else AssetsTable(s[..|s| - 1]) + [(s[|s| - 1], ClientAssets(s[|s| - 1]))]
    }

    /** The management report's ranking: the five customers holding the most, richest first. */
    function TopClients(): seq<(Customer, real)>
      reads this, (set a | a in accounts), Owners(accounts), customers
    {
      Ranking.Top(AssetsTable(customers), 5)
    }

    /** The management report's other ranking: the three accounts with the longest histories. */
    function MostActive(): seq<(Account, real)>
      reads this, accounts
    {
      Ranking.Top(ActivityTable(accounts), 3)
    }

    /** One step of the interest run: the account at position i accrues interest if it is a savings account. */
    method AccrueAt(i: nat, now: DateTime)
      requires i < |accounts| && Structure() && AllValid(accounts)
      modifies accounts[i]
      ensures Structure() && AllValid(accounts)
      ensures AccruedFrom(accounts[i], old(Snap(accounts[i])), now)
      ensures accounts[i].balance >= old(accounts[i].balance)
      ensures forall j :: 0 <= j < |accounts| && j != i ==> accounts[j] != accounts[i]
    {
      var a := accounts[i];
      assert forall j :: 0 <= j < |accounts| && j != i ==> accounts[j].number != a.number;
      if a.kind == Savings {
        a.AccrueInterest(now);
      }
    }

    /** `aplicarRendimentoPoupancas`: every savings account accrues interest once; checking accounts are untouched. */
    method ApplyInterestToSavings(now: DateTime)
      requires Valid()
      modifies accounts
      ensures Valid()
      ensures forall i :: 0 <= i < |accounts| ==>
                AccruedFrom(accounts[i], old(Snap(accounts[i])), now)
      ensures forall i :: 0 <= i < |accounts| ==> accounts[i].balance >= old(accounts[i].balance)
    {
      ghost var s0 := Snaps(accounts);
      var i := 0;
      while i < |accounts|
        invariant 0 <= i <= |accounts|
        invariant Structure() && AllValid(accounts)
        invariant forall j :: 0 <= j < i ==> AccruedFrom(accounts[j], s0[j], now)
        invariant forall j :: i <= j < |accounts| ==> Snap(accounts[j]) == s0[j]
      {
        AccrueAt(i, now);
        i := i + 1;
      }
    }
  }

  /**
   * One accrual left the account as the bank's interest run promises: savings
   * grown by Accrued, booked, and stamped with today's date when interest was
   * paid; checking untouched.
   */
  ghost predicate AccruedFrom(a: Account, before: AccountState, now: DateTime)
    reads a
  {
    if a.kind == Savings then
      a.balance == Accrued(before.balance) && a.history == before.history + InterestEntries(before.balance, a.number, now)
      && a.lastAccrual == (if before.balance > 0.0 then Some(now.date) else before.lastAccrual)
    else
      Snap(a) == before
  }

  /** What the interest run may change in an account. */
  datatype AccountState = AccountState(balance: real, history: seq<Transaction>, lastAccrual: Option<Date>)

  /** The account's current balance, history and interest stamp. */
  ghost function Snap(a: Account): AccountState
    reads a
  {
    AccountState(a.balance, a.history, a.lastAccrual)
  }

  /** The states of the accounts, in order. */
  ghost function Snaps(s: seq<Account>): (ss: seq<AccountState>)
    reads s
    ensures |ss| == |s|
    ensures forall i :: 0 <= i < |s| ==> ss[i] == Snap(s[i])
  {
    if s == [] then [] else Snaps(s[..|s| - 1]) + [Snap(s[|s| - 1])]
  }

  /** Each account paired with the length of its history, in list order. */
  function ActivityTable(s: seq<Account>): (t: seq<(Account, real)>)
    reads s
    ensures |t| == |s|
    ensures forall i :: 0 <= i < |s| ==> t[i] == (s[i], |s[i].history| as real)
  {
    if s == [] then [] else ActivityTable(s[..|s| - 1]) + [(s[|s| - 1], |s[|s| - 1].history| as real)]
  }

  /**
   * The top-clients ranking lists min(5, |customers|) registered customers
   * with their holdings, richest first, and no customer left out holds more
   * than a listed one.
   */
  lemma {:induction false} TopClientsAreRichest(b: Bank)
    ensures |b.TopClients()| == if |b.customers| < 5 then |b.customers| else 5
    ensures Ranking.Descending(b.TopClients())
    ensures multiset(b.TopClients()) <= multiset(b.AssetsTable(b.customers))
    ensures forall e :: e in b.TopClients() ==> e.0 in b.customers && e.1 == b.ClientAssets(e.0)
    ensures forall c :: c in b.customers && (c, b.ClientAssets(c)) !in b.TopClients() ==>
              forall e :: e in b.TopClients() ==> e.1 >= b.ClientAssets(c)
  {
    var t := b.AssetsTable(b.customers);
    Ranking.TopKeepsLargest(t, 5);
    forall e | e in b.TopClients() ensures e.0 in b.customers && e.1 == b.ClientAssets(e.0) {
      var i :| 0 <= i < |t| && t[i] == e;
    }
    forall c | c in b.customers ensures (c, b.ClientAssets(c)) in t {
      var i :| 0 <= i < |b.customers| && b.customers[i] == c;
      assert t[i] == (c, b.ClientAssets(c));
    }
  }

  /**
   * The activity ranking lists min(3, |accounts|) registered accounts with
   * their history lengths, busiest first, and no account left out has a
   * longer history than a listed one.
   */
  lemma {:induction false} MostActiveAreBusiest(b: Bank)
    ensures |b.MostActive()| == if |b.accounts| < 3 then |b.accounts| else 3
    ensures Ranking.Descending(b.MostActive())
    ensures multiset(b.MostActive()) <= multiset(ActivityTable(b.accounts))
    ensures forall e :: e in b.MostActive() ==> e.0 in b.accounts && e.1 == |e.0.history| as real
    ensures forall a :: a in b.accounts && (a, |a.history| as real) !in b.MostActive() ==>
              forall e :: e in b.MostActive() ==> e.1 >= |a.history| as real
  {
    var t := ActivityTable(b.accounts);
    Ranking.TopKeepsLargest(t, 3);
    forall e | e in b.MostActive() ensures e.0 in b.accounts && e.1 == |e.0.history| as real {
      var i :| 0 <= i < |t| && t[i] == e;
    }
    forall a | a in b.accounts ensures (a, |a.history| as real) in t {
      var i :| 0 <= i < |b.accounts| && b.accounts[i] == a;
      assert t[i] == (a, |a.history| as real);
    }
  }

  /** With CPFs unique, the top-clients ranking names no customer twice. */
  lemma {:induction false} TopClientsListedOnce(b: Bank)
    requires UniqueCpfs(b.customers)
    ensures forall i, j :: 0 <= i < j < |b.TopClients()| ==> b.TopClients()[i].0 != b.TopClients()[j].0
  {
    var t := b.AssetsTable(b.customers);
    forall i, j | 0 <= i < j < |t| ensures t[i].0 != t[j].0 {
      assert b.customers[i].cpf != b.customers[j].cpf;
    }
    Ranking.TopNoRepeats(t, 5);
  }

  /** With numbers increasing along the list, the activity ranking names no account twice. */
  lemma {:induction false} MostActiveListedOnce(b: Bank)
    requires NumbersIncreasing(b.accounts)
    ensures forall i, j :: 0 <= i < j < |b.MostActive()| ==> b.MostActive()[i].0 != b.MostActive()[j].0
  {
    var t := ActivityTable(b.accounts);
    forall i, j | 0 <= i < j < |t| ensures t[i].0 != t[j].0 {
      assert b.accounts[i].number < b.accounts[j].number;
    }
    Ranking.TopNoRepeats(t, 3);
  }

  /**
   * Ties in the wealth ranking go to the customer registered first: the ranking
   * keeps the list order of customers whose assets are at least those of a later
   * one, and a customer listed before a ranked one, holding at least as much,
   * is ranked too.
   */
  lemma {:induction false} TopClientsBreakTiesByListOrder(b: Bank)
    requires UniqueCpfs(b.customers)
    ensures Ranking.Stable(b.AssetsTable(b.customers), b.TopClients())
    ensures forall i, j :: 0 <= i < j < |b.customers| && b.ClientAssets(b.customers[i]) >= b.ClientAssets(b.customers[j])
              && (b.customers[j], b.ClientAssets(b.customers[j])) in b.TopClients()
              ==> (b.customers[i], b.ClientAssets(b.customers[i])) in b.TopClients()
  {
    var t := b.AssetsTable(b.customers);
    forall i, j | 0 <= i < j < |t| ensures t[i].0 != t[j].0 {
      assert b.customers[i].cpf != b.customers[j].cpf;
    }
    Ranking.TopIsStable(t, 5);
  }

  /**
   * Ties in the activity ranking go to the account opened first: the ranking
   * keeps the list order of accounts whose histories are at least as long as a
   * later one's, and an account listed before a ranked one, with at least as
   * many transactions, is ranked too.
   */
  lemma {:induction false} MostActiveBreakTiesByListOrder(b: Bank)
    requires NumbersIncreasing(b.accounts)
    ensures Ranking.Stable(ActivityTable(b.accounts), b.MostActive())
    ensures forall i, j :: 0 <= i < j < |b.accounts| && |b.accounts[i].history| >= |b.accounts[j].history|
              && (b.accounts[j], |b.accounts[j].history| as real) in b.MostActive()
              ==> (b.accounts[i], |b.accounts[i].history| as real) in b.MostActive()
  {
    var t := ActivityTable(b.accounts);
    forall i, j | 0 <= i < j < |t| ensures t[i].0 != t[j].0 {
      assert b.accounts[i].number < b.accounts[j].number;
    }
    Ranking.TopIsStable(t, 3);
  }

  /** Balances that each stayed or grew add up to at least the old total. */
  lemma {:induction false} BalancesNeverFell(s: seq<Account>, before: seq<real>)
    requires |before| == |s|
    requires forall i :: 0 <= i < |s| ==> s[i].balance >= before[i]
    ensures SumBalances(s) >= Sum(before)
  {
    SumOfBalances(s);
    SumMonotone(before, Balances(s));
  }

  /** `buscarContasPorCliente` returns exactly the customer's accounts, and a customer has at most two: one of each kind. */
  lemma {:induction false} AccountsOfIsExact(b: Bank, c: Customer)
    requires b.Valid()
    ensures forall a :: a in b.AccountsOf(c) <==> a in b.accounts && a.owner.cpf == c.cpf
    ensures |b.AccountsOf(c)| <= 2
  {
    FilterKeepsMatching(b.accounts, c, true);
    var r := b.AccountsOf(c);
    forall p, q | 0 <= p < q < |r| ensures r[p].kind != r[q].kind {
      assert r[p] in r && r[q] in r;
      var i :| 0 <= i < |b.accounts| && b.accounts[i] == r[p];
      var j :| 0 <= j < |b.accounts| && b.accounts[j] == r[q];
      assert r[p].number < r[q].number;
      assert i < j;
    }
    DistinctKindsCountOnce(r, Checking);
    DistinctKindsCountOnce(r, Savings);
    KindCountsPartition(r);
  }

  /** The total is what the customer holds plus what everybody else holds. */
  lemma {:induction false} ClientAssetsPartOfTotal(b: Bank, c: Customer)
    ensures b.TotalAssets() == b.ClientAssets(c) + SumBalances(Filter(b.accounts, c, false))
  {
    SumSplits(b.accounts, c);
  }
}
