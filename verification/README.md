# YLLOCIN Bank — a verified model of the bank core

This project models the core of the YLLOCIN Bank teaching system (package
`banco`) in Dafny and proves properties of that model:

- **Customers** (`Cliente`): the setters that validate and normalise the
  fields (name, CPF, birth date, e-mail, phone, emancipation, legal guardian),
  the age computed from the birth date, the eligibility rules for the two
  account kinds, and `equals`/`hashCode` by CPF.
- **Transactions** (`Transacao`, `TipoTransacao`): the immutable ledger entry,
  its five kinds, the credit/debit classification, and equality that ignores
  the description and destination.
- **Accounts** (`Conta`, `ContaCorrente`, `ContaPoupanca`): deposit, withdraw
  and transfer with their refusal order, the checking account's R$ 0.50
  withdrawal fee, card request, credit limit and annual report, and the savings
  account's 0.5 % monthly interest, twelve-month projection, goal plan and
  interest report. The two subclasses are one class `Accounts.Account` whose
  constant `kind` selects the overridden behaviour (the fee hook and the type
  label).
- **The bank** (`Banco`): the customer and account registries with their
  uniqueness rules, account opening (one account of each kind per customer,
  numbers from 1001 upwards), lookup, closing, per-customer and total assets,
  the management report's figures (counts by kind and by age bracket, the top
  five customers by assets and the top three accounts by number of
  transactions), and the monthly interest run over all savings accounts.

Modules, in dependency order: `Wrappers` (Option/Result/Outcome, standing in
for `null` and exceptions), `Calendar` (dates and `Period.between`), `Text`
(the `String` operations used), `Transactions`, `Ledger` (sums over a
history), `Customers`, `Accounts`, `Ranking` (the stable descending sort and
`limit`), `Registry` (the bank).

Money is Dafny's exact `real`, so `BigDecimal` arithmetic is exact here too.
Every exception becomes an error value: `CustomerError`, `AccountError` or
`RegistryError`, one constructor per reason for refusal. The reason, not the
wording, is what the model keeps: `AccountError.InsufficientFunds` carries the
balance and stands for both `SaldoInsuficienteException` messages, the
withdrawal's (`src/banco/Conta.java:44-47`) and the transfer's
(`src/banco/Conta.java:98-101`); the operation that returned it tells them
apart. The clock is a parameter:
`today: Date` where the source reads `LocalDate.now()`, `now: DateTime` where
a transaction is stamped.

The central invariant is `Account.Valid`. The balance is always what the
history accounts for (deposits plus interest minus withdrawals minus fees).
Every amount is non-negative. A checking account has paid exactly R$ 0.50 per
withdrawal and earns no interest. A savings account pays no fees. Every
operation preserves it. `Bank.Valid` adds the registry's invariant:

- account numbers increase along the list and stay below the counter;
- CPFs are unique among customers;
- no CPF holds two accounts of the same kind;
- every account is valid.

Behaviour of the code that the model keeps as written:

- A plain withdrawal checks only the amount against the balance, then the
  checking fee is taken. A checking account can therefore end at −0.50. The
  invariant states this floor (`Accounts.Floor`). Transfers check the amount
  plus the fee, so they never go below zero.
- The transfer record booked on the receiving account has the receiver as
  origin and the sender as destination (`src/banco/Conta.java:110-115`). Every
  other entry also has its own account as origin.
- `setNome` checks the length before trimming, so `" a"` is accepted and
  stored as `"a"`. `Customers.NameLengthCheckedBeforeTrim` exhibits this.
- The credit/debit classification of `Transacao` counts a received transfer as
  a debit. `Ledger.CreditDebitGap` shows by how much a credit-minus-debit
  balance would differ from the real one.

## Model

| member | source | states |
|---|---|---|
| `Calendar.YearsBetweenIsBirthdays` | src/banco/Cliente.java:149-151 | for a birth date not after today, the `Period`-based age is the number of birthdays passed, and it is non-negative |
| `Text.TrimEmptyIffBlank` | src/banco/Cliente.java:48-51 | trimming yields the empty string exactly when every character is at or below U+0020 (`trim().isEmpty()`) |
| `Text.TrimIdempotent` | src/banco/Cliente.java:55 | trimming a trimmed string changes nothing |
| `Text.TrimDropsOnlyTrimmable` | src/banco/Cliente.java:55 | every character trimming removes is at or below U+0020 |
| `Text.DigitsAreDigits` | src/banco/Cliente.java:67 | `replaceAll("[^0-9]", "")` leaves only digits |
| `Text.DigitsOfDigits` | src/banco/Cliente.java:138 | a string of digits is its own digit string |
| `Text.LowerAscii` | src/banco/Cliente.java:129 | same length; each letter A–Z becomes its lower-case letter and every other character is kept |
| `Text.NatToStringRoundTrip` | src/banco/Conta.java:53-54 | the decimal rendering of an account number reads back as that number |
| `Text.Wrap32` | src/banco/Cliente.java:246-249 | Java's `int` overflow: the result lies in [−2³¹, 2³¹), equals the exact value when that already fits, and differs from it by a multiple of 2³² |
| `Text.StringHash` | src/banco/Cliente.java:246-249 | the CPF hash is a 32-bit `int` (h = 31·h + c with wrap-around) |
| `Transactions.TxKind.Description` | src/banco/TipoTransacao.java:7-21 | each of the five kinds has its fixed text: "Depósito", "Saque", "Transferência", "Taxa", "Rendimento" |
| `Transactions.DescriptionsDistinct` | src/banco/TipoTransacao.java:7-21 | the five kinds have pairwise distinct descriptions |
| `Transactions.CreditDebitPartition` | src/banco/Transacao.java:61-72 | every entry is exactly one of credit and debit, and a transfer is a debit |
| `Transactions.SameEntryIgnoresText` | src/banco/Transacao.java:95-105 | entry equality ignores description and destination, and is reflexive, symmetric and transitive |
| `Ledger.AppendEntry` | src/banco/Conta.java:125-127 | appending one entry adds its amount to its kind's sum, one to its kind's count, its signed amount to the balance, and keeps amounts non-negative iff it is |
| `Ledger.BalanceAppend` | src/banco/Conta.java:125-127 | appending one entry moves the history's balance by exactly that entry's signed amount |
| `Ledger.BalanceIsSignedSum` | src/banco/Transacao.java:65-72 | the balance a history accounts for is the sum of its entries' signed amounts |
| `Ledger.CountsPartition` | src/banco/TipoTransacao.java:6-11 | the five per-kind counts add up to the number of entries |
| `Ledger.SumOfNonNegative` | src/banco/ContaPoupanca.java:123-126 | with no negative amount, every per-kind total is at least zero |
| `Ledger.SumOfAbsent` | src/banco/ContaCorrente.java:84-87 | a kind that never occurs totals zero |
| `Ledger.CreditDebitGap` | src/banco/Transacao.java:65-72 | credits minus debits undercounts the balance by exactly the received transfers |
| `Customers.FormatCpf` | src/banco/Cliente.java:174-180 | a formatted CPF has 14 characters with '.' at 3 and 7 and '-' at 11 |
| `Customers.FormatPhone` | src/banco/Cliente.java:182-194 | a formatted phone is 4 characters longer than its digits, "(dd) " then the groups joined by '-' |
| `Customers.CpfDigitsRoundTrip` | src/banco/Cliente.java:174-180 | stripping the separators from a formatted CPF gives back its 11 digits |
| `Customers.PhoneDigitsRoundTrip` | src/banco/Cliente.java:182-194 | stripping the separators from a formatted phone gives back its 10 or 11 digits |
| `Customers.CheckName` | src/banco/Cliente.java:48-56 | accepted iff present, not blank and at least 2 UTF-16 code units long before trimming (`length()`), with the blank error before the length error; the stored name is the trimmed input and has no blank at either end |
| `Text.Utf16Length` | src/banco/Cliente.java:52 | `length()` counts at least one and at most two code units per character |
| `Text.Utf16LengthCountsSurrogates` | src/banco/Cliente.java:52 | the code-unit count equals the character count iff no character lies above U+FFFF, and is twice it iff every one does |
| `Customers.NameLengthInCodeUnits` | src/banco/Cliente.java:52-53 | a single character above U+FFFF is a long-enough name, a single BMP letter is too short |
| `Customers.NameLengthCheckedBeforeTrim` | src/banco/Cliente.java:52-55 | `" a"` is accepted and stored as the one-character name `"a"` |
| `Customers.CheckCpf` | src/banco/Cliente.java:62-73 | accepted iff present, not blank and holding exactly 11 digits; stored as those digits formatted; a missing or blank CPF is refused with `BlankCpf`, any other refusal is `CpfNotElevenDigits` |
| `Customers.CpfIdempotent` | src/banco/Cliente.java:62-73 | a stored CPF is well formed, and setting it again stores it unchanged |
| `Customers.FormattedCpfIsFixed` | src/banco/Cliente.java:67-72 | every well-formed CPF is accepted and stored unchanged |
| `Customers.CheckPhone` | src/banco/Cliente.java:136-146 | absent or blank clears the phone; otherwise refused iff the digit count is not 10 or 11, with the digit-count error; an accepted non-blank phone is stored as its digits formatted |
| `Customers.PhoneIdempotent` | src/banco/Cliente.java:136-146 | a stored phone is well formed, and setting it again stores it unchanged |
| `Customers.FormattedPhoneIsFixed` | src/banco/Cliente.java:137-142 | every well-formed phone is accepted and stored unchanged |
| `Customers.CheckEmail` | src/banco/Cliente.java:124-133 | absent or blank clears the e-mail; otherwise refused iff '@' or '.' is missing, with the invalid-e-mail error; an accepted non-blank e-mail is stored trimmed and lower-cased |
| `Customers.EmailKeepsMarkers` | src/banco/Cliente.java:125-129 | a stored e-mail still contains '@' and '.' |
| `Customers.CheckBirthDate` | src/banco/Cliente.java:79-92 | accepted iff present and not after today; stored as given; a missing date is refused with `NullBirthDate`, a future one with `FutureBirthDate` |
| `Customers.Customer.Init` | src/banco/Cliente.java:24-30 | the fields are stored as given, with no e-mail, phone or guardian and not emancipated |
| `Customers.Customer.Create` | src/banco/Cliente.java:24-30 | fails iff name, CPF or birth date is refused, with the first refusal's error in that order; otherwise a fresh valid customer with the normalised fields |
| `Customers.Customer.CreateWithDefaultBirth` | src/banco/Cliente.java:39-41 | fails iff the name or CPF is refused or 1990-01-01 is after today, with the first refusal's error in that order; otherwise a fresh valid customer with the normalised name and CPF, born 1990-01-01, with no e-mail, phone or guardian and not emancipated |
| `Customers.Customer.CreateWithGuardian` | src/banco/Cliente.java:33-36 | fails iff name, CPF or birth date is refused, the customer is 18 or older, or a given guardian is a minor, with the first refusal's error in that order; otherwise a fresh valid minor with the normalised fields, no e-mail or phone, not emancipated, and the given guardian |
| `Customers.Customer.SetName` | src/banco/Cliente.java:48-56 | keeps the customer valid; the outcome and the new name follow `CheckName`, and a refusal changes nothing |
| `Customers.Customer.SetCpf` | src/banco/Cliente.java:62-73 | keeps the customer valid; the outcome and the new CPF follow `CheckCpf` |
| `Customers.Customer.SetBirthDate` | src/banco/Cliente.java:79-92 | keeps the customer valid; the outcome and the new date follow `CheckBirthDate` |
| `Customers.Customer.SetEmail` | src/banco/Cliente.java:124-133 | keeps the customer valid; the outcome and the new e-mail follow `CheckEmail` |
| `Customers.Customer.SetPhone` | src/banco/Cliente.java:136-146 | keeps the customer valid; the outcome and the new phone follow `CheckPhone` |
| `Customers.Customer.SetEmancipated` | src/banco/Cliente.java:99-104 | refused iff an adult is declared emancipated; clearing the flag always succeeds |
| `Customers.Customer.SetGuardian` | src/banco/Cliente.java:110-120 | refused iff the customer is an adult or the given guardian is a minor, in that order |
| `Customers.EqualsIsCpfEquality` | src/banco/Cliente.java:238-249 | customers are equal iff their CPFs are; equal customers hash alike; equality is an equivalence |
| `Customers.CheckingFromEighteenthBirthday` | src/banco/Cliente.java:169-171 | a customer who is not emancipated may open a checking account exactly from the 18th birthday on |
| `Accounts.Label` | src/banco/ContaCorrente.java:35-38 | the checking label is "Conta Corrente" and the savings label "Conta Poupança" |
| `Accounts.LabelsDistinguishKinds` | src/banco/ContaPoupanca.java:31-34 | the two type labels differ, so the label names the kind |
| `Accounts.HookFee` | src/banco/ContaCorrente.java:22-33 | the withdrawal hook deducts a positive fee exactly for checking accounts, never a negative one |
| `Accounts.NeededForTransfer` | src/banco/Conta.java:92-96 | a transfer needs the amount plus the withdrawal hook's fee |
| `Accounts.InterestPaidIffPositive` | src/banco/ContaPoupanca.java:37-41 | interest is paid exactly on positive balances, and then the balance is multiplied by 1.005 |
| `Accounts.Accrued` | src/banco/ContaPoupanca.java:37-53 | one accrual never lowers the balance and strictly raises a positive one |
| `Accounts.CompoundIsPower` | src/banco/ContaPoupanca.java:94-96 | n months of interest multiply the balance by 1.005ⁿ |
| `Accounts.CompoundGrows` | src/banco/ContaPoupanca.java:66-74 | a projected balance is never below a non-negative start, grows strictly from a positive one and stays zero from zero |
| `Accounts.CompoundMonotone` | src/banco/ContaPoupanca.java:93-96 | a longer horizon never projects less |
| `Accounts.CreditLimit` | src/banco/ContaCorrente.java:53-66 | the limit is 1000, 2000 or 3000; 3000 iff the balance is above 5000; 1000 iff it is at most 1000 |
| `Accounts.CreditLimitMonotone` | src/banco/ContaCorrente.java:58-62 | a larger balance never gets a lower limit |
| `Accounts.Account.constructor` | src/banco/Conta.java:27-33 | a valid account at agency 1 with the given number, zero balance and empty history; a savings account's interest date is today |
| `Accounts.Account.TypeLabel` | src/banco/ContaCorrente.java:35-38 | the label is "Conta Corrente" exactly for a checking account |
| `Accounts.Account.RecordTransaction` | src/banco/Conta.java:125-127 | the history gains the entry at its end |
| `Accounts.Account.ApplyWithdrawalFee` | src/banco/ContaCorrente.java:22-33 | a checking account loses and books R$ 0.50; a savings account is unchanged |
| `Accounts.Account.Deposit` | src/banco/Conta.java:60-73 | keeps the account valid; refused iff the amount is not positive, changing nothing; otherwise the balance grows by the amount and the deposit is booked |
| `Accounts.Account.Withdraw` | src/banco/Conta.java:36-58 | keeps the account valid; refused for a non-positive amount, then for a balance below the amount; otherwise the balance falls by the amount plus the kind's fee and the withdrawal and fee are booked |
| `Accounts.Account.Transfer` | src/banco/Conta.java:75-116 | keeps both accounts valid; refused in source order (amount, missing destination, same number, balance below amount plus fee) with nothing changed; otherwise the sender ends non-negative, the receiver books deposit and transfer record, and together they lose exactly the fee |
| `Accounts.Account.CompleteTransfer` | src/banco/Conta.java:104-115 | once every check passed, keeps both accounts valid; the sender ends non-negative after paying amount and fee, and the receiver gains the amount with deposit and transfer record booked |
| `Accounts.Account.ReceiveTransfer` | src/banco/Conta.java:106-115 | keeps the receiver valid; its balance grows by the amount and its history gains the deposit and then the record naming the sender |
| `Accounts.Account.RequestCreditCard` | src/banco/ContaCorrente.java:41-51 | keeps the account valid; books a zero fee and leaves the balance alone |
| `Accounts.Account.AccrueInterest` | src/banco/ContaPoupanca.java:37-53 | keeps the account valid; a positive balance is multiplied by 1.005, booked and the interest date moved to today; otherwise nothing changes |
| `Accounts.Account.ProjectYear` | src/banco/ContaPoupanca.java:63-76 | the projection is twelve months of compound interest, and the earnings are the projection less the balance |
| `Accounts.Account.PlanGoal` | src/banco/ContaPoupanca.java:82-111 | the projection is the balance compounded over the months given (none when not positive); the goal is reached iff the projection covers it; otherwise the positive shortfall and a monthly deposit that times the months gives it |
| `Accounts.AnnualReportConsistent` | src/banco/ContaCorrente.java:68-94 | on a valid checking account the report's fees are R$ 0.50 per withdrawal, withdrawals plus deposits are at most all entries, and the balance is deposits less withdrawals less fees |
| `Accounts.InterestReportConsistent` | src/banco/ContaPoupanca.java:114-138 | on a valid savings account the interest total is non-negative, zero when none was credited, and the balance is deposits plus interest less withdrawals |
| `Ranking.Insert` | src/banco/Banco.java:205-210 | inserting into a descending list keeps it descending and adds exactly that entry |
| `Ranking.SortDescending` | src/banco/Banco.java:205-210 | the sorted list is descending and a permutation of the input |
| `Ranking.Take` | src/banco/Banco.java:211 | `limit(n)` keeps the first min(n, length) entries |
| `Ranking.TopKeepsLargest` | src/banco/Banco.java:205-211 | the top n are descending, min(n, length) many, a sub-multiset of the input (no entry more often than it occurs there), and no entry left out has a larger key than one kept |
| `Ranking.TopNoRepeats` | src/banco/Banco.java:205-211 | ranking a table that lists each item once lists each item at most once |
| `Ranking.SortIsStable` | src/banco/Banco.java:205-210 | the sort is stable: of two entries where the earlier key is at least the later one, the earlier comes first in the result |
| `Ranking.InsertIsStable` | src/banco/Banco.java:205-210 | inserting the last entry into a stable sort of the others gives a stable sort of the whole list |
| `Ranking.TopIsStable` | src/banco/Banco.java:205-211 | for a table listing each item once, the top n keep the list order of ties, and an entry listed before a kept one with a key at least as large is kept too |
| `Ranking.PrefixIsStable` | src/banco/Banco.java:211 | cutting a stable sort after k entries keeps it stable |
| `Ranking.PrefixKeepsTies` | src/banco/Banco.java:211 | cutting a stable sort after k entries keeps every entry listed earlier than a kept one with a key at least as large |
| `Registry.FirstWithCpf` | src/banco/Banco.java:46-51 | the position of the first customer with the CPF, or the length when there is none |
| `Registry.WithoutCpfKeepsOthers` | src/banco/Banco.java:71 | `removeIf` keeps exactly the customers with another CPF |
| `Registry.WithoutCpfKeepsUnique` | src/banco/Banco.java:71 | removing by CPF keeps CPFs unique |
| `Registry.WithoutCpfShrinks` | src/banco/Banco.java:71 | `removeIf` reports a removal iff some customer had the CPF |
| `Registry.IndexOfNumber` | src/banco/Banco.java:135-141 | the position of the first account with the number, or the length when there is none |
| `Registry.FilterKeepsMatching` | src/banco/Banco.java:143-147 | the filter keeps exactly the accounts whose owner equals (or does not equal) the customer, in increasing number order |
| `Registry.AppendKeeps` | src/banco/Banco.java:79-80 | appending a valid account numbered from the counter, whose owner holds no account of that kind, keeps numbers increasing and bounded, one account per kind and CPF, and every account valid |
| `Registry.RemoveAtKeeps` | src/banco/Banco.java:165 | removing one account keeps numbers increasing, one account per kind and CPF, the number bound and every account valid |
| `Registry.RemoveAtRemovesOne` | src/banco/Banco.java:165 | removing the account at a position removes exactly the account with its number |
| `Registry.SumSplits` | src/banco/Banco.java:250-255 | all balances add up to the customer's plus everybody else's |
| `Registry.KindCountsPartition` | src/banco/Banco.java:183-189 | the checking and savings counts add up to the number of accounts |
| `Registry.DistinctKindsCountOnce` | src/banco/Banco.java:183-189 | where no two accounts share a kind, each kind is counted at most once |
| `Registry.BracketsPartitionAges` | src/banco/Banco.java:222-225 | every age lies in exactly one of the report's four brackets |
| `Registry.BracketCountsPartition` | src/banco/Banco.java:222-225 | the four bracket counts add up to the number of customers |
| `Registry.TransferLowersTotalByFee` | src/banco/Conta.java:104-106 | when one registered account lost the amount plus its fee and another gained the amount (as `Account.Transfer` ensures), the others unchanged, the bank's total assets fell by exactly the sender's withdrawal fee |
| `Registry.Bank.constructor` | src/banco/Banco.java:20-24 | a valid bank with no customers and no accounts, numbering from 1001 |
| `Registry.Bank.AddCustomer` | src/banco/Banco.java:28-43 | keeps the bank valid; refuses a missing customer, then a CPF already registered; otherwise appends the customer |
| `Registry.Bank.FindCustomer` | src/banco/Banco.java:46-51 | found iff some customer has the CPF, and then a registered customer with that CPF |
| `Registry.Bank.RemoveCustomer` | src/banco/Banco.java:62-72 | keeps the bank valid; refused iff an account belongs to that CPF; otherwise removes every customer with it and returns whether there was one |
| `Registry.Bank.Open` | src/banco/Banco.java:99-111 | keeps the bank valid; refused iff the customer already holds that kind; otherwise appends a fresh empty account numbered from the counter, above every existing number, with no history, last accrued today for a savings account and never for a checking one |
| `Registry.Bank.OpenChecking` | src/banco/Banco.java:94-112 | refused iff the customer is not eligible or already holds a checking account, in that order; otherwise a fresh checking account at the end of the list, in the default agency 1, with no history and no accrual date |
| `Registry.Bank.OpenSavings` | src/banco/Banco.java:115-133 | refused iff the customer already holds a savings account; otherwise a fresh savings account at the end of the list, in the default agency 1, with no history, last accrued on the opening date |
| `Registry.Bank.FindAccount` | src/banco/Banco.java:135-141 | found iff some account has the number, and then a registered account with that number |
| `Registry.AccountsOfIsExact` | src/banco/Banco.java:143-147 | a customer's accounts are exactly the registered accounts of owners with that CPF, and there are at most two |
| `Registry.Bank.CloseAccount` | src/banco/Banco.java:149-166 | keeps the bank valid; an unknown number yields false and a non-zero balance is refused, both changing nothing; otherwise exactly that account is removed and the others keep their order |
| `Registry.Bank.RemoveAt` | src/banco/Banco.java:165 | keeps the bank valid and removes exactly the account at the position |
| `Registry.ClientAssetsPartOfTotal` | src/banco/Banco.java:250-255 | the bank's total assets are the customer's assets plus everybody else's |
| `Registry.Bank.AssetsTable` | src/banco/Banco.java:207-208 | each customer is paired with what it holds, in list order |
| `Registry.ActivityTable` | src/banco/Banco.java:237-239 | each account is paired with the length of its history, in list order |
| `Registry.TopClientsAreRichest` | src/banco/Banco.java:205-216 | the report lists min(5, customers) registered customers with their assets, richest first, no entry more often than in the table, no customer twice when CPFs are unique, and nobody left out holds more than someone listed |
| `Registry.MostActiveAreBusiest` | src/banco/Banco.java:236-245 | the report lists min(3, accounts) registered accounts with their history lengths, busiest first, no entry more often than in the table, no account twice when numbers increase, and no account left out has a longer history |
| `Registry.TopClientsListedOnce` | src/banco/Banco.java:205-216 | with CPFs unique, the top-clients ranking names no customer twice |
| `Registry.MostActiveListedOnce` | src/banco/Banco.java:236-245 | with account numbers increasing along the list, the activity ranking names no account twice |
| `Registry.TopClientsBreakTiesByListOrder` | src/banco/Banco.java:205-216 | with CPFs unique, ties in the wealth ranking go to the customer registered first: the ranking keeps list order among ties, and a customer listed before a ranked one and holding at least as much is ranked too |
| `Registry.MostActiveBreakTiesByListOrder` | src/banco/Banco.java:236-245 | with numbers increasing, ties in the activity ranking go to the account opened first, in the same two senses |
| `Registry.Bank.AccrueAt` | src/banco/Banco.java:287-290 | the account at one position accrues interest if it is a savings account, keeping every invariant |
| `Registry.Bank.ApplyInterestToSavings` | src/banco/Banco.java:284-293 | keeps the bank valid; every savings account accrues one month's interest and, when interest was paid, records today as its last accrual; every checking account is untouched; no balance falls |
| `Registry.BalancesNeverFell` | src/banco/Banco.java:324-328 | when no balance fell, the total assets are at least the old total (so the interest run never lowers them) |

## Left out

- Console output: every `System.out` line, `imprimirExtrato`, `imprimirDados`,
  `exibirServicosEspeciais`, `gerarRelatorioMovimentacao` and the `toString`
  methods. They print and change nothing. The report methods are modelled by
  the figures they print.
- Floating point. Amounts enter as `double` and pass through
  `BigDecimal.valueOf`; the model takes the exact value. The annual-rate line
  (`Math.pow`) is output only.
- Accounts.Account.PlanGoal: the monthly deposit is a `double` division.
  For zero months Java yields infinity; the model gives `None`.
- Clock reads (`LocalDate.now()`, `LocalDateTime.now()`) are parameters. Each
  operation stamps all its entries with one instant; Java reads the clock once
  per entry.
- buscarClientesPorNome and `executarBackupDados` are not modelled. The first
  is a name search for display; the second only prints.
- Concurrency: the static account counter is not thread-safe in Java, and the
  model is single-threaded.
- Account numbers are unbounded. Java's `int` counter would wrap after 2³¹ − 1.
- Transacao.equals compares `BigDecimal` values including their scale. The
  model compares exact values, so 1.0 and 1.00 are equal here.
- Transactions.SameEntryIgnoresText: the Java `hashCode` that goes with
  `equals` is not modelled.
- Text.StringHash is computed over characters. Java hashes UTF-16 code
  units, so the two agree on the CPF's ASCII characters only. (`setNome`'s
  length check does count code units: `Text.Utf16Length`.)
- Text.LowerAscii lower-cases A–Z only. `String.toLowerCase()` also folds
  non-ASCII letters by locale; stored e-mails with such letters may differ.
- getHistorico returns a copy. In the model a history is a `seq` value, so
  the copy is the field itself and needs no member.
- The getters (`getNome`, `getClientes`, `getTotalContas`, and the rest)
  return a field or its size. They are read directly.
- Ranking.TopIsStable requires a table that lists each item once. In a
  value model two identical entries cannot be told apart, so their relative
  order is not stated.
- Registry.Bank.ApplyInterestToSavings states the growth of the total assets
  per account. `Registry.BalancesNeverFell` turns this into the total.
- Registry.Bank.Valid is required by the bank's methods, not re-established
  from scratch. Customers are shared objects, and changing a registered
  customer's CPF through its own setter can break CPF uniqueness. The Java
  code does not guard against that either.
- Accounts.Account.Transfer keeps Java's cast of the destination to the
  account class. Both accounts are the one class here, so the cast cannot fail.
