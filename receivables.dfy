/** The accounts-receivable router: one account per sale, payments that raise the paid amount
    up to the account's amount, the status recomputed from the amounts and the due date, the
    overdue summary, and which accounts a seller may see. Amounts are integer cents; dates are
    integers on one clock, and "now" is a parameter. */
module Receivables {
  import opened Common

  const Paid := "paid"
  const Partial := "partial"
  const Overdue := "overdue"
  const Pending := "pending"
  const Admin := "admin"

  datatype Account = Account(
    id: int, saleId: int, customerId: int, amount: int, paidAmount: int, dueDate: int, status: string, notes: string)
  {
    function Remaining(): int {
      amount - paidAmount
    }
  }

  /** The body of POST /accounts-receivable. */
  datatype AccountRequest = AccountRequest(saleId: int, customerId: int, amount: int, dueDate: int, notes: string)

  /** The body of PUT /accounts-receivable/{id}: only the supplied fields are written. */
  datatype AccountUpdate = AccountUpdate(
    amount: Option<int>, paidAmount: Option<int>, dueDate: Option<int>, status: Option<string>, notes: Option<string>)

  datatype PaymentRequest = PaymentRequest(amount: int, paymentMethod: string, notes: string)

  datatype Payment = Payment(id: int, accountId: int, amount: int, paymentMethod: string, notes: string, createdBy: int)

  datatype User = User(id: int, role: string)

  datatype ReceivableError = AccountNotFound | SaleNotFound | SaleAlreadyHasAccount | NotAuthorized | ExceedsRemaining {
    function StatusCode(): int {
      match this
      case AccountNotFound => 404
      case SaleNotFound => 404
      case SaleAlreadyHasAccount => 400
      case NotAuthorized => 403
      case ExceedsRemaining => 400
    }
  }

  function HasId(id: int): Account -> bool {
    (a: Account) => a.id == id
  }

  function ForSale(saleId: int): Account -> bool {
    (a: Account) => a.saleId == saleId
  }

  // ---------------------------------------------------------------------------
  // Status

  /** The status the update endpoint recomputes: paid, then partial, then overdue, then pending. */
  function StatusFor(paidAmount: int, amount: int, dueDate: int, now: int): string {
    if paidAmount >= amount then Paid
    else if paidAmount > 0 then Partial
    else if dueDate < now then Overdue
    else Pending
  }

  /** The status a payment sets. */
  function StatusAfterPayment(paidAmount: int, amount: int): string {
    if paidAmount >= amount then Paid else Partial
  }

  /** Each recomputed status holds exactly when its condition and no earlier one holds. */
  lemma StatusPriority(paidAmount: int, amount: int, dueDate: int, now: int)
    ensures StatusFor(paidAmount, amount, dueDate, now) == Paid <==> paidAmount >= amount
    ensures StatusFor(paidAmount, amount, dueDate, now) == Partial <==> paidAmount < amount && paidAmount > 0
    ensures StatusFor(paidAmount, amount, dueDate, now) == Overdue <==> paidAmount < amount && paidAmount <= 0 && dueDate < now
    ensures StatusFor(paidAmount, amount, dueDate, now) == Pending <==> paidAmount < amount && paidAmount <= 0 && dueDate >= now
  {
    assert Paid != Partial && Paid != Overdue && Paid != Pending && Partial != Overdue && Partial != Pending
      && Overdue != Pending by {
      assert |Paid| == 4 && |Partial| == 7 && |Overdue| == 7 && |Pending| == 7;
      assert Partial[0] == 'p' && Overdue[0] == 'o';
      assert Partial[1] == 'a' && Pending[1] == 'e';
    }
  }

  /** Once something has been paid, the payment's status and the recomputed status agree,
      whatever the due date. */
  lemma PaymentStatusAgreesWithRecomputed(paidAmount: int, amount: int, dueDate: int, now: int)
    requires paidAmount > 0
    ensures StatusAfterPayment(paidAmount, amount) == StatusFor(paidAmount, amount, dueDate, now)
  {
  }

  // ---------------------------------------------------------------------------
  // Payments and updates on one account

  /** The account after a payment of `amount`, or the 400 the endpoint raises. */
  function AfterPayment(account: Account, amount: int): Result<Account, ReceivableError> {
    if amount > account.Remaining() then Err(ExceedsRemaining)
    else
      var paid := account.paidAmount + amount;
      Ok(account.(paidAmount := paid, status := StatusAfterPayment(paid, account.amount)))
  }

  /** A payment is refused exactly when it exceeds the remaining balance; an accepted one raises
      the paid amount by exactly the payment, lowers the remaining balance by it, keeps the paid
      amount within the account's amount, and marks the account paid exactly when nothing remains. */
  lemma PaymentSettlesBalance(account: Account, amount: int)
    ensures AfterPayment(account, amount).Err? <==> amount > account.amount - account.paidAmount
    ensures AfterPayment(account, amount).Ok? ==>
      var after := AfterPayment(account, amount).value;
      && after.paidAmount == account.paidAmount + amount
      && after.Remaining() == account.Remaining() - amount
      && after.paidAmount <= after.amount
      && (after.status == Paid <==> after.Remaining() <= 0)
      && after == account.(paidAmount := after.paidAmount, status := after.status)
  {
    assert Paid != Partial by {
      assert |Paid| == 4 && |Partial| == 7;
    }
  }

  /** Two accepted payments leave the account as one payment of their sum would. */
  lemma PaymentsAccumulate(account: Account, x: int, y: int)
    requires AfterPayment(account, x).Ok?
    requires AfterPayment(AfterPayment(account, x).value, y).Ok?
    ensures AfterPayment(account, x + y) == AfterPayment(AfterPayment(account, x).value, y)
  {
  }

  /** The account after a partial update: the supplied fields are written, then the status is
      recomputed from the new amounts and due date. */
  function Updated(account: Account, update: AccountUpdate, now: int): Account {
    var a := account.(
      amount := if update.amount.Some? then update.amount.value else account.amount,
      paidAmount := if update.paidAmount.Some? then update.paidAmount.value else account.paidAmount,
      dueDate := if update.dueDate.Some? then update.dueDate.value else account.dueDate,
      status := if update.status.Some? then update.status.value else account.status,
      notes := if update.notes.Some? then update.notes.value else account.notes);
    a.(status := StatusFor(a.paidAmount, a.amount, a.dueDate, now))
  }

  /** An update changes only the fields it supplies, never the account's id, sale or customer,
      and always leaves the status the rule computes, so a supplied status is overridden; an
      empty update only refreshes the status. */
  lemma UpdateWritesOnlySuppliedFields(account: Account, update: AccountUpdate, now: int)
    ensures var r := Updated(account, update, now);
      && r.id == account.id && r.saleId == account.saleId && r.customerId == account.customerId
      && (update.amount.None? ==> r.amount == account.amount)
      && (update.amount.Some? ==> r.amount == update.amount.value)
      && (update.paidAmount.None? ==> r.paidAmount == account.paidAmount)
      && (update.paidAmount.Some? ==> r.paidAmount == update.paidAmount.value)
      && (update.dueDate.None? ==> r.dueDate == account.dueDate)
      && (update.dueDate.Some? ==> r.dueDate == update.dueDate.value)
      && (update.notes.None? ==> r.notes == account.notes)
      && (update.notes.Some? ==> r.notes == update.notes.value)
      && r.status == StatusFor(r.paidAmount, r.amount, r.dueDate, now)
    ensures update == AccountUpdate(None, None, None, None, None) ==>
      Updated(account, update, now) == account.(status := StatusFor(account.paidAmount, account.amount, account.dueDate, now))
  {
  }

  // ---------------------------------------------------------------------------
  // Who sees what

  /** An admin sees every account; anyone else only accounts of sales they sold. */
  predicate CanView(user: User, account: Account, sellers: map<int, int>) {
    user.role == Admin || (account.saleId in sellers && sellers[account.saleId] == user.id)
  }

  /** GET /accounts-receivable/{id}. */
  function GetAccountReceivable(accounts: seq<Account>, sellers: map<int, int>, accountId: int, user: User)
    : Result<Account, ReceivableError>
  {
    match FindFirst(accounts, HasId(accountId))
    case None => Err(AccountNotFound)
    case Some(k) => if CanView(user, accounts[k], sellers) then Ok(accounts[k]) else Err(NotAuthorized)
  }

  /** The lookup answers 404 exactly when no account has the id, 403 exactly when one does but
      the user may not see it, and otherwise that account. */
  lemma {:induction false} LookupRespectsVisibility(accounts: seq<Account>, sellers: map<int, int>, accountId: int, user: User)
    ensures GetAccountReceivable(accounts, sellers, accountId, user) == Err(AccountNotFound) <==>
      forall j :: 0 <= j < |accounts| ==> accounts[j].id != accountId
    ensures GetAccountReceivable(accounts, sellers, accountId, user).Ok? ==>
      var a := GetAccountReceivable(accounts, sellers, accountId, user).value;
      a in accounts && a.id == accountId && CanView(user, a, sellers)
    ensures user.role == Admin ==>
      (GetAccountReceivable(accounts, sellers, accountId, user).Ok? ||
       GetAccountReceivable(accounts, sellers, accountId, user) == Err(AccountNotFound))
  {
    match FindFirst(accounts, HasId(accountId))
    case None =>
    case Some(k) =>
      assert accounts[k].id == accountId;
  }

  /** `pattern` occurs in `text` at position `i`. */
  predicate OccursAt(text: string, pattern: string, i: nat) {
    i + |pattern| <= |text| && text[i..i + |pattern|] == pattern
  }

  predicate ContainsText(text: string, pattern: string) {
    exists i: nat :: i <= |text| && OccursAt(text, pattern, i)
  }

  /** The listing's row filter: a non-empty status must match, a non-empty name must occur in
      the customer's name, and a non-admin sees only their own sales' accounts. */
  predicate Listed(account: Account, status: Option<string>, customerName: Option<string>, user: User,
                   sellers: map<int, int>, customers: map<int, string>)
  {
    && (status.Some? && status.value != "" ==> account.status == status.value)
    && (customerName.Some? && customerName.value != "" ==>
          account.customerId in customers && ContainsText(customers[account.customerId], customerName.value))
    && CanView(user, account, sellers)
  }

  /** GET /accounts-receivable. */
  function GetAccountsReceivable(accounts: seq<Account>, sellers: map<int, int>, customers: map<int, string>,
                                 user: User, status: Option<string>, customerName: Option<string>, skip: nat, limit: nat)
    : seq<Account>
  {
    Page(Filter(accounts, (a: Account) => Listed(a, status, customerName, user, sellers, customers)), skip, limit)
  }

  /** Every listed account passes the filters and is visible to the user; an admin with no
      filters and a first page large enough gets the whole table. */
  lemma ListingRespectsVisibility(accounts: seq<Account>, sellers: map<int, int>, customers: map<int, string>,
                                  user: User, status: Option<string>, customerName: Option<string>, skip: nat, limit: nat)
    ensures var rows := GetAccountsReceivable(accounts, sellers, customers, user, status, customerName, skip, limit);
      forall i :: 0 <= i < |rows| ==>
        rows[i] in accounts && CanView(user, rows[i], sellers)
        && (status.Some? && status.value != "" ==> rows[i].status == status.value)
        && (customerName.Some? && customerName.value != "" ==>
              rows[i].customerId in customers && ContainsText(customers[rows[i].customerId], customerName.value))
    ensures skip == 0 && limit >= |accounts| ==>
      forall j :: 0 <= j < |accounts| && Listed(accounts[j], status, customerName, user, sellers, customers) ==>
        accounts[j] in GetAccountsReceivable(accounts, sellers, customers, user, status, customerName, skip, limit)
    ensures user.role == Admin && (status.None? || status == Some("")) && (customerName.None? || customerName == Some(""))
            && skip == 0 && limit >= |accounts| ==>
      GetAccountsReceivable(accounts, sellers, customers, user, status, customerName, skip, limit) == accounts
  {
    var p := (a: Account) => Listed(a, status, customerName, user, sellers, customers);
    FilterByIndex(accounts, p);
    if skip == 0 && limit >= |accounts| {
      assert GetAccountsReceivable(accounts, sellers, customers, user, status, customerName, skip, limit) == Filter(accounts, p);
    }
    if user.role == Admin && (status.None? || status == Some("")) && (customerName.None? || customerName == Some("")) {
      FilterKeepsAll(accounts, p);
    }
  }

  // ---------------------------------------------------------------------------
  // Overdue summary

  datatype OverdueEntry = OverdueEntry(
    id: int, customerName: Option<string>, amount: int, paidAmount: int, remaining: int, dueDate: int)

  datatype OverdueSummary = OverdueSummary(totalOverdueAmount: int, overdueCount: nat, accounts: seq<OverdueEntry>)

  function IsOverdueFor(user: User, sellers: map<int, int>): Account -> bool {
    (a: Account) => a.status == Overdue && CanView(user, a, sellers)
  }

  function Entry(a: Account, customers: map<int, string>): OverdueEntry {
    OverdueEntry(a.id, if a.customerId in customers then Some(customers[a.customerId]) else None,
                 a.amount, a.paidAmount, a.Remaining(), a.dueDate)
  }

  function SumRemaining(accounts: seq<Account>): int {
    if accounts == [] then 0 else accounts[0].Remaining() + SumRemaining(accounts[1..])
  }

  function SumEntries(entries: seq<OverdueEntry>): int {
    if entries == [] then 0 else entries[0].remaining + SumEntries(entries[1..])
  }

  /** GET /accounts-receivable/summary/overdue. */
  function GetOverdueSummary(accounts: seq<Account>, sellers: map<int, int>, customers: map<int, string>, user: User)
    : OverdueSummary
  {
    var rows := OverdueRows(accounts, user, sellers);
    OverdueSummary(SumRemaining(rows), |rows|, Entries(rows, customers))
  }

  function Entries(rows: seq<Account>, customers: map<int, string>): (r: seq<OverdueEntry>)
    ensures |r| == |rows|
    ensures forall i :: 0 <= i < |rows| ==> r[i] == Entry(rows[i], customers)
  {
    seq(|rows|, i requires 0 <= i < |rows| => Entry(rows[i], customers))
  }

  lemma {:induction false} SumEntriesOfRows(rows: seq<Account>, entries: seq<OverdueEntry>, customers: map<int, string>)
    requires |entries| == |rows|
    requires forall i :: 0 <= i < |rows| ==> entries[i] == Entry(rows[i], customers)
    ensures SumEntries(entries) == SumRemaining(rows)
  {
    if rows != [] {
      SumEntriesOfRows(rows[1..], entries[1..], customers);
    }
  }

  lemma {:induction false} SumRemainingNonNegative(rows: seq<Account>)
    requires forall i :: 0 <= i < |rows| ==> rows[i].paidAmount <= rows[i].amount
    ensures SumRemaining(rows) >= 0
  {
    if rows != [] {
      SumRemainingNonNegative(rows[1..]);
    }
  }

  /** The summary's count is the number of its entries, its total the sum of their remaining
      balances, and each entry's remaining balance is its amount less what was paid. */
  lemma OverdueSummaryTotals(accounts: seq<Account>, sellers: map<int, int>, customers: map<int, string>, user: User)
    ensures var s := GetOverdueSummary(accounts, sellers, customers, user);
      && s.overdueCount == |s.accounts|
      && s.totalOverdueAmount == SumEntries(s.accounts)
      && (forall i :: 0 <= i < |s.accounts| ==> s.accounts[i].remaining == s.accounts[i].amount - s.accounts[i].paidAmount)
  {
    var rows := OverdueRows(accounts, user, sellers);
    SumEntriesOfRows(rows, GetOverdueSummary(accounts, sellers, customers, user).accounts, customers);
  }

  /** The overdue accounts the user may see, in table order. */
  function OverdueRows(accounts: seq<Account>, user: User, sellers: map<int, int>): seq<Account> {
    Filter(accounts, IsOverdueFor(user, sellers))
  }

  /** Each entry of the summary is the entry of an overdue account of the table that the user
      may see, one entry per such account. */
  lemma OverdueEntriesAreVisibleOverdue(accounts: seq<Account>, sellers: map<int, int>, customers: map<int, string>, user: User)
    ensures var s := GetOverdueSummary(accounts, sellers, customers, user);
      var rows := OverdueRows(accounts, user, sellers);
      && |s.accounts| == |rows|
      && forall i :: 0 <= i < |rows| ==>
           && s.accounts[i] == Entry(rows[i], customers)
           && rows[i] in accounts && rows[i].status == Overdue && CanView(user, rows[i], sellers)
  {
    var rows := OverdueRows(accounts, user, sellers);
    forall i | 0 <= i < |rows|
      ensures rows[i].status == Overdue && CanView(user, rows[i], sellers)
    {
      assert IsOverdueFor(user, sellers)(rows[i]);
    }
  }

  /** Every overdue account the user may see has its entry in the summary. */
  lemma VisibleOverdueAreSummarised(accounts: seq<Account>, sellers: map<int, int>, customers: map<int, string>, user: User, j: nat)
    requires j < |accounts| && accounts[j].status == Overdue && CanView(user, accounts[j], sellers)
    ensures Entry(accounts[j], customers) in GetOverdueSummary(accounts, sellers, customers, user).accounts
  {
    var rows := OverdueRows(accounts, user, sellers);
    assert IsOverdueFor(user, sellers)(accounts[j]);
    assert accounts[j] in rows;
    var i :| 0 <= i < |rows| && rows[i] == accounts[j];
    assert Entries(rows, customers)[i] == Entry(accounts[j], customers);
  }

  /** While no account is overpaid, the overdue total is never negative. */
  lemma OverdueTotalNonNegative(accounts: seq<Account>, sellers: map<int, int>, customers: map<int, string>, user: User)
    requires forall j :: 0 <= j < |accounts| ==> accounts[j].paidAmount <= accounts[j].amount
    ensures GetOverdueSummary(accounts, sellers, customers, user).totalOverdueAmount >= 0
  {
    var rows := OverdueRows(accounts, user, sellers);
    forall i | 0 <= i < |rows|
      ensures rows[i].paidAmount <= rows[i].amount
    {
      assert rows[i] in accounts;
    }
    SumRemainingNonNegative(rows);
  }

  // ---------------------------------------------------------------------------
  // The tables the router works on

  class ReceivablesLedger {
    /** The seller of each recorded sale, by sale id. */
    var sellers: map<int, int>
    var accounts: seq<Account>
    var payments: seq<Payment>
    var nextAccountId: int
    var nextPaymentId: int

    /** Account ids are a key, no sale has two accounts, every account belongs to a recorded
        sale, and every payment to a recorded account. */
    ghost predicate Valid()
      reads this
    {
      LedgerValid(accounts, payments, sellers, nextAccountId)
    }

    constructor (sellers: map<int, int>)
      ensures Valid()
      ensures this.sellers == sellers && accounts == [] && payments == []
      ensures nextAccountId == 1 && nextPaymentId == 1
    {
      this.sellers := sellers;
      accounts := [];
      payments := [];
      nextAccountId := 1;
      nextPaymentId := 1;
    }

    /** POST /accounts-receivable: 404 for an unknown sale, 400 when the sale already has an
        account; otherwise a new pending account with nothing paid. */
    method CreateAccountReceivable(request: AccountRequest) returns (r: Result<Account, ReceivableError>)
      requires Valid()
      modifies this
      ensures Valid()
      ensures sellers == old(sellers) && payments == old(payments) && nextPaymentId == old(nextPaymentId)
      ensures request.saleId !in sellers ==> r == Err(SaleNotFound)
      ensures request.saleId in sellers && (exists i :: 0 <= i < |old(accounts)| && old(accounts)[i].saleId == request.saleId) ==>
        r == Err(SaleAlreadyHasAccount)
      ensures request.saleId in sellers && (forall i :: 0 <= i < |old(accounts)| ==> old(accounts)[i].saleId != request.saleId) ==>
        r.Ok?
      ensures r.Err? ==> accounts == old(accounts) && nextAccountId == old(nextAccountId)
      ensures r.Ok? ==>
        && r.value == Account(old(nextAccountId), request.saleId, request.customerId, request.amount, 0,
                              request.dueDate, Pending, request.notes)
        && accounts == old(accounts) + [r.value]
        && nextAccountId == old(nextAccountId) + 1
    {
      if request.saleId !in sellers {
        return Err(SaleNotFound);
      }
      if FindFirst(accounts, ForSale(request.saleId)).Some? {
        return Err(SaleAlreadyHasAccount);
      }
      var account := Account(nextAccountId, request.saleId, request.customerId, request.amount, 0,
                             request.dueDate, Pending, request.notes);
      var newAccounts := accounts + [account];
      forall p | 0 <= p < |payments|
        ensures HasAccount(newAccounts, payments[p].accountId)
      {
        assert HasAccount(accounts, payments[p].accountId);
        var j :| 0 <= j < |accounts| && accounts[j].id == payments[p].accountId;
        assert newAccounts[j] == accounts[j];
      }
      accounts := newAccounts;
      nextAccountId := nextAccountId + 1;
      r := Ok(account);
    }

    /** PUT /accounts-receivable/{accountId} by `user` at time `now`: 404 before 403, then the
        partial update with the status recomputed. */
    method UpdateAccountReceivable(accountId: int, update: AccountUpdate, user: User, now: int)
      returns (r: Result<Account, ReceivableError>)
      requires Valid()
      modifies this
      ensures Valid()
      ensures sellers == old(sellers) && payments == old(payments)
      ensures nextAccountId == old(nextAccountId) && nextPaymentId == old(nextPaymentId)
      ensures FindFirst(old(accounts), HasId(accountId)).None? ==> r == Err(AccountNotFound) && accounts == old(accounts)
      ensures FindFirst(old(accounts), HasId(accountId)).Some? && user.role != Admin ==>
        r == Err(NotAuthorized) && accounts == old(accounts)
      ensures FindFirst(old(accounts), HasId(accountId)).Some? && user.role == Admin ==>
        var k := FindFirst(old(accounts), HasId(accountId)).value;
        r == Ok(Updated(old(accounts)[k], update, now)) && accounts == old(accounts)[k := r.value]
    {
      var found := FindFirst(accounts, HasId(accountId));
      if found.None? {
        return Err(AccountNotFound);
      }
      if user.role != Admin {
        return Err(NotAuthorized);
      }
      var k := found.value;
      var account := Updated(accounts[k], update, now);
      var newAccounts := accounts[k := account];
      RewriteKeepsLedger(accounts, payments, sellers, nextAccountId, k, account, []);
      assert payments + [] == payments;
      accounts := newAccounts;
      r := Ok(account);
    }

    /** POST /accounts-receivable/{accountId}/payments by user `userId`: 404 for an unknown
        account, 400 for a payment above the remaining balance; otherwise the payment is recorded
        and the account is paid down by it. */
    method CreatePayment(accountId: int, request: PaymentRequest, userId: int)
      returns (r: Result<Payment, ReceivableError>)
      requires Valid()
      modifies this
      ensures Valid()
      ensures sellers == old(sellers) && nextAccountId == old(nextAccountId)
      ensures FindFirst(old(accounts), HasId(accountId)).None? ==> r == Err(AccountNotFound)
      ensures FindFirst(old(accounts), HasId(accountId)).Some? ==>
        var k := FindFirst(old(accounts), HasId(accountId)).value;
        && (AfterPayment(old(accounts)[k], request.amount).Err? ==> r == Err(ExceedsRemaining))
        && (AfterPayment(old(accounts)[k], request.amount).Ok? ==>
              && accounts == old(accounts)[k := AfterPayment(old(accounts)[k], request.amount).value]
              && r == Ok(Payment(old(nextPaymentId), accountId, request.amount, request.paymentMethod, request.notes, userId))
              && payments == old(payments) + [r.value]
              && nextPaymentId == old(nextPaymentId) + 1)
      ensures r.Err? ==>
        accounts == old(accounts) && payments == old(payments) && nextPaymentId == old(nextPaymentId)
    {
      var found := FindFirst(accounts, HasId(accountId));
      if found.None? {
        return Err(AccountNotFound);
      }
      var k := found.value;
      var account := accounts[k];
      var remaining := account.amount - account.paidAmount;
      if request.amount > remaining {
        return Err(ExceedsRemaining);
      }
      var payment := Payment(nextPaymentId, accountId, request.amount, request.paymentMethod, request.notes, userId);
      var paid := account.paidAmount + request.amount;
      var status := if paid >= account.amount then Paid else Partial;
      var newAccounts := accounts[k := account.(paidAmount := paid, status := status)];
      assert newAccounts[k] == AfterPayment(account, request.amount).value;
      RewriteKeepsLedger(accounts, payments, sellers, nextAccountId, k, newAccounts[k], [payment]);
      var newPayments := payments + [payment];
      accounts := newAccounts;
      payments := newPayments;
      nextPaymentId := nextPaymentId + 1;
      r := Ok(payment);
    }
  }

  predicate HasAccount(accounts: seq<Account>, id: int) {
    exists j :: 0 <= j < |accounts| && accounts[j].id == id
  }

  ghost predicate LedgerValid(accounts: seq<Account>, payments: seq<Payment>, sellers: map<int, int>, nextAccountId: int) {
    && (forall i, j :: 0 <= i < j < |accounts| ==> accounts[i].id != accounts[j].id)
    && (forall i :: 0 <= i < |accounts| ==> accounts[i].id < nextAccountId)
    && OneAccountPerSale(accounts)
    && (forall i :: 0 <= i < |accounts| ==> accounts[i].saleId in sellers)
    && (forall p :: 0 <= p < |payments| ==> HasAccount(accounts, payments[p].accountId))
  }

  /** Rewriting one account with its id and sale kept, and recording payments to accounts
      that exist, keeps the ledger invariant. */
  lemma RewriteKeepsLedger(accounts: seq<Account>, payments: seq<Payment>, sellers: map<int, int>,
                           nextAccountId: int, k: nat, account: Account, added: seq<Payment>)
    requires LedgerValid(accounts, payments, sellers, nextAccountId)
    requires k < |accounts| && account.id == accounts[k].id && account.saleId == accounts[k].saleId
    requires forall p :: 0 <= p < |added| ==> added[p].accountId == account.id
    ensures LedgerValid(accounts[k := account], payments + added, sellers, nextAccountId)
  {
    UpdatedKeepsKeys(accounts, k, account, sellers, nextAccountId);
    UpdatedKeepsPayments(accounts, k, account, payments);
    var all := payments + added;
    forall p | 0 <= p < |all|
      ensures HasAccount(accounts[k := account], all[p].accountId)
    {
      if p >= |payments| {
        assert accounts[k := account][k].id == all[p].accountId;
      }
    }
  }

  /** Rewriting one account with its id kept leaves every payment attached to an account. */
  lemma UpdatedKeepsPayments(accounts: seq<Account>, k: nat, account: Account, payments: seq<Payment>)
    requires k < |accounts| && account.id == accounts[k].id
    requires forall p :: 0 <= p < |payments| ==> HasAccount(accounts, payments[p].accountId)
    ensures forall p :: 0 <= p < |payments| ==> HasAccount(accounts[k := account], payments[p].accountId)
  {
    forall p | 0 <= p < |payments|
      ensures HasAccount(accounts[k := account], payments[p].accountId)
    {
      var j :| 0 <= j < |accounts| && accounts[j].id == payments[p].accountId;
      assert accounts[k := account][j].id == accounts[j].id;
    }
  }

  predicate OneAccountPerSale(accounts: seq<Account>) {
    forall i, j :: 0 <= i < j < |accounts| ==> accounts[i].saleId != accounts[j].saleId
  }

  /** Rewriting one account with its id and sale kept keeps account ids distinct and below the
      next id, keeps one account per sale, and keeps every account on a recorded sale. */
  lemma UpdatedKeepsKeys(accounts: seq<Account>, k: nat, account: Account, sellers: map<int, int>, nextAccountId: int)
    requires k < |accounts|
    requires account.id == accounts[k].id && account.saleId == accounts[k].saleId
    requires forall i, j :: 0 <= i < j < |accounts| ==> accounts[i].id != accounts[j].id
    requires forall i :: 0 <= i < |accounts| ==> accounts[i].id < nextAccountId
    requires OneAccountPerSale(accounts)
    requires forall i :: 0 <= i < |accounts| ==> accounts[i].saleId in sellers
    ensures var updated := accounts[k := account];
      && (forall i, j :: 0 <= i < j < |updated| ==> updated[i].id != updated[j].id)
      && (forall i :: 0 <= i < |updated| ==> updated[i].id < nextAccountId)
      && OneAccountPerSale(updated)
      && (forall i :: 0 <= i < |updated| ==> updated[i].saleId in sellers)
  {
    var updated := accounts[k := account];
    assert forall i :: 0 <= i < |updated| ==> updated[i].id == accounts[i].id && updated[i].saleId == accounts[i].saleId;
  }
}
