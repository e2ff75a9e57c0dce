/** Reconciliation: replay the confirmed entries of the ledger and compare with the balance view. */
module Reconciliation {
  import opened Sums
  import opened Ledger

  predicate IsConfirmed(journals: seq<Journal>, e: Entry) {
    0 <= e.journal < |journals| && journals[e.journal].status == JournalConfirmed
  }

  function ConfirmedOn(journals: seq<Journal>, a: Account): Entry -> real {
    (e: Entry) => if IsConfirmed(journals, e) && e.account == a then e.debit - e.credit else 0.0
  }

  function UnconfirmedOn(journals: seq<Journal>, a: Account): Entry -> real {
    (e: Entry) => if !IsConfirmed(journals, e) && e.account == a then e.debit - e.credit else 0.0
  }

  function ConfirmedDebit(journals: seq<Journal>): Entry -> real {
    (e: Entry) => if IsConfirmed(journals, e) then e.debit else 0.0
  }

  function ConfirmedCredit(journals: seq<Journal>): Entry -> real {
    (e: Entry) => if IsConfirmed(journals, e) then e.credit else 0.0
  }

  /** The balance recomputed from scratch: confirmed entries only. */
  function Replay(b: Books, a: Account): real {
    Sum(b.entries, ConfirmedOn(b.journals, a))
  }

  function UnconfirmedNet(b: Books, a: Account): real {
    Sum(b.entries, UnconfirmedOn(b.journals, a))
  }

  /** The accounts of the GROUP BY: those with at least one confirmed entry. */
  function ReplayedAccounts(journals: seq<Journal>, entries: seq<Entry>): (accounts: seq<Account>)
    ensures Distinct(accounts)
    ensures forall a :: a in accounts <==>
              exists i :: 0 <= i < |entries| && IsConfirmed(journals, entries[i]) && entries[i].account == a
  {
    if entries == [] then []
    else
      var es, e := entries[..|entries| - 1], entries[|entries| - 1];
      var accounts := ReplayedAccounts(journals, es);
      assert forall i | 0 <= i < |entries| - 1 :: entries[i] == es[i];
      if IsConfirmed(journals, e) && e.account !in accounts then accounts + [e.account] else accounts
  }

  /** check_global_balance. */
  predicate GlobalBalanceOk(b: Books) {
    Sum(b.entries, ConfirmedDebit(b.journals)) == Sum(b.entries, ConfirmedCredit(b.journals))
  }

  /** check_journal_integrity: no confirmed journal is unbalanced. */
  predicate JournalIntegrityOk(b: Books) {
    forall j :: 0 <= j < |b.journals| && b.journals[j].status == JournalConfirmed ==>
      TotalDebit(b, j) == TotalCredit(b, j)
  }

  datatype AccountResult = AccountResult(account: Account, expected: real, actual: real, difference: real, ok: bool)

  datatype Report = Report(pass: bool, globalBalanceOk: bool, journalIntegrityOk: bool, accountsChecked: nat,
                           mismatches: nat, details: seq<AccountResult>)

  function ResultFor(b: Books, a: Account): AccountResult {
    AccountResult(a, Replay(b, a), Balance(b, a), Replay(b, a) - Balance(b, a), Replay(b, a) == Balance(b, a))
  }

  /** How many of the checked accounts differ. */
  function Mismatches(b: Books, accounts: seq<Account>): nat {
    if accounts == [] then 0
    else
      Mismatches(b, accounts[..|accounts| - 1]) +
      if Replay(b, accounts[|accounts| - 1]) == Balance(b, accounts[|accounts| - 1]) then 0 else 1
  }

  /** run_reconciliation. The view has a row for every account of the accounts table. */
  method RunReconciliation(b: Books) returns (report: Report)
    requires forall e | e in b.entries :: e.account in b.accounts
    ensures var checked := ReplayedAccounts(b.journals, b.entries);
            && report.accountsChecked == |checked| == |report.details|
            && (forall i | 0 <= i < |checked| :: report.details[i] == ResultFor(b, checked[i]))
            && report.mismatches == Mismatches(b, checked)
            && report.globalBalanceOk == GlobalBalanceOk(b)
            && report.journalIntegrityOk == JournalIntegrityOk(b)
            && report.pass == (report.mismatches == 0 && report.globalBalanceOk && report.journalIntegrityOk)
  {
    hide Replay, Balance, ReplayedAccounts;
    var globalOk := GlobalBalanceOk(b);
    var journalOk := JournalIntegrityOk(b);
    var rows := ReplayedAccounts(b.journals, b.entries);
    var actualBalances := ViewAsMap(b);
    var details: seq<AccountResult> := [];
    var mismatches := 0;
    for i := 0 to |rows|
      invariant |details| == i
      invariant forall j | 0 <= j < i :: details[j] == ResultFor(b, rows[j])
      invariant mismatches == Mismatches(b, rows[..i])
    {
      var account := rows[i];
      ReplayedExist(b, account);
      var expected := Replay(b, account);
      var actual := if account in actualBalances then actualBalances[account] else 0.0;
      var diff := expected - actual;
      if diff != 0.0 {
        mismatches := mismatches + 1;
      }
      details := details + [AccountResult(account, expected, actual, diff, diff == 0.0)];
      assert rows[..i + 1][..i] == rows[..i];
    }
    assert rows[..|rows|] == rows;
    report := Report(mismatches == 0 && globalOk && journalOk, globalOk, journalOk, |rows|, mismatches, details);
  }

  /** The dictionary that run_reconciliation fills from the rows of the view. */
  method ViewAsMap(b: Books) returns (balances: map<Account, real>)
    ensures balances.Keys == set a | a in b.accounts
    ensures forall a | a in balances :: balances[a] == Balance(b, a)
  {
    hide Balance;
    balances := map[];
    for i := 0 to |b.accounts|
      invariant balances.Keys == set a | a in b.accounts[..i]
      invariant forall a | a in balances :: balances[a] == Balance(b, a)
    {
      balances := balances[b.accounts[i] := Balance(b, b.accounts[i])];
    }
    assert b.accounts[..|b.accounts|] == b.accounts;
  }

  lemma ReplayedExist(b: Books, a: Account)
    requires forall e | e in b.entries :: e.account in b.accounts
    requires a in ReplayedAccounts(b.journals, b.entries)
    ensures a in b.accounts
  {
    var i :| 0 <= i < |b.entries| && IsConfirmed(b.journals, b.entries[i]) && b.entries[i].account == a;
    assert b.entries[i] in b.entries;
  }

  // ---------------------------------------------------------------- theorems

  /** The reported difference is exactly minus the net of the account's unconfirmed entries: the view
      counts them and the replay does not. */
  lemma DifferenceIsUnconfirmed(b: Books, a: Account)
    ensures Replay(b, a) - Balance(b, a) == -UnconfirmedNet(b, a)
  {
    SumAdd(b.entries, ConfirmedOn(b.journals, a), UnconfirmedOn(b.journals, a), OnAccount(a));
  }

  /** What a row of the report says, entry by entry: `expected` counts the entries of confirmed journals on the
      account, `actual` all its entries, and the row is fine exactly when those of other journals cancel. */
  lemma ResultExactly(b: Books, a: Account)
    ensures var r := ResultFor(b, a);
            && r.account == a
            && r.expected == Sum(b.entries, (e: Entry) =>
                 if e.account == a && 0 <= e.journal < |b.journals| && b.journals[e.journal].status == JournalConfirmed
                 then e.debit - e.credit else 0.0)
            && r.actual == Sum(b.entries, (e: Entry) => if e.account == a then e.debit - e.credit else 0.0)
            && r.difference == r.expected - r.actual == -UnconfirmedNet(b, a)
            && (r.ok <==> UnconfirmedNet(b, a) == 0.0)
  {
    DifferenceIsUnconfirmed(b, a);
    SumPointwise(b.entries, ConfirmedOn(b.journals, a), (e: Entry) =>
      if e.account == a && 0 <= e.journal < |b.journals| && b.journals[e.journal].status == JournalConfirmed
      then e.debit - e.credit else 0.0);
    SumPointwise(b.entries, OnAccount(a), (e: Entry) => if e.account == a then e.debit - e.credit else 0.0);
  }

  /** Which accounts the report covers, and what its verdict means: each account with an entry of a confirmed
      journal once, and a pass exactly when every row is fine and every confirmed journal balances. */
  lemma ReportExactly(b: Books)
    requires forall e | e in b.entries :: 0 <= e.journal < |b.journals|
    ensures var checked := ReplayedAccounts(b.journals, b.entries);
            && Distinct(checked)
            && (forall a :: a in checked <==>
                  exists e :: e in b.entries && e.account == a && b.journals[e.journal].status == JournalConfirmed)
            && (Mismatches(b, checked) == 0 <==> forall a | a in checked :: ResultFor(b, a).ok)
            && (Passes(b) <==> JournalIntegrityOk(b) && forall a | a in checked :: ResultFor(b, a).ok)
  {
    hide Mismatches, JournalIntegrityOk, GlobalBalanceOk, ResultFor, UnconfirmedNet, Passes;
    var checked := ReplayedAccounts(b.journals, b.entries);
    forall a ensures ResultFor(b, a).ok <==> UnconfirmedNet(b, a) == 0.0 {
      ResultExactly(b, a);
    }
    NoMismatches(b, checked);
    PassExactly(b);
    forall a
      ensures a in checked <==>
              exists e :: e in b.entries && e.account == a && b.journals[e.journal].status == JournalConfirmed
    {
      if e :| e in b.entries && e.account == a && b.journals[e.journal].status == JournalConfirmed {
        var i :| 0 <= i < |b.entries| && b.entries[i] == e;
        assert IsConfirmed(b.journals, b.entries[i]);
      }
      if a in checked {
        var i :| 0 <= i < |b.entries| && IsConfirmed(b.journals, b.entries[i]) && b.entries[i].account == a;
        assert b.entries[i] in b.entries;
      }
    }
  }

  function ConfirmedNet(journals: seq<Journal>): Entry -> real {
    (e: Entry) => if IsConfirmed(journals, e) then e.debit - e.credit else 0.0
  }

  /** Journal by journal balance implies global balance, by regrouping the entries. */
  lemma IntegrityImpliesGlobal(b: Books)
    requires forall e | e in b.entries :: 0 <= e.journal < |b.journals|
    requires JournalIntegrityOk(b)
    ensures GlobalBalanceOk(b)
  {
    var net := ConfirmedNet(b.journals);
    forall j | 0 <= j < |b.journals| ensures Sum(b.entries, Bucket(net, JournalOf(), j)) == 0.0 {
      if b.journals[j].status == JournalConfirmed {
        SumAdd(b.entries, Bucket(net, JournalOf(), j), CreditIn(j), DebitIn(j));
        assert TotalDebit(b, j) == TotalCredit(b, j);
      } else {
        SumZero(b.entries, Bucket(net, JournalOf(), j));
      }
    }
    GroupsCancel(b.entries, net, JournalOf(), |b.journals|);
    SumAdd(b.entries, net, ConfirmedCredit(b.journals), ConfirmedDebit(b.journals));
  }

  lemma {:induction false} NoMismatches(b: Books, accounts: seq<Account>)
    ensures Mismatches(b, accounts) == 0 <==> forall a | a in accounts :: UnconfirmedNet(b, a) == 0.0
  {
    hide Replay, Balance, UnconfirmedNet;
    if accounts != [] {
      var as0, x := accounts[..|accounts| - 1], accounts[|accounts| - 1];
      NoMismatches(b, as0);
      DifferenceIsUnconfirmed(b, x);
      assert forall a | a in accounts :: a in as0 || a == x;
      assert x in accounts;
    }
  }

  ghost predicate Passes(b: Books) {
    Mismatches(b, ReplayedAccounts(b.journals, b.entries)) == 0 && GlobalBalanceOk(b) && JournalIntegrityOk(b)
  }

  /** What a pass means, exactly: every confirmed journal balances, and the unconfirmed entries cancel
      on every account that has a confirmed entry. */
  lemma PassExactly(b: Books)
    requires forall e | e in b.entries :: 0 <= e.journal < |b.journals|
    ensures Passes(b) <==>
      && JournalIntegrityOk(b)
      && forall a | a in ReplayedAccounts(b.journals, b.entries) :: UnconfirmedNet(b, a) == 0.0
  {
    hide Mismatches, JournalIntegrityOk, GlobalBalanceOk;
    NoMismatches(b, ReplayedAccounts(b.journals, b.entries));
    if JournalIntegrityOk(b) {
      IntegrityImpliesGlobal(b);
    }
  }

  /** On a ledger whose journals are all confirmed and balanced, reconciliation passes and the grouped
      view agrees with the replay on every account. */
  lemma SoundLedgerReconciles(b: Books)
    requires Sound(b)
    ensures Passes(b)
    ensures forall a :: Balance(b, a) == Replay(b, a)
  {
    forall a ensures UnconfirmedNet(b, a) == 0.0 && Balance(b, a) == Replay(b, a) {
      forall i | 0 <= i < |b.entries| ensures UnconfirmedOn(b.journals, a)(b.entries[i]) == 0.0 {
        assert b.entries[i] in b.entries;
        assert b.journals[b.entries[i].journal] in b.journals;
      }
      SumZero(b.entries, UnconfirmedOn(b.journals, a));
      DifferenceIsUnconfirmed(b, a);
    }
    PassExactly(b);
  }

  /** A pass does not mean that view and replay agree: an account with pending entries only is never
      checked, and the view shows its pending balance. */
  lemma PendingEntriesUnseen(x: Account, y: Account, amount: real)
    requires x != y && amount > 0.0
    ensures var b := Books([x, y], [Journal(FundContribution, OfSeed, JournalPending)],
                           [Entry(0, x, amount, 0.0), Entry(0, y, 0.0, amount)]);
            Passes(b) && Balance(b, x) == amount && Replay(b, x) == 0.0
  {
    var d, c := Entry(0, x, amount, 0.0), Entry(0, y, 0.0, amount);
    var b := Books([x, y], [Journal(FundContribution, OfSeed, JournalPending)], [d, c]);
    assert b.entries == [d] + [c];
    SumConcat([d], [c], OnAccount(x));
    SingleSum(d, OnAccount(x));
    SingleSum(c, OnAccount(x));
    SumZero(b.entries, ConfirmedOn(b.journals, x));
    PassExactly(b);
  }
}
