/** The append-only double-entry ledger: accounts, journals and journal entries as flat tables,
    the balance view over them, and the trigger that checks journals at commit. */
module Ledger {
  import opened Sums

  type MemberId = nat

  datatype AccountKind = MarginIm | MarginVm | DefaultFund | Collateral | Settlement | CcpEquity

  datatype Pool = Available | Reserved | Locked

  /** The accounts table is unique on member, type, (single) currency and pool. */
  datatype Account = Account(member: MemberId, kind: AccountKind, pool: Pool)

  datatype JournalKind =
    | CollateralDeposit
    | CollateralWithdrawal
    | MarginLock
    | VariationMargin
    | SettlementTransfer
    | WaterfallStep
    | FundContribution

  datatype Reference =
    | OfMember(member: MemberId)
    | OfLeg(leg: nat)
    | OfInstrument(instrument: nat)
    | OfInstruction(instruction: nat)
    | OfDefault(event: nat)
    | OfSeed

  datatype JournalStatus = JournalPending | JournalConfirmed | JournalRejected

  /** The id of a journal is its row number. */
  datatype Journal = Journal(kind: JournalKind, reference: Reference, status: JournalStatus)

  datatype Entry = Entry(journal: int, account: Account, debit: real, credit: real)

  /** An entry that is about to be inserted under some journal. */
  datatype Line = Line(account: Account, debit: real, credit: real)

  datatype Books = Books(accounts: seq<Account>, journals: seq<Journal>, entries: seq<Entry>)

  function Debit(account: Account, amount: real): Line {
    Line(account, amount, 0.0)
  }

  function Credit(account: Account, amount: real): Line {
    Line(account, 0.0, amount)
  }

  // ---------------------------------------------------------------- posting

  function Rows(journal: int, lines: seq<Line>): seq<Entry> {
    seq(|lines|, i requires 0 <= i < |lines| => Entry(journal, lines[i].account, lines[i].debit, lines[i].credit))
  }

  /** One confirmed journal together with its entries. */
  function Post(b: Books, kind: JournalKind, reference: Reference, lines: seq<Line>): Books {
    b.(journals := b.journals + [Journal(kind, reference, JournalConfirmed)],
       entries := b.entries + Rows(|b.journals|, lines))
  }

  /** The two CHECK constraints of the entries table: exactly one side, and it is positive. */
  predicate OneSided(debit: real, credit: real) {
    (debit > 0.0 && credit == 0.0) || (debit == 0.0 && credit > 0.0)
  }

  ghost predicate Insertable(b: Books, lines: seq<Line>) {
    forall l | l in lines :: l.account in b.accounts && OneSided(l.debit, l.credit)
  }

  // ---------------------------------------------------------------- aggregates

  function EntryNet(): Entry -> real {
    (e: Entry) => e.debit - e.credit
  }

  function OnAccount(a: Account): Entry -> real {
    (e: Entry) => if e.account == a then e.debit - e.credit else 0.0
  }

  function DebitIn(j: int): Entry -> real {
    (e: Entry) => if e.journal == j then e.debit else 0.0
  }

  function CreditIn(j: int): Entry -> real {
    (e: Entry) => if e.journal == j then e.credit else 0.0
  }

  function LineNet(a: Account): Line -> real {
    (l: Line) => if l.account == a then l.debit - l.credit else 0.0
  }

  function LineDebit(): Line -> real {
    (l: Line) => l.debit
  }

  function LineCredit(): Line -> real {
    (l: Line) => l.credit
  }

  /** The account_balances view. Its LEFT JOIN on confirmed journals keeps every entry of the
      account whatever the status of the entry's journal, so the status plays no part. */
  function Balance(b: Books, a: Account): real {
    Sum(b.entries, OnAccount(a))
  }

  function BalanceOf(b: Books): Account -> real {
    (a: Account) => Balance(b, a)
  }

  function TotalDebit(b: Books, j: int): real {
    Sum(b.entries, DebitIn(j))
  }

  function TotalCredit(b: Books, j: int): real {
    Sum(b.entries, CreditIn(j))
  }

  // ---------------------------------------------------------------- invariants

  /** Foreign keys, uniqueness and CHECK constraints of the three tables. */
  ghost predicate WellFormed(b: Books) {
    && Distinct(b.accounts)
    && forall e | e in b.entries ::
         0 <= e.journal < |b.journals| && e.account in b.accounts && OneSided(e.debit, e.credit)
  }

  ghost predicate Balanced(b: Books) {
    forall j :: 0 <= j < |b.journals| ==> TotalDebit(b, j) == TotalCredit(b, j)
  }

  ghost predicate AllConfirmed(b: Books) {
    forall j | j in b.journals :: j.status == JournalConfirmed
  }

  ghost predicate Sound(b: Books) {
    WellFormed(b) && Balanced(b) && AllConfirmed(b)
  }

  /** The deferred constraint trigger: at commit, every entry inserted since row `since` must
      belong to a journal whose debits equal its credits. */
  predicate TriggerAccepts(b: Books, since: nat) {
    forall i :: since <= i < |b.entries| ==>
      TotalDebit(b, b.entries[i].journal) == TotalCredit(b, b.entries[i].journal)
  }

  /** What a transaction that started at `old` leaves behind when it tries to commit `new`. */
  function Commit(before: Books, after: Books): Books {
    if TriggerAccepts(after, |before.entries|) then after else before
  }

  /** `after` was reached from `before` by inserting rows under new journals only. */
  ghost predicate Extends(before: Books, after: Books) {
    && after.accounts == before.accounts
    && before.journals <= after.journals
    && before.entries <= after.entries
    && forall i | |before.entries| <= i < |after.entries| :: after.entries[i].journal >= |before.journals|
  }

  /** The tables only grow: no row is changed or removed. */
  ghost predicate Appends(before: Books, after: Books) {
    after.accounts == before.accounts && before.journals <= after.journals && before.entries <= after.entries
  }

  // ---------------------------------------------------------------- lemmas

  lemma {:induction false} RowsSum(j: int, lines: seq<Line>, f: Entry -> real, g: Line -> real)
    requires forall i | 0 <= i < |lines| ::
               f(Entry(j, lines[i].account, lines[i].debit, lines[i].credit)) == g(lines[i])
    ensures Sum(Rows(j, lines), f) == Sum(lines, g)
  {
    if lines != [] {
      RowsSum(j, lines[..|lines| - 1], f, g);
      assert Rows(j, lines)[..|lines| - 1] == Rows(j, lines[..|lines| - 1]);
    }
  }

  /** Posting moves each balance by the net of the posted lines on that account. */
  lemma PostMoves(b: Books, kind: JournalKind, reference: Reference, lines: seq<Line>, a: Account)
    ensures Balance(Post(b, kind, reference, lines), a) == Balance(b, a) + Sum(lines, LineNet(a))
  {
    SumConcat(b.entries, Rows(|b.journals|, lines), OnAccount(a));
    RowsSum(|b.journals|, lines, OnAccount(a), LineNet(a));
  }

  /** The net of a two-line transfer. */
  lemma TransferNet(debited: Account, credited: Account, amount: real, a: Account)
    ensures Sum([Debit(debited, amount), Credit(credited, amount)], LineNet(a))
            == (if a == debited then amount else 0.0) - (if a == credited then amount else 0.0)
    ensures Sum([Credit(credited, amount), Debit(debited, amount)], LineNet(a))
            == (if a == debited then amount else 0.0) - (if a == credited then amount else 0.0)
  {
    assert [Debit(debited, amount), Credit(credited, amount)] == [Debit(debited, amount)] + [Credit(credited, amount)];
    assert [Credit(credited, amount), Debit(debited, amount)] == [Credit(credited, amount)] + [Debit(debited, amount)];
    SumConcat([Debit(debited, amount)], [Credit(credited, amount)], LineNet(a));
    SumConcat([Credit(credited, amount)], [Debit(debited, amount)], LineNet(a));
    SingleSum(Debit(debited, amount), LineNet(a));
    SingleSum(Credit(credited, amount), LineNet(a));
  }

  lemma SingleSum<T>(x: T, f: T -> real)
    ensures Sum([x], f) == f(x)
  {
    assert [x] == [] + [x];
    SumSnoc([], x, f);
  }

  lemma OldJournalTotals(before: Books, after: Books, j: int)
    requires Extends(before, after)
    requires j < |before.journals|
    ensures TotalDebit(after, j) == TotalDebit(before, j)
    ensures TotalCredit(after, j) == TotalCredit(before, j)
  {
    var added := after.entries[|before.entries|..];
    assert after.entries == before.entries + added;
    SumConcat(before.entries, added, DebitIn(j));
    SumConcat(before.entries, added, CreditIn(j));
    forall i | 0 <= i < |added| ensures added[i].journal >= |before.journals| {
      assert added[i] == after.entries[|before.entries| + i];
    }
    SumZero(added, DebitIn(j));
    SumZero(added, CreditIn(j));
  }

  /** The trigger looks only at the journals of the inserted entries, and that is enough: when the
      committed books were balanced, it accepts exactly the transactions that keep them so. */
  lemma TriggerExact(before: Books, after: Books)
    requires WellFormed(before) && Balanced(before) && Extends(before, after)
    requires forall e | e in after.entries :: 0 <= e.journal < |after.journals|
    ensures TriggerAccepts(after, |before.entries|) <==> Balanced(after)
  {
    if TriggerAccepts(after, |before.entries|) {
      forall j | 0 <= j < |after.journals| ensures TotalDebit(after, j) == TotalCredit(after, j) {
        if j < |before.journals| {
          OldJournalTotals(before, after, j);
        } else if i :| |before.entries| <= i < |after.entries| && after.entries[i].journal == j {
        } else {
          forall i | 0 <= i < |after.entries| ensures after.entries[i].journal != j {
            if i < |before.entries| {
              assert after.entries[i] == before.entries[i];
            }
          }
          SumZero(after.entries, DebitIn(j));
          SumZero(after.entries, CreditIn(j));
        }
      }
    }
    if Balanced(after) {
      forall i | |before.entries| <= i < |after.entries|
        ensures TotalDebit(after, after.entries[i].journal) == TotalCredit(after, after.entries[i].journal)
      {
        assert after.entries[i] in after.entries;
      }
    }
  }

  lemma PostExtends(b: Books, kind: JournalKind, reference: Reference, lines: seq<Line>)
    ensures Extends(b, Post(b, kind, reference, lines))
  {
  }

  lemma ExtendsReflexive(b: Books)
    ensures Extends(b, b)
  {
  }

  lemma ExtendsTransitive(b0: Books, b1: Books, b2: Books)
    requires Extends(b0, b1) && Extends(b1, b2)
    ensures Extends(b0, b2)
  {
    forall i | |b0.entries| <= i < |b2.entries| ensures b2.entries[i].journal >= |b0.journals| {
      if i < |b1.entries| {
        assert b2.entries[i] == b1.entries[i];
      }
    }
  }

  lemma PostTotals(b: Books, kind: JournalKind, reference: Reference, lines: seq<Line>)
    requires WellFormed(b)
    ensures TotalDebit(Post(b, kind, reference, lines), |b.journals|) == Sum(lines, LineDebit())
    ensures TotalCredit(Post(b, kind, reference, lines), |b.journals|) == Sum(lines, LineCredit())
  {
    var j := |b.journals|;
    SumConcat(b.entries, Rows(j, lines), DebitIn(j));
    SumConcat(b.entries, Rows(j, lines), CreditIn(j));
    RowsSum(j, lines, DebitIn(j), LineDebit());
    RowsSum(j, lines, CreditIn(j), LineCredit());
    SumZero(b.entries, DebitIn(j));
    SumZero(b.entries, CreditIn(j));
  }

  /** A journal of insertable lines keeps the constraints; it keeps balanced books balanced exactly
      when its own lines balance. */
  lemma PostBalances(b: Books, kind: JournalKind, reference: Reference, lines: seq<Line>)
    requires WellFormed(b) && Insertable(b, lines)
    ensures WellFormed(Post(b, kind, reference, lines))
    ensures AllConfirmed(b) ==> AllConfirmed(Post(b, kind, reference, lines))
    ensures Balanced(Post(b, kind, reference, lines))
            <==> Balanced(b) && Sum(lines, LineDebit()) == Sum(lines, LineCredit())
  {
    var after := Post(b, kind, reference, lines);
    PostExtends(b, kind, reference, lines);
    PostTotals(b, kind, reference, lines);
    forall e | e in after.entries
      ensures 0 <= e.journal < |after.journals| && e.account in after.accounts && OneSided(e.debit, e.credit)
    {
      if e !in b.entries {
        var i :| 0 <= i < |lines| && e == Rows(|b.journals|, lines)[i];
        assert lines[i] in lines;
      }
    }
    forall j | 0 <= j < |b.journals|
      ensures TotalDebit(after, j) == TotalDebit(b, j) && TotalCredit(after, j) == TotalCredit(b, j)
    {
      OldJournalTotals(b, after, j);
    }
    if Balanced(after) {
      assert TotalDebit(after, |b.journals|) == TotalCredit(after, |b.journals|);
      forall j | 0 <= j < |b.journals| ensures TotalDebit(b, j) == TotalCredit(b, j) {
        assert TotalDebit(after, j) == TotalCredit(after, j);
      }
    }
  }

  /** A transfer between two existing accounts keeps the books sound. */
  lemma TransferKeepsSound(b: Books, kind: JournalKind, reference: Reference,
                           debited: Account, credited: Account, amount: real)
    requires Sound(b) && amount > 0.0
    requires debited in b.accounts && credited in b.accounts
    ensures Sound(Post(b, kind, reference, [Debit(debited, amount), Credit(credited, amount)]))
    ensures Sound(Post(b, kind, reference, [Credit(credited, amount), Debit(debited, amount)]))
  {
    var l, r := Debit(debited, amount), Credit(credited, amount);
    assert [l, r] == [l] + [r] && [r, l] == [r] + [l];
    SumConcat([l], [r], LineDebit());
    SumConcat([l], [r], LineCredit());
    SumConcat([r], [l], LineDebit());
    SumConcat([r], [l], LineCredit());
    SingleSum(l, LineDebit());
    SingleSum(r, LineDebit());
    SingleSum(l, LineCredit());
    SingleSum(r, LineCredit());
    PostBalances(b, kind, reference, [l, r]);
    PostBalances(b, kind, reference, [r, l]);
  }

  /** Summing the view over all accounts is the same as summing all entries. */
  lemma {:induction false} ViewPartitionsEntries(accounts: seq<Account>, entries: seq<Entry>)
    requires Distinct(accounts)
    requires forall e | e in entries :: e.account in accounts
    ensures Sum(accounts, BalanceOf(Books(accounts, [], entries))) == Sum(entries, EntryNet())
  {
    if entries == [] {
      SumZero(accounts, BalanceOf(Books(accounts, [], [])));
    } else {
      var es, e := entries[..|entries| - 1], entries[|entries| - 1];
      ViewPartitionsEntries(accounts, es);
      var share := (a: Account) => OnAccount(a)(e);
      forall i | 0 <= i < |accounts|
        ensures BalanceOf(Books(accounts, [], entries))(accounts[i])
                == BalanceOf(Books(accounts, [], es))(accounts[i]) + share(accounts[i])
      {
        SumSnoc(es, e, OnAccount(accounts[i]));
        assert es + [e] == entries;
      }
      SumAdd(accounts, BalanceOf(Books(accounts, [], es)), share, BalanceOf(Books(accounts, [], entries)));
      SumSelect(accounts, e.account, share);
    }
  }

  function JournalOf(): Entry -> int {
    (e: Entry) => e.journal
  }

  /** In balanced books all balances sum to zero. */
  lemma BalancesSumToZero(b: Books)
    requires WellFormed(b) && Balanced(b)
    ensures Sum(b.accounts, BalanceOf(b)) == 0.0
  {
    forall j | 0 <= j < |b.journals| ensures Sum(b.entries, Bucket(EntryNet(), JournalOf(), j)) == 0.0 {
      SumAdd(b.entries, Bucket(EntryNet(), JournalOf(), j), CreditIn(j), DebitIn(j));
      assert TotalDebit(b, j) == TotalCredit(b, j);
    }
    GroupsCancel(b.entries, EntryNet(), JournalOf(), |b.journals|);
    ViewPartitionsEntries(b.accounts, b.entries);
    SumPointwise(b.accounts, BalanceOf(b), BalanceOf(Books(b.accounts, [], b.entries)));
  }

  // ---------------------------------------------------------------- balances by kind of journal

  function OnAccountOfKind(journals: seq<Journal>, kind: JournalKind, a: Account): Entry -> real {
    (e: Entry) =>
      if 0 <= e.journal < |journals| && journals[e.journal].kind == kind && e.account == a
      then e.debit - e.credit else 0.0
  }

  /** The part of a balance that journals of one kind account for. */
  function KindBalance(b: Books, kind: JournalKind, a: Account): real {
    Sum(b.entries, OnAccountOfKind(b.journals, kind, a))
  }

  /** A new journal moves the part of a balance that belongs to its own kind, and no other part. */
  lemma PostMovesKind(b: Books, kind: JournalKind, reference: Reference, lines: seq<Line>, of: JournalKind, a: Account)
    requires WellFormed(b)
    ensures KindBalance(Post(b, kind, reference, lines), of, a)
            == KindBalance(b, of, a) + if kind == of then Sum(lines, LineNet(a)) else 0.0
  {
    var after := Post(b, kind, reference, lines);
    var added := Rows(|b.journals|, lines);
    SumConcat(b.entries, added, OnAccountOfKind(after.journals, of, a));
    forall i | 0 <= i < |b.entries|
      ensures OnAccountOfKind(after.journals, of, a)(b.entries[i]) == OnAccountOfKind(b.journals, of, a)(b.entries[i])
    {
      assert b.entries[i] in b.entries;
    }
    SumPointwise(b.entries, OnAccountOfKind(after.journals, of, a), OnAccountOfKind(b.journals, of, a));
    if kind == of {
      RowsSum(|b.journals|, lines, OnAccountOfKind(after.journals, of, a), LineNet(a));
    } else {
      SumZero(added, OnAccountOfKind(after.journals, of, a));
    }
  }

  function KindPart(b: Books, a: Account): JournalKind -> real {
    (kind: JournalKind) => KindBalance(b, kind, a)
  }

  function OfKinds(journals: seq<Journal>, kinds: seq<JournalKind>, a: Account): Entry -> real {
    (e: Entry) =>
      if 0 <= e.journal < |journals| && journals[e.journal].kind in kinds && e.account == a
      then e.debit - e.credit else 0.0
  }

  lemma {:induction false} SumOfKinds(b: Books, kinds: seq<JournalKind>, a: Account)
    requires Distinct(kinds)
    ensures Sum(kinds, KindPart(b, a)) == Sum(b.entries, OfKinds(b.journals, kinds, a))
  {
    if kinds == [] {
      SumZero(b.entries, OfKinds(b.journals, [], a));
    } else {
      var rest, kind := kinds[..|kinds| - 1], kinds[|kinds| - 1];
      SumOfKinds(b, rest, a);
      assert forall k | k in kinds :: k in rest || k == kind;
      assert kind in kinds && kind !in rest;
      SumAdd(b.entries, OfKinds(b.journals, rest, a), OnAccountOfKind(b.journals, kind, a),
             OfKinds(b.journals, kinds, a));
    }
  }

  /** The parts that the kinds of journal account for add up to the balance. */
  lemma BalanceSplitsByKind(b: Books, a: Account)
    requires WellFormed(b)
    ensures Balance(b, a) == Sum([CollateralDeposit, CollateralWithdrawal, MarginLock, VariationMargin,
                                  SettlementTransfer, WaterfallStep, FundContribution], KindPart(b, a))
  {
    hide KindBalance;
    var kinds := [CollateralDeposit, CollateralWithdrawal, MarginLock, VariationMargin, SettlementTransfer,
                  WaterfallStep, FundContribution];
    SumOfKinds(b, kinds, a);
    forall k: JournalKind ensures k in kinds {
      match k
      case CollateralDeposit => assert k == kinds[0];
      case CollateralWithdrawal => assert k == kinds[1];
      case MarginLock => assert k == kinds[2];
      case VariationMargin => assert k == kinds[3];
      case SettlementTransfer => assert k == kinds[4];
      case WaterfallStep => assert k == kinds[5];
      case FundContribution => assert k == kinds[6];
    }
    forall i | 0 <= i < |b.entries| ensures OfKinds(b.journals, kinds, a)(b.entries[i]) == OnAccount(a)(b.entries[i]) {
      assert b.entries[i] in b.entries;
    }
    SumPointwise(b.entries, OfKinds(b.journals, kinds, a), OnAccount(a));
  }

  /** How many journals of a kind refer to one thing. */
  function CountJournals(journals: seq<Journal>, kind: JournalKind, reference: Reference): nat {
    if journals == [] then 0
    else
      CountJournals(journals[..|journals| - 1], kind, reference) +
      if journals[|journals| - 1].kind == kind && journals[|journals| - 1].reference == reference then 1 else 0
  }

  lemma CountSnoc(journals: seq<Journal>, j: Journal, kind: JournalKind, reference: Reference)
    ensures CountJournals(journals + [j], kind, reference)
            == CountJournals(journals, kind, reference) + if j.kind == kind && j.reference == reference then 1 else 0
  {
    assert (journals + [j])[..|journals|] == journals;
  }
}
