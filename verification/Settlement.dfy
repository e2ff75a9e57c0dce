/** Settlement: the transition table, cash settlement in one transaction, and on-chain settlement as a
    run of several transactions by one worker. */
module Settlement {
  import opened Options
  import opened Sums
  import opened Ledger
  import opened Registry
  import opened Model
  import opened NettingCycle

  /** What settlement reads and writes. `runs` is the volatile memory of the workers: the instructions
      whose on-chain run is under way, and where each run stands between two commits. */
  datatype Desk = Desk(books: Books, instructions: seq<Instruction>, transitions: seq<Transition>,
                       runs: map<nat, RunPoint>)

  /** VALID_TRANSITIONS. */
  function Allowed(from: InstructionStatus): set<InstructionStatus> {
    match from
    case Pending => {Approved, Failed, Cancelled}
    case Approved => {Signed, Failed}
    case Signed => {Broadcasted, Failed}
    case Broadcasted => {Confirmed, Failed}
    case Confirmed => {}
    case Failed => {}
    case Cancelled => {}
  }

  /** The update is not guarded by the stored status; the logged from-status is what the caller says. */
  function SetStatus(d: Desk, i: nat, from: InstructionStatus, to: InstructionStatus): Desk
    requires i < |d.instructions|
  {
    d.(instructions := d.instructions[i := d.instructions[i].(status := to)],
       transitions := d.transitions + [Transition(i, from, to)])
  }

  /** _advance_status raises unless the two names form an edge of the table. Its callers pass literals,
      so the precondition shows that it never raises. */
  function Advance(d: Desk, i: nat, from: InstructionStatus, to: InstructionStatus): Desk
    requires i < |d.instructions| && to in Allowed(from)
  {
    SetStatus(d, i, from, to)
  }

  /** _fail_instruction validates nothing. */
  function Fail(d: Desk, i: nat, from: InstructionStatus): Desk
    requires i < |d.instructions|
  {
    SetStatus(d, i, from, Failed)
  }

  function SettlementAccount(m: MemberId): Account {
    Account(m, AccountKind.Settlement, Available)
  }

  predicate BothFound(accounts: seq<Account>, i: Instruction) {
    SettlementAccount(i.from) in accounts && SettlementAccount(i.to) in accounts
  }

  function TransferLines(i: Instruction): seq<Line> {
    [Credit(SettlementAccount(i.from), i.amount), Debit(SettlementAccount(i.to), i.amount)]
  }

  function Book(d: Desk, i: nat): Desk
    requires i < |d.instructions|
  {
    d.(books := Post(d.books, SettlementTransfer, OfInstruction(i), TransferLines(d.instructions[i])))
  }

  /** _settle_cash: all five statuses in one transaction, with a journal only for a positive amount. */
  function SettleCash(d: Desk, i: nat): (after: Desk)
    requires i < |d.instructions|
    ensures |after.instructions| == |d.instructions|
  {
    if !BothFound(d.books.accounts, d.instructions[i]) then Fail(d, i, Pending)
    else
      var broadcasted :=
        Advance(Advance(Advance(d, i, Pending, Approved), i, Approved, Signed), i, Signed, Broadcasted);
      var booked := if d.instructions[i].amount > 0.0 then Book(broadcasted, i) else broadcasted;
      Advance(booked, i, Broadcasted, Confirmed)
  }

  /** The first transaction of _settle_dvp. A registry without the chain raises, so that nothing is written. */
  function StartDvp(d: Desk, i: nat, adapters: set<nat>): Result<Desk>
    requires i < |d.instructions|
  {
    match d.instructions[i].chain
    case None => Ok(Fail(d, i, Pending))
    case Some(chain) =>
      if chain !in adapters then Raised(MissingAdapter)
      else Ok(Advance(d, i, Pending, Approved).(runs := d.runs[i := AfterApproval]))
  }

  /** settle_instruction up to its first commit. Only a pending instruction is looked at. */
  function Settle(d: Desk, i: nat, adapters: set<nat>): Result<Desk> {
    if i >= |d.instructions| || d.instructions[i].status != Pending then Ok(d)
    else if d.instructions[i].settlement == Cash then Ok(SettleCash(d, i))
    else StartDvp(d, i, adapters)
  }

  /** What can happen to an on-chain run between two commits: its external call returns, raises, or the
      worker dies (a database error has the same effect: rollback to the last commit). */
  datatype RunStep = SignReturned | SubmitReturned | PollConfirmed | PollFailed | ExternalFailure | WorkerCrash

  function EndRun(d: Desk, i: nat): Desk {
    d.(runs := map j | j in d.runs && j != i :: d.runs[j])
  }

  /** _finalize_dvp. With both accounts found, the entries table refuses an amount that is not positive;
      the exception handler then cannot write either, and the run ends without a commit. */
  function Finalize(d: Desk, i: nat): Desk
    requires i < |d.instructions|
  {
    if !BothFound(d.books.accounts, d.instructions[i]) then Advance(EndRun(d, i), i, Broadcasted, Confirmed)
    else if d.instructions[i].amount <= 0.0 then EndRun(d, i)
    else Advance(Book(EndRun(d, i), i), i, Broadcasted, Confirmed)
  }

  /** The later transactions of _settle_dvp. Its exception handler always logs `approved` as the from-status. */
  function NextRun(d: Desk, i: nat, step: RunStep): Desk {
    if i !in d.runs || i >= |d.instructions| then d
    else match (d.runs[i], step)
      case (AfterApproval, SignReturned) => Advance(d, i, Approved, Signed).(runs := d.runs[i := AfterSigning])
      case (AfterSigning, SubmitReturned) => Advance(d, i, Signed, Broadcasted).(runs := d.runs[i := AfterBroadcast])
      case (AfterBroadcast, PollConfirmed) => Finalize(d, i)
      case (AfterBroadcast, PollFailed) => Fail(EndRun(d, i), i, Broadcasted)
      case (_, ExternalFailure) => Fail(EndRun(d, i), i, Approved)
      case (_, WorkerCrash) => EndRun(d, i)
      case _ => d
  }

  /** What a step at instruction i leaves alone: the log and every other instruction, with its run. */
  ghost predicate OnlyAt(d: Desk, e: Desk, i: nat) {
    && d.transitions <= e.transitions
    && (forall k | |d.transitions| <= k < |e.transitions| :: e.transitions[k].instruction == i)
    && Appends(d.books, e.books)
    && |e.instructions| == |d.instructions|
    && (forall j :: 0 <= j < |d.instructions| ==>
          e.instructions[j] == d.instructions[j].(status := e.instructions[j].status))
    && (forall j :: 0 <= j < |d.instructions| && j != i ==> e.instructions[j] == d.instructions[j])
    && (forall j | j != i :: j in e.runs <==> j in d.runs)
  }

  /** An instruction that needs a chain and has none. */
  predicate Chainless(x: Instruction) {
    x.settlement != Cash && x.chain.None?
  }

  lemma BookShape(d: Desk, i: nat)
    requires i < |d.instructions|
    ensures Appends(d.books, Book(d, i).books)
  {
  }

  lemma CashShape(d: Desk, i: nat)
    requires i < |d.instructions|
    ensures OnlyAt(d, SettleCash(d, i), i)
    ensures SettleCash(d, i).runs == d.runs
    ensures SettleCash(d, i).instructions[i].status
            == if BothFound(d.books.accounts, d.instructions[i]) then Confirmed else Failed
  {
    hide Post;
    BookShape(Advance(Advance(Advance(d, i, Pending, Approved), i, Approved, Signed), i, Signed, Broadcasted), i);
  }

  lemma SettleShape(d: Desk, i: nat, adapters: set<nat>)
    ensures Settle(d, i, adapters).Ok? ==>
      var e := Settle(d, i, adapters).value;
      && OnlyAt(d, e, i)
      && (i < |d.instructions| ==>
            var x := d.instructions[i];
            && (x.settlement == Cash || Chainless(x) ==> e.runs == d.runs)
            && (Chainless(x) ==> e.instructions[i].status in {x.status, Failed})
            && (x.status != Pending ==> e == d)
            && e.instructions[i].status != Pending
            && (x.settlement == Cash && x.status == Pending ==>
                  e.instructions[i].status == if BothFound(d.books.accounts, x) then Confirmed else Failed))
  {
    hide SettleCash;
    if i < |d.instructions| {
      CashShape(d, i);
    }
  }

  lemma RunShape(d: Desk, i: nat, step: RunStep)
    ensures OnlyAt(d, NextRun(d, i, step), i)
    ensures i !in d.runs ==> NextRun(d, i, step) == d
    ensures i in NextRun(d, i, step).runs ==> i in d.runs
    ensures i < |d.instructions| && d.instructions[i].status != Pending ==>
      NextRun(d, i, step).instructions[i].status != Pending
  {
    hide Post;
    if i < |d.instructions| {
      BookShape(EndRun(d, i), i);
    }
  }

  /** The nine status changes that the table allows. */
  predicate IsEdge(from: InstructionStatus, to: InstructionStatus) {
    || (from == Pending && to in {Approved, Failed, Cancelled})
    || (from == Approved && to in {Signed, Failed})
    || (from == Signed && to in {Broadcasted, Failed})
    || (from == Broadcasted && to in {Confirmed, Failed})
  }

  // ---------------------------------------------------------------- history

  /** The rows of state_transitions about one instruction. */
  function History(log: seq<Transition>, i: nat): seq<Transition> {
    if log == [] then []
    else
      var rest := History(log[..|log| - 1], i);
      if log[|log| - 1].instruction == i then rest + [log[|log| - 1]] else rest
  }

  function Before(h: seq<Transition>, j: nat): InstructionStatus
    requires j <= |h|
  {
    if j == 0 then Pending else h[j - 1].to
  }

  /** Row j leads along an edge of the table from where row j - 1 led. Its logged from-status is that
      status, except that a failure of a signed or broadcasted instruction may be logged from `approved`. */
  predicate LinkAt(h: seq<Transition>, j: nat)
    requires j < |h|
  {
    && h[j].to in Allowed(Before(h, j))
    && (h[j].from == Before(h, j)
        || (h[j].to == Failed && h[j].from == Approved && Before(h, j) in {Signed, Broadcasted}))
  }

  ghost predicate Chained(h: seq<Transition>) {
    forall j :: 0 <= j < |h| ==> LinkAt(h, j)
  }

  /** Every instruction's log is a path through the table that ends at its current status. */
  ghost predicate HistoryInvariant(instructions: seq<Instruction>, log: seq<Transition>) {
    && (forall t | t in log :: t.instruction < |instructions|)
    && forall i :: 0 <= i < |instructions| ==>
         Chained(History(log, i)) && instructions[i].status == Before(History(log, i), |History(log, i)|)
  }

  function StatusAt(point: RunPoint): InstructionStatus {
    match point
    case AfterApproval => Approved
    case AfterSigning => Signed
    case AfterBroadcast => Broadcasted
  }

  /** A run owns its instruction: the stored status is the one that the run last committed. */
  ghost predicate RunsInvariant(instructions: seq<Instruction>, runs: map<nat, RunPoint>) {
    forall i | i in runs :: i < |instructions| && instructions[i].status == StatusAt(runs[i])
  }

  /** The instruction is confirmed with money to move and accounts to move it between. */
  predicate Settled(accounts: seq<Account>, i: Instruction) {
    i.status == Confirmed && BothFound(accounts, i) && i.amount > 0.0
  }

  /** One SETTLEMENT journal for every settled instruction, none for any other. */
  ghost predicate JournalInvariant(b: Books, instructions: seq<Instruction>) {
    forall i: nat ::
      CountJournals(b.journals, SettlementTransfer, OfInstruction(i))
      == if i < |instructions| && Settled(b.accounts, instructions[i]) then 1 else 0
  }

  function SettledFlow(accounts: seq<Account>, m: MemberId): Instruction -> real {
    (i: Instruction) => if Settled(accounts, i) then FlowTo(m)(i) else 0.0
  }

  /** Settlement journals have brought each member exactly the flows of the settled instructions. */
  ghost predicate FlowInvariant(b: Books, instructions: seq<Instruction>) {
    forall m: MemberId ::
      KindBalance(b, SettlementTransfer, SettlementAccount(m)) == Sum(instructions, SettledFlow(b.accounts, m))
  }

  ghost predicate DeskInvariant(d: Desk) {
    && HistoryInvariant(d.instructions, d.transitions)
    && RunsInvariant(d.instructions, d.runs)
    && JournalInvariant(d.books, d.instructions)
    && FlowInvariant(d.books, d.instructions)
    && Sound(d.books)
  }

  lemma HistorySnoc(log: seq<Transition>, t: Transition, i: nat)
    ensures History(log + [t], i) == if t.instruction == i then History(log, i) + [t] else History(log, i)
  {
    assert (log + [t])[..|log|] == log;
  }

  /** An update along an edge of the table from the stored status keeps every history a path. */
  lemma SetStatusHistory(d: Desk, i: nat, from: InstructionStatus, to: InstructionStatus)
    requires HistoryInvariant(d.instructions, d.transitions) && i < |d.instructions|
    requires to in Allowed(d.instructions[i].status)
    requires from == d.instructions[i].status
             || (to == Failed && from == Approved && d.instructions[i].status in {Signed, Broadcasted})
    ensures HistoryInvariant(SetStatus(d, i, from, to).instructions, SetStatus(d, i, from, to).transitions)
  {
    var after := SetStatus(d, i, from, to);
    forall k | 0 <= k < |after.instructions|
      ensures Chained(History(after.transitions, k))
      ensures after.instructions[k].status == Before(History(after.transitions, k), |History(after.transitions, k)|)
    {
      HistorySnoc(d.transitions, Transition(i, from, to), k);
      var h := History(d.transitions, k);
      assert Chained(h);
      if k == i {
        var h' := h + [Transition(i, from, to)];
        forall j | 0 <= j < |h'| ensures LinkAt(h', j) {
          if j < |h| {
            assert LinkAt(h, j);
            assert Before(h', j) == Before(h, j);
          }
        }
      }
    }
  }

  /** A status update that neither settles nor unsettles leaves the journal and flow invariants alone. */
  lemma UnsettledUpdate(b: Books, instructions: seq<Instruction>, i: nat, to: InstructionStatus)
    requires i < |instructions| && to != Confirmed && instructions[i].status != Confirmed
    requires JournalInvariant(b, instructions) && FlowInvariant(b, instructions)
    ensures JournalInvariant(b, instructions[i := instructions[i].(status := to)])
    ensures FlowInvariant(b, instructions[i := instructions[i].(status := to)])
  {
    var after := instructions[i := instructions[i].(status := to)];
    forall m: MemberId
      ensures KindBalance(b, SettlementTransfer, SettlementAccount(m)) == Sum(after, SettledFlow(b.accounts, m))
    {
      assert KindBalance(b, SettlementTransfer, SettlementAccount(m)) == Sum(instructions, SettledFlow(b.accounts, m));
      var f := SettledFlow(b.accounts, m);
      var x := instructions[i].(status := to);
      assert !Settled(b.accounts, instructions[i]) && !Settled(b.accounts, x);
      SumUpdate(instructions, i, x, f);
    }
  }

  /** Confirming without a journal is right exactly for an instruction that is not settled by it. */
  lemma UnbookedConfirm(b: Books, instructions: seq<Instruction>, i: nat)
    requires i < |instructions| && instructions[i].status != Confirmed
    requires !BothFound(b.accounts, instructions[i]) || instructions[i].amount <= 0.0
    requires JournalInvariant(b, instructions) && FlowInvariant(b, instructions)
    ensures JournalInvariant(b, instructions[i := instructions[i].(status := Confirmed)])
    ensures FlowInvariant(b, instructions[i := instructions[i].(status := Confirmed)])
  {
    var after := instructions[i := instructions[i].(status := Confirmed)];
    forall m: MemberId
      ensures KindBalance(b, SettlementTransfer, SettlementAccount(m)) == Sum(after, SettledFlow(b.accounts, m))
    {
      assert KindBalance(b, SettlementTransfer, SettlementAccount(m)) == Sum(instructions, SettledFlow(b.accounts, m));
      var f := SettledFlow(b.accounts, m);
      var x := instructions[i].(status := Confirmed);
      assert !Settled(b.accounts, instructions[i]) && !Settled(b.accounts, x);
      SumUpdate(instructions, i, x, f);
    }
  }

  lemma TransferFlow(i: Instruction, m: MemberId)
    ensures Sum(TransferLines(i), LineNet(SettlementAccount(m))) == FlowTo(m)(i)
  {
    TransferNet(SettlementAccount(i.to), SettlementAccount(i.from), i.amount, SettlementAccount(m));
  }

  /** Booking and confirming together keep the books sound and the invariants. */
  lemma BookedConfirm(b: Books, instructions: seq<Instruction>, i: nat)
    requires i < |instructions| && instructions[i].status != Confirmed
    requires BothFound(b.accounts, instructions[i]) && instructions[i].amount > 0.0
    requires Sound(b) && JournalInvariant(b, instructions) && FlowInvariant(b, instructions)
    ensures var c := Post(b, SettlementTransfer, OfInstruction(i), TransferLines(instructions[i]));
            var after := instructions[i := instructions[i].(status := Confirmed)];
            Sound(c) && JournalInvariant(c, after) && FlowInvariant(c, after)
  {
    hide Sound, CountJournals, KindBalance;
    var x := instructions[i];
    var c := Post(b, SettlementTransfer, OfInstruction(i), TransferLines(x));
    var after := instructions[i := x.(status := Confirmed)];
    TransferKeepsSound(b, SettlementTransfer, OfInstruction(i), SettlementAccount(x.to), SettlementAccount(x.from),
                       x.amount);
    forall j: nat
      ensures CountJournals(c.journals, SettlementTransfer, OfInstruction(j))
              == if j < |after| && Settled(c.accounts, after[j]) then 1 else 0
    {
      CountSnoc(b.journals, Journal(SettlementTransfer, OfInstruction(i), JournalConfirmed), SettlementTransfer,
                OfInstruction(j));
    }
    SoundIsWellFormed(b);
    forall m: MemberId
      ensures KindBalance(c, SettlementTransfer, SettlementAccount(m)) == Sum(after, SettledFlow(c.accounts, m))
    {
      PostMovesKind(b, SettlementTransfer, OfInstruction(i), TransferLines(x), SettlementTransfer,
                    SettlementAccount(m));
      TransferFlow(x, m);
      SumUpdate(instructions, i, x.(status := Confirmed), SettledFlow(b.accounts, m));
    }
  }

  lemma SoundIsWellFormed(b: Books)
    requires Sound(b)
    ensures WellFormed(b)
  {
  }

  // ---------------------------------------------------------------- every transaction keeps the invariant

  lemma CashKeeps(d: Desk, i: nat)
    requires DeskInvariant(d) && i < |d.instructions| && d.instructions[i].status == Pending
    ensures DeskInvariant(SettleCash(d, i))
  {
    hide Sound, JournalInvariant, FlowInvariant, HistoryInvariant, Post;
    if !BothFound(d.books.accounts, d.instructions[i]) {
      SetStatusHistory(d, i, Pending, Failed);
      UnsettledUpdate(d.books, d.instructions, i, Failed);
    } else {
      var x := d.instructions[i];
      var d1 := Advance(d, i, Pending, Approved);
      var d2 := Advance(d1, i, Approved, Signed);
      var d3 := Advance(d2, i, Signed, Broadcasted);
      SetStatusHistory(d, i, Pending, Approved);
      SetStatusHistory(d1, i, Approved, Signed);
      SetStatusHistory(d2, i, Signed, Broadcasted);
      var d4 := if x.amount > 0.0 then Book(d3, i) else d3;
      SetStatusHistory(d4, i, Broadcasted, Confirmed);
      assert d3.instructions[i := d3.instructions[i].(status := Confirmed)]
          == d.instructions[i := x.(status := Confirmed)];
      if x.amount > 0.0 {
        BookedConfirm(d.books, d.instructions, i);
      } else {
        UnbookedConfirm(d.books, d.instructions, i);
      }
    }
  }

  lemma SettleKeeps(d: Desk, i: nat, adapters: set<nat>)
    requires DeskInvariant(d)
    ensures Settle(d, i, adapters).Ok? ==> DeskInvariant(Settle(d, i, adapters).value)
  {
    hide Sound, JournalInvariant, FlowInvariant, HistoryInvariant, SettleCash;
    if i < |d.instructions| && d.instructions[i].status == Pending {
      if d.instructions[i].settlement == Cash {
        CashKeeps(d, i);
      } else if d.instructions[i].chain.None? {
        SetStatusHistory(d, i, Pending, Failed);
        UnsettledUpdate(d.books, d.instructions, i, Failed);
      } else {
        SetStatusHistory(d, i, Pending, Approved);
        UnsettledUpdate(d.books, d.instructions, i, Approved);
      }
    }
  }

  lemma RunUpdate(d: Desk, i: nat, from: InstructionStatus, to: InstructionStatus)
    requires DeskInvariant(d) && i < |d.instructions| && i !in d.runs
    requires to in Allowed(d.instructions[i].status) && to != Confirmed
    requires from == d.instructions[i].status
             || (to == Failed && from == Approved && d.instructions[i].status in {Signed, Broadcasted})
    ensures DeskInvariant(SetStatus(d, i, from, to))
  {
    hide Sound, JournalInvariant, FlowInvariant, HistoryInvariant;
    SetStatusHistory(d, i, from, to);
    UnsettledUpdate(d.books, d.instructions, i, to);
  }

  lemma FinalizeKeeps(d: Desk, i: nat)
    requires DeskInvariant(d) && i in d.runs && d.runs[i] == AfterBroadcast
    ensures DeskInvariant(Finalize(d, i))
  {
    hide Sound, JournalInvariant, FlowInvariant, HistoryInvariant, Post;
    var x := d.instructions[i];
    SetStatusHistory(d, i, Broadcasted, Confirmed);
    if !BothFound(d.books.accounts, x) {
      UnbookedConfirm(d.books, d.instructions, i);
    } else if x.amount > 0.0 {
      BookedConfirm(d.books, d.instructions, i);
    }
  }

  lemma NextRunKeeps(d: Desk, i: nat, step: RunStep)
    requires DeskInvariant(d)
    ensures DeskInvariant(NextRun(d, i, step))
  {
    hide Sound, JournalInvariant, FlowInvariant, HistoryInvariant, Finalize;
    if i in d.runs {
      var ended := EndRun(d, i);
      match (d.runs[i], step)
      case (AfterApproval, SignReturned) =>
        RunUpdate(ended, i, Approved, Signed);
      case (AfterSigning, SubmitReturned) =>
        RunUpdate(ended, i, Signed, Broadcasted);
      case (AfterBroadcast, PollConfirmed) =>
        FinalizeKeeps(d, i);
      case (AfterBroadcast, PollFailed) =>
        RunUpdate(ended, i, Broadcasted, Failed);
      case (_, ExternalFailure) =>
        RunUpdate(ended, i, Approved, Failed);
      case _ =>
    }
  }

  // ---------------------------------------------------------------- consequences

  /** Log rows about other instructions do not touch the history of this one. */
  lemma {:induction false} HistoryOfOthers(log: seq<Transition>, longer: seq<Transition>, i: nat)
    requires log <= longer
    requires forall k | |log| <= k < |longer| :: longer[k].instruction != i
    ensures History(longer, i) == History(log, i)
    decreases |longer|
  {
    if |log| < |longer| {
      HistoryOfOthers(log, longer[..|longer| - 1], i);
    } else {
      assert log == longer;
    }
  }

  lemma {:induction false} HistoryPrefix(log: seq<Transition>, more: seq<Transition>, i: nat)
    ensures History(log, i) <= History(log + more, i)
  {
    if more == [] {
      assert log + more == log;
    } else {
      var m0, t := more[..|more| - 1], more[|more| - 1];
      HistoryPrefix(log, m0, i);
      assert log + more == (log + m0) + [t];
      HistorySnoc(log + m0, t, i);
    }
  }

  /** Terminal statuses are absorbing: between any two states of a run, an instruction that was
      confirmed, failed or cancelled has the same status and no new log row. */
  lemma TerminalAbsorbing(before: seq<Instruction>, log: seq<Transition>, after: seq<Instruction>,
                          more: seq<Transition>, i: nat)
    requires HistoryInvariant(before, log) && HistoryInvariant(after, log + more)
    requires i < |before| <= |after|
    requires before[i].status in {Confirmed, Failed, Cancelled}
    ensures after[i].status == before[i].status
    ensures History(log + more, i) == History(log, i)
  {
    var h, h' := History(log, i), History(log + more, i);
    HistoryPrefix(log, more, i);
    assert |h'| > |h| ==> LinkAt(h', |h|);
  }

  /** There is one way to be confirmed: through all four statuses, each logged from the one before it. */
  lemma OnePathToConfirmed(h: seq<Transition>)
    requires Chained(h) && Before(h, |h|) == Confirmed
    ensures |h| == 4
    ensures h[0].from == Pending && h[0].to == h[1].from == Approved
    ensures h[1].to == h[2].from == Signed && h[2].to == h[3].from == Broadcasted && h[3].to == Confirmed
  {
    assert LinkAt(h, 0);
    assert |h| > 1 ==> LinkAt(h, 1);
    assert |h| > 2 ==> LinkAt(h, 2);
    assert |h| > 3 ==> LinkAt(h, 3);
    assert |h| > 4 ==> LinkAt(h, 4);
  }

  /** When the log tells the truth. A later transaction of a run adds at most one row. It logs the stored status
      as its from-status exactly unless it is the exception handler's row, which always says `approved`, for a
      run that was past its approval. */
  lemma LoggedFromExactly(d: Desk, i: nat, step: RunStep)
    requires DeskInvariant(d)
    ensures var e := NextRun(d, i, step);
            && (e.transitions != d.transitions ==>
                  && i in d.runs && i < |d.instructions|
                  && |e.transitions| == |d.transitions| + 1
                  && var row := e.transitions[|d.transitions|];
                     && row.instruction == i && row.to == e.instructions[i].status
                     && (row.from == d.instructions[i].status
                         <==> !(step == ExternalFailure && d.runs[i] != AfterApproval)))
            && (i in d.runs && step == ExternalFailure ==>
                  && e.transitions == d.transitions + [Transition(i, Approved, Failed)]
                  && e.instructions[i].status == Failed && i !in e.runs)
  {
    hide Post, HistoryInvariant, JournalInvariant, FlowInvariant, Sound;
  }
}
