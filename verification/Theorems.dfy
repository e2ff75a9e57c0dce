/** What holds in every state that the clearing house can reach, and what no later step can undo. */
module Theorems {
  import opened Options
  import opened Sums
  import opened Ledger
  import opened Registry
  import opened Model
  import opened Outbox
  import opened Trading
  import opened Netting
  import opened NettingCycle
  import opened Settlement
  import opened Waterfall
  import opened Collateral
  import opened Reconciliation
  import opened System
  import opened Preservation

  /** s ends some run, of any length and with any interleaving of steps, of a freshly seeded system. */
  ghost predicate Reachable(s: State) {
    exists s0, contributions, steps :: Initial(s0, contributions) && s == Run(s0, steps)
  }

  lemma ReachableInvariant(s: State)
    requires Reachable(s)
    ensures Invariant(s)
  {
    hide Invariant, Initial, Run;
    var s0, contributions, steps :| Initial(s0, contributions) && s == Run(s0, steps);
    InitialInvariant(s0, contributions);
    RunKeeps(s0, steps);
  }

  lemma {:induction false} RunConcat(s: State, first: seq<Step>, second: seq<Step>)
    ensures Run(Run(s, first), second) == Run(s, first + second)
  {
    hide Next;
    if second == [] {
      assert first + second == first;
    } else {
      var n := |second| - 1;
      RunConcat(s, first, second[..n]);
      assert (first + second)[..|first + second| - 1] == first + second[..n];
    }
  }

  lemma ReachableRun(s: State, steps: seq<Step>)
    requires Reachable(s)
    ensures Reachable(Run(s, steps))
  {
    hide Initial, Run;
    var s0, contributions, before :| Initial(s0, contributions) && s == Run(s0, before);
    RunConcat(s0, before, steps);
  }

  // ---------------------------------------------------------------- the ledger

  /** In every reachable state: all balances sum to zero, no collateral and no default fund is
      overdrawn, and the grouped view agrees with the reconciler's replay on every account. */
  lemma LedgerAlwaysSound(s: State)
    requires Reachable(s)
    ensures Balanced(s.books)
    ensures Sum(s.books.accounts, BalanceOf(s.books)) == 0.0
    ensures forall m: MemberId ::
              && Balance(s.books, Account(m, AccountKind.Collateral, Available)) >= 0.0
              && Balance(s.books, Account(m, DefaultFund, Available)) >= 0.0
    ensures Passes(s.books)
    ensures forall a :: Balance(s.books, a) == Replay(s.books, a)
  {
    hide Balance, Replay, Passes, Balanced, Invariant, Reachable, Sound;
    ReachableInvariant(s);
    SoundParts(s);
    forall m: MemberId
      ensures Balance(s.books, Account(m, AccountKind.Collateral, Available)) >= 0.0
      ensures Balance(s.books, Account(m, DefaultFund, Available)) >= 0.0
    {
      assert Balance(s.books, CollateralOf(m)) >= 0.0 && FundBalance(s.books, m) >= 0.0;
    }
    BalancesSumToZero(s.books);
    SoundLedgerReconciles(s.books);
  }

  lemma SoundParts(s: State)
    requires Invariant(s)
    ensures Sound(s.books) && WellFormed(s.books) && Balanced(s.books) && NeverNegative(s.books)
  {
  }

  // ---------------------------------------------------------------- growth

  /** Everything that is append-only: the ledger, the settlement log, the message log, the marks. */
  ghost predicate Grows(s: State, t: State) {
    && Appends(s.books, t.books)
    && s.transitions <= t.transitions
    && |s.instructions| <= |t.instructions|
    && s.processed <= t.processed
    && s.effects <= t.effects
    && s.bus.log <= t.bus.log
  }

  lemma {:induction false} PayAllGrows(b: Books, house: Option<MemberId>, event: nat, ps: seq<Payment>)
    ensures Appends(b, PayAll(b, house, event, ps))
  {
    if ps != [] {
      PayAllGrows(b, house, event, ps[..|ps| - 1]);
    }
  }

  lemma {:induction false} EmitGrows(bus: Bus, first: nat, n: nat)
    ensures EmitInstructions(bus, first, n).log == bus.log
  {
    if n > 0 {
      EmitGrows(bus, first, n - 1);
    }
  }

  lemma IngestGrows(s: State, offset: nat, now: int)
    ensures Grows(s, AfterIngest(s, offset, now))
  {
    hide MarginOf;
  }

  lemma NettingGrows(s: State, cutoff: int)
    ensures Grows(s, AfterNetting(s, cutoff))
  {
    hide CycleObligations;
    EmitGrows(s.bus, |s.instructions|, |CycleObligations(s.legs, s.instruments, s.prices, cutoff)|);
  }

  lemma SettleGrows(s: State, offset: nat)
    ensures Grows(s, AfterSettle(s, offset))
  {
    hide Settle;
    if offset < |s.bus.log| && s.bus.log[offset].payload.InstructionCreated? {
      SettleShape(DeskOf(s), s.bus.log[offset].payload.instruction, s.adapters);
    }
  }

  lemma OnChainGrows(s: State, i: nat, step: RunStep)
    ensures Grows(s, WithDesk(s, NextRun(DeskOf(s), i, step)))
  {
    hide NextRun;
    RunShape(DeskOf(s), i, step);
  }

  lemma PostingGrows(s: State, kind: JournalKind, reference: Reference, lines: seq<Line>)
    ensures Grows(s, s.(books := Post(s.books, kind, reference, lines)))
  {
  }

  lemma CollateralGrows(s: State, m: MemberId, amount: real, kind: AccountKind, x: InstrumentId)
    ensures Grows(s, AfterPosting(s, Deposit(s.books, s.house, m, amount)))
    ensures Grows(s, AfterPosting(s, Withdraw(s.books, s.house, m, amount)))
    ensures Grows(s, AfterPosting(s, TransferToMargin(s.books, m, amount, kind)))
    ensures Grows(s, AfterPosting(s, VariationMarginPosting(s.books, m, x, amount)))
  {
    hide Balance, Post, Grows;
    forall k, reference, lines ensures Grows(s, s.(books := Post(s.books, k, reference, lines))) {
      PostingGrows(s, k, reference, lines);
    }
    SameGrows(s);
  }

  lemma SameGrows(s: State)
    ensures Grows(s, s)
  {
  }

  lemma DefaultGrows(s: State, m: MemberId, exposure: real)
    ensures Grows(s, AfterDefault(s, m, exposure))
  {
    hide PayAll, Execute, TriggerAccepts;
    PayAllGrows(s.books, s.house, |s.defaults|,
                Execute(s.books, MarkDefaulted(s.members, m), s.house, m, exposure, |s.defaults|).payments);
  }

  lemma PublishGrows(s: State, step: BusStep)
    ensures Grows(s, s.(bus := NextBus(s.bus, step)))
  {
    hide Candidates;
  }

  lemma FrontOfficeGrows(s: State, step: Step)
    requires step.SubmitTrade? || step.RouteToChain? || step.QuotePrice?
    ensures Grows(s, Next(s, step))
  {
  }

  lemma NextGrows(s: State, step: Step)
    ensures Grows(s, Next(s, step))
  {
    hide Grows, AfterIngest, AfterNetting, AfterSettle, NextRun, AfterDefault, Deposit, Withdraw, TransferToMargin,
      VariationMarginPosting, NextBus, AfterSubmit, AfterRouting;
    match step
    case Publish(bus) => PublishGrows(s, bus);
    case IngestTrade(offset, now) => IngestGrows(s, offset, now);
    case RunNetting(cutoff) => NettingGrows(s, cutoff);
    case SettleMessage(offset) => SettleGrows(s, offset);
    case OnChain(i, run) => OnChainGrows(s, i, run);
    case DeclareDefault(m, exposure) => DefaultGrows(s, m, exposure);
    case DepositCollateral(m, amount) => CollateralGrows(s, m, amount, MarginIm, 0);
    case WithdrawCollateral(m, amount) => CollateralGrows(s, m, amount, MarginIm, 0);
    case MoveToMargin(m, amount, kind) => CollateralGrows(s, m, amount, kind, 0);
    case PostVariationMargin(m, x, vm) => CollateralGrows(s, m, vm, MarginIm, x);
    case _ => FrontOfficeGrows(s, step);
  }

  /** No run changes or removes a ledger row, a status transition, a message or a processed mark. */
  lemma {:induction false} RunGrows(s: State, steps: seq<Step>)
    ensures Grows(s, Run(s, steps))
  {
    hide Next;
    if steps != [] {
      RunGrows(s, steps[..|steps| - 1]);
      NextGrows(Run(s, steps[..|steps| - 1]), steps[|steps| - 1]);
    }
  }

  // ---------------------------------------------------------------- settlement

  /** The accounts that pay and receive a settlement. */
  predicate HasSettlementAccounts(accounts: seq<Account>, x: Instruction) {
    && Account(x.from, AccountKind.Settlement, Available) in accounts
    && Account(x.to, AccountKind.Settlement, Available) in accounts
  }

  /** The instruction has been confirmed and had money to move. */
  predicate Paid(accounts: seq<Account>, x: Instruction) {
    x.status == Confirmed && x.amount > 0.0 && HasSettlementAccounts(accounts, x)
  }

  /** Every instruction's log is a path through the transition table from `pending` to its current status,
      and its ledger transfer was posted exactly once if it settled, never otherwise. */
  lemma SettledExactlyOnce(s: State, i: nat)
    requires Reachable(s) && i < |s.instructions|
    ensures Chained(History(s.transitions, i))
    ensures s.instructions[i].status == Before(History(s.transitions, i), |History(s.transitions, i)|)
    ensures CountJournals(s.books.journals, SettlementTransfer, OfInstruction(i))
            == if Paid(s.books.accounts, s.instructions[i]) then 1 else 0
  {
    hide Safe, BusInvariant, Consistent, EventInvariant, CycleInvariant, FlatInvariant, Reachable;
    ReachableInvariant(s);
  }

  lemma {:induction false} InHistory(log: seq<Transition>, t: Transition)
    requires t in log
    ensures t in History(log, t.instruction)
  {
    var before, last := log[..|log| - 1], log[|log| - 1];
    if t != last {
      assert t in before;
      InHistory(before, t);
    }
  }

  /** Whatever happens, every row of the settlement log is about an instruction and names one of the nine status
      changes of the table. */
  lemma LoggedEdges(s: State, k: nat)
    requires Reachable(s) && k < |s.transitions|
    ensures s.transitions[k].instruction < |s.instructions|
    ensures IsEdge(s.transitions[k].from, s.transitions[k].to)
  {
    hide Safe, BusInvariant, Consistent, EventInvariant, CycleInvariant, FlatInvariant, Reachable, LinkAt;
    ReachableInvariant(s);
    var t := s.transitions[k];
    assert t in s.transitions;
    InHistory(s.transitions, t);
    var h := History(s.transitions, t.instruction);
    var j :| 0 <= j < |h| && h[j] == t;
    assert Chained(h) && LinkAt(h, j);
    LinksAreEdges(h, j);
  }

  lemma LinksAreEdges(h: seq<Transition>, j: nat)
    requires j < |h| && LinkAt(h, j)
    ensures IsEdge(h[j].from, h[j].to)
  {
  }

  /** Instruction i and its log are in t as they are in s, and no worker runs it. */
  ghost predicate Frozen(s: State, t: State, i: nat) {
    && i < |s.instructions| && i < |t.instructions|
    && t.instructions[i] == s.instructions[i]
    && History(t.transitions, i) == History(s.transitions, i)
    && i !in t.runs
  }

  lemma DeskFrozen(d: Desk, e: Desk, j: nat, i: nat)
    requires i < |d.instructions| && i !in d.runs
    requires e == d || (j != i && OnlyAt(d, e, j))
    ensures i < |e.instructions| && e.instructions[i] == d.instructions[i] && i !in e.runs
    ensures History(e.transitions, i) == History(d.transitions, i)
  {
    if e != d {
      HistoryOfOthers(d.transitions, e.transitions, i);
    }
  }

  lemma SettleFrozen(s: State, offset: nat, i: nat)
    requires i < |s.instructions| && s.instructions[i].status != Pending && i !in s.runs
    ensures Frozen(s, AfterSettle(s, offset), i)
  {
    hide Settle, OnlyAt, History;
    if offset < |s.bus.log| && s.bus.log[offset].payload.InstructionCreated? {
      var j := s.bus.log[offset].payload.instruction;
      SettleShape(DeskOf(s), j, s.adapters);
      var r := Settle(DeskOf(s), j, s.adapters);
      if r.Ok? {
        DeskFrozen(DeskOf(s), r.value, j, i);
      }
    }
  }

  lemma OnChainFrozen(s: State, j: nat, run: RunStep, i: nat)
    requires i < |s.instructions| && s.instructions[i].status != Pending && i !in s.runs
    ensures Frozen(s, WithDesk(s, NextRun(DeskOf(s), j, run)), i)
  {
    hide NextRun, OnlyAt, History;
    RunShape(DeskOf(s), j, run);
    DeskFrozen(DeskOf(s), NextRun(DeskOf(s), j, run), j, i);
  }

  lemma NextFrozen(s: State, step: Step, i: nat)
    requires i < |s.instructions| && s.instructions[i].status != Pending && i !in s.runs
    ensures Frozen(s, Next(s, step), i)
  {
    hide AfterIngest, AfterSettle, NextRun, AfterDefault, Deposit, Withdraw, TransferToMargin, VariationMarginPosting,
      CycleObligations, NextBus, History, EmitInstructions;
    match step
    case IngestTrade(offset, now) => IngestInstructions(s, offset, now);
    case SettleMessage(offset) => SettleFrozen(s, offset, i);
    case OnChain(j, run) => OnChainFrozen(s, j, run, i);
    case DeclareDefault(m, exposure) => DefaultInstructions(s, m, exposure);
    case _ =>
  }

  lemma {:induction false} RunFrozen(s: State, steps: seq<Step>, i: nat)
    requires i < |s.instructions| && s.instructions[i].status != Pending && i !in s.runs
    ensures Frozen(s, Run(s, steps), i)
  {
    hide Next, History;
    if steps != [] {
      RunFrozen(s, steps[..|steps| - 1], i);
      NextFrozen(Run(s, steps[..|steps| - 1]), steps[|steps| - 1], i);
    }
  }

  /** Nothing ever comes back to an instruction that is past `pending` and that no worker runs: no run, with
      whatever redeliveries, restarts and defaults, changes it, adds to its log or posts a transfer for it. */
  lemma NeverRevisited(s: State, steps: seq<Step>, i: nat)
    requires Reachable(s) && i < |s.instructions| && s.instructions[i].status != Pending && i !in s.runs
    ensures var t := Run(s, steps);
            && Frozen(s, t, i)
            && CountJournals(t.books.journals, SettlementTransfer, OfInstruction(i))
               == CountJournals(s.books.journals, SettlementTransfer, OfInstruction(i))
  {
    hide Reachable, Run, Appends, History, CountJournals, Settled;
    RunFrozen(s, steps, i);
    ReachableRun(s, steps);
    RunGrows(s, steps);
    SettledExactlyOnce(s, i);
    SettledExactlyOnce(Run(s, steps), i);
    SameAccounts(s, Run(s, steps));
  }

  lemma SameAccounts(s: State, t: State)
    requires Grows(s, t)
    ensures t.books.accounts == s.books.accounts
  {
  }

  /** Confirmed, failed and cancelled are final: no run changes the instruction again, adds to its log, or
      posts another transfer for it. */
  lemma TerminalForever(s: State, steps: seq<Step>, i: nat)
    requires Reachable(s) && i < |s.instructions|
    requires s.instructions[i].status in {Confirmed, Failed, Cancelled}
    ensures var t := Run(s, steps);
            && i < |t.instructions|
            && t.instructions[i] == s.instructions[i]
            && History(t.transitions, i) == History(s.transitions, i)
            && CountJournals(t.books.journals, SettlementTransfer, OfInstruction(i))
               == CountJournals(s.books.journals, SettlementTransfer, OfInstruction(i))
  {
    hide Reachable, Run, Invariant, History, CountJournals;
    ReachableInvariant(s);
    RunsPart(s);
    NeverRevisited(s, steps, i);
  }

  lemma RunsPart(s: State)
    requires Invariant(s)
    ensures RunsInvariant(s.instructions, s.runs)
  {
  }

  /** The ends of an on-chain run that decide nothing: the worker dies, or the entries table refuses the zero
      amount of the final transfer and the exception handler with it. */
  predicate Strands(d: Desk, i: nat, run: RunStep)
    requires i in d.runs && i < |d.instructions|
  {
    || run == WorkerCrash
    || (&& d.runs[i] == AfterBroadcast && run == PollConfirmed
        && HasSettlementAccounts(d.books.accounts, d.instructions[i]) && d.instructions[i].amount <= 0.0)
  }

  /** An on-chain run ends without a decision exactly in those two ways. The instruction then keeps the status
      that the run last committed (approved, signed or broadcasted) in every later state: its event is spent,
      and no later run of any length moves it, or posts its transfer. */
  lemma StrandedForever(s: State, i: nat, run: RunStep, steps: seq<Step>)
    requires Reachable(s) && i in s.runs
    ensures i < |s.instructions|
    ensures var t := Next(s, OnChain(i, run));
            && i < |t.instructions|
            && (i !in t.runs && t.instructions[i].status !in {Confirmed, Failed, Cancelled}
                <==> Strands(DeskOf(s), i, run))
    ensures Strands(DeskOf(s), i, run) ==>
      var u := Run(Next(s, OnChain(i, run)), steps);
      && i < |u.instructions|
      && u.instructions[i] == s.instructions[i] && u.instructions[i].status in {Approved, Signed, Broadcasted}
      && i !in u.runs
      && CountJournals(u.books.journals, SettlementTransfer, OfInstruction(i)) == 0
  {
    hide Reachable, Run, Invariant, History, CountJournals, Next;
    ReachableInvariant(s);
    RunsPart(s);
    var t := Next(s, OnChain(i, run));
    StrandedStep(DeskOf(s), i, run);
    assert DeskOf(t) == NextRun(DeskOf(s), i, run) by {
      OnChainDesk(s, i, run);
    }
    if Strands(DeskOf(s), i, run) {
      ReachableNext(s, OnChain(i, run));
      NeverRevisited(t, steps, i);
      SettledExactlyOnce(t, i);
    }
  }

  lemma OnChainDesk(s: State, i: nat, run: RunStep)
    ensures DeskOf(Next(s, OnChain(i, run))) == NextRun(DeskOf(s), i, run)
  {
    hide NextRun;
  }

  lemma StrandedStep(d: Desk, i: nat, run: RunStep)
    requires RunsInvariant(d.instructions, d.runs) && i in d.runs
    ensures var e := NextRun(d, i, run);
            && i < |e.instructions|
            && (i !in e.runs && e.instructions[i].status !in {Confirmed, Failed, Cancelled} <==> Strands(d, i, run))
            && (Strands(d, i, run) ==> e.instructions[i] == d.instructions[i])
  {
    hide Post;
  }

  lemma ReachableNext(s: State, step: Step)
    requires Reachable(s)
    ensures Reachable(Next(s, step))
  {
    hide Initial, Next;
    assert [step][..0] == [] && Run(s, [step]) == Next(s, step);
    ReachableRun(s, [step]);
  }

  /** A confirmed instruction has been approved, signed, broadcast and confirmed, once each and in this
      order, and so its log reads. */
  lemma ConfirmedHistory(s: State, i: nat)
    requires Reachable(s) && i < |s.instructions| && s.instructions[i].status == Confirmed
    ensures var h := History(s.transitions, i);
            && |h| == 4
            && h[0].from == Pending && h[0].to == h[1].from == Approved
            && h[1].to == h[2].from == Signed && h[2].to == h[3].from == Broadcasted && h[3].to == Confirmed
  {
    hide Reachable;
    SettledExactlyOnce(s, i);
    OnePathToConfirmed(History(s.transitions, i));
  }

  lemma EventPart(s: State, e: nat)
    requires Invariant(s) && e < |s.bus.rows| && s.bus.rows[e].payload.InstructionCreated?
    ensures var i := s.bus.rows[e].payload.instruction;
            i < |s.instructions| && (s.instructions[i].status == Pending <==> Mark(SettlementEngine, e) !in s.processed)
  {
    hide Safe, BusInvariant, Consistent, EventInvariant, CycleInvariant, FlatInvariant, DeskInvariant, TypedInvariant;
    assert Payloads(s.bus.rows)[e] == s.bus.rows[e].payload;
  }

  /** Every instruction has exactly one event row in the outbox, and is pending exactly as long as the
      settlement engine has not processed that event. */
  lemma OneEventPerInstruction(s: State, i: nat)
    requires Reachable(s) && i < |s.instructions|
    ensures exists e :: 0 <= e < |s.bus.rows| && s.bus.rows[e].payload == InstructionCreated(i)
    ensures forall e, f | 0 <= e < |s.bus.rows| && 0 <= f < |s.bus.rows| ::
              s.bus.rows[e].payload == InstructionCreated(i) == s.bus.rows[f].payload ==> e == f
    ensures forall e | 0 <= e < |s.bus.rows| && s.bus.rows[e].payload == InstructionCreated(i) ::
              s.instructions[i].status == Pending <==> Mark(SettlementEngine, e) !in s.effects
  {
    hide Safe, BusInvariant, Consistent, EventInvariant, CycleInvariant, FlatInvariant, DeskInvariant, TypedInvariant,
      Reachable;
    ReachableInvariant(s);
    var events := Payloads(s.bus.rows);
    assert forall e | 0 <= e < |events| :: events[e] == s.bus.rows[e].payload;
    assert IsAnnounced(events, i);
    var e :| 0 <= e < |events| && events[e] == InstructionCreated(i);
    assert s.bus.rows[e].payload == InstructionCreated(i);
  }

  /** The first delivery of a cash instruction's event decides it: confirmed if payer and payee have a SETTLEMENT
      AVAILABLE account, failed otherwise, and the event is spent. Confirming takes the amount from the payer's
      account, brings it to the payee's, and moves no other account of the ledger, whatever its kind or pool. */
  lemma CashDecidedOnDelivery(s: State, offset: nat, a: Account)
    requires Reachable(s) && offset < |s.bus.log| && s.bus.log[offset].payload.InstructionCreated?
    requires Mark(SettlementEngine, s.bus.log[offset].event) !in s.processed
    requires var i := s.bus.log[offset].payload.instruction;
             i < |s.instructions| ==> s.instructions[i].settlement == Cash
    ensures var t := Next(s, SettleMessage(offset));
            var i := s.bus.log[offset].payload.instruction;
            && i < |s.instructions| == |t.instructions|
            && var x := s.instructions[i];
               var payer, payee :=
                 Account(x.from, AccountKind.Settlement, Available), Account(x.to, AccountKind.Settlement, Available);
               var confirmed := payer in s.books.accounts && payee in s.books.accounts;
               && x.status == Pending && x.amount >= 0.0
               && t.instructions == s.instructions[i := x.(status := if confirmed then Confirmed else Failed)]
               && t.books.accounts == s.books.accounts
               && t.books.journals ==
                    s.books.journals + (if confirmed && x.amount > 0.0
                                        then [Journal(SettlementTransfer, OfInstruction(i), JournalConfirmed)] else [])
               && Mark(SettlementEngine, s.bus.log[offset].event) in t.processed
               && Balance(t.books, a)
                  == Balance(s.books, a) + (if confirmed && a == payee then x.amount else 0.0)
                                         - (if confirmed && a == payer then x.amount else 0.0)
               && KindBalance(t.books, SettlementTransfer, a)
                  == KindBalance(s.books, SettlementTransfer, a) + (if confirmed && a == payee then x.amount else 0.0)
                                                                 - (if confirmed && a == payer then x.amount else 0.0)
  {
    hide KindBalance, Balance, Reachable, Invariant, SettleCash;
    ReachableInvariant(s);
    MessagePart(s, offset);
    EventPart(s, s.bus.log[offset].event);
    SoundParts(s);
    AmountsNonNegative(s);
    var i := s.bus.log[offset].payload.instruction;
    assert s.instructions[i] in s.instructions;
    CashPosts(DeskOf(s), i, a);
  }

  /** The first delivery of any other instruction's event. Without a chain it fails; with a chain that has no adapter
      the whole transaction is rolled back, the mark too; otherwise it is approved and its on-chain run is under
      way. The status change is logged, the event is spent, and no money moves yet. */
  lemma ChainDecidedOnDelivery(s: State, offset: nat)
    requires Reachable(s) && offset < |s.bus.log| && s.bus.log[offset].payload.InstructionCreated?
    requires Mark(SettlementEngine, s.bus.log[offset].event) !in s.processed
    requires var i := s.bus.log[offset].payload.instruction;
             i < |s.instructions| ==> s.instructions[i].settlement != Cash
    ensures var t, mark := Next(s, SettleMessage(offset)), Mark(SettlementEngine, s.bus.log[offset].event);
            var i := s.bus.log[offset].payload.instruction;
            && i < |s.instructions|
            && var x := s.instructions[i];
               && x.status == Pending
               && if x.chain.Some? && x.chain.value !in s.adapters then t == s
                  else
                    var status := if x.chain.None? then Failed else Approved;
                    t == s.(instructions := s.instructions[i := x.(status := status)],
                            transitions := s.transitions + [Transition(i, Pending, status)],
                            runs := if x.chain.None? then s.runs else s.runs[i := AfterApproval],
                            processed := s.processed + {mark},
                            effects := s.effects + [mark])
  {
    hide Reachable, Invariant, SettleCash;
    ReachableInvariant(s);
    MessagePart(s, offset);
    EventPart(s, s.bus.log[offset].event);
  }

  /** What _settle_cash posts. */
  lemma CashPosts(d: Desk, i: nat, a: Account)
    requires WellFormed(d.books) && i < |d.instructions| && d.instructions[i].amount >= 0.0
    ensures var x, e := d.instructions[i], SettleCash(d, i);
            var payer, payee :=
              Account(x.from, AccountKind.Settlement, Available), Account(x.to, AccountKind.Settlement, Available);
            var confirmed := payer in d.books.accounts && payee in d.books.accounts;
            var moved := if confirmed
                         then (if a == payee then x.amount else 0.0) - (if a == payer then x.amount else 0.0) else 0.0;
            && e.instructions == d.instructions[i := x.(status := if confirmed then Confirmed else Failed)]
            && e.books.accounts == d.books.accounts
            && e.books.journals ==
                 d.books.journals + (if confirmed && x.amount > 0.0
                                     then [Journal(SettlementTransfer, OfInstruction(i), JournalConfirmed)] else [])
            && Balance(e.books, a) == Balance(d.books, a) + moved
            && KindBalance(e.books, SettlementTransfer, a) == KindBalance(d.books, SettlementTransfer, a) + moved
  {
    hide KindBalance, Balance, WellFormed;
    var x := d.instructions[i];
    var lines := TransferLines(x);
    PostMoves(d.books, SettlementTransfer, OfInstruction(i), lines, a);
    PostMovesKind(d.books, SettlementTransfer, OfInstruction(i), lines, SettlementTransfer, a);
    TransferNet(SettlementAccount(x.to), SettlementAccount(x.from), x.amount, a);
  }

  lemma MessagePart(s: State, offset: nat)
    requires Invariant(s) && offset < |s.bus.log|
    ensures var m := s.bus.log[offset]; m.event < |s.bus.rows| && m.payload == s.bus.rows[m.event].payload
  {
    hide Safe, Consistent, EventInvariant, CycleInvariant, FlatInvariant, DeskInvariant, TypedInvariant,
      InstructionInvariant;
    assert s.bus.log[offset] in s.bus.log;
  }

  // ---------------------------------------------------------------- trades and netting

  /** In every reachable state a novated trade has exactly one BUY and one SELL leg, of its quantity and
      price and for its parties; a submitted or rejected trade has none. */
  lemma TradeLegs(s: State, t: nat)
    requires Reachable(s) && t < |s.trades|
    ensures s.trades[t].status != Novated ==> forall i | 0 <= i < |s.legs| :: s.legs[i].trade != t
    ensures s.trades[t].status == Novated ==>
      exists i, j ::
        && 0 <= i < |s.legs| && 0 <= j < |s.legs|
        && s.legs[i] == Leg(t, s.trades[t].data.buyer, s.trades[t].data.instrument, Buy, s.trades[t].data.quantity,
                            s.trades[t].data.price, s.legs[i].status, s.legs[i].novatedAt)
        && s.legs[j] == Leg(t, s.trades[t].data.seller, s.trades[t].data.instrument, Sell,
                            s.trades[t].data.quantity, s.trades[t].data.price, s.legs[i].status,
                            s.legs[i].novatedAt)
        && forall l | 0 <= l < |s.legs| && s.legs[l].trade == t :: l == i || l == j
  {
    hide Safe, BusInvariant, Consistent, EventInvariant, CycleInvariant, FlatInvariant, DeskInvariant, Reachable;
    ReachableInvariant(s);
    LegsOfTrade(s.trades, s.legs, t);
  }

  /** Over any interleaving of novations and cycles: per member and instrument, what the cycles netted and
      what is still open add up to everything ever novated; a leg is netted by exactly one cycle if its
      status says so, and by none otherwise. */
  lemma NettingConservedOverRuns(s: State, k: Key)
    requires Reachable(s)
    ensures Sum(s.cycles, CycleNetOn(k)) + Sum(s.legs, OpenOn(k)) == Sum(s.legs, EverOn(k))
    ensures forall i | 0 <= i < |s.legs| :: s.legs[i].status == Netted <==> exists c :: NettedBy(s.cycles, c, i)
    ensures forall c, d, i | NettedBy(s.cycles, c, i) && NettedBy(s.cycles, d, i) :: c == d
    ensures forall c, x: InstrumentId | c in s.cycles :: Sum(c.obligations, AmountIn(x)) == 0.0
  {
    hide Safe, BusInvariant, Consistent, EventInvariant, FlatInvariant, DeskInvariant, Reachable, Sum;
    ReachableInvariant(s);
    assert Conserved(s.cycles, s.legs, k);
    forall c, x: InstrumentId | c in s.cycles ensures Sum(c.obligations, AmountIn(x)) == 0.0 {
      assert FlatCycle(c);
    }
  }

  // ---------------------------------------------------------------- events

  /** In every reachable state: each (service, event) has had its effect committed at most once, and only
      for a committed outbox row addressed to that service; no two publishers hold one row; a published
      row is in the log; the copies of a row are at most 1 + the aborted batches that contained it. */
  lemma AtMostOnceEffect(s: State)
    requires Reachable(s)
    ensures Distinct(s.effects)
    ensures forall m | m in s.effects :: m.event < |s.bus.rows| && Topic(s.bus.rows[m.event].payload) == m.service
    ensures LocksDisjoint(s.bus)
    ensures forall e :: 0 <= e < |s.bus.rows| ==>
              && (s.bus.rows[e].published ==> Copies(s.bus.log, e) >= 1)
              && Copies(s.bus.log, e) <= 1 + Aborts(s.bus.aborted, e)
  {
    hide Safe, Consistent, CycleInvariant, FlatInvariant, TypedInvariant, DeskInvariant, Reachable, BatchesValid,
      LogFaithful, InFlightLogged, InFlight;
    ReachableInvariant(s);
    forall m | m in s.effects
      ensures m.event < |s.bus.rows| && Topic(s.bus.rows[m.event].payload) == m.service
    {
      assert m in s.processed;
      assert Payloads(s.bus.rows)[m.event] == s.bus.rows[m.event].payload;
    }
  }

  lemma IngestIsNext(s: State, offset: nat, now: int)
    ensures Next(s, IngestTrade(offset, now)) == AfterIngest(s, offset, now)
  {
    hide AfterIngest;
  }

  /** Once an event is marked, every later delivery of any copy of it changes nothing at all. */
  lemma RedeliveryIgnored(s: State, steps: seq<Step>, offset: nat, now: int)
    requires var t := Run(s, steps);
             offset < |t.bus.log|
             && Mark(Topic(t.bus.log[offset].payload), t.bus.log[offset].event) in s.processed
    ensures var t := Run(s, steps); AfterIngest(t, offset, now) == t && AfterSettle(t, offset) == t
  {
    hide Run, Process, Settle;
    RunGrows(s, steps);
  }

  /** A submitted trade's event: processed exactly when the trade has left `submitted`, whatever the
      number of deliveries. */
  lemma TradeDecidedOnce(s: State, e: nat)
    requires Reachable(s) && e < |s.bus.rows| && s.bus.rows[e].payload.TradeSubmitted?
    ensures var t := s.bus.rows[e].payload.trade;
            && t < |s.trades|
            && s.bus.rows[e].payload.data == s.trades[t].data
            && (s.trades[t].status != Submitted <==> Mark(TradeIngestion, e) in s.effects)
  {
    hide Safe, Consistent, CycleInvariant, FlatInvariant, TypedInvariant, DeskInvariant, Reachable, BusInvariant;
    ReachableInvariant(s);
    assert Payloads(s.bus.rows)[e] == s.bus.rows[e].payload;
  }

  // ---------------------------------------------------------------- the CCP ends flat

  function InstrumentOf(): Instruction -> int {
    (x: Instruction) => x.instrument
  }

  function Ceiling(instructions: seq<Instruction>): (n: nat)
    ensures forall x | x in instructions :: x.instrument < n
  {
    if instructions == [] then 0
    else
      var n, last := Ceiling(instructions[..|instructions| - 1]), instructions[|instructions| - 1];
      assert forall x | x in instructions :: x in instructions[..|instructions| - 1] || x == last;
      if last.instrument < n then n else last.instrument + 1
  }

  /** Of the instructions of one instrument that move money, either all have settled or none has. */
  ghost predicate AllOrNone(accounts: seq<Account>, instructions: seq<Instruction>) {
    forall x, y | x in instructions && y in instructions && x.instrument == y.instrument
                  && x.amount > 0.0 && y.amount > 0.0 && Paid(accounts, x) :: Paid(accounts, y)
  }

  lemma OneInstrumentFlat(accounts: seq<Account>, instructions: seq<Instruction>, house: MemberId, x: InstrumentId)
    requires AllOrNone(accounts, instructions)
    requires forall i | i in instructions :: i.amount >= 0.0
    requires Sum(instructions, FlowIn(x, house)) == 0.0
    ensures Sum(instructions, Bucket(SettledFlow(accounts, house), InstrumentOf(), x)) == 0.0
  {
    var settled := Bucket(SettledFlow(accounts, house), InstrumentOf(), x);
    if y :| y in instructions && y.instrument == x && Settled(accounts, y) {
      forall i | 0 <= i < |instructions| ensures settled(instructions[i]) == FlowIn(x, house)(instructions[i]) {
        var z := instructions[i];
        assert z in instructions;
        assert z.instrument == x && z.amount > 0.0 ==> Settled(accounts, z);
        assert z.amount == 0.0 ==> FlowTo(house)(z) == 0.0;
      }
      SumPointwise(instructions, settled, FlowIn(x, house));
    } else {
      forall i | 0 <= i < |instructions| ensures settled(instructions[i]) == 0.0 {
        assert instructions[i] in instructions;
      }
      SumZero(instructions, settled);
    }
  }

  lemma AmountsNonNegative(s: State)
    requires Invariant(s)
    ensures forall x | x in s.instructions :: x.amount >= 0.0
  {
    hide Safe, BusInvariant, Consistent, EventInvariant, CycleInvariant, FlatInvariant, DeskInvariant;
  }

  lemma HouseTotal(s: State, m: MemberId)
    requires Invariant(s)
    ensures KindBalance(s.books, SettlementTransfer, Account(m, AccountKind.Settlement, Available))
            == Sum(s.instructions, SettledFlow(s.books.accounts, m))
  {
    hide Safe, BusInvariant, Consistent, EventInvariant, CycleInvariant, FlatInvariant, TypedInvariant;
  }

  lemma FlatParts(s: State, house: MemberId)
    requires Invariant(s) && s.house == Some(house) && HouseNotParty(s.trades, house)
    ensures FlatFor(house, s.cycles, s.instructions)
  {
    hide Safe, BusInvariant, Consistent, EventInvariant, CycleInvariant, DeskInvariant, TypedInvariant;
  }

  /** The CCP ends flat, instrument by instrument: whenever of every instrument either all or none of the
      instructions have settled, settlement as a whole has left the CCP's settlement balance unchanged. */
  lemma HouseFlatWhenSettled(s: State, house: MemberId)
    requires Reachable(s) && s.house == Some(house) && HouseNotParty(s.trades, house)
    requires AllOrNone(s.books.accounts, s.instructions)
    ensures KindBalance(s.books, SettlementTransfer, Account(house, AccountKind.Settlement, Available)) == 0.0
  {
    hide Invariant, Reachable, KindBalance, Sum, AllOrNone, HouseNotParty;
    ReachableInvariant(s);
    AmountsNonNegative(s);
    FlatParts(s, house);
    HouseTotal(s, house);
    var n := Ceiling(s.instructions);
    forall i | 0 <= i < |s.instructions| ensures 0 <= InstrumentOf()(s.instructions[i]) < n {
      assert s.instructions[i] in s.instructions;
    }
    forall x | 0 <= x < n
      ensures Sum(s.instructions, Bucket(SettledFlow(s.books.accounts, house), InstrumentOf(), x)) == 0.0
    {
      OneInstrumentFlat(s.books.accounts, s.instructions, house, x);
    }
    GroupsCancel(s.instructions, SettledFlow(s.books.accounts, house), InstrumentOf(), n);
  }

  // ---------------------------------------------------------------- cash settlement

  ghost predicate NoChains(instructions: seq<Instruction>) {
    forall x | x in instructions :: x.chain.None?
  }

  lemma NextNoChains(s: State, step: Step)
    requires NoChains(s.instructions) && !step.RouteToChain?
    ensures NoChains(Next(s, step).instructions)
  {
    hide AfterIngest, Settle, NextRun, AfterDefault, Deposit, Withdraw, TransferToMargin, VariationMarginPosting,
      CycleObligations, NextBus;
    match step
    case IngestTrade(offset, now) => IngestInstructions(s, offset, now);
    case SettleMessage(offset) =>
      if offset < |s.bus.log| && s.bus.log[offset].payload.InstructionCreated? {
        SettleShape(DeskOf(s), s.bus.log[offset].payload.instruction, s.adapters);
      }
    case OnChain(i, run) => RunShape(DeskOf(s), i, run);
    case DeclareDefault(m, exposure) => DefaultInstructions(s, m, exposure);
    case _ =>
  }

  lemma IngestInstructions(s: State, offset: nat, now: int)
    ensures var t := AfterIngest(s, offset, now);
            && t.instructions == s.instructions && t.transitions == s.transitions && t.runs == s.runs
            && t.adapters == s.adapters
  {
    hide Process;
  }

  lemma DefaultInstructions(s: State, m: MemberId, exposure: real)
    ensures var t := AfterDefault(s, m, exposure);
            && t.instructions == s.instructions && t.transitions == s.transitions && t.runs == s.runs
            && t.adapters == s.adapters
  {
    hide Execute, PayAll, TriggerAccepts;
  }

  lemma {:induction false} RunNoChains(s: State, steps: seq<Step>)
    requires NoChains(s.instructions) && forall st | st in steps :: !st.RouteToChain?
    ensures NoChains(Run(s, steps).instructions)
  {
    hide Next, NoChains;
    if steps != [] {
      RunNoChains(s, steps[..|steps| - 1]);
      NextNoChains(Run(s, steps[..|steps| - 1]), steps[|steps| - 1]);
    }
  }

  /** The settlement engine has processed the event of every instruction. */
  ghost predicate AllDelivered(s: State) {
    forall e | 0 <= e < |s.bus.rows| && s.bus.rows[e].payload.InstructionCreated? ::
      Mark(SettlementEngine, e) in s.processed
  }

  /** Every cash instruction finds the settlement accounts of its payer and its payee. */
  ghost predicate CashAccountsExist(s: State) {
    forall x | x in s.instructions && x.settlement == Cash :: HasSettlementAccounts(s.books.accounts, x)
  }

  lemma CashSettles(s: State, i: nat)
    requires Reachable(s) && NoChains(s.instructions) && AllDelivered(s) && CashAccountsExist(s)
    requires i < |s.instructions|
    ensures var x := s.instructions[i];
            && x.settlement == TypeOf(s.instruments)(x.instrument)
            && (Paid(s.books.accounts, x) <==> x.settlement == Cash && x.amount > 0.0)
            && (Settled(s.books.accounts, x) <==> x.settlement == Cash && x.amount > 0.0)
  {
    hide Safe, BusInvariant, Consistent, EventInvariant, InstructionInvariant, CycleInvariant, FlatInvariant,
      DeskInvariant, Reachable;
    ReachableInvariant(s);
    var x := s.instructions[i];
    assert x in s.instructions;
    assert WellTyped(s.instruments, s.books.accounts, x, i in s.runs);
    OneEventPerInstruction(s, i);
    var e :| 0 <= e < |s.bus.rows| && s.bus.rows[e].payload == InstructionCreated(i);
    assert Mark(SettlementEngine, e) in s.processed;
  }

  /** The headline theorem. Take any run of the system as its services drive it (none of them gives an
      instruction a chain) after which the settlement engine has processed the event of every instruction,
      where the parties of the cash instructions have settlement accounts. Settlement has then left the CCP's
      settlement balance unchanged, and moved every other member's by exactly minus the sum of its cash net
      amounts over all cycles. */
  lemma CcpEndsFlat(s0: State, contributions: seq<Contribution>, steps: seq<Step>, house: MemberId, m: MemberId)
    requires Initial(s0, contributions)
    requires forall st | st in steps :: !st.RouteToChain?
    requires var s := Run(s0, steps);
             && s.house == Some(house) && HouseNotParty(s.trades, house) && m != house
             && AllDelivered(s) && CashAccountsExist(s)
    ensures var b := Run(s0, steps).books;
            && KindBalance(b, SettlementTransfer, Account(house, AccountKind.Settlement, Available)) == 0.0
            && KindBalance(b, SettlementTransfer, Account(m, AccountKind.Settlement, Available))
               == -Sum(Run(s0, steps).cycles, CycleAmountOf(Cash, m))
  {
    hide Invariant, KindBalance, Sum, HouseNotParty, Run, NoChains, AllDelivered, CashAccountsExist, Settled, Paid;
    var s := Run(s0, steps);
    assert Reachable(s);
    ReachableInvariant(s);
    RunNoChains(s0, steps) by {
      InitialNoChains(s0, contributions);
    }
    forall x | x in s.instructions
      ensures x.settlement == TypeOf(s.instruments)(x.instrument)
      ensures Paid(s.books.accounts, x) <==> x.settlement == Cash && x.amount > 0.0
      ensures Settled(s.books.accounts, x) <==> x.settlement == Cash && x.amount > 0.0
    {
      var i :| 0 <= i < |s.instructions| && s.instructions[i] == x;
      CashSettles(s, i);
    }
    HouseFlatWhenSettled(s, house);
    AmountsNonNegative(s);
    FlatParts(s, house);
    HouseTotal(s, m);
    forall i | 0 <= i < |s.instructions|
      ensures SettledFlow(s.books.accounts, m)(s.instructions[i]) == FlowOf(Cash, m)(s.instructions[i])
    {
      var z := s.instructions[i];
      assert z in s.instructions;
      assert z.amount == 0.0 ==> FlowTo(m)(z) == 0.0;
    }
    SumPointwise(s.instructions, SettledFlow(s.books.accounts, m), FlowOf(Cash, m));
  }

  lemma InitialNoChains(s: State, contributions: seq<Contribution>)
    requires Initial(s, contributions)
    ensures NoChains(s.instructions)
  {
  }
}
