/** Settlement as the service runs it. A cash instruction settles in one transaction. An on-chain one is a
    run of several: each method of the second part is what one worker does between two of its commits. */
module SettlementEngine {
  import opened Options
  import opened Ledger
  import opened Registry
  import opened Model
  import opened Settlement
  import opened System
  import opened Store
  import opened TradeIngestion
  import opened Chain

  /** _advance_status: refuses, changing nothing, what is no edge of the table. */
  method AdvanceStatus(db: Database, i: nat, from: InstructionStatus, to: InstructionStatus) returns (advanced: bool)
    requires i < |db.instructions|
    modifies db`instructions, db`transitions
    ensures advanced <==> IsEdge(from, to)
    ensures DeskOf(db.Snapshot())
            == if advanced then SetStatus(old(DeskOf(db.Snapshot())), i, from, to) else old(DeskOf(db.Snapshot()))
  {
    advanced := to in Allowed(from);
    if advanced {
      db.instructions := db.instructions[i := db.instructions[i].(status := to)];
      db.transitions := db.transitions + [Transition(i, from, to)];
    }
  }

  /** _fail_instruction: validates nothing. */
  method FailInstruction(db: Database, i: nat, from: InstructionStatus)
    requires i < |db.instructions|
    modifies db`instructions, db`transitions
    ensures DeskOf(db.Snapshot()) == Fail(old(DeskOf(db.Snapshot())), i, from)
  {
    db.instructions := db.instructions[i := db.instructions[i].(status := Failed)];
    db.transitions := db.transitions + [Transition(i, from, Failed)];
  }

  /** _settle_cash. */
  method SettleCashInstruction(db: Database, i: nat)
    requires i < |db.instructions|
    modifies db`books, db`instructions, db`transitions
    ensures DeskOf(db.Snapshot()) == SettleCash(old(DeskOf(db.Snapshot())), i)
  {
    hide Post;
    var x := db.instructions[i];
    var from, to := SettlementAccount(x.from), SettlementAccount(x.to);
    if from !in db.books.accounts || to !in db.books.accounts {
      FailInstruction(db, i, Pending);
      return;
    }
    PassThrough(db, i);
    if x.amount > 0.0 {
      var _ := db.InsertTransfer(SettlementTransfer, OfInstruction(i), Credit(from, x.amount), Debit(to, x.amount));
    }
    var _ := AdvanceStatus(db, i, Broadcasted, Confirmed);
  }

  /** The three statuses that a cash instruction only passes through. */
  method PassThrough(db: Database, i: nat)
    requires i < |db.instructions|
    modifies db`instructions, db`transitions
    ensures DeskOf(db.Snapshot())
            == Advance(Advance(Advance(old(DeskOf(db.Snapshot())), i, Pending, Approved), i, Approved, Signed), i,
                       Signed, Broadcasted)
  {
    var _ := AdvanceStatus(db, i, Pending, Approved);
    var _ := AdvanceStatus(db, i, Approved, Signed);
    var _ := AdvanceStatus(db, i, Signed, Broadcasted);
  }

  /** _settle_dvp up to its first commit. */
  method BeginDvp(db: Database, i: nat) returns (r: Result<()>)
    requires i < |db.instructions|
    modifies db`instructions, db`transitions, db`runs
    ensures var x := StartDvp(old(DeskOf(db.Snapshot())), i, db.adapters);
            && (x.Ok? ==> r == Ok(()) && DeskOf(db.Snapshot()) == x.value)
            && (x.Raised? ==> r == Raised(x.error) && DeskOf(db.Snapshot()) == old(DeskOf(db.Snapshot())))
  {
    if db.instructions[i].chain.None? {
      FailInstruction(db, i, Pending);
      return Ok(());
    }
    if db.instructions[i].chain.value !in db.adapters {
      return Raised(MissingAdapter);
    }
    var _ := AdvanceStatus(db, i, Pending, Approved);
    db.runs := db.runs[i := AfterApproval];
    r := Ok(());
  }

  /** settle_instruction: only a pending instruction is looked at. */
  method SettleInstruction(db: Database, i: nat) returns (r: Result<()>)
    modifies db`books, db`instructions, db`transitions, db`runs
    ensures var x := Settle(old(DeskOf(db.Snapshot())), i, db.adapters);
            && (x.Ok? ==> r == Ok(()) && DeskOf(db.Snapshot()) == x.value)
            && (x.Raised? ==> r == Raised(x.error) && DeskOf(db.Snapshot()) == old(DeskOf(db.Snapshot())))
  {
    hide SettleCash, StartDvp;
    if i >= |db.instructions| || db.instructions[i].status != Pending {
      return Ok(());
    }
    if db.instructions[i].settlement == Cash {
      SettleCashInstruction(db, i);
      r := Ok(());
    } else {
      r := BeginDvp(db, i);
    }
  }

  /** One message of the settlement consumer: the mark and the settlement in one transaction; an exception
      closes the connection, so that the mark is rolled back too. */
  method HandleInstruction(db: Database, offset: nat)
    requires offset < |db.bus.log| && db.bus.log[offset].payload.InstructionCreated?
    modifies db`books, db`instructions, db`transitions, db`runs, db`processed, db`effects
    ensures db.Snapshot() == AfterSettle(old(db.Snapshot()), offset)
  {
    hide Settle;
    var m := db.bus.log[offset];
    var processed, effects := db.processed, db.effects;
    var isNew := ProcessIfNew(db, Service.SettlementEngine, m.event);
    if isNew {
      ghost var d := DeskOf(db.Snapshot());
      var r := SettleInstruction(db, m.payload.instruction);
      if r.Raised? {
        db.processed, db.effects := processed, effects;
        assert DeskOf(db.Snapshot()) == d;
      }
    }
  }

  // ---------------------------------------------------------------- the on-chain run

  method DropRun(db: Database, i: nat)
    modifies db`runs
    ensures DeskOf(db.Snapshot()) == EndRun(old(DeskOf(db.Snapshot())), i)
  {
    db.runs := map j | j in db.runs && j != i :: db.runs[j];
  }

  /** From the signing call to the next commit. */
  method AfterSignCall(db: Database, i: nat, returned: bool)
    requires i in db.runs && db.runs[i] == AfterApproval && i < |db.instructions|
    modifies db`instructions, db`transitions, db`runs
    ensures DeskOf(db.Snapshot())
            == NextRun(old(DeskOf(db.Snapshot())), i, if returned then SignReturned else ExternalFailure)
  {
    if returned {
      var _ := AdvanceStatus(db, i, Approved, Signed);
      db.runs := db.runs[i := AfterSigning];
    } else {
      DropRun(db, i);
      FailInstruction(db, i, Approved);
    }
  }

  /** From the submission to the next commit. */
  method AfterSubmitCall(db: Database, i: nat, returned: bool)
    requires i in db.runs && db.runs[i] == AfterSigning && i < |db.instructions|
    modifies db`instructions, db`transitions, db`runs
    ensures DeskOf(db.Snapshot())
            == NextRun(old(DeskOf(db.Snapshot())), i, if returned then SubmitReturned else ExternalFailure)
  {
    if returned {
      var _ := AdvanceStatus(db, i, Signed, Broadcasted);
      db.runs := db.runs[i := AfterBroadcast];
    } else {
      DropRun(db, i);
      FailInstruction(db, i, Approved);
    }
  }

  /** _finalize_dvp. A refused entry raises inside the transaction; the exception handler then cannot write
      either, and the whole transaction is lost. */
  method FinalizeDvp(db: Database, i: nat)
    requires i in db.runs && i < |db.instructions|
    modifies db`books, db`instructions, db`transitions, db`runs
    ensures DeskOf(db.Snapshot()) == Finalize(old(DeskOf(db.Snapshot())), i)
  {
    hide Post;
    var x := db.instructions[i];
    var from, to := SettlementAccount(x.from), SettlementAccount(x.to);
    DropRun(db, i);
    if from in db.books.accounts && to in db.books.accounts {
      var books := db.books;
      var inserted :=
        db.InsertTransfer(SettlementTransfer, OfInstruction(i), Credit(from, x.amount), Debit(to, x.amount));
      if !inserted {
        db.books := books;
        return;
      }
    }
    var _ := AdvanceStatus(db, i, Broadcasted, Confirmed);
  }

  /** From the end of polling to the last commit. */
  method AfterPolling(db: Database, i: nat, result: TxResult)
    requires i in db.runs && db.runs[i] == AfterBroadcast && i < |db.instructions|
    modifies db`books, db`instructions, db`transitions, db`runs
    ensures DeskOf(db.Snapshot())
            == NextRun(old(DeskOf(db.Snapshot())), i,
                       if result.status == TxConfirmed then PollConfirmed else PollFailed)
  {
    hide Finalize;
    if result.status == TxConfirmed {
      FinalizeDvp(db, i);
    } else {
      DropRun(db, i);
      FailInstruction(db, i, Broadcasted);
    }
  }

  /** The steps of a run whose calls answered like this. */
  function RunSteps(i: nat, signed: bool, submitted: bool, confirmed: bool): seq<Step> {
    if !signed then [OnChain(i, ExternalFailure)]
    else if !submitted then [OnChain(i, SignReturned), OnChain(i, ExternalFailure)]
    else
      [OnChain(i, SignReturned), OnChain(i, SubmitReturned),
       OnChain(i, if confirmed then PollConfirmed else PollFailed)]
  }

  /** _settle_dvp after its first commit, with no other worker in between: the signing and submission calls
      either answer or raise, and the stub chain is polled. It amounts to the run's steps, where the chain
      confirms exactly when it requires at most 31 confirmations. */
  method RunDvp(db: Database, i: nat, adapter: StubChainAdapter, tx: TxHash, signed: bool, submitted: bool)
    requires i in db.runs && db.runs[i] == AfterApproval && i < |db.instructions|
    modifies db`books, db`instructions, db`transitions, db`runs, adapter
    ensures db.Snapshot()
            == Run(old(db.Snapshot()),
                   RunSteps(i, signed, submitted, adapter.confirmationsRequired <= 31))
  {
    hide NextRun;
    ghost var s := db.Snapshot();
    AfterSignCall(db, i, signed);
    if !signed {
      RunOne(s, OnChain(i, ExternalFailure));
      return;
    }
    RunPoints(DeskOf(s), i);
    ghost var s1 := db.Snapshot();
    if submitted {
      var _ := adapter.SubmitSignedTx(tx);
    }
    AfterSubmitCall(db, i, submitted);
    if !submitted {
      RunTwo(s, OnChain(i, SignReturned), OnChain(i, ExternalFailure));
      return;
    }
    RunPoints(DeskOf(s1), i);
    var result := PollConfirmations(adapter, tx);
    AfterPolling(db, i, result);
    RunThree(s, OnChain(i, SignReturned), OnChain(i, SubmitReturned),
             OnChain(i, if result.status == TxConfirmed then PollConfirmed else PollFailed));
  }

  lemma RunPoints(d: Desk, i: nat)
    requires i in d.runs && i < |d.instructions|
    ensures d.runs[i] == AfterApproval ==>
      var e := NextRun(d, i, SignReturned);
      i in e.runs && e.runs[i] == AfterSigning && i < |e.instructions|
    ensures d.runs[i] == AfterSigning ==>
      var e := NextRun(d, i, SubmitReturned);
      i in e.runs && e.runs[i] == AfterBroadcast && i < |e.instructions|
  {
  }

  lemma RunOne(s: State, a: Step)
    ensures Run(s, [a]) == Next(s, a)
  {
    hide Next;
    assert [a][..0] == [];
  }

  lemma RunTwo(s: State, a: Step, b: Step)
    ensures Run(s, [a, b]) == Next(Next(s, a), b)
  {
    hide Next;
    assert [a, b][..1] == [a];
    RunOne(s, a);
  }

  lemma RunThree(s: State, a: Step, b: Step, c: Step)
    ensures Run(s, [a, b, c]) == Next(Next(Next(s, a), b), c)
  {
    hide Next;
    assert [a, b, c][..2] == [a, b];
    RunTwo(s, a, b);
  }

  /** How a run ends. If a call raises or the chain does not confirm, the instruction fails and nothing is posted.
      Otherwise, with both SETTLEMENT AVAILABLE accounts there and a positive amount, it is confirmed, and one
      journal takes the amount from the payer's account to the payee's and moves no other. With an account missing
      it is confirmed without a journal; with both there and nothing to move it stays broadcasted for want of a
      commit. */
  lemma RunOutcome(s: State, i: nat, signed: bool, submitted: bool, confirmed: bool, a: Account)
    requires i in s.runs && s.runs[i] == AfterApproval && i < |s.instructions|
    ensures var t, x := Run(s, RunSteps(i, signed, submitted, confirmed)), s.instructions[i];
            var payer, payee :=
              Account(x.from, AccountKind.Settlement, Available), Account(x.to, AccountKind.Settlement, Available);
            var found := payer in s.books.accounts && payee in s.books.accounts;
            var answered := signed && submitted && confirmed;
            var posted := answered && found && x.amount > 0.0;
            && i !in t.runs
            && t.instructions == s.instructions[i := x.(status := if !answered then Failed
                                                                  else if found && !posted then Broadcasted
                                                                  else Confirmed)]
            && t.books.accounts == s.books.accounts
            && t.books.journals ==
                 s.books.journals +
                 (if posted then [Journal(SettlementTransfer, OfInstruction(i), JournalConfirmed)] else [])
            && Balance(t.books, a) == Balance(s.books, a) + (if posted && a == payee then x.amount else 0.0)
                                                          - (if posted && a == payer then x.amount else 0.0)
  {
    hide TransferLines, Next, Balance;
    RunOne(s, OnChain(i, ExternalFailure));
    RunTwo(s, OnChain(i, SignReturned), OnChain(i, ExternalFailure));
    RunThree(s, OnChain(i, SignReturned), OnChain(i, SubmitReturned),
             OnChain(i, if confirmed then PollConfirmed else PollFailed));
    RunStages(s, i, confirmed);
    RunPosts(s.books, i, s.instructions[i], a);
  }

  lemma RunPosts(b: Books, i: nat, x: Instruction, a: Account)
    ensures var c := Post(b, SettlementTransfer, OfInstruction(i), TransferLines(x));
            && c.accounts == b.accounts
            && c.journals == b.journals + [Journal(SettlementTransfer, OfInstruction(i), JournalConfirmed)]
            && Balance(c, a)
               == Balance(b, a)
                  + (if a == Account(x.to, AccountKind.Settlement, Available) then x.amount else 0.0)
                  - (if a == Account(x.from, AccountKind.Settlement, Available) then x.amount else 0.0)
  {
    hide Balance;
    PostMoves(b, SettlementTransfer, OfInstruction(i), TransferLines(x), a);
    TransferNet(SettlementAccount(x.to), SettlementAccount(x.from), x.amount, a);
  }

  lemma RunStages(s: State, i: nat, confirmed: bool)
    requires i in s.runs && s.runs[i] == AfterApproval && i < |s.instructions|
    ensures var t := Next(s, OnChain(i, ExternalFailure));
            && i !in t.runs && t.books == s.books
            && t.instructions == s.instructions[i := s.instructions[i].(status := Failed)]
    ensures var t := Next(Next(s, OnChain(i, SignReturned)), OnChain(i, ExternalFailure));
            && i !in t.runs && t.books == s.books
            && t.instructions == s.instructions[i := s.instructions[i].(status := Failed)]
    ensures var t := Next(Next(Next(s, OnChain(i, SignReturned)), OnChain(i, SubmitReturned)),
                          OnChain(i, if confirmed then PollConfirmed else PollFailed));
            var x := s.instructions[i];
            var found :=
              && Account(x.from, AccountKind.Settlement, Available) in s.books.accounts
              && Account(x.to, AccountKind.Settlement, Available) in s.books.accounts;
            var posted := confirmed && found && x.amount > 0.0;
            && i !in t.runs
            && t.instructions == s.instructions[i := x.(status := if !confirmed then Failed
                                                                  else if found && !posted then Broadcasted
                                                                  else Confirmed)]
            && t.books == if posted then Post(s.books, SettlementTransfer, OfInstruction(i), TransferLines(x))
                          else s.books
  {
    hide Post;
  }
}
