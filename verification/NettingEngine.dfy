/** A netting cycle as the service runs it: one transaction over the cycle, obligation, instruction, leg
    and outbox tables. */
module NettingEngine {
  import opened Options
  import opened Sums
  import opened Ledger
  import opened Model
  import opened Outbox
  import opened Netting
  import opened NettingCycle
  import opened System
  import opened Store

  /** _insert_obligations_and_instructions: an obligation row and a pending instruction each; the sign of
      the net amount decides who pays. */
  method InsertObligationsAndInstructions(db: Database, cycle: nat, obligations: seq<Obligation>, ccp: MemberId)
    returns (ids: seq<nat>)
    requires cycle < |db.cycles|
    modifies db`cycles, db`instructions
    ensures var rows := old(db.cycles);
            db.cycles == rows[cycle := rows[cycle].(obligations := rows[cycle].obligations + obligations)]
    ensures db.instructions == old(db.instructions) + InstructionsOf(obligations, ccp, cycle)
    ensures ids == seq(|obligations|, i requires 0 <= i < |obligations| => |old(db.instructions)| + i)
  {
    ids := [];
    ghost var row, before := db.cycles[cycle], db.instructions;
    assert row.obligations + obligations[..0] == row.obligations;
    for i := 0 to |obligations|
      invariant cycle < |db.cycles|
      invariant db.cycles == old(db.cycles)[cycle := row.(obligations := row.obligations + obligations[..i])]
      invariant db.instructions == before + InstructionsOf(obligations[..i], ccp, cycle)
      invariant ids == seq(i, k requires 0 <= k < i => |before| + k)
    {
      var o := obligations[i];
      db.cycles := db.cycles[cycle := db.cycles[cycle].(obligations := db.cycles[cycle].obligations + [o])];
      var from, to := ccp, o.member;
      if o.netAmount > 0.0 {
        from, to := o.member, ccp;
      }
      ids := ids + [|db.instructions|];
      db.instructions := db.instructions +
        [Instruction(cycle, from, to, o.instrument, Abs(o.netQuantity), o.settlementAmount, o.settlement, None,
                     Pending)];
      assert obligations[..i + 1] == obligations[..i] + [o];
      InstructionsSnoc(obligations[..i], o, ccp, cycle);
      assert row.obligations + obligations[..i] + [o] == row.obligations + obligations[..i + 1];
    }
    assert obligations[..|obligations|] == obligations;
  }

  lemma InstructionsSnoc(os: seq<Obligation>, o: Obligation, ccp: MemberId, cycle: nat)
    ensures InstructionsOf(os + [o], ccp, cycle) == InstructionsOf(os, ccp, cycle) + [InstructionOf(o, ccp, cycle)]
  {
  }

  /** _mark_trades_closed: the UPDATE, row by row, with its row count. A row changes exactly when its leg is
      open and was novated at or before the cut-off, and then in its status alone. */
  method MarkTradesClosed(db: Database, cutoff: int) returns (marked: nat)
    modifies db`legs
    ensures |db.legs| == |old(db.legs)|
    ensures forall i | 0 <= i < |db.legs| ::
              var leg := old(db.legs)[i];
              db.legs[i] == if leg.status == Open && leg.novatedAt <= cutoff then leg.(status := Netted) else leg
    ensures db.legs == MarkNetted(old(db.legs), cutoff)
    ensures marked == |IncludedRows(old(db.legs), cutoff)|
  {
    marked := 0;
    ghost var legs, rows := db.legs, IncludedRows([], cutoff);
    for i := 0 to |db.legs|
      invariant |db.legs| == |legs|
      invariant db.legs[..i] == MarkNetted(legs[..i], cutoff)
      invariant db.legs[i..] == legs[i..]
      invariant rows == IncludedRows(legs[..i], cutoff) && marked == |rows|
    {
      var leg := db.legs[i];
      assert leg == legs[i] && legs[..i + 1] == legs[..i] + [leg];
      RowsSnoc(legs[..i], leg, cutoff);
      if leg.status == Open && leg.novatedAt <= cutoff {
        db.legs := db.legs[i := leg.(status := Netted)];
        marked := marked + 1;
        rows := rows + {i};
      }
      assert MarkNetted(legs[..i + 1], cutoff) == MarkNetted(legs[..i], cutoff) + [db.legs[i]];
    }
    assert legs[..|legs|] == legs && db.legs[..|legs|] == db.legs;
  }

  lemma RowsSnoc(legs: seq<Leg>, leg: Leg, cutoff: int)
    ensures IncludedRows(legs + [leg], cutoff)
            == IncludedRows(legs, cutoff) + (if Included(leg, cutoff) then {|legs|} else {})
    ensures |legs| !in IncludedRows(legs, cutoff)
  {
  }

  /** One settlement.instruction.created event for every instruction of the cycle, in order. */
  method AnnounceInstructions(db: Database, ids: seq<nat>, first: nat)
    requires ids == seq(|ids|, i requires 0 <= i < |ids| => first + i)
    modifies db`bus
    ensures db.bus == EmitInstructions(old(db.bus), first, |ids|)
  {
    for i := 0 to |ids|
      invariant db.bus == EmitInstructions(old(db.bus), first, i)
    {
      db.bus := Emit(db.bus, InstructionCreated(ids[i]));
    }
  }

  datatype CycleResult = CycleResult(cycle: nat, obligationCount: nat, instructionCount: nat, tradesNetted: nat)

  /** run_netting_cycle: raises, leaving no trace, when there is no CCP house member. */
  method RunNettingCycle(db: Database, cutoff: int) returns (result: Option<CycleResult>)
    modifies db`cycles, db`instructions, db`legs, db`bus
    ensures db.Snapshot() == AfterNetting(old(db.Snapshot()), cutoff)
    ensures result.Some? <==> db.house.Some?
    ensures result.Some? ==>
      && result.value.cycle == |old(db.cycles)|
      && result.value.instructionCount == result.value.obligationCount == |db.instructions| - |old(db.instructions)|
      && result.value.tradesNetted == |IncludedRows(old(db.legs), cutoff)|
  {
    hide FetchOpen, Obligations, EmitInstructions, InstructionsOf, MarkNetted, IncludedRows, Enrich;
    if db.house.None? {
      return None;
    }
    var cycle := |db.cycles|;
    db.cycles := db.cycles + [Cycle(cutoff, [], {})];
    var fetched := FetchOpen(db.legs, cutoff);
    var positions := EnrichWithPrices(fetched, db.instruments, db.prices);
    var obligations := CalculateNetObligations(positions);
    var first := |db.instructions|;
    InstructionsCount(obligations, db.house.value, cycle);
    var ids := InsertObligationsAndInstructions(db, cycle, obligations, db.house.value);
    db.cycles := db.cycles[cycle := db.cycles[cycle].(netted := IncludedRows(db.legs, cutoff))];
    assert [] + obligations == obligations;
    var marked := MarkTradesClosed(db, cutoff);
    AnnounceInstructions(db, ids, first);
    result := Some(CycleResult(cycle, |obligations|, |ids|, marked));
  }

  lemma InstructionsCount(os: seq<Obligation>, ccp: MemberId, cycle: nat)
    ensures |InstructionsOf(os, ccp, cycle)| == |os|
  {
  }
}
