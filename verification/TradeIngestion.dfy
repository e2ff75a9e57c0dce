/** Trade submission and novation as the gateway and the trade-ingestion service run them. */
module TradeIngestion {
  import opened Options
  import opened Ledger
  import opened Model
  import opened Outbox
  import opened Trading
  import opened System
  import opened Store

  /** submit_trade: the trade and its only event, or neither when a foreign key refuses the trade. */
  method SubmitTrade(db: Database, data: TradeData) returns (trade: Option<nat>)
    modifies db`trades, db`bus
    ensures db.Snapshot() == AfterSubmit(old(db.Snapshot()), data)
    ensures trade.Some? <==>
      && (exists m :: m in db.members && m.id == data.buyer) && (exists m :: m in db.members && m.id == data.seller)
      && data.instrument in db.instruments
    ensures trade.Some? ==>
      && trade.value == |old(db.trades)|
      && db.trades == old(db.trades) + [Trade(data, Submitted)]
      && db.bus == old(db.bus).(rows := old(db.bus).rows + [Row(TradeSubmitted(trade.value, data), false)])
    ensures trade.None? ==> db.trades == old(db.trades) && db.bus == old(db.bus)
  {
    if !IsMember(db.members, data.buyer) || !IsMember(db.members, data.seller) || data.instrument !in db.instruments {
      return None;
    }
    trade := Some(|db.trades|);
    db.trades := db.trades + [Trade(data, Submitted)];
    db.bus := Emit(db.bus, TradeSubmitted(trade.value, data));
  }

  /** _lock_margin. */
  method LockMarginAccounts(db: Database, member: MemberId, leg: nat, amount: real) returns (r: Result<()>)
    modifies db`books
    ensures var x := LockMargin(old(db.books), member, leg, amount);
            && (x.Ok? ==> r == Ok(()) && db.books == x.value)
            && (x.Raised? ==> r == Raised(x.error))
  {
    var available, locked := ImAccount(member, Available), ImAccount(member, Locked);
    if available !in db.books.accounts || locked !in db.books.accounts {
      return Raised(ValidationError);
    }
    var inserted := db.InsertTransfer(MarginLock, OfLeg(leg), Debit(available, amount), Credit(locked, amount));
    r := if inserted then Ok(()) else Raised(ConstraintViolation);
  }

  /** _create_novated_trade. */
  method CreateNovatedTrade(db: Database, trade: nat, data: TradeData, side: Side, now: int) returns (leg: nat)
    modifies db`legs
    ensures leg == |old(db.legs)| && db.legs == old(db.legs) + [LegOf(trade, data, side, Open, now)]
  {
    leg := |db.legs|;
    db.legs := db.legs + [LegOf(trade, data, side, Open, now)];
  }

  /** novate_trade: when it raises, its caller's savepoint undoes whatever it had already written. */
  method NovateTrade(db: Database, trade: nat, data: TradeData, now: int) returns (r: Result<()>)
    requires data.instrument in db.instruments
    modifies db`books, db`trades, db`legs
    ensures var x := Novate(Blotter(old(db.books), old(db.trades), old(db.legs)), db.instruments, trade, data, now);
            && (x.Ok? ==> r == Ok(()) && Blotter(db.books, db.trades, db.legs) == x.value)
            && (x.Raised? ==> r == Raised(x.error))
  {
    hide MarginOf, Post;
    if trade >= |db.trades| || db.trades[trade].status != Submitted {
      return Raised(ValidationError);
    }
    ghost var legs := db.legs;
    db.trades := db.trades[trade := db.trades[trade].(status := Novated)];
    var buyerLeg := CreateNovatedTrade(db, trade, data, Buy, now);
    var sellerLeg := CreateNovatedTrade(db, trade, data, Sell, now);
    var amount := MarginOf(data, db.instruments[data.instrument].imRate);
    r := LockMarginAccounts(db, data.buyer, buyerLeg, amount);
    if r.Raised? {
      return;
    }
    r := LockMarginAccounts(db, data.seller, sellerLeg, amount);
    assert db.legs == legs + [LegOf(trade, data, Buy, Open, now), LegOf(trade, data, Sell, Open, now)];
  }

  /** _reject_trade. */
  method RejectTrade(db: Database, trade: nat)
    modifies db`trades
    ensures db.trades == Reject(old(db.trades), trade)
  {
    if trade < |db.trades| {
      db.trades := db.trades[trade := db.trades[trade].(status := Rejected)];
    }
  }

  /** process_trade: validate, novate inside a savepoint, and reject on any exception. */
  method ProcessTrade(db: Database, trade: nat, data: TradeData, now: int)
    modifies db`books, db`trades, db`legs
    ensures Blotter(db.books, db.trades, db.legs)
            == Process(Blotter(old(db.books), old(db.trades), old(db.legs)), db.members, db.instruments, trade, data,
                       now)
  {
    hide Novate, Reject;
    var valid := Valid(db.members, db.instruments, data);
    var novated := false;
    if valid {
      var books, trades, legs := db.books, db.trades, db.legs;
      var r := NovateTrade(db, trade, data, now);
      novated := r.Ok?;
      if !novated {
        db.books, db.trades, db.legs := books, trades, legs;
      }
    }
    if !novated {
      RejectTrade(db, trade);
    }
  }

  /** process_if_new: INSERT ... ON CONFLICT DO NOTHING and a look at the row count. */
  method ProcessIfNew(db: Database, service: Service, event: nat) returns (isNew: bool)
    modifies db`processed, db`effects
    ensures isNew <==> Mark(service, event) !in old(db.processed)
    ensures db.processed == old(db.processed) + {Mark(service, event)}
    ensures db.effects == if isNew then old(db.effects) + [Mark(service, event)] else old(db.effects)
  {
    var mark := Mark(service, event);
    isNew := mark !in db.processed;
    if isNew {
      db.processed := db.processed + {mark};
      db.effects := db.effects + [mark];
    }
  }

  /** handle_message: the mark and the novation in one transaction. */
  method HandleMessage(db: Database, offset: nat, now: int)
    requires offset < |db.bus.log| && db.bus.log[offset].payload.TradeSubmitted?
    modifies db`books, db`trades, db`legs, db`processed, db`effects
    ensures db.Snapshot() == AfterIngest(old(db.Snapshot()), offset, now)
  {
    hide Process;
    var m := db.bus.log[offset];
    var isNew := ProcessIfNew(db, Service.TradeIngestion, m.event);
    if isNew {
      ProcessTrade(db, m.payload.trade, m.payload.data, now);
    }
  }
}
