/** Novation: a submitted trade becomes two CCP-facing legs with margin locked, or is rejected. */
module Trading {
  import opened Options
  import opened Ledger
  import opened Registry
  import opened Model

  /** What novation reads and writes. */
  datatype Blotter = Blotter(books: Books, trades: seq<Trade>, legs: seq<Leg>)

  function ImAccount(m: MemberId, pool: Pool): Account {
    Account(m, MarginIm, pool)
  }

  predicate HasImAccounts(accounts: seq<Account>, m: MemberId) {
    ImAccount(m, Available) in accounts && ImAccount(m, Locked) in accounts
  }

  /** validate_trade. */
  predicate Valid(members: seq<Member>, instruments: map<InstrumentId, Instrument>, data: TradeData) {
    && data.buyer != data.seller
    && data.quantity > 0.0
    && data.price > 0.0
    && IsActive(members, data.buyer)
    && IsActive(members, data.seller)
    && data.instrument in instruments
    && instruments[data.instrument].active
  }

  function LegOf(trade: nat, data: TradeData, side: Side, status: LegStatus, now: int): Leg {
    Leg(trade, if side == Buy then data.buyer else data.seller, data.instrument, side, data.quantity, data.price,
        status, now)
  }

  /** Initial margin of a leg at its own price. */
  function MarginOf(data: TradeData, rate: real): real {
    data.quantity * data.price * rate
  }

  /** _lock_margin: both accounts must be found, and the entries table refuses an amount that is not positive. */
  function LockMargin(b: Books, m: MemberId, leg: nat, amount: real): Result<Books> {
    if !HasImAccounts(b.accounts, m) then Raised(ValidationError)
    else if amount <= 0.0 then Raised(ConstraintViolation)
    else
      Ok(Post(b, MarginLock, OfLeg(leg),
              [Debit(ImAccount(m, Available), amount), Credit(ImAccount(m, Locked), amount)]))
  }

  /** novate_trade, inside its savepoint: an exception leaves no trace. */
  function Novate(bl: Blotter, instruments: map<InstrumentId, Instrument>, trade: nat, data: TradeData,
                  now: int): Result<Blotter>
    requires data.instrument in instruments
  {
    if trade >= |bl.trades| || bl.trades[trade].status != Submitted then Raised(ValidationError)
    else
      var amount := MarginOf(data, instruments[data.instrument].imRate);
      var buyer := LockMargin(bl.books, data.buyer, |bl.legs|, amount);
      if buyer.Raised? then Raised(buyer.error)
      else
        var seller := LockMargin(buyer.value, data.seller, |bl.legs| + 1, amount);
        if seller.Raised? then Raised(seller.error)
        else
          Ok(Blotter(seller.value,
                     bl.trades[trade := bl.trades[trade].(status := Novated)],
                     bl.legs + [LegOf(trade, data, Buy, Open, now), LegOf(trade, data, Sell, Open, now)]))
  }

  /** _reject_trade overwrites the status of the trade, whatever it was. */
  function Reject(trades: seq<Trade>, trade: nat): seq<Trade> {
    if trade < |trades| then trades[trade := trades[trade].(status := Rejected)] else trades
  }

  /** process_trade. */
  function Process(bl: Blotter, members: seq<Member>, instruments: map<InstrumentId, Instrument>, trade: nat,
                   data: TradeData, now: int): Blotter
  {
    if Valid(members, instruments, data) && Novate(bl, instruments, trade, data, now).Ok? then
      Novate(bl, instruments, trade, data, now).value
    else
      bl.(trades := Reject(bl.trades, trade))
  }

  // ---------------------------------------------------------------- consistency

  /** Rows 2k and 2k + 1 are the two legs of one novated trade. */
  ghost predicate PairAt(trades: seq<Trade>, legs: seq<Leg>, k: nat) {
    && 2 * k + 1 < |legs|
    && var buy := legs[2 * k];
       && buy.trade < |trades|
       && trades[buy.trade].status == Novated
       && trades[buy.trade].data.quantity > 0.0
       && trades[buy.trade].data.price > 0.0
       && trades[buy.trade].data.buyer != trades[buy.trade].data.seller
       && buy == LegOf(buy.trade, trades[buy.trade].data, Buy, buy.status, buy.novatedAt)
       && legs[2 * k + 1] == LegOf(buy.trade, trades[buy.trade].data, Sell, buy.status, buy.novatedAt)
  }

  /** Every leg belongs to a pair, no trade has two pairs, and the trades with a pair are the novated ones. */
  ghost predicate Consistent(trades: seq<Trade>, legs: seq<Leg>) {
    && |legs| % 2 == 0
    && (forall k :: 0 <= k < |legs| / 2 ==> PairAt(trades, legs, k))
    && (forall k, l | 0 <= k < l < |legs| / 2 && PairAt(trades, legs, k) && PairAt(trades, legs, l) ::
          legs[2 * k].trade != legs[2 * l].trade)
    && (forall t :: 0 <= t < |trades| && trades[t].status == Novated ==> HasPair(trades, legs, t))
  }

  ghost predicate HasPair(trades: seq<Trade>, legs: seq<Leg>, t: nat) {
    exists k :: 0 <= k < |legs| / 2 && PairAt(trades, legs, k) && legs[2 * k].trade == t
  }

  /** What consistency means for one trade: a novated trade has exactly one BUY and one SELL leg, of equal
      quantity and price, for its two parties; a submitted or rejected trade has none. */
  lemma LegsOfTrade(trades: seq<Trade>, legs: seq<Leg>, t: nat)
    requires Consistent(trades, legs) && t < |trades|
    ensures trades[t].status != Novated ==> forall i | 0 <= i < |legs| :: legs[i].trade != t
    ensures trades[t].status == Novated ==>
      exists i, j ::
        && 0 <= i < |legs| && 0 <= j < |legs|
        && legs[i] == Leg(t, trades[t].data.buyer, trades[t].data.instrument, Buy, trades[t].data.quantity,
                          trades[t].data.price, legs[i].status, legs[i].novatedAt)
        && legs[j] == Leg(t, trades[t].data.seller, trades[t].data.instrument, Sell, trades[t].data.quantity,
                          trades[t].data.price, legs[i].status, legs[i].novatedAt)
        && forall l | 0 <= l < |legs| && legs[l].trade == t :: l == i || l == j
  {
    forall l | 0 <= l < |legs|
      ensures PairAt(trades, legs, l / 2) && legs[l].trade == legs[2 * (l / 2)].trade
      ensures legs[l].trade < |trades| && trades[legs[l].trade].status == Novated
    {
      assert l == 2 * (l / 2) || l == 2 * (l / 2) + 1;
    }
    if trades[t].status == Novated {
      assert HasPair(trades, legs, t);
      var k :| 0 <= k < |legs| / 2 && PairAt(trades, legs, k) && legs[2 * k].trade == t;
      var i, j := 2 * k, 2 * k + 1;
      forall l | 0 <= l < |legs| && legs[l].trade == t ensures l == i || l == j {
        var h := l / 2;
        assert PairAt(trades, legs, h) && legs[2 * h].trade == t;
        assert h == k;
      }
    }
  }

  /** The trade is novated exactly when its parties differ and are active, its amounts are positive, its
      instrument is listed and active, it is still submitted, and a positive margin can be locked for both;
      otherwise it ends rejected, and nothing is posted or added. */
  lemma NovatedExactly(bl: Blotter, members: seq<Member>, instruments: map<InstrumentId, Instrument>, trade: nat,
                       data: TradeData, now: int)
    requires trade < |bl.trades|
    ensures var after := Process(bl, members, instruments, trade, data, now);
            && after.trades[trade].status ==
                 (if && data.buyer != data.seller && data.quantity > 0.0 && data.price > 0.0
                     && (exists i :: 0 <= i < |members| && members[i].id == data.buyer && members[i].status == Active)
                     && (exists i :: 0 <= i < |members| && members[i].id == data.seller && members[i].status == Active)
                     && data.instrument in instruments && instruments[data.instrument].active
                     && instruments[data.instrument].imRate > 0.0
                     && bl.trades[trade].status == Submitted
                     && (forall m, pool | m in {data.buyer, data.seller} && pool in {Available, Locked} ::
                           Account(m, MarginIm, pool) in bl.books.accounts)
                  then Novated else Rejected)
            && (after.trades[trade].status == Rejected ==> after.books == bl.books && after.legs == bl.legs)
            && (after.trades[trade].status == Novated ==>
                  after.legs == bl.legs +
                    [Leg(trade, data.buyer, data.instrument, Buy, data.quantity, data.price, Open, now),
                     Leg(trade, data.seller, data.instrument, Sell, data.quantity, data.price, Open, now)])
  {
    ActiveRows(members, data.buyer);
    ActiveRows(members, data.seller);
    FourAccounts(bl.books.accounts, data.buyer, data.seller);
    if Valid(members, instruments, data) {
      PositiveMargin(data.quantity, data.price, instruments[data.instrument].imRate);
    }
  }

  lemma ActiveRows(members: seq<Member>, id: MemberId)
    ensures IsActive(members, id)
            <==> exists i :: 0 <= i < |members| && members[i].id == id && members[i].status == Active
  {
  }

  lemma FourAccounts(accounts: seq<Account>, buyer: MemberId, seller: MemberId)
    ensures HasImAccounts(accounts, buyer) && HasImAccounts(accounts, seller)
            <==> forall m, pool | m in {buyer, seller} && pool in {Available, Locked} ::
                   Account(m, MarginIm, pool) in accounts
  {
    if forall m, pool | m in {buyer, seller} && pool in {Available, Locked} :: Account(m, MarginIm, pool) in accounts {
      assert ImAccount(buyer, Available) in accounts && ImAccount(buyer, Locked) in accounts;
      assert ImAccount(seller, Available) in accounts && ImAccount(seller, Locked) in accounts;
    }
  }

  lemma PositiveMargin(quantity: real, price: real, rate: real)
    requires quantity > 0.0 && price > 0.0
    ensures quantity * price * rate > 0.0 <==> rate > 0.0
  {
    var value := quantity * price;
    assert value > 0.0;
    if rate > 0.0 {
      assert value * rate > 0.0;
    } else {
      assert value * rate <= 0.0;
    }
  }

  lemma PairsFrame(trades: seq<Trade>, legs: seq<Leg>, trades': seq<Trade>, legs': seq<Leg>, k: nat)
    requires PairAt(trades, legs, k)
    requires legs <= legs' && |trades'| >= |trades|
    requires trades'[legs[2 * k].trade] == trades[legs[2 * k].trade]
    ensures PairAt(trades', legs', k) && legs'[2 * k] == legs[2 * k]
  {
  }

  /** Rejecting a trade that has no legs keeps consistency. */
  lemma RejectKeeps(trades: seq<Trade>, legs: seq<Leg>, trade: nat)
    requires Consistent(trades, legs) && trade < |trades| && trades[trade].status != Novated
    ensures Consistent(Reject(trades, trade), legs)
  {
    var after := Reject(trades, trade);
    forall k | 0 <= k < |legs| / 2 ensures PairAt(after, legs, k) {
      assert PairAt(trades, legs, k);
      PairsFrame(trades, legs, after, legs, k);
    }
    forall t | 0 <= t < |after| && after[t].status == Novated ensures HasPair(after, legs, t) {
      assert HasPair(trades, legs, t);
    }
    forall k, l | 0 <= k < l < |legs| / 2 ensures legs[2 * k].trade != legs[2 * l].trade {
      assert PairAt(trades, legs, k) && PairAt(trades, legs, l);
    }
  }

  /** Adding the pair of a trade that was submitted keeps consistency. */
  lemma NovateKeeps(trades: seq<Trade>, legs: seq<Leg>, trade: nat, now: int)
    requires Consistent(trades, legs) && trade < |trades| && trades[trade].status == Submitted
    requires trades[trade].data.quantity > 0.0 && trades[trade].data.price > 0.0
    requires trades[trade].data.buyer != trades[trade].data.seller
    ensures var data := trades[trade].data;
            Consistent(trades[trade := trades[trade].(status := Novated)],
                       legs + [LegOf(trade, data, Buy, Open, now), LegOf(trade, data, Sell, Open, now)])
  {
    var data, n := trades[trade].data, |legs| / 2;
    var after := trades[trade := trades[trade].(status := Novated)];
    var legs' := legs + [LegOf(trade, data, Buy, Open, now), LegOf(trade, data, Sell, Open, now)];
    assert |legs'| / 2 == n + 1;
    forall k | 0 <= k < n + 1
      ensures PairAt(after, legs', k) && (k < n ==> legs'[2 * k] == legs[2 * k] && legs[2 * k].trade != trade)
    {
      if k < n {
        assert PairAt(trades, legs, k);
        PairsFrame(trades, legs, after, legs', k);
      }
    }
    forall k, l | 0 <= k < l < n + 1 ensures legs'[2 * k].trade != legs'[2 * l].trade {
      if l < n {
        assert PairAt(trades, legs, k) && PairAt(trades, legs, l);
      }
    }
    forall t | 0 <= t < |after| && after[t].status == Novated ensures HasPair(after, legs', t) {
      if t == trade {
        assert PairAt(after, legs', n);
      } else {
        assert HasPair(trades, legs, t);
        var k :| 0 <= k < n && PairAt(trades, legs, k) && legs[2 * k].trade == t;
        assert PairAt(after, legs', k);
      }
    }
  }

  /** Processing a trade keeps trades and legs consistent exactly when the trade was not novated before:
      processing a novated trade again rejects it and leaves its two legs behind. */
  lemma ProcessConsistent(bl: Blotter, members: seq<Member>, instruments: map<InstrumentId, Instrument>, trade: nat,
                          now: int)
    requires Consistent(bl.trades, bl.legs) && trade < |bl.trades|
    ensures var after := Process(bl, members, instruments, trade, bl.trades[trade].data, now);
            Consistent(after.trades, after.legs) <==> bl.trades[trade].status != Novated
  {
    var data := bl.trades[trade].data;
    var after := Process(bl, members, instruments, trade, data, now);
    NovatedExactly(bl, members, instruments, trade, data, now);
    if bl.trades[trade].status == Novated {
      assert HasPair(bl.trades, bl.legs, trade);
      var k :| 0 <= k < |bl.legs| / 2 && PairAt(bl.trades, bl.legs, k) && bl.legs[2 * k].trade == trade;
      assert !PairAt(after.trades, after.legs, k);
    } else if after.trades[trade].status == Novated {
      NovateKeeps(bl.trades, bl.legs, trade, now);
    } else {
      RejectKeeps(bl.trades, bl.legs, trade);
    }
  }

  // ---------------------------------------------------------------- ledger effect

  lemma LockKeepsSound(b: Books, m: MemberId, leg: nat, amount: real)
    requires Sound(b)
    ensures LockMargin(b, m, leg, amount).Ok? ==> Sound(LockMargin(b, m, leg, amount).value)
  {
    if LockMargin(b, m, leg, amount).Ok? {
      TransferKeepsSound(b, MarginLock, OfLeg(leg), ImAccount(m, Available), ImAccount(m, Locked), amount);
    }
  }

  /** Locking margin moves between the two pools of one member and touches no other account. */
  lemma LockMoves(b: Books, m: MemberId, leg: nat, amount: real, x: MemberId, a: Account)
    ensures LockMargin(b, m, leg, amount).Ok? ==>
      var c := LockMargin(b, m, leg, amount).value;
      && Balance(c, ImAccount(x, Available)) + Balance(c, ImAccount(x, Locked))
         == Balance(b, ImAccount(x, Available)) + Balance(b, ImAccount(x, Locked))
      && (a.kind != MarginIm ==> Balance(c, a) == Balance(b, a))
  {
    var debited, credited := ImAccount(m, Available), ImAccount(m, Locked);
    var lines := [Debit(debited, amount), Credit(credited, amount)];
    PostMoves(b, MarginLock, OfLeg(leg), lines, ImAccount(x, Available));
    PostMoves(b, MarginLock, OfLeg(leg), lines, ImAccount(x, Locked));
    PostMoves(b, MarginLock, OfLeg(leg), lines, a);
    TransferNet(debited, credited, amount, ImAccount(x, Available));
    TransferNet(debited, credited, amount, ImAccount(x, Locked));
    TransferNet(debited, credited, amount, a);
  }

  /** What locking margin posts: one confirmed journal about the leg, which moves two accounts and no other. */
  lemma LockPosts(b: Books, m: MemberId, leg: nat, amount: real, a: Account)
    ensures LockMargin(b, m, leg, amount).Ok? ==>
      var c := LockMargin(b, m, leg, amount).value;
      && c.accounts == b.accounts
      && c.journals == b.journals + [Journal(MarginLock, OfLeg(leg), JournalConfirmed)]
      && Balance(c, a) == Balance(b, a)
                          + (if a == Account(m, MarginIm, Available) then amount else 0.0)
                          - (if a == Account(m, MarginIm, Locked) then amount else 0.0)
  {
    hide Balance;
    var debited, credited := ImAccount(m, Available), ImAccount(m, Locked);
    PostMoves(b, MarginLock, OfLeg(leg), [Debit(debited, amount), Credit(credited, amount)], a);
    TransferNet(debited, credited, amount, a);
  }

  /** A novation posts one margin journal for each leg, buyer's first, each over quantity times price times rate;
      it moves the AVAILABLE and LOCKED initial margin of the two parties and no other balance. */
  lemma NovationPosts(bl: Blotter, members: seq<Member>, instruments: map<InstrumentId, Instrument>, trade: nat,
                      data: TradeData, now: int, a: Account)
    requires trade < |bl.trades| && bl.trades[trade].status == Submitted
    ensures var after := Process(bl, members, instruments, trade, data, now);
            after.trades[trade].status == Novated ==>
              && after.trades == bl.trades[trade := bl.trades[trade].(status := Novated)]
              && data.instrument in instruments
              && after.books.accounts == bl.books.accounts
              && after.books.journals == bl.books.journals +
                   [Journal(MarginLock, OfLeg(|bl.legs|), JournalConfirmed),
                    Journal(MarginLock, OfLeg(|bl.legs| + 1), JournalConfirmed)]
              && var amount := data.quantity * data.price * instruments[data.instrument].imRate;
                 Balance(after.books, a)
                 == Balance(bl.books, a)
                    + (if a.kind != MarginIm || a.member !in {data.buyer, data.seller} then 0.0
                       else if a.pool == Available then amount
                       else if a.pool == Locked then -amount else 0.0)
  {
    hide Balance, MarginOf, Post, LockMargin;
    if Valid(members, instruments, data) && Novate(bl, instruments, trade, data, now).Ok? {
      var amount := MarginOf(data, instruments[data.instrument].imRate);
      var first := LockMargin(bl.books, data.buyer, |bl.legs|, amount).value;
      LockPosts(bl.books, data.buyer, |bl.legs|, amount, a);
      LockPosts(first, data.seller, |bl.legs| + 1, amount, a);
      MarginIsProduct(data, instruments[data.instrument].imRate);
    }
  }

  /** What novation posts, leg by leg: quantity times price times rate. The lock raises the available
      balance and lowers the locked one. */
  lemma NovationMargins(bl: Blotter, members: seq<Member>, instruments: map<InstrumentId, Instrument>, trade: nat,
                        data: TradeData, now: int, m: MemberId)
    requires trade < |bl.trades| && bl.trades[trade].status == Submitted && m in {data.buyer, data.seller}
    requires data.instrument in instruments
    ensures var after := Process(bl, members, instruments, trade, data, now);
            var amount := if after.trades[trade].status == Novated
                          then data.quantity * data.price * instruments[data.instrument].imRate else 0.0;
            var available, locked := Account(m, MarginIm, Available), Account(m, MarginIm, Locked);
            && Balance(after.books, available) == Balance(bl.books, available) + amount
            && Balance(after.books, locked) == Balance(bl.books, locked) - amount
  {
    hide Balance, MarginOf, Post;
    if Valid(members, instruments, data) && Novate(bl, instruments, trade, data, now).Ok? {
      var amount := MarginOf(data, instruments[data.instrument].imRate);
      var first := LockMargin(bl.books, data.buyer, |bl.legs|, amount).value;
      LockDirection(bl.books, data.buyer, |bl.legs|, amount, m);
      LockDirection(first, data.seller, |bl.legs| + 1, amount, m);
      MarginIsProduct(data, instruments[data.instrument].imRate);
    }
  }

  lemma MarginIsProduct(data: TradeData, rate: real)
    ensures MarginOf(data, rate) == data.quantity * data.price * rate
  {
  }

  lemma LockDirection(b: Books, m: MemberId, leg: nat, amount: real, x: MemberId)
    ensures LockMargin(b, m, leg, amount).Ok? ==>
      var c := LockMargin(b, m, leg, amount).value;
      && Balance(c, ImAccount(x, Available)) == Balance(b, ImAccount(x, Available)) + (if x == m then amount else 0.0)
      && Balance(c, ImAccount(x, Locked)) == Balance(b, ImAccount(x, Locked)) - (if x == m then amount else 0.0)
  {
    var debited, credited := ImAccount(m, Available), ImAccount(m, Locked);
    var lines := [Debit(debited, amount), Credit(credited, amount)];
    PostMoves(b, MarginLock, OfLeg(leg), lines, ImAccount(x, Available));
    PostMoves(b, MarginLock, OfLeg(leg), lines, ImAccount(x, Locked));
    TransferNet(debited, credited, amount, ImAccount(x, Available));
    TransferNet(debited, credited, amount, ImAccount(x, Locked));
  }

  /** Novation keeps the books sound, leaves every member's total initial margin unchanged, and touches
      no other account. */
  lemma NovationLedger(bl: Blotter, members: seq<Member>, instruments: map<InstrumentId, Instrument>, trade: nat,
                       data: TradeData, now: int, x: MemberId, a: Account)
    requires Sound(bl.books)
    ensures var after := Process(bl, members, instruments, trade, data, now);
            && Sound(after.books)
            && after.books.accounts == bl.books.accounts
            && (var available, locked := Account(x, MarginIm, Available), Account(x, MarginIm, Locked);
                Balance(after.books, available) + Balance(after.books, locked)
                == Balance(bl.books, available) + Balance(bl.books, locked))
            && (a.kind != MarginIm ==> Balance(after.books, a) == Balance(bl.books, a))
  {
    hide Balance, Sound, MarginOf;
    if Valid(members, instruments, data) && Novate(bl, instruments, trade, data, now).Ok? {
      var amount := MarginOf(data, instruments[data.instrument].imRate);
      var first := LockMargin(bl.books, data.buyer, |bl.legs|, amount);
      LockKeepsSound(bl.books, data.buyer, |bl.legs|, amount);
      LockMoves(bl.books, data.buyer, |bl.legs|, amount, x, a);
      LockKeepsSound(first.value, data.seller, |bl.legs| + 1, amount);
      LockMoves(first.value, data.seller, |bl.legs| + 1, amount, x, a);
    }
  }
}
