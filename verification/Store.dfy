/** The database as an object: one field per table, changed in place by the services' SQL statements. */
module Store {
  import opened Options
  import opened Ledger
  import opened Registry
  import opened Model
  import opened Outbox
  import opened System

  class Database {
    var books: Books
    var members: seq<Member>
    var house: Option<MemberId>
    var instruments: map<InstrumentId, Instrument>
    var adapters: set<nat>
    var prices: map<InstrumentId, real>
    var trades: seq<Trade>
    var legs: seq<Leg>
    var cycles: seq<Cycle>
    var instructions: seq<Instruction>
    var transitions: seq<Transition>
    var runs: map<nat, RunPoint>
    var defaults: seq<DefaultEvent>
    var processed: set<Mark>
    var effects: seq<Mark>
    var bus: Bus

    /** The whole content as a value: what a savepoint remembers. */
    function Snapshot(): State
      reads this
    {
      State(books, members, house, instruments, adapters, prices, trades, legs, cycles, instructions, transitions, runs,
            defaults, processed, effects, bus)
    }

    constructor (s: State)
      ensures Snapshot() == s
    {
      books, members, house, instruments, adapters := s.books, s.members, s.house, s.instruments, s.adapters;
      prices, trades, legs, cycles, instructions := s.prices, s.trades, s.legs, s.cycles, s.instructions;
      transitions, runs, defaults, processed := s.transitions, s.runs, s.defaults, s.processed;
      effects, bus := s.effects, s.bus;
    }

    /** INSERT INTO journals, confirmed from the start; the new id. */
    method InsertJournal(kind: JournalKind, reference: Reference) returns (id: nat)
      modifies `books
      ensures id == |old(books).journals|
      ensures books == old(books).(journals := old(books).journals + [Journal(kind, reference, JournalConfirmed)])
    {
      id := |books.journals|;
      books := books.(journals := books.journals + [Journal(kind, reference, JournalConfirmed)]);
    }

    /** INSERT INTO journal_entries. The row is refused by a foreign key or a CHECK constraint exactly
        when its journal or account is missing or it is not one-sided. */
    method InsertEntry(journal: nat, account: Account, debit: real, credit: real) returns (inserted: bool)
      modifies `books
      ensures inserted <==>
        && journal < |old(books).journals| && account in old(books).accounts
        && ((debit > 0.0 && credit == 0.0) || (debit == 0.0 && credit > 0.0))
      ensures inserted ==>
        books == old(books).(entries := old(books).entries + [Entry(journal, account, debit, credit)])
      ensures !inserted ==> books == old(books)
    {
      inserted := journal < |books.journals| && account in books.accounts && OneSided(debit, credit);
      if inserted {
        books := books.(entries := books.entries + [Entry(journal, account, debit, credit)]);
      }
    }

    /** The shape that every posting service repeats: a journal and its two entries. An amount that is
        not positive is refused, and the enclosing savepoint then has to be rolled back. */
    method InsertTransfer(kind: JournalKind, reference: Reference, first: Line, second: Line) returns (inserted: bool)
      requires first.account in books.accounts && second.account in books.accounts
      modifies `books
      ensures inserted <==> OneSided(first.debit, first.credit) && OneSided(second.debit, second.credit)
      ensures inserted ==> books == Post(old(books), kind, reference, [first, second])
      ensures books.accounts == old(books).accounts
    {
      var j := InsertJournal(kind, reference);
      inserted := InsertEntry(j, first.account, first.debit, first.credit);
      if inserted {
        inserted := InsertEntry(j, second.account, second.debit, second.credit);
      }
      assert Rows(j, [first, second]) == [Entry(j, first.account, first.debit, first.credit)] +
                                         [Entry(j, second.account, second.debit, second.credit)];
    }
  }
}
