/** Members and instruments: the reference data that the services look up. */
module Registry {
  import opened Ledger
  import opened Options

  datatype MemberStatus = PendingMember | Active | Suspended | Defaulted

  datatype Member = Member(id: MemberId, status: MemberStatus, creditLimit: real)

  datatype SettlementType = Cash | Physical | Dvp

  datatype Instrument = Instrument(settlement: SettlementType, active: bool, imRate: real)

  type InstrumentId = nat

  ghost predicate UniqueIds(members: seq<Member>) {
    forall i, j | 0 <= i < j < |members| :: members[i].id != members[j].id
  }

  predicate IsActive(members: seq<Member>, id: MemberId) {
    exists m :: m in members && m.id == id && m.status == Active
  }

  /** UPDATE members SET status = 'defaulted' WHERE id = ... */
  function MarkDefaulted(members: seq<Member>, id: MemberId): (marked: seq<Member>)
    ensures |marked| == |members|
    ensures forall i | 0 <= i < |members| :: marked[i].id == members[i].id
  {
    seq(|members|, i requires 0 <= i < |members| =>
      if members[i].id == id then members[i].(status := Defaulted) else members[i])
  }

  /** An account of the CCP house; there is none when the house is not a member. */
  function HouseAccount(house: Option<MemberId>, kind: AccountKind): Option<Account> {
    if house.Some? then Some(Account(house.value, kind, Available)) else None
  }

  predicate Exists(accounts: seq<Account>, a: Option<Account>) {
    a.Some? && a.value in accounts
  }
}
