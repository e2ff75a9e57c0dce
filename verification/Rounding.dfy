/** Rounded quotas and the whole waterfall: how far the final loss can be off, and when the status cannot be. */
module Rounding {
  import opened Options
  import opened Sums
  import opened Ledger
  import opened Registry
  import opened ProRata
  import opened Waterfall

  function SharesOf(qs: seq<Rounded>): seq<Share> {
    seq(|qs|, i requires 0 <= i < |qs| => qs[i].share)
  }

  /** qs are these survivors with their quotas of the loss, each rounded with error at most eps. */
  ghost predicate Rounds(qs: seq<Rounded>, shares: seq<Share>, loss: real, eps: real) {
    var total := Sum(shares, Base());
    SharesOf(qs) == shares && (total > 0.0 ==> forall q | q in qs :: RoundedWithin(q, total, loss, eps))
  }

  /** What the pro-rata loop collects with rounded quotas. */
  function CollectedRounded(qs: seq<Rounded>, rate: real): real {
    if Sum(SharesOf(qs), Base()) > 0.0 then Sum(qs, RoundedAllocation(rate)) else 0.0
  }

  /** Steps 4 and 5 with rounded quotas, from the loss that step 3 left: as in the source each runs only
      while a loss remains, and step 5 shares out what the rounded step 4 left. */
  function RoundedLoss(loss: real, fourth: seq<Rounded>, fifth: seq<Rounded>): real {
    if loss <= 0.0 then loss
    else
      var left := loss - CollectedRounded(fourth, 1.0);
      if left <= 0.0 then left else left - CollectedRounded(fifth, ALLOCATION_CAP)
  }

  lemma {:induction false} ExactOfShares(qs: seq<Rounded>, total: real, loss: real, rate: real)
    ensures Sum(qs, ExactAllocation(total, loss, rate)) == Sum(SharesOf(qs), Allocation(total, loss, rate))
  {
    hide Payout;
    if qs != [] {
      ExactOfShares(qs[..|qs| - 1], total, loss, rate);
      assert SharesOf(qs)[..|qs| - 1] == SharesOf(qs[..|qs| - 1]);
    }
  }

  /** One loop: n rounded quotas collect at most n * eps more or less than the exact ones. */
  lemma StepError(qs: seq<Rounded>, shares: seq<Share>, loss: real, rate: real, eps: real)
    requires Rounds(qs, shares, loss, eps) && rate >= 0.0 && eps >= 0.0
    ensures Abs(CollectedRounded(qs, rate) - Absorbed(shares, loss, rate)) <= |qs| as real * eps
  {
    hide Sum, Payout, RoundedPayout, RoundedWithin;
    var total := Sum(shares, Base());
    if total > 0.0 {
      RoundingBound(qs, total, loss, rate, eps);
      ExactOfShares(qs, total, loss, rate);
    } else {
      forall i | 0 <= i < |shares| ensures Allocation(total, loss, rate)(shares[i]) == 0.0 {
        NothingWithoutTotal(shares[i].base, total, loss, rate);
      }
      SumZero(shares, Allocation(total, loss, rate));
      assert |qs| as real * eps >= 0.0;
    }
  }

  lemma NothingWithoutTotal(base: real, total: real, loss: real, rate: real)
    requires total <= 0.0
    ensures Payout(base, total, loss, rate) == 0.0
  {
  }

  lemma FourthLeaves(b: Books, members: seq<Member>, house: Option<MemberId>, defaulter: MemberId, event: nat,
                     p: Progress)
    requires FundShares(Seen(b, house, event, p), members, defaulter) == FundShares(b, members, defaulter)
    ensures Step4(b, members, house, defaulter, event, p).remaining
            == if p.remaining > 0.0 then Max(0.0, p.remaining - Sum(FundShares(b, members, defaulter), Base()))
               else p.remaining
  {
    hide FundShares, Sum, SharedStep, Seen;
    FundSharesPositive(b, members, defaulter);
    if p.remaining > 0.0 {
      var layer := Sum(FundShares(b, members, defaulter), Base());
      SharedLayer(p, 4, SurvivingFund, FundShares(b, members, defaulter), DefaultFund, 1.0, layer);
    }
  }

  lemma FifthLeaves(members: seq<Member>, defaulter: MemberId, p: Progress)
    requires NonNegative(LimitShares(members, defaulter))
    ensures Step5(members, defaulter, p).remaining
            == if p.remaining > 0.0
               then Max(0.0, p.remaining - ALLOCATION_CAP * Sum(LimitShares(members, defaulter), Base()))
               else p.remaining
  {
    hide LimitShares, Sum, SharedStep;
    if p.remaining > 0.0 {
      var layer := ALLOCATION_CAP * Sum(LimitShares(members, defaulter), Base());
      SharedLayer(p, 5, LossAllocation, LimitShares(members, defaulter), AccountKind.Settlement, ALLOCATION_CAP, layer);
    }
  }

  /** The exact steps 4 and 5 in terms of what their layers hold. */
  lemma ExactTail(b: Books, members: seq<Member>, house: Option<MemberId>, defaulter: MemberId, exposure: real,
                  event: nat)
    requires NonNegative(LimitShares(members, defaulter))
    ensures var p3 := Step3(b, house, event, Step2(b, house, defaulter, event, Step1(b, defaulter, exposure)));
            var funds := Sum(FundShares(b, members, defaulter), Base());
            var limits := ALLOCATION_CAP * Sum(LimitShares(members, defaulter), Base());
            && funds >= 0.0 && limits >= 0.0
            && Execute(b, members, house, defaulter, exposure, event).remaining
               == (if p3.remaining <= 0.0 then p3.remaining else Max(0.0, p3.remaining - funds - limits))
  {
    hide FundShares, LimitShares, Sum, Step1, Step2, Step3, Step4, Step5, SinglePayers, PayAll;
    var p3 := Step3(b, house, event, Step2(b, house, defaulter, event, Step1(b, defaulter, exposure)));
    ThreePayers(b, house, defaulter, exposure, event);
    SurvivorFundsUnread(b, members, house, defaulter, event, p3.payments);
    FundSharesPositive(b, members, defaulter);
    SumNonNegative(FundShares(b, members, defaulter), Base());
    SumNonNegative(LimitShares(members, defaulter), Base());
    FourthLeaves(b, members, house, defaulter, event, p3);
    FifthLeaves(members, defaulter, Step4(b, members, house, defaulter, event, p3));
  }

  /** The whole waterfall: with m survivors in step 4 and n in step 5, each quota rounded with error at most eps,
      the final loss differs from the exact one by at most (m + n) * eps, even if rounding decides whether
      step 5 runs at all. */
  lemma FinalLossBound(b: Books, members: seq<Member>, house: Option<MemberId>, defaulter: MemberId, exposure: real,
                       event: nat, fourth: seq<Rounded>, fifth: seq<Rounded>, eps: real)
    requires NonNegative(LimitShares(members, defaulter)) && eps >= 0.0
    requires var p3 := Step3(b, house, event, Step2(b, house, defaulter, event, Step1(b, defaulter, exposure)));
             && Rounds(fourth, FundShares(b, members, defaulter), p3.remaining, eps)
             && Rounds(fifth, LimitShares(members, defaulter), p3.remaining - CollectedRounded(fourth, 1.0), eps)
    ensures var p3 := Step3(b, house, event, Step2(b, house, defaulter, event, Step1(b, defaulter, exposure)));
            var exact := Execute(b, members, house, defaulter, exposure, event).remaining;
            Abs(RoundedLoss(p3.remaining, fourth, fifth) - exact) <= (|fourth| + |fifth|) as real * eps
  {
    hide Balance, FundShares, LimitShares, Sum, Step1, Step2, Step3, Execute, Absorbed, CollectedRounded, Rounds;
    var p3 := Step3(b, house, event, Step2(b, house, defaulter, event, Step1(b, defaulter, exposure)));
    var funds, limits := FundShares(b, members, defaulter), LimitShares(members, defaulter);
    ExactTail(b, members, house, defaulter, exposure, event);
    FundSharesPositive(b, members, defaulter);
    var m, n := |fourth| as real * eps, |fifth| as real * eps;
    assert (|fourth| + |fifth|) as real * eps == m + n && m >= 0.0 && n >= 0.0;
    if p3.remaining > 0.0 {
      StepError(fourth, funds, p3.remaining, 1.0, eps);
      ProRataIdentity(funds, p3.remaining, 1.0);
      var left := p3.remaining - CollectedRounded(fourth, 1.0);
      if left > 0.0 {
        StepError(fifth, limits, left, ALLOCATION_CAP, eps);
        ProRataIdentity(limits, left, ALLOCATION_CAP);
      }
    }
  }

  /** Rounding leaves the status as it is when step 4 is not reached, or when the exact loss left exceeds what
      rounding can move. */
  lemma StatusUnmoved(b: Books, members: seq<Member>, house: Option<MemberId>, defaulter: MemberId, exposure: real,
                      event: nat, fourth: seq<Rounded>, fifth: seq<Rounded>, eps: real)
    requires NonNegative(LimitShares(members, defaulter)) && eps >= 0.0
    requires var p3 := Step3(b, house, event, Step2(b, house, defaulter, event, Step1(b, defaulter, exposure)));
             && Rounds(fourth, FundShares(b, members, defaulter), p3.remaining, eps)
             && Rounds(fifth, LimitShares(members, defaulter), p3.remaining - CollectedRounded(fourth, 1.0), eps)
    requires var covers := Covers(b, members, house, defaulter);
             || exposure <= covers[0] || exposure <= covers[1] || exposure <= covers[2]
             || exposure - covers[4] > (|fourth| + |fifth|) as real * eps
    ensures var p3 := Step3(b, house, event, Step2(b, house, defaulter, event, Step1(b, defaulter, exposure)));
            var exact := Execute(b, members, house, defaulter, exposure, event);
            RoundedLoss(p3.remaining, fourth, fifth) == 0.0 <==> StatusOf(exact) == Resolved
  {
    hide Balance, FundShares, LimitShares, Sum, Step1, Step2, Step3, Execute, CollectedRounded, Rounds, Covers, Follows,
      Capacity;
    var covers := Covers(b, members, house, defaulter);
    FinalLossBound(b, members, house, defaulter, exposure, event, fourth, fifth, eps);
    ExactTail(b, members, house, defaulter, exposure, event);
    ThirdLoss(b, members, house, defaulter, exposure, event);
    assert (|fourth| + |fifth|) as real * eps >= 0.0;
  }

  /** The loss after step 3, and what the last two layers add to it. */
  lemma ThirdLoss(b: Books, members: seq<Member>, house: Option<MemberId>, defaulter: MemberId, exposure: real,
                  event: nat)
    requires NonNegative(LimitShares(members, defaulter))
    ensures var p3 := Step3(b, house, event, Step2(b, house, defaulter, event, Step1(b, defaulter, exposure)));
            var covers := Covers(b, members, house, defaulter);
            && p3.remaining >= 0.0
            && (exposure <= covers[0] || exposure <= covers[1] || exposure <= covers[2] ==> p3.remaining == 0.0)
            && (p3.remaining > 0.0 ==> p3.remaining == exposure - covers[2])
            && covers[4] == covers[2] + Sum(FundShares(b, members, defaulter), Base())
                            + ALLOCATION_CAP * Sum(LimitShares(members, defaulter), Base())
  {
    hide Balance, MarginPosted, FundShares, LimitShares, Sum, PayAll, Step1, Step2, Step3;
    AfterThreeSteps(b, members, house, defaulter, exposure, event);
    var limits := LimitShares(members, defaulter);
    SumPointwise(limits, Base(), PositiveBase());
    var p3 := Step3(b, house, event, Step2(b, house, defaulter, event, Step1(b, defaulter, exposure)));
    var covers, n := Covers(b, members, house, defaulter), |p3.steps|;
    assert p3.steps[n - 1].remaining == Max(0.0, exposure - covers[n - 1]);
    AllStepsTaken(p3, exposure, covers, 3);
    assert exposure <= covers[0] ==> n == 1;
    assert exposure <= covers[1] ==> n <= 2;
  }

  function Third(quota: real): Rounded {
    Rounded(Share(1, 1.0), quota)
  }

  /** Otherwise rounding can move the status, in both directions: three equal funds cover a loss of 1 exactly,
      but quotas rounded down leave a thousandth of it, and quotas rounded up collect too much. */
  lemma RoundingUnresolves()
    ensures RoundedLoss(1.0, [Third(0.333), Third(0.333), Third(0.333)], []) == 0.001
    ensures RoundedLoss(1.0, [Third(0.334), Third(0.334), Third(0.334)], []) == -0.002
    ensures Absorbed([Share(1, 1.0), Share(1, 1.0), Share(1, 1.0)], 1.0, 1.0) == 1.0
  {
    ThreeThirds(0.333);
    ThreeThirds(0.334);
    var three := [Share(1, 1.0), Share(1, 1.0), Share(1, 1.0)];
    assert SharesOf([Third(0.333), Third(0.333), Third(0.333)]) == three;
    ProRataIdentity(three, 1.0, 1.0);
    assert CollectedRounded([], ALLOCATION_CAP) == 0.0 by {
      assert SharesOf([]) == [];
    }
  }

  lemma ThreeThirds(quota: real)
    requires 0.0 < quota <= 1.0
    ensures CollectedRounded([Third(quota), Third(quota), Third(quota)], 1.0) == 3.0 * quota
    ensures Sum([Share(1, 1.0), Share(1, 1.0), Share(1, 1.0)], Base()) == 3.0
  {
    var q, s := Third(quota), Share(1, 1.0);
    assert [q, q, q] == [q] + [q] + [q] && [s, s, s] == [s] + [s] + [s];
    SumConcat([q] + [q], [q], RoundedAllocation(1.0));
    SumConcat([q], [q], RoundedAllocation(1.0));
    SumConcat([s] + [s], [s], Base());
    SumConcat([s], [s], Base());
    SingleSum(q, RoundedAllocation(1.0));
    SingleSum(s, Base());
    assert SharesOf([q, q, q]) == [s, s, s];
  }
}
