/** Pro-rata allocation of a loss over survivors: steps 4 and 5 of the waterfall. */
module ProRata {
  import opened Sums
  import opened Ledger

  /** A survivor and what its share is measured by: a fund balance or a credit limit. */
  datatype Share = Share(member: MemberId, base: real)

  function Base(): Share -> real {
    (s: Share) => s.base
  }

  function PositiveBase(): Share -> real {
    (s: Share) => Max(0.0, s.base)
  }

  function Quota(base: real, total: real, loss: real): real
    requires total > 0.0
  {
    base / total * loss
  }

  function Cap(base: real, rate: real): real {
    base * rate
  }

  /** What one survivor pays: its quota of the loss, capped at `rate` times its base. A survivor
      with a non-positive base or a non-positive contribution is skipped. */
  function Payout(base: real, total: real, loss: real, rate: real): real {
    if total > 0.0 && base > 0.0 then Max(0.0, Min(Quota(base, total, loss), Cap(base, rate))) else 0.0
  }

  function Allocation(total: real, loss: real, rate: real): Share -> real {
    (s: Share) => Payout(s.base, total, loss, rate)
  }

  /** What the loop collects from all survivors together. */
  function Absorbed(shares: seq<Share>, loss: real, rate: real): real {
    Sum(shares, Allocation(Sum(shares, Base()), loss, rate))
  }

  /** The most that the survivors can pay. */
  function Capacity(shares: seq<Share>, rate: real): real {
    rate * Sum(shares, PositiveBase())
  }

  /** The fraction of its base that every survivor pays. */
  function Fraction(total: real, loss: real, rate: real): real {
    if total > 0.0 then Min(loss / total, rate) else 0.0
  }

  lemma PayoutIsFraction(base: real, total: real, loss: real, rate: real)
    requires loss >= 0.0 && rate >= 0.0
    ensures Payout(base, total, loss, rate) == Fraction(total, loss, rate) * Max(0.0, base)
  {
    if total > 0.0 && base > 0.0 {
      var r := loss / total;
      assert Quota(base, total, loss) == r * base;
      Ordered(r, rate, base);
      Ordered(0.0, r, base);
    }
  }

  lemma Ordered(a: real, b: real, c: real)
    requires c > 0.0
    ensures a <= b <==> a * c <= b * c
    ensures a == b <==> a * c == b * c
  {
    if a < b {
      assert (b - a) * c > 0.0;
    } else if a > b {
      assert (a - b) * c > 0.0;
    }
  }

  /** Every survivor pays the same fraction of its base. */
  lemma EqualRatio(s: Share, total: real, loss: real, rate: real)
    requires loss >= 0.0 && rate >= 0.0
    ensures Allocation(total, loss, rate)(s) == Fraction(total, loss, rate) * PositiveBase()(s)
  {
    PayoutIsFraction(s.base, total, loss, rate);
  }

  lemma {:induction false} AllocationTotal(shares: seq<Share>, total: real, loss: real, rate: real)
    requires loss >= 0.0 && rate >= 0.0
    ensures Sum(shares, Allocation(total, loss, rate)) == Fraction(total, loss, rate) * Sum(shares, PositiveBase())
  {
    hide Payout, Fraction;
    forall i | 0 <= i < |shares|
      ensures Allocation(total, loss, rate)(shares[i]) == Fraction(total, loss, rate) * PositiveBase()(shares[i])
    {
      EqualRatio(shares[i], total, loss, rate);
    }
    SumScale(shares, Fraction(total, loss, rate), PositiveBase(), Allocation(total, loss, rate));
  }

  ghost predicate NonNegative(shares: seq<Share>) {
    forall s | s in shares :: s.base >= 0.0
  }

  /** The exact law of the pro-rata loop. The divisor is the signed total T of the bases while only
      positive bases pay; P is the total of those. The loop absorbs min(loss, rate * P) exactly when
      T and P agree (no base is negative), or nobody can pay, or every cap binds. */
  lemma ProRataExact(shares: seq<Share>, loss: real, rate: real)
    requires loss > 0.0 && rate > 0.0
    ensures Absorbed(shares, loss, rate) == Min(loss, Capacity(shares, rate))
            <==> (|| Sum(shares, Base()) == Sum(shares, PositiveBase())
                  || Sum(shares, PositiveBase()) == 0.0
                  || (Sum(shares, Base()) > 0.0 && loss >= Capacity(shares, rate)))
  {
    hide Payout, Fraction, Quota, Cap, Sum;
    SumNonNegative(shares, PositiveBase());
    SumMonotone(shares, Base(), PositiveBase());
    AllocationTotal(shares, Sum(shares, Base()), loss, rate);
    AbsorbedExactly(Sum(shares, Base()), Sum(shares, PositiveBase()), loss, rate);
  }

  lemma AbsorbedExactly(T: real, P: real, loss: real, rate: real)
    requires T <= P && P >= 0.0 && loss > 0.0 && rate > 0.0
    ensures Fraction(T, loss, rate) * P == Min(loss, rate * P)
            <==> T == P || P == 0.0 || (T > 0.0 && loss >= rate * P)
  {
    if T <= 0.0 {
      assert P > 0.0 ==> rate * P > 0.0;
    } else {
      ScaledMin(T, P, loss, rate);
    }
  }

  lemma ScaledMin(T: real, P: real, loss: real, rate: real)
    requires 0.0 < T <= P && loss > 0.0 && rate > 0.0
    ensures Fraction(T, loss, rate) * P == Min(loss, rate * P) <==> T == P || loss >= rate * P
  {
    var r := loss / T;
    assert r * T == loss;
    Ordered(r, rate, P);
    Ordered(r, rate, T);
    Ordered(T, P, r);
    assert T * r == loss && P * r == r * P;
    Ordered(T, P, rate);
  }

  /** With no negative base the survivors together absorb min(loss, rate * total). */
  lemma ProRataIdentity(shares: seq<Share>, loss: real, rate: real)
    requires NonNegative(shares) && loss > 0.0 && rate > 0.0
    ensures Absorbed(shares, loss, rate) == Min(loss, rate * Sum(shares, Base()))
  {
    SumPointwise(shares, Base(), PositiveBase());
    ProRataExact(shares, loss, rate);
  }

  /** A negative credit limit makes the others pay more than the whole loss. */
  lemma NegativeLimitOverpays()
    ensures Absorbed([Share(1, 100.0), Share(2, -50.0)], 5.0, 0.1) == 10.0
  {
    var a, b := Share(1, 100.0), Share(2, -50.0);
    assert [a, b] == [a] + [b];
    SumConcat([a], [b], Base());
    SumConcat([a], [b], Allocation(50.0, 5.0, 0.1));
    SingleSum(a, Base());
    SingleSum(b, Base());
    SingleSum(a, Allocation(50.0, 5.0, 0.1));
    SingleSum(b, Allocation(50.0, 5.0, 0.1));
  }

  // ---------------------------------------------------------------- rounding

  /** A survivor together with its quota as the decimal arithmetic rounded it. */
  datatype Rounded = Rounded(share: Share, quota: real)

  function RoundedPayout(quota: real, base: real, rate: real): real {
    if base > 0.0 then Max(0.0, Min(quota, Cap(base, rate))) else 0.0
  }

  function RoundedAllocation(rate: real): Rounded -> real {
    (q: Rounded) => RoundedPayout(q.quota, q.share.base, rate)
  }

  function ExactAllocation(total: real, loss: real, rate: real): Rounded -> real {
    (q: Rounded) => Payout(q.share.base, total, loss, rate)
  }

  /** The quota of q was rounded with error at most eps. */
  predicate RoundedWithin(q: Rounded, total: real, loss: real, eps: real)
    requires total > 0.0
  {
    q.share.base > 0.0 ==> Abs(q.quota - Quota(q.share.base, total, loss)) <= eps
  }

  lemma RoundOne(q: Rounded, total: real, loss: real, rate: real, eps: real)
    requires total > 0.0 && rate >= 0.0 && eps >= 0.0 && RoundedWithin(q, total, loss, eps)
    ensures Abs(RoundedAllocation(rate)(q) - ExactAllocation(total, loss, rate)(q)) <= eps
    ensures 0.0 <= RoundedAllocation(rate)(q) <= Max(0.0, Cap(q.share.base, rate))
  {
    hide Quota, Cap;
    var base := q.share.base;
    if base > 0.0 {
      CapIsContraction(q.quota, Quota(base, total, loss), Cap(base, rate), eps);
    }
  }

  lemma CapIsContraction(x: real, y: real, cap: real, eps: real)
    requires Abs(x - y) <= eps
    ensures Abs(Max(0.0, Min(x, cap)) - Max(0.0, Min(y, cap))) <= eps
  {
  }

  /** Rounding before the cap: n quotas rounded with error at most eps move the total by at most
      n * eps, and no survivor pays above its cap. */
  lemma {:induction false} RoundingBound(qs: seq<Rounded>, total: real, loss: real, rate: real, eps: real)
    requires total > 0.0 && rate >= 0.0 && eps >= 0.0
    requires forall q | q in qs :: RoundedWithin(q, total, loss, eps)
    ensures forall q | q in qs :: 0.0 <= RoundedAllocation(rate)(q) <= Max(0.0, Cap(q.share.base, rate))
    ensures Abs(Sum(qs, RoundedAllocation(rate)) - Sum(qs, ExactAllocation(total, loss, rate))) <= |qs| as real * eps
  {
    hide Payout, RoundedPayout, RoundedWithin;
    forall q | q in qs ensures 0.0 <= RoundedAllocation(rate)(q) <= Max(0.0, Cap(q.share.base, rate)) {
      RoundOne(q, total, loss, rate, eps);
    }
    if qs != [] {
      var n := |qs| - 1;
      RoundingBound(qs[..n], total, loss, rate, eps);
      RoundOne(qs[n], total, loss, rate, eps);
      AddError(Sum(qs[..n], RoundedAllocation(rate)), Sum(qs[..n], ExactAllocation(total, loss, rate)),
               RoundedAllocation(rate)(qs[n]), ExactAllocation(total, loss, rate)(qs[n]), n, eps);
    }
  }

  lemma AddError(x: real, y: real, dx: real, dy: real, n: nat, eps: real)
    requires Abs(x - y) <= n as real * eps && Abs(dx - dy) <= eps
    ensures Abs((x + dx) - (y + dy)) <= (n + 1) as real * eps
  {
    assert (n + 1) as real * eps == n as real * eps + eps;
  }
}
