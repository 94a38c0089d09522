/** The value area of a volume or time profile: the range grown around the busiest
    level until it holds a given share of the total. Levels run from the highest
    price down, so `upper` is the smaller index. */
module ValueArea {
  import opened Domain

  ghost predicate NonNegative(v: seq<real>) {
    forall i :: 0 <= i < |v| ==> v[i] >= 0.0
  }

  /** What levels `upper` to `lower` hold. */
  function Held(v: seq<real>, upper: nat, lower: nat): real
    requires upper <= lower < |v|
    decreases lower - upper
  {
    if upper == lower then v[lower] else Held(v, upper, lower - 1) + v[lower]
  }

  function Sum(v: seq<real>): real {
    if v == [] then 0.0 else Held(v, 0, |v| - 1)
  }

  /** A range that takes in one more level at the top. */
  lemma {:induction false} TopLevelAdds(v: seq<real>, upper: nat, lower: nat)
    requires 0 < upper <= lower < |v|
    ensures Held(v, upper - 1, lower) == v[upper - 1] + Held(v, upper, lower)
    decreases lower - upper
  {
    if upper < lower {
      TopLevelAdds(v, upper, lower - 1);
    } else {
      assert Held(v, upper - 1, lower - 1) == v[upper - 1];
    }
  }

  /** A range that takes in one more level at either end. */
  lemma SumGrows(v: seq<real>, upper: nat, lower: nat)
    requires upper <= lower < |v|
    ensures upper > 0 ==> Held(v, upper - 1, lower) == v[upper - 1] + Held(v, upper, lower)
    ensures lower + 1 < |v| ==> Held(v, upper, lower + 1) == Held(v, upper, lower) + v[lower + 1]
  {
    if upper > 0 {
      TopLevelAdds(v, upper, lower);
    }
  }

  lemma {:induction false} HeldIsNonNegative(v: seq<real>, upper: nat, lower: nat)
    requires NonNegative(v) && upper <= lower < |v|
    ensures Held(v, upper, lower) >= 0.0
    decreases lower - upper
  {
    if upper < lower {
      HeldIsNonNegative(v, upper, lower - 1);
    }
  }

  /** The first of the busiest levels. */
  method PointOfControl(v: seq<real>) returns (poc: nat)
    requires |v| > 0
    ensures poc < |v|
    ensures forall i :: 0 <= i < |v| ==> v[i] <= v[poc]
    ensures forall i :: 0 <= i < poc ==> v[i] < v[poc]
  {
    poc := 0;
    for i := 1 to |v|
      invariant poc < i
      invariant forall j :: 0 <= j < i ==> v[j] <= v[poc]
      invariant forall j :: 0 <= j < poc ==> v[j] < v[poc]
    {
      if v[i] > v[poc] {
        poc := i;
      }
    }
  }

  /** The neighbour the expansion takes next: the busier one, upward on a tie. */
  predicate TakesUpper(v: seq<real>, upper: nat, lower: nat)
    requires upper <= lower < |v|
  {
    var up := if upper > 0 then v[upper - 1] else -1.0;
    var down := if lower + 1 < |v| then v[lower + 1] else -1.0;
    up >= down
  }

  /** The range `upper..lower` is what the expansion reaches from the point of control,
      and before its last step it held less than `target`. */
  ghost predicate Grown(v: seq<real>, target: real, poc: nat, upper: nat, lower: nat)
    requires upper <= poc <= lower < |v|
    decreases lower - upper
  {
    upper == lower
    || (&& upper < poc && TakesUpper(v, upper + 1, lower)
        && Held(v, upper + 1, lower) < target && Grown(v, target, poc, upper + 1, lower))
    || (&& poc < lower && !TakesUpper(v, upper, lower - 1)
        && Held(v, upper, lower - 1) < target && Grown(v, target, poc, upper, lower - 1))
  }

  lemma GrowsUpward(v: seq<real>, target: real, poc: nat, upper: nat, lower: nat)
    requires 0 < upper <= poc <= lower < |v| && Grown(v, target, poc, upper, lower)
    requires TakesUpper(v, upper, lower) && Held(v, upper, lower) < target
    ensures Grown(v, target, poc, upper - 1, lower)
  {
  }

  lemma GrowsDownward(v: seq<real>, target: real, poc: nat, upper: nat, lower: nat)
    requires upper <= poc <= lower && lower + 1 < |v| && Grown(v, target, poc, upper, lower)
    requires !TakesUpper(v, upper, lower) && Held(v, upper, lower) < target
    ensures Grown(v, target, poc, upper, lower + 1)
  {
  }

  /** Grow around `poc` until the target is met or nothing is left outside. */
  method ExpandTo(v: seq<real>, poc: nat, target: real) returns (upper: nat, lower: nat)
    requires poc < |v| && NonNegative(v)
    ensures upper <= poc <= lower < |v|
    ensures Held(v, upper, lower) >= target || (upper == 0 && lower == |v| - 1)
    ensures Grown(v, target, poc, upper, lower)
  {
    upper, lower := poc, poc;
    var acc := v[poc];
    while acc < target && (upper > 0 || lower < |v| - 1)
      invariant upper <= poc <= lower < |v|
      invariant acc == Held(v, upper, lower)
      invariant Grown(v, target, poc, upper, lower)
      decreases upper + |v| - lower
    {
      SumGrows(v, upper, lower);
      var up := if upper > 0 then v[upper - 1] else -1.0;
      var down := if lower < |v| - 1 then v[lower + 1] else -1.0;
      if up >= down {
        GrowsUpward(v, target, poc, upper, lower);
        upper := upper - 1;
        acc := acc + v[upper];
      } else {
        GrowsDownward(v, target, poc, upper, lower);
        lower := lower + 1;
        acc := acc + v[lower];
      }
    }
  }

  lemma {:induction false} WiderHoldsMore(v: seq<real>, a: nat, b: nat, n: nat) returns (c: nat, d: nat)
    requires NonNegative(v) && a <= b < |v| && b - a + 1 <= n <= |v|
    ensures c <= d < |v| && d - c + 1 == n && Held(v, a, b) <= Held(v, c, d)
    decreases n - (b - a)
  {
    if b - a + 1 == n {
      c, d := a, b;
    } else {
      SumGrows(v, a, b);
      if a > 0 {
        c, d := WiderHoldsMore(v, a - 1, b, n);
      } else {
        c, d := WiderHoldsMore(v, a, b + 1, n);
      }
    }
  }

  lemma NoRangeHoldsMoreThanAll(v: seq<real>, upper: nat, lower: nat)
    requires NonNegative(v) && upper <= lower < |v|
    ensures Held(v, upper, lower) <= Sum(v)
  {
    var c, d := WiderHoldsMore(v, upper, lower, |v|);
    assert c == 0 && d == |v| - 1;
  }

  lemma ShareOfTotal(total: real, share: real, target: real)
    requires total >= 0.0 && target == total * share
    ensures total >= target <==> share <= 1.0 || total == 0.0
  {
  }

  /** A range that meets the target, or is everything, meets it exactly when everything does. */
  lemma RangeHoldsShare(v: seq<real>, share: real, target: real, upper: nat, lower: nat)
    requires NonNegative(v) && upper <= lower < |v| && target == Sum(v) * share
    requires Held(v, upper, lower) >= target || (upper == 0 && lower == |v| - 1)
    ensures Held(v, upper, lower) >= target <==> share <= 1.0 || Sum(v) == 0.0
  {
    HeldIsNonNegative(v, 0, |v| - 1);
    ShareOfTotal(Sum(v), share, target);
    NoRangeHoldsMoreThanAll(v, upper, lower);
  }

  datatype Area = Area(poc: nat, upper: nat, lower: nat)

  /** A contiguous range around the point of control, reached by always taking the
      busier neighbour, and short of the share before its last step. It holds the
      share unless more than everything was asked for. An empty profile has none. */
  method Profile(v: seq<real>, share: real) returns (r: Option<Area>)
    requires NonNegative(v)
    ensures r.None? <==> v == []
    ensures r.Some? ==>
      var a := r.value;
      && a.upper <= a.poc <= a.lower < |v|
      && (forall i :: 0 <= i < |v| ==> v[i] <= v[a.poc])
      && (Held(v, a.upper, a.lower) >= Sum(v) * share <==> share <= 1.0 || Sum(v) == 0.0)
      && Grown(v, Sum(v) * share, a.poc, a.upper, a.lower)
  {
    if v == [] {
      return None;
    }
    var poc := PointOfControl(v);
    var target := Sum(v) * share;
    var upper, lower := ExpandTo(v, poc, target);
    RangeHoldsShare(v, share, target, upper, lower);
    return Some(Area(poc, upper, lower));
  }

  // ---- how good the greedy range is ----------------------------------------------

  /** Volumes only fall off with distance from the point of control. */
  ghost predicate Peaked(v: seq<real>, poc: nat) {
    && (forall i, j :: 0 <= i <= j <= poc && j < |v| ==> v[i] <= v[j])
    && (forall i, j :: poc <= i <= j < |v| ==> v[i] >= v[j])
  }

  /** On a peaked profile no contiguous range of as many levels holds more. */
  lemma {:induction false} HeaviestOfItsWidth(v: seq<real>, target: real, poc: nat, upper: nat, lower: nat,
                                              a: nat, b: nat)
    requires upper <= poc <= lower < |v| && Grown(v, target, poc, upper, lower)
    requires NonNegative(v) && Peaked(v, poc)
    requires a <= b < |v| && b - a == lower - upper
    ensures Held(v, a, b) <= Held(v, upper, lower)
    decreases lower - upper, 0
  {
    if upper == lower {
      assert a <= poc ==> v[a] <= v[poc];
    } else if upper < poc && TakesUpper(v, upper + 1, lower) && Grown(v, target, poc, upper + 1, lower) {
      SumGrows(v, upper + 1, lower);
      DroppingALevel(v, target, poc, upper + 1, lower, a, b);
    } else {
      SumGrows(v, upper, lower - 1);
      DroppingALevel(v, target, poc, upper, lower - 1, a, b);
    }
  }

  /** A range one level wider than a grown one exceeds it by at most the busier neighbour. */
  lemma {:induction false} DroppingALevel(v: seq<real>, target: real, poc: nat, upper: nat, lower: nat, a: nat, b: nat)
    requires upper <= poc <= lower < |v| && Grown(v, target, poc, upper, lower)
    requires NonNegative(v) && Peaked(v, poc)
    requires a <= b < |v| && b - a == lower - upper + 1
    ensures var up := if upper > 0 then v[upper - 1] else -1.0;
      var down := if lower + 1 < |v| then v[lower + 1] else -1.0;
      Held(v, a, b) <= Held(v, upper, lower) + (if up >= down then up else down)
    decreases lower - upper, 1
  {
    if a < upper {
      SumGrows(v, a + 1, b);
      HeaviestOfItsWidth(v, target, poc, upper, lower, a + 1, b);
    } else {
      SumGrows(v, a, b - 1);
      HeaviestOfItsWidth(v, target, poc, upper, lower, a, b - 1);
    }
  }

  /** On a peaked profile no narrower contiguous range meets the target. */
  lemma NothingNarrowerHoldsTheShare(v: seq<real>, target: real, poc: nat, upper: nat, lower: nat, a: nat, b: nat)
    requires upper <= poc <= lower < |v| && Grown(v, target, poc, upper, lower)
    requires NonNegative(v) && Peaked(v, poc)
    requires a <= b < |v| && b - a < lower - upper
    ensures Held(v, a, b) < target
  {
    var c, d := WiderHoldsMore(v, a, b, lower - upper);
    if upper < poc && TakesUpper(v, upper + 1, lower) && Held(v, upper + 1, lower) < target
       && Grown(v, target, poc, upper + 1, lower) {
      HeaviestOfItsWidth(v, target, poc, upper + 1, lower, c, d);
    } else {
      HeaviestOfItsWidth(v, target, poc, upper, lower - 1, c, d);
    }
  }
}
