/**
  The cargo-loss algorithms of the risk-event handlers (src/hooks/useEventHandlers.ts):
  the first-fit drain used by storms, "throw" and "brave", and the largest-stack-first
  greedy loop of a failed escape from pirates. Each is a method that does what the
  handler's loop does, proved equal to a recursive specification whose properties are
  proved as lemmas.
*/
module CargoLoss {
  import opened Cargo

  /** The hold after a loss, and the `{type, amount}` list of what was lost, in order. */
  datatype Drain = Drain(cargo: seq<Stack>, lost: seq<Stack>)

  /** Units to lose: `Math.max(1, Math.floor(total * fraction))` for a fraction below 1. */
  function LossQuota(total: int, fraction: real): (q: int)
    requires 0.0 <= fraction < 1.0
    ensures q >= 1
    ensures total >= 1 ==> q <= total
  {
    FloorBelow(total, fraction);
    Max(1, (total as real * fraction).Floor)
  }

  lemma FloorBelow(total: int, fraction: real)
    requires 0.0 <= fraction < 1.0
    ensures total >= 1 ==> (total as real * fraction).Floor < total
  {
    if total >= 1 {
      assert total as real * fraction < total as real * 1.0;
    }
  }

  // ------------------------------------------------------------ first fit

  /** One call of the storm's `map` callback: the good it returns, what it records as
      lost, and what is still owed afterwards. */
  datatype Step = Step(next: Stack, taken: seq<Stack>, owed: int)

  function FitStep(good: Stack, owed: int): Step
  {
    if owed > 0 && good.amount > 0 then
      var lost := Min(good.amount, owed);
      Step(good.(amount := good.amount - lost), [Stack(good.kind, lost)], owed - lost)
    else
      Step(good, [], owed)
  }

  /** Specification of the storm drain: walk the hold in order, taking from each good
      as much as is still owed. */
  function FirstFit(c: seq<Stack>, quota: int): (d: Drain)
    ensures SameKinds(d.cargo, c)
  {
    if c == [] then Drain([], [])
    else
      var s := FitStep(c[0], quota);
      var rest := FirstFit(c[1..], s.owed);
      Drain([s.next] + rest.cargo, s.taken + rest.lost)
  }

  /** Nothing owed, nothing taken. */
  lemma {:induction false} FirstFitIdle(c: seq<Stack>, quota: int)
    requires quota <= 0
    ensures FirstFit(c, quota) == Drain(c, [])
  {
    if c != [] {
      FirstFitIdle(c[1..], quota);
    }
  }

  lemma TailNonNegative(c: seq<Stack>)
    requires c != [] && NonNegative(c)
    ensures NonNegative(c[1..])
  {
    forall i | 0 <= i < |c[1..]| ensures c[1..][i].amount >= 0 { assert c[1..][i] == c[i + 1]; }
  }

  lemma TotalCons(s: Stack, c: seq<Stack>)
    ensures Total([s] + c) == s.amount + Total(c)
  {
    assert ([s] + c)[1..] == c;
  }

  /** The drain never raises a good and never drives one below zero. */
  lemma {:induction false} FirstFitBounded(c: seq<Stack>, quota: int)
    requires NonNegative(c)
    ensures forall i :: 0 <= i < |c| ==> 0 <= FirstFit(c, quota).cargo[i].amount <= c[i].amount
  {
    if c != [] {
      var d := FirstFit(c, quota);
      TailNonNegative(c);
      var s := FitStep(c[0], quota);
      var rest := FirstFit(c[1..], s.owed);
      FirstFitBounded(c[1..], s.owed);
      forall i | 0 < i < |c| ensures 0 <= d.cargo[i].amount <= c[i].amount {
        assert d.cargo[i] == rest.cargo[i - 1] && c[i] == c[1..][i - 1];
      }
    }
  }

  /** The drain removes exactly `min(quota, total)` units, so a quota no larger than
      the hold is met in full, and the lost list adds up to what was removed. */
  lemma {:induction false} FirstFitTotals(c: seq<Stack>, quota: int)
    requires NonNegative(c)
    ensures Total(FirstFit(c, quota).cargo) == Total(c) - Min(Max(quota, 0), Total(c))
    ensures Total(FirstFit(c, quota).lost) == Min(Max(quota, 0), Total(c))
  {
    if c != [] {
      var d := FirstFit(c, quota);
      TailNonNegative(c);
      TotalNonNegative(c[1..]);
      var a := c[0].amount;
      var t1 := Total(c[1..]);
      assert Total(c) == a + t1;
      var s := FitStep(c[0], quota);
      var rest := FirstFit(c[1..], s.owed);
      FirstFitTotals(c[1..], s.owed);
      TotalCons(s.next, rest.cargo);
      if quota > 0 && a > 0 {
        var lost := Min(a, quota);
        TotalCons(Stack(c[0].kind, lost), rest.lost);
        assert Total(d.lost) == lost + Min(quota - lost, t1);
        assert Total(d.cargo) == a - lost + t1 - Min(quota - lost, t1);
      } else {
        assert s.taken + rest.lost == rest.lost;
      }
    }
  }

  /** First fit in hold order: a good loses units only when every good before it has
      been emptied. */
  lemma {:induction false} FirstFitOrder(c: seq<Stack>, quota: int)
    requires NonNegative(c)
    ensures var d := FirstFit(c, quota);
      forall i, j :: 0 <= j < i < |c| && d.cargo[i].amount < c[i].amount ==> d.cargo[j].amount == 0
  {
    if c != [] {
      var d := FirstFit(c, quota);
      TailNonNegative(c);
      var s := FitStep(c[0], quota);
      var rest := FirstFit(c[1..], s.owed);
      FirstFitOrder(c[1..], s.owed);
      if s.owed <= 0 {
        FirstFitIdle(c[1..], s.owed);
      } else {
        assert s.next.amount == 0;
      }
      forall i, j | 0 <= j < i < |c| && d.cargo[i].amount < c[i].amount
        ensures d.cargo[j].amount == 0
      {
        assert d.cargo[i] == rest.cargo[i - 1] && c[i] == c[1..][i - 1];
        if j > 0 {
          assert d.cargo[j] == rest.cargo[j - 1];
        }
      }
    }
  }

  /** After handling `cargo[..i]` with `owed` still to take, `updated` and `lost` are
      what the full drain starts with. */
  ghost predicate DrainedUpTo(cargo: seq<Stack>, quota: int, i: int, owed: int, updated: seq<Stack>, lost: seq<Stack>)
    requires 0 <= i <= |cargo|
  {
    var d := FirstFit(cargo, quota);
    var r := FirstFit(cargo[i..], owed);
    updated + r.cargo == d.cargo && lost + r.lost == d.lost
  }

  /** One more good of the hold handled: the drain so far extends by one step. */
  lemma DrainAdvance(cargo: seq<Stack>, quota: int, i: int, owed: int, updated: seq<Stack>, lost: seq<Stack>)
    requires 0 <= i < |cargo|
    requires DrainedUpTo(cargo, quota, i, owed, updated, lost)
    ensures var s := FitStep(cargo[i], owed);
      DrainedUpTo(cargo, quota, i + 1, s.owed, updated + [s.next], lost + s.taken)
  {
    assert cargo[i..][1..] == cargo[i + 1..];
    assert cargo[i..][0] == cargo[i];
    var s := FitStep(cargo[i], owed);
    var rest := FirstFit(cargo[i + 1..], s.owed);
    assert FirstFit(cargo[i..], owed) == Drain([s.next] + rest.cargo, s.taken + rest.lost);
    assert updated + ([s.next] + rest.cargo) == (updated + [s.next]) + rest.cargo;
    assert lost + (s.taken + rest.lost) == (lost + s.taken) + rest.lost;
  }

  /** The drain is complete once the whole hold has been walked. */
  lemma DrainDone(cargo: seq<Stack>, quota: int, owed: int, updated: seq<Stack>, lost: seq<Stack>)
    requires DrainedUpTo(cargo, quota, |cargo|, owed, updated, lost)
    ensures updated == FirstFit(cargo, quota).cargo && lost == FirstFit(cargo, quota).lost
  {
    assert cargo[|cargo|..] == [];
  }

  /** The storm loop: `cargo.map` with the owed amount `remainingToLose` carried across
      the calls (src/hooks/useEventHandlers.ts:28-41; the same loop drains the hold for
      "throw" and "brave"). */
  method DrainFirstFit(cargo: seq<Stack>, quota: int) returns (updated: seq<Stack>, lost: seq<Stack>)
    ensures updated == FirstFit(cargo, quota).cargo
    ensures lost == FirstFit(cargo, quota).lost
  {
    var remainingToLose := quota;
    updated, lost := [], [];
    assert cargo[0..] == cargo;
    for i := 0 to |cargo|
      invariant DrainedUpTo(cargo, quota, i, remainingToLose, updated, lost)
    {
      DrainAdvance(cargo, quota, i, remainingToLose, updated, lost);
      ghost var s := FitStep(cargo[i], remainingToLose);
      ghost var u0, l0 := updated, lost;
      var good := cargo[i];
      var next := good;
      if remainingToLose > 0 && good.amount > 0 {
        var lostAmount := Min(good.amount, remainingToLose);
        lost := lost + [Stack(good.kind, lostAmount)];
        remainingToLose := remainingToLose - lostAmount;
        next := good.(amount := good.amount - lostAmount);
      } else {
        assert lost + [] == lost;
      }
      updated := updated + [next];
      assert next == s.next;
      assert remainingToLose == s.owed;
      assert lost == l0 + s.taken;
      assert updated == u0 + [s.next];
    }
    DrainDone(cargo, quota, remainingToLose, updated, lost);
  }

  // ------------------------------------------------------- largest first

  /** Index of the largest positive stack among `c[lo..]`, the lowest index on ties;
      -1 when none is positive. */
  function LargestFrom(c: seq<Stack>, lo: nat): (r: int)
    requires lo <= |c|
    ensures r == -1 || (lo <= r < |c| && c[r].amount > 0)
    decreases |c| - lo
  {
    if lo == |c| then -1
    else
      var j := LargestFrom(c, lo + 1);
      if c[lo].amount > 0 && (j == -1 || c[lo].amount >= c[j].amount) then lo else j
  }

  function LargestIndex(c: seq<Stack>): (r: int)
    ensures -1 <= r < |c|
    ensures r != -1 ==> c[r].amount > 0
  {
    LargestFrom(c, 0)
  }

  /** `i` is the stack the pirates' scan settles on: positive, no smaller than any
      other, and strictly larger than every stack before it. */
  predicate IsLargest(c: seq<Stack>, i: int)
  {
    && 0 <= i < |c|
    && c[i].amount > 0
    && (forall j :: 0 <= j < |c| ==> c[j].amount <= c[i].amount)
    && (forall j :: 0 <= j < i ==> c[j].amount < c[i].amount)
  }

  lemma {:induction false} LargestFromSpec(c: seq<Stack>, lo: nat)
    requires lo <= |c|
    ensures var r := LargestFrom(c, lo);
      && (r == -1 <==> forall j :: lo <= j < |c| ==> c[j].amount <= 0)
      && (r != -1 ==> forall j :: lo <= j < |c| ==> c[j].amount <= c[r].amount)
      && (r != -1 ==> forall j :: lo <= j < r ==> c[j].amount < c[r].amount)
    decreases |c| - lo
  {
    if lo < |c| {
      LargestFromSpec(c, lo + 1);
    }
  }

  /** The specification picks the largest stack (lowest index on ties), or -1 exactly
      when nothing is left. */
  lemma LargestIndexSpec(c: seq<Stack>)
    ensures LargestIndex(c) == -1 <==> forall j :: 0 <= j < |c| ==> c[j].amount <= 0
    ensures LargestIndex(c) != -1 ==> IsLargest(c, LargestIndex(c))
  {
    LargestFromSpec(c, 0);
  }

  lemma LargestUnique(c: seq<Stack>, a: int, b: int)
    requires IsLargest(c, a) && IsLargest(c, b)
    ensures a == b
  {
  }

  /** The scan inside the escape loop (src/hooks/useEventHandlers.ts:194-201). */
  method FindLargest(c: seq<Stack>) returns (maxIndex: int, maxAmount: int)
    ensures maxIndex == LargestIndex(c)
    ensures maxIndex == -1 ==> maxAmount == 0
    ensures maxIndex != -1 ==> maxAmount == c[maxIndex].amount
  {
    maxIndex, maxAmount := -1, 0;
    for i := 0 to |c|
      invariant -1 <= maxIndex < i || (i == 0 && maxIndex == -1)
      invariant maxIndex == -1 ==> maxAmount == 0
      invariant maxIndex != -1 ==> 0 <= maxIndex < |c| && maxAmount == c[maxIndex].amount > 0
      invariant forall j :: 0 <= j < i ==> c[j].amount <= maxAmount
      invariant forall j :: 0 <= j < maxIndex ==> c[j].amount < maxAmount
    {
      if c[i].amount > maxAmount {
        maxAmount := c[i].amount;
        maxIndex := i;
      }
    }
    LargestIndexSpec(c);
    if maxIndex != -1 {
      LargestUnique(c, maxIndex, LargestIndex(c));
    }
  }

  /** Specification of the escape loss: repeatedly take as much as is still owed from
      the largest stack. */
  function Plunder(c: seq<Stack>, quota: int): (d: Drain)
    ensures SameKinds(d.cargo, c)
    decreases Max(quota, 0)
  {
    if quota <= 0 then Drain(c, [])
    else
      var i := LargestIndex(c);
      if i == -1 then Drain(c, [])
      else
        var take := Min(c[i].amount, quota);
        var rest := Plunder(c[i := c[i].(amount := c[i].amount - take)], quota - take);
        Drain(rest.cargo, [Stack(c[i].kind, take)] + rest.lost)
  }

  /** Looting never raises a good and never drives one below zero. */
  lemma {:induction false} PlunderBounded(c: seq<Stack>, quota: int)
    requires NonNegative(c)
    ensures var d := Plunder(c, quota);
      && NonNegative(d.cargo)
      && (forall i :: 0 <= i < |c| ==> d.cargo[i].amount <= c[i].amount)
    decreases Max(quota, 0)
  {
    if quota > 0 {
      var i := LargestIndex(c);
      if i != -1 {
        var take := Min(c[i].amount, quota);
        var c' := c[i := c[i].(amount := c[i].amount - take)];
        var rest := Plunder(c', quota - take);
        assert Plunder(c, quota).cargo == rest.cargo;
        PlunderBounded(c', quota - take);
        forall k | 0 <= k < |c| ensures rest.cargo[k].amount <= c[k].amount {
          assert rest.cargo[k].amount <= c'[k].amount;
        }
      }
    }
  }

  /** Looting takes exactly `min(quota, total)` units out of the hold. */
  lemma {:induction false} PlunderTotals(c: seq<Stack>, quota: int)
    requires NonNegative(c)
    ensures var d := Plunder(c, quota);
      && Total(d.cargo) == Total(c) - Min(Max(quota, 0), Total(c))
      && Total(d.lost) == Min(Max(quota, 0), Total(c))
    decreases Max(quota, 0), 1
  {
    if quota <= 0 {
      assert Plunder(c, quota) == Drain(c, []);
      TotalNonNegative(c);
    } else if LargestIndex(c) == -1 {
      assert Plunder(c, quota) == Drain(c, []);
      LargestIndexSpec(c);
      assert forall j :: 0 <= j < |c| ==> c[j].amount == 0;
      TotalNonNegative(c);
      assert Total(c) == 0;
    } else {
      PlunderTotalsStep(c, quota);
    }
  }

  /** The inductive step of `PlunderTotals`: one round, then the rest. */
  lemma {:induction false} PlunderTotalsStep(c: seq<Stack>, quota: int)
    requires NonNegative(c) && quota > 0 && LargestIndex(c) != -1
    ensures var d := Plunder(c, quota);
      && Total(d.cargo) == Total(c) - Min(quota, Total(c))
      && Total(d.lost) == Min(quota, Total(c))
    decreases Max(quota, 0), 0
  {
    var i := LargestIndex(c);
    var take := Min(c[i].amount, quota);
    var c' := c[i := c[i].(amount := c[i].amount - take)];
    var rest := Plunder(c', quota - take);
    assert Plunder(c, quota) == Drain(rest.cargo, [Stack(c[i].kind, take)] + rest.lost);
    TotalUpdate(c, i, c[i].amount - take);
    LoweredNonNegative(c, i, c[i].amount - take);
    PlunderTotals(c', quota - take);
    assert Max(quota - take, 0) == quota - take;
    var owed := Min(quota - take, Total(c) - take);
    assert Total(rest.lost) == owed && Total(rest.cargo) == Total(c) - take - owed;
    TotalCons(Stack(c[i].kind, take), rest.lost);
    ShiftMin(quota, Total(c), take);
  }

  lemma LoweredNonNegative(c: seq<Stack>, i: int, v: int)
    requires NonNegative(c) && 0 <= i < |c| && v >= 0
    ensures NonNegative(c[i := c[i].(amount := v)])
  {
  }

  lemma ShiftMin(x: int, y: int, t: int)
    ensures Min(x - t, y - t) + t == Min(x, y)
  {
  }

  /** The pirates take exactly `min(quota, total)` units, never raise a good and never
      drive one below zero. */
  lemma PlunderRemoves(c: seq<Stack>, quota: int)
    requires NonNegative(c)
    ensures var d := Plunder(c, quota);
      && NonNegative(d.cargo)
      && (forall i :: 0 <= i < |c| ==> d.cargo[i].amount <= c[i].amount)
      && Total(d.cargo) == Total(c) - Min(Max(quota, 0), Total(c))
      && Total(d.lost) == Min(Max(quota, 0), Total(c))
  {
    PlunderBounded(c, quota);
    PlunderTotals(c, quota);
  }

  /** Largest stack first: the first unit owed is taken from the stack `IsLargest`
      names, and it gives up as much as it holds, up to what is owed. */
  lemma PlunderStartsAtLargest(c: seq<Stack>, quota: int)
    requires quota > 0 && NonNegative(c) && Total(c) > 0
    ensures |Plunder(c, quota).lost| >= 1
    ensures exists i :: IsLargest(c, i) && Plunder(c, quota).lost[0] == Stack(c[i].kind, Min(c[i].amount, quota))
  {
    LargestIndexSpec(c);
    TotalNonNegative(c);
    var i := LargestIndex(c);
    assert IsLargest(c, i);
  }

  /** Stack `i` ranks above stack `j` in the pirates' scan: more units, or as many
      and earlier in the hold. */
  predicate Outranks(c: seq<Stack>, i: int, j: int)
    requires 0 <= i < |c| && 0 <= j < |c|
  {
    c[i].amount > c[j].amount || (c[i].amount == c[j].amount && i < j)
  }

  /** Largest stack first, all the way: a stack loses units only after every stack
      that outranks it in the original hold has been emptied. */
  lemma {:induction false} PlunderOrder(c: seq<Stack>, quota: int)
    requires NonNegative(c)
    ensures forall i, j | 0 <= i < |c| && 0 <= j < |c| && i != j
      && Plunder(c, quota).cargo[j].amount < c[j].amount && Outranks(c, i, j)
      :: Plunder(c, quota).cargo[i].amount == 0
    decreases Max(quota, 0)
  {
    if quota > 0 && LargestIndex(c) != -1 {
      var m := LargestIndex(c);
      LargestIndexSpec(c);
      var take := Min(c[m].amount, quota);
      var c' := c[m := c[m].(amount := c[m].amount - take)];
      var rest := Plunder(c', quota - take);
      assert Plunder(c, quota).cargo == rest.cargo;
      LoweredNonNegative(c, m, c[m].amount - take);
      PlunderBounded(c', quota - take);
      PlunderOrder(c', quota - take);
      if take < c[m].amount {
        assert rest.cargo == c';
      }
      forall i, j | 0 <= i < |c| && 0 <= j < |c| && i != j
        && rest.cargo[j].amount < c[j].amount && Outranks(c, i, j)
        ensures rest.cargo[i].amount == 0
      {
        assert j != m;
        if i != m {
          assert c'[i] == c[i] && c'[j] == c[j];
          assert Outranks(c', i, j);
        } else {
          assert rest.cargo[m].amount <= c'[m].amount == 0;
        }
      }
    }
  }

  /** The escape loop (src/hooks/useEventHandlers.ts:187-212): while units are owed, scan
      for the largest stack and take what it can give. */
  method TakeLargestFirst(cargo: seq<Stack>, quota: int) returns (updated: seq<Stack>, lost: seq<Stack>)
    ensures updated == Plunder(cargo, quota).cargo
    ensures lost == Plunder(cargo, quota).lost
  {
    var totalToLose := quota;
    updated, lost := cargo, [];
    while totalToLose > 0
      invariant Plunder(updated, totalToLose).cargo == Plunder(cargo, quota).cargo
      invariant lost + Plunder(updated, totalToLose).lost == Plunder(cargo, quota).lost
      decreases totalToLose
    {
      var maxIndex, maxAmount := FindLargest(updated);
      if maxIndex == -1 || maxAmount == 0 {
        break;
      }
      var take := Min(updated[maxIndex].amount, totalToLose);
      if take > 0 {
        lost := lost + [Stack(updated[maxIndex].kind, take)];
        updated := updated[maxIndex := updated[maxIndex].(amount := updated[maxIndex].amount - take)];
        totalToLose := totalToLose - take;
      } else {
        break;
      }
    }
  }
}
