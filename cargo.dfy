/**
  The cargo hold as the hooks see it: an ordered list of `{type, amount}` entries.
  The list-rewriting patterns that several hooks repeat (the `reduce` that sums the
  hold, the `find`/`map`/append of a purchase, the clamped `map` of a sale, the
  one-unit-per-good `map` of a pirate tribute) are defined here once.
*/
module Cargo {

  /** One entry of the hold: the good's name and the tons carried. */
  datatype Stack = Stack(kind: string, amount: int)

  function Max(a: int, b: int): int { if a >= b then a else b }
  function Min(a: int, b: int): int { if a <= b then a else b }

  /** `cargo.reduce((sum, item) => sum + item.amount, 0)` */
  function Total(c: seq<Stack>): int
  {
    if c == [] then 0 else c[0].amount + Total(c[1..])
  }

  predicate NonNegative(c: seq<Stack>)
  {
    forall i :: 0 <= i < |c| ==> c[i].amount >= 0
  }

  /** Same length and, position by position, the same goods. */
  predicate SameKinds(a: seq<Stack>, b: seq<Stack>)
  {
    |a| == |b| && forall i :: 0 <= i < |a| ==> a[i].kind == b[i].kind
  }

  /** `cargo.find(g => g.type === kind)` succeeds. */
  predicate Has(c: seq<Stack>, kind: string)
  {
    c != [] && (c[0].kind == kind || Has(c[1..], kind))
  }

  /** `cargo.find(g => g.type === kind)?.amount || 0`: the first matching entry's amount. */
  function AmountOf(c: seq<Stack>, kind: string): (r: int)
    ensures !Has(c, kind) ==> r == 0
    ensures NonNegative(c) ==> r >= 0
  {
    assert NonNegative(c) && c != [] ==> NonNegative(c[1..]) by {
      if NonNegative(c) && c != [] {
        forall i | 0 <= i < |c[1..]| ensures c[1..][i].amount >= 0 { assert c[1..][i] == c[i + 1]; }
      }
    }
    if c == [] then 0 else if c[0].kind == kind then c[0].amount else AmountOf(c[1..], kind)
  }

  /** `prev.map(g => g.type === kind ? { ...g, amount: g.amount + q } : g)` */
  function AddAll(c: seq<Stack>, kind: string, q: int): (r: seq<Stack>)
    ensures SameKinds(r, c)
  {
    if c == [] then []
    else [if c[0].kind == kind then c[0].(amount := c[0].amount + q) else c[0]] + AddAll(c[1..], kind, q)
  }

  /** A purchase or a salvage: add `q` to the good if it is held, otherwise append it. */
  function Deposit(c: seq<Stack>, kind: string, q: int): (r: seq<Stack>)
    ensures Has(r, kind)
    ensures |c| <= |r| <= |c| + 1
    ensures forall i :: 0 <= i < |c| ==> r[i].kind == c[i].kind
  {
    if Has(c, kind) then AddAllHas(c, kind, q); AddAll(c, kind, q)
    else AppendHas(c, Stack(kind, q)); c + [Stack(kind, q)]
  }

  /** A sale: `prev.map(g => g.type === kind ? { ...g, amount: Math.max(0, g.amount - q) } : g)` */
  function Withdraw(c: seq<Stack>, kind: string, q: int): (r: seq<Stack>)
    ensures SameKinds(r, c)
  {
    if c == [] then []
    else [if c[0].kind == kind then c[0].(amount := Max(0, c[0].amount - q)) else c[0]] + Withdraw(c[1..], kind, q)
  }

  /** The pirates' tribute: `prev.map(good => good.amount > 0 ? { ...good, amount: good.amount - 1 } : good)` */
  function LoseOneEach(c: seq<Stack>): (r: seq<Stack>)
    ensures SameKinds(r, c)
  {
    if c == [] then []
    else [if c[0].amount > 0 then c[0].(amount := c[0].amount - 1) else c[0]] + LoseOneEach(c[1..])
  }

  /** No good is listed twice. */
  predicate UniqueKinds(c: seq<Stack>)
  {
    forall i, j :: 0 <= i < j < |c| ==> c[i].kind != c[j].kind
  }

  /** How many goods have at least one unit. */
  function CountPositive(c: seq<Stack>): nat
  {
    if c == [] then 0 else (if c[0].amount > 0 then 1 else 0) + CountPositive(c[1..])
  }

  // ---------------------------------------------------------------- lemmas

  lemma {:induction false} TotalAppend(a: seq<Stack>, b: seq<Stack>)
    ensures Total(a + b) == Total(a) + Total(b)
  {
    if a != [] {
      assert (a + b)[1..] == a[1..] + b;
      TotalAppend(a[1..], b);
    } else {
      assert a + b == b;
    }
  }

  lemma {:induction false} TotalNonNegative(c: seq<Stack>)
    requires NonNegative(c)
    ensures Total(c) >= 0
    ensures Total(c) == 0 <==> forall i :: 0 <= i < |c| ==> c[i].amount == 0
  {
    if c != [] {
      TotalNonNegative(c[1..]);
      if Total(c) == 0 {
        forall i | 0 <= i < |c| ensures c[i].amount == 0 {
          if i > 0 { assert c[i] == c[1..][i - 1]; }
        }
      }
      if forall i :: 0 <= i < |c| ==> c[i].amount == 0 {
        assert forall i :: 0 <= i < |c[1..]| ==> c[1..][i].amount == 0 by {
          forall i | 0 <= i < |c[1..]| ensures c[1..][i].amount == 0 { assert c[1..][i] == c[i + 1]; }
        }
      }
    }
  }

  /** Changing one entry's amount changes the total by exactly the difference. */
  lemma {:induction false} TotalUpdate(c: seq<Stack>, i: int, v: int)
    requires 0 <= i < |c|
    ensures Total(c[i := c[i].(amount := v)]) == Total(c) - c[i].amount + v
  {
    if i > 0 {
      assert c[i := c[i].(amount := v)][1..] == c[1..][i - 1 := c[i].(amount := v)];
      TotalUpdate(c[1..], i - 1, v);
    }
  }

  /** An entry that is present is found, and the first match is the one read. */
  lemma {:induction false} HasIndex(c: seq<Stack>, kind: string)
    ensures Has(c, kind) <==> exists i :: 0 <= i < |c| && c[i].kind == kind
  {
    if c != [] {
      HasIndex(c[1..], kind);
      if exists i :: 0 <= i < |c| && c[i].kind == kind {
        var i :| 0 <= i < |c| && c[i].kind == kind;
        if i > 0 { assert c[1..][i - 1].kind == kind; }
      }
      if Has(c[1..], kind) {
        var j :| 0 <= j < |c[1..]| && c[1..][j].kind == kind;
        assert c[j + 1].kind == kind;
      }
    }
  }

  /** After a purchase of `q` tons the good's amount has grown by exactly `q`. */
  lemma {:induction false} DepositAmount(c: seq<Stack>, kind: string, q: int)
    ensures AmountOf(Deposit(c, kind, q), kind) == AmountOf(c, kind) + q
    ensures Has(Deposit(c, kind, q), kind)
  {
    if Has(c, kind) {
      AddAllAmount(c, kind, q, kind);
      AddAllHas(c, kind, q);
    } else {
      AbsentAmount(c, kind);
      AppendAmount(c, Stack(kind, q), kind);
      AppendHas(c, Stack(kind, q));
    }
  }

  /** A purchase never changes the amount of any other good. */
  lemma {:induction false} DepositOthers(c: seq<Stack>, kind: string, q: int, other: string)
    requires other != kind
    ensures AmountOf(Deposit(c, kind, q), other) == AmountOf(c, other)
  {
    if Has(c, kind) {
      AddAllAmount(c, kind, q, other);
    } else {
      AppendAmount(c, Stack(kind, q), other);
      if !Has(c, other) { AbsentAmount(c, other); }
    }
  }

  /** Position by position: only entries of the traded good change, and only by `q`;
      when the good was absent the hold keeps its entries and gains one at the end. */
  lemma {:induction false} DepositShape(c: seq<Stack>, kind: string, q: int)
    ensures Has(c, kind) ==> SameKinds(Deposit(c, kind, q), c)
    ensures Has(c, kind) ==> forall i :: 0 <= i < |c| ==>
      Deposit(c, kind, q)[i].amount == (if c[i].kind == kind then c[i].amount + q else c[i].amount)
    ensures !Has(c, kind) ==> Deposit(c, kind, q) == c + [Stack(kind, q)]
  {
    if Has(c, kind) { AddAllAt(c, kind, q); }
  }

  lemma {:induction false} AddAllAt(c: seq<Stack>, kind: string, q: int)
    ensures forall i :: 0 <= i < |c| ==>
      AddAll(c, kind, q)[i].amount == (if c[i].kind == kind then c[i].amount + q else c[i].amount)
  {
    if c != [] {
      AddAllAt(c[1..], kind, q);
      forall i | 0 < i < |c|
        ensures AddAll(c, kind, q)[i].amount == (if c[i].kind == kind then c[i].amount + q else c[i].amount)
      {
        assert AddAll(c, kind, q)[i] == AddAll(c[1..], kind, q)[i - 1];
        assert c[i] == c[1..][i - 1];
      }
    }
  }

  lemma {:induction false} AddAllAmount(c: seq<Stack>, kind: string, q: int, k: string)
    ensures AmountOf(AddAll(c, kind, q), k) == AmountOf(c, k) + (if k == kind && Has(c, kind) then q else 0)
  {
    if c != [] {
      AddAllAmount(c[1..], kind, q, k);
    }
  }

  lemma {:induction false} AddAllHas(c: seq<Stack>, kind: string, q: int)
    ensures Has(AddAll(c, kind, q), kind) == Has(c, kind)
  {
    if c != [] {
      AddAllHas(c[1..], kind, q);
    }
  }

  lemma {:induction false} AbsentAmount(c: seq<Stack>, kind: string)
    requires !Has(c, kind)
    ensures AmountOf(c, kind) == 0
  {
    if c != [] {
      AbsentAmount(c[1..], kind);
    }
  }

  lemma {:induction false} AppendAmount(c: seq<Stack>, s: Stack, k: string)
    ensures AmountOf(c + [s], k) == if Has(c, k) then AmountOf(c, k) else if s.kind == k then s.amount else 0
  {
    if c == [] {
      assert [s][1..] == [];
    } else {
      assert (c + [s])[1..] == c[1..] + [s];
      AppendAmount(c[1..], s, k);
    }
  }

  lemma {:induction false} AppendHas(c: seq<Stack>, s: Stack)
    ensures Has(c + [s], s.kind)
  {
    if c != [] {
      assert (c + [s])[1..] == c[1..] + [s];
      AppendHas(c[1..], s);
    }
  }

  /** A sale leaves the good at `max(0, a - q)`; selling a good that is not held changes nothing. */
  lemma {:induction false} WithdrawAmount(c: seq<Stack>, kind: string, q: int)
    ensures Has(c, kind) ==> AmountOf(Withdraw(c, kind, q), kind) == Max(0, AmountOf(c, kind) - q)
    ensures !Has(c, kind) ==> Withdraw(c, kind, q) == c
  {
    if c != [] {
      WithdrawAmount(c[1..], kind, q);
    }
  }

  /** A sale never changes the amount of any other good. */
  lemma {:induction false} WithdrawOthers(c: seq<Stack>, kind: string, q: int, other: string)
    requires other != kind
    ensures AmountOf(Withdraw(c, kind, q), other) == AmountOf(c, other)
  {
    if c != [] {
      WithdrawOthers(c[1..], kind, q, other);
    }
  }

  /** Selling back what was just bought restores the hold, as long as the good was
      already listed; otherwise a zero entry for it stays behind. */
  lemma {:induction false} WithdrawAfterDeposit(c: seq<Stack>, kind: string, q: int)
    requires NonNegative(c) && q >= 0
    ensures Has(c, kind) ==> Withdraw(Deposit(c, kind, q), kind, q) == c
    ensures !Has(c, kind) ==> Withdraw(Deposit(c, kind, q), kind, q) == c + [Stack(kind, 0)]
  {
    if Has(c, kind) {
      WithdrawAddAll(c, kind, q);
    } else {
      WithdrawAppend(c, kind, q);
    }
  }

  lemma {:induction false} WithdrawAddAll(c: seq<Stack>, kind: string, q: int)
    requires NonNegative(c) && q >= 0
    ensures Withdraw(AddAll(c, kind, q), kind, q) == c
  {
    if c != [] {
      assert NonNegative(c[1..]) by {
        forall i | 0 <= i < |c[1..]| ensures c[1..][i].amount >= 0 { assert c[1..][i] == c[i + 1]; }
      }
      WithdrawAddAll(c[1..], kind, q);
      assert AddAll(c, kind, q)[1..] == AddAll(c[1..], kind, q);
    }
  }

  lemma {:induction false} WithdrawAppend(c: seq<Stack>, kind: string, q: int)
    requires !Has(c, kind) && q >= 0
    ensures Withdraw(c + [Stack(kind, q)], kind, q) == c + [Stack(kind, 0)]
  {
    if c == [] {
      assert [Stack(kind, q)][1..] == [];
    } else {
      assert (c + [Stack(kind, q)])[1..] == c[1..] + [Stack(kind, q)];
      WithdrawAppend(c[1..], kind, q);
    }
  }

  /** The tribute takes exactly one unit from every good that has any, none from the
      others, and never drives an amount below zero. */
  lemma {:induction false} LoseOneEachEffect(c: seq<Stack>)
    ensures forall i :: 0 <= i < |c| ==>
      LoseOneEach(c)[i].amount == (if c[i].amount > 0 then c[i].amount - 1 else c[i].amount)
    ensures Total(LoseOneEach(c)) == Total(c) - CountPositive(c)
    ensures NonNegative(c) ==> NonNegative(LoseOneEach(c))
  {
    if c != [] {
      LoseOneEachEffect(c[1..]);
      assert LoseOneEach(c)[1..] == LoseOneEach(c[1..]);
      forall i | 0 < i < |c|
        ensures LoseOneEach(c)[i].amount == (if c[i].amount > 0 then c[i].amount - 1 else c[i].amount)
      {
        assert LoseOneEach(c)[i] == LoseOneEach(c[1..])[i - 1];
        assert c[i] == c[1..][i - 1];
      }
    }
  }

  /** A hold with any cargo loses at least one unit to the tribute. */
  lemma {:induction false} CountPositiveOfLoaded(c: seq<Stack>)
    requires NonNegative(c) && Total(c) > 0
    ensures CountPositive(c) >= 1
  {
    if c[0].amount <= 0 {
      assert NonNegative(c[1..]) by {
        forall i | 0 <= i < |c[1..]| ensures c[1..][i].amount >= 0 { assert c[1..][i] == c[i + 1]; }
      }
      CountPositiveOfLoaded(c[1..]);
    }
  }

  /** Adding to a good the hold does not list changes nothing. */
  lemma {:induction false} AddAllAbsent(c: seq<Stack>, kind: string, q: int)
    requires !Has(c, kind)
    ensures AddAll(c, kind, q) == c
  {
    if c != [] {
      AddAllAbsent(c[1..], kind, q);
    }
  }

  lemma TailUnique(c: seq<Stack>)
    requires c != [] && UniqueKinds(c)
    ensures UniqueKinds(c[1..])
    ensures !Has(c[1..], c[0].kind)
  {
    HasIndex(c[1..], c[0].kind);
    forall i | 0 <= i < |c[1..]| ensures c[1..][i].kind != c[0].kind {
      assert c[1..][i] == c[i + 1];
    }
    forall i, j | 0 <= i < j < |c[1..]| ensures c[1..][i].kind != c[1..][j].kind {
      assert c[1..][i] == c[i + 1] && c[1..][j] == c[j + 1];
    }
  }

  /** On a hold that lists each good once, a deposit of `q` raises the total by `q`. */
  lemma {:induction false} DepositTotal(c: seq<Stack>, kind: string, q: int)
    requires UniqueKinds(c)
    ensures Total(Deposit(c, kind, q)) == Total(c) + q
  {
    if Has(c, kind) {
      AddAllTotal(c, kind, q);
    } else {
      TotalAppend(c, [Stack(kind, q)]);
      assert Total([Stack(kind, q)]) == q by { assert [Stack(kind, q)][1..] == []; }
    }
  }

  lemma {:induction false} AddAllTotal(c: seq<Stack>, kind: string, q: int)
    requires UniqueKinds(c) && Has(c, kind)
    ensures Total(AddAll(c, kind, q)) == Total(c) + q
  {
    TailUnique(c);
    var r := AddAll(c, kind, q);
    assert r[1..] == AddAll(c[1..], kind, q);
    if c[0].kind == kind {
      AddAllAbsent(c[1..], kind, q);
    } else {
      AddAllTotal(c[1..], kind, q);
    }
  }

  /** A deposit keeps every good listed once. */
  lemma DepositUnique(c: seq<Stack>, kind: string, q: int)
    requires UniqueKinds(c)
    ensures UniqueKinds(Deposit(c, kind, q))
  {
    DepositShape(c, kind, q);
    if !Has(c, kind) {
      HasIndex(c, kind);
      var r := c + [Stack(kind, q)];
      forall i, j | 0 <= i < j < |r| ensures r[i].kind != r[j].kind {
        if j == |c| {
          assert r[i] == c[i];
        } else {
          assert r[i] == c[i] && r[j] == c[j];
        }
      }
    }
  }
}
