/** Sums over sequences, and the rearrangements of them that the ledger laws rest on. */
module Sums {

  function Min(a: int, b: int): int {
    if a <= b then a else b
  }

  /** The part of `x` above zero. */
  function Pos(x: int): int {
    if x > 0 then x else 0
  }

  function Sum<T>(s: seq<T>, f: T -> int): int {
    if s == [] then 0 else Sum(s[..|s| - 1], f) + f(s[|s| - 1])
  }

  function UpTo(n: nat): (s: seq<nat>)
    ensures |s| == n
    ensures forall i :: 0 <= i < n ==> s[i] == i
  {
    if n == 0 then [] else UpTo(n - 1) + [n - 1]
  }

  lemma SumPush<T>(s: seq<T>, x: T, f: T -> int)
    ensures Sum(s + [x], f) == Sum(s, f) + f(x)
  {
    assert (s + [x])[..|s|] == s;
  }

  lemma {:induction false} SumConcat<T>(s: seq<T>, t: seq<T>, f: T -> int)
    ensures Sum(s + t, f) == Sum(s, f) + Sum(t, f)
  {
    if t == [] {
      assert s + t == s;
    } else {
      assert (s + t)[..|s + t| - 1] == s + t[..|t| - 1];
      SumConcat(s, t[..|t| - 1], f);
    }
  }

  lemma {:induction false} SumSame<T>(s: seq<T>, f: T -> int, g: T -> int)
    requires forall x | x in s :: f(x) == g(x)
    ensures Sum(s, f) == Sum(s, g)
  {
    if s != [] {
      SumSame(s[..|s| - 1], f, g);
    }
  }

  lemma {:induction false} SumAlong<S, T>(s: seq<S>, t: seq<T>, f: S -> int, g: T -> int)
    requires |s| == |t| && forall i | 0 <= i < |s| :: f(s[i]) == g(t[i])
    ensures Sum(s, f) == Sum(t, g)
  {
    if s != [] {
      SumAlong(s[..|s| - 1], t[..|t| - 1], f, g);
    }
  }

  /** Pointwise addition: the sum of `f + g` is the sum of `f` plus the sum of `g`. */
  lemma {:induction false} SumAdd<T>(s: seq<T>, f: T -> int, g: T -> int, h: T -> int)
    requires forall x | x in s :: h(x) == f(x) + g(x)
    ensures Sum(s, h) == Sum(s, f) + Sum(s, g)
  {
    if s != [] {
      SumAdd(s[..|s| - 1], f, g, h);
    }
  }

  lemma {:induction false} SumAtMost<T>(s: seq<T>, f: T -> int, g: T -> int)
    requires forall x | x in s :: f(x) <= g(x)
    ensures Sum(s, f) <= Sum(s, g)
  {
    if s != [] {
      SumAtMost(s[..|s| - 1], f, g);
    }
  }

  lemma {:induction false} SumZero<T>(s: seq<T>, f: T -> int)
    requires forall x | x in s :: f(x) == 0
    ensures Sum(s, f) == 0
  {
    if s != [] {
      SumZero(s[..|s| - 1], f);
    }
  }

  lemma {:induction false} SumNonNegative<T>(s: seq<T>, f: T -> int)
    requires forall x | x in s :: f(x) >= 0
    ensures Sum(s, f) >= 0
  {
    if s != [] {
      SumNonNegative(s[..|s| - 1], f);
    }
  }

  lemma {:induction false} SumUpdate<T>(s: seq<T>, i: nat, x: T, f: T -> int)
    requires i < |s|
    ensures Sum(s[i := x], f) == Sum(s, f) - f(s[i]) + f(x)
  {
    var n := |s| - 1;
    if i == n {
      assert s[i := x][..n] == s[..n];
    } else {
      assert s[i := x][..n] == s[..n][i := x];
      SumUpdate(s[..n], i, x, f);
    }
  }

  lemma {:induction false} SumRemove<T>(s: seq<T>, i: nat, f: T -> int)
    requires i < |s|
    ensures Sum(s[..i] + s[i + 1..], f) == Sum(s, f) - f(s[i])
  {
    SumConcat(s[..i], s[i + 1..], f);
    SumConcat(s[..i], s[i..], f);
    assert s[..i] + s[i..] == s;
    SumConcat([s[i]], s[i + 1..], f);
    assert [s[i]] + s[i + 1..] == s[i..];
    assert Sum([s[i]], f) == f(s[i]) by { SumPush([], s[i], f); assert [] + [s[i]] == [s[i]]; }
  }

  function Row<S, T>(h: (S, T) -> int, x: S): T -> int {
    y => h(x, y)
  }

  function Column<S, T>(h: (S, T) -> int, y: T): S -> int {
    x => h(x, y)
  }

  /** Summing rows first or columns first gives the same total. */
  lemma {:induction false} SumSwap<S, T>(s: seq<S>, t: seq<T>, h: (S, T) -> int, rows: S -> int, columns: T -> int)
    requires forall x | x in s :: rows(x) == Sum(t, Row(h, x))
    requires forall y | y in t :: columns(y) == Sum(s, Column(h, y))
    ensures Sum(s, rows) == Sum(t, columns)
  {
    if s == [] {
      SumZero(t, columns);
    } else {
      var init, last := s[..|s| - 1], s[|s| - 1];
      var above := y => Sum(init, Column(h, y));
      SumSwap(init, t, h, rows, above);
      SumAdd(t, above, Row(h, last), columns);
    }
  }

  /** A sum that meets a distinct key exactly once picks out that key's value. */
  lemma {:induction false} SumPick<T>(s: seq<T>, i: nat, f: T -> int)
    requires i < |s|
    requires forall j | 0 <= j < |s| && j != i :: f(s[j]) == 0
    ensures Sum(s, f) == f(s[i])
  {
    var n := |s| - 1;
    if i == n {
      SumZero(s[..n], f);
    } else {
      SumPick(s[..n], i, f);
    }
  }

  function OnlyAt(i: nat, f: nat -> int): nat -> int {
    k => if k == i then f(k) else 0
  }

  function OnlyIn(ids: seq<nat>, f: nat -> int): nat -> int {
    k => if k in ids then f(k) else 0
  }

  /** Summing over a list of distinct ids, in any order, is summing over the table with the other rows left out. */
  lemma {:induction false} SumAnyOrder(ids: seq<nat>, n: nat, f: nat -> int)
    requires forall i | 0 <= i < |ids| :: ids[i] < n
    requires forall i, j | 0 <= i < j < |ids| :: ids[i] != ids[j]
    ensures Sum(ids, f) == Sum<nat>(UpTo(n), OnlyIn(ids, f))
  {
    if ids == [] {
      SumZero<nat>(UpTo(n), OnlyIn(ids, f));
    } else {
      var init, last := ids[..|ids| - 1], ids[|ids| - 1];
      SumAnyOrder(init, n, f);
      assert ids == init + [last] && last !in init;
      SumPick<nat>(UpTo(n), last, OnlyAt(last, f));
      SumAdd<nat>(UpTo(n), OnlyIn(init, f), OnlyAt(last, f), OnlyIn(ids, f));
    }
  }

  function At<T>(s: seq<T>, f: T -> int): nat -> int {
    (i: nat) => if i < |s| then f(s[i]) else 0
  }

  lemma {:induction false} SumByIndex<T>(s: seq<T>, f: T -> int)
    ensures Sum(s, f) == Sum<nat>(UpTo(|s|), At(s, f))
  {
    if s != [] {
      var n := |s| - 1;
      SumByIndex(s[..n], f);
      assert UpTo(|s|)[..n] == UpTo(n);
      SumSame<nat>(UpTo(n), At(s[..n], f), At(s, f));
    }
  }
}
