/** Small datatypes and sequence functions shared by every component.

    The list functions recurse from the end of their sequence, so that a loop
    that has handled a prefix `s[..i]` meets the definition at `s[..i + 1]`. */
module Prelude {

  datatype Option<+T> = None | Some(value: T)

  datatype Result<+T, +E> = Ok(value: T) | Err(error: E)

  function Min(a: int, b: int): int {
    if a <= b then a else b
  }

  function Max(a: int, b: int): int {
    if a >= b then a else b
  }

  /** `n.saturating_sub(m)` of the unsigned types. */
  function SaturatingSub(n: nat, m: nat): nat {
    if m <= n then n - m else 0
  }

  /** White space among the ASCII characters. */
  predicate IsSpace(c: char) {
    c == ' ' || '\t' <= c <= '\r'
  }

  predicate NoDup<T(==)>(s: seq<T>) {
    forall i, j :: 0 <= i < j < |s| ==> s[i] != s[j]
  }

  /** `Vec::retain`: the elements that satisfy `keep`, in order. */
  function Filter<T>(keep: T -> bool, s: seq<T>): seq<T> {
    if s == [] then []
    else Filter(keep, s[..|s| - 1]) + (if keep(s[|s| - 1]) then [s[|s| - 1]] else [])
  }

  function Map<T, U>(f: T -> U, s: seq<T>): (r: seq<U>)
    ensures |r| == |s|
    ensures forall i :: 0 <= i < |s| ==> r[i] == f(s[i])
  {
    seq(|s|, i requires 0 <= i < |s| => f(s[i]))
  }

  lemma MapConcat<T, U>(f: T -> U, a: seq<T>, b: seq<T>)
    ensures Map(f, a + b) == Map(f, a) + Map(f, b)
  {
  }

  lemma {:induction false} FilterIn<T>(keep: T -> bool, s: seq<T>)
    ensures forall x :: x in Filter(keep, s) <==> x in s && keep(x)
    ensures |Filter(keep, s)| <= |s|
  {
    if s != [] {
      FilterIn(keep, s[..|s| - 1]);
      assert s == s[..|s| - 1] + [s[|s| - 1]];
    }
  }

  /** Two predicates that agree on the elements select the same subsequence. */
  lemma {:induction false} FilterAgree<T>(f: T -> bool, g: T -> bool, s: seq<T>)
    requires forall x :: x in s ==> f(x) == g(x)
    ensures Filter(f, s) == Filter(g, s)
  {
    if s != [] {
      FilterAgree(f, g, s[..|s| - 1]);
    }
  }

  lemma {:induction false} FilterAll<T>(keep: T -> bool, s: seq<T>)
    requires forall x :: x in s ==> keep(x)
    ensures Filter(keep, s) == s
  {
    if s != [] {
      var t, x := s[..|s| - 1], s[|s| - 1];
      assert s == t + [x];
      assert x in s && forall y :: y in t ==> y in s;
      FilterAll(keep, t);
    }
  }

  lemma {:induction false} FilterNone<T>(keep: T -> bool, s: seq<T>)
    requires forall x :: x in s ==> !keep(x)
    ensures Filter(keep, s) == []
  {
    if s != [] {
      FilterNone(keep, s[..|s| - 1]);
    }
  }

  lemma {:induction false} FilterConcat<T>(keep: T -> bool, a: seq<T>, b: seq<T>)
    ensures Filter(keep, a + b) == Filter(keep, a) + Filter(keep, b)
  {
    if b == [] {
      assert a + b == a;
    } else {
      var c := b[..|b| - 1];
      assert (a + b)[..|a + b| - 1] == a + c;
      FilterConcat(keep, a, c);
    }
  }

  /** Cutting out a stretch with no selected element changes nothing. */
  lemma FilterCut<T>(keep: T -> bool, a: seq<T>, b: seq<T>, c: seq<T>)
    requires forall x :: x in b ==> !keep(x)
    ensures Filter(keep, a + b + c) == Filter(keep, a + c)
  {
    FilterConcat(keep, a + b, c);
    FilterConcat(keep, a, b);
    FilterNone(keep, b);
    FilterConcat(keep, a, c);
  }

  /** Filtering twice is filtering once by the conjunction. */
  lemma {:induction false} FilterFilter<T>(f: T -> bool, g: T -> bool, both: T -> bool, s: seq<T>)
    requires forall x :: x in s ==> both(x) == (f(x) && g(x))
    ensures Filter(f, Filter(g, s)) == Filter(both, s)
  {
    if s != [] {
      var x := s[|s| - 1];
      FilterFilter(f, g, both, s[..|s| - 1]);
      FilterConcat(f, Filter(g, s[..|s| - 1]), if g(x) then [x] else []);
      assert Filter(f, [x]) == if f(x) then [x] else [] by {
        assert [x][..0] == [];
      }
    }
  }

  // ---- flattening -------------------------------------------------------

  function FlatMap<T, U>(f: T -> seq<U>, s: seq<T>): seq<U> {
    if s == [] then [] else FlatMap(f, s[..|s| - 1]) + f(s[|s| - 1])
  }

  lemma {:induction false} FlatMapConcat<T, U>(f: T -> seq<U>, a: seq<T>, b: seq<T>)
    ensures FlatMap(f, a + b) == FlatMap(f, a) + FlatMap(f, b)
  {
    if b == [] {
      assert a + b == a;
    } else {
      var c := b[..|b| - 1];
      assert (a + b)[..|a + b| - 1] == a + c;
      FlatMapConcat(f, a, c);
    }
  }

  lemma FlatMapOne<T, U>(f: T -> seq<U>, x: T)
    ensures FlatMap(f, [x]) == f(x)
  {
    assert [x][..0] == [];
  }

  lemma FlatMapLast<T, U>(f: T -> seq<U>, s: seq<T>, x: T)
    ensures FlatMap(f, s + [x]) == FlatMap(f, s) + f(x)
  {
    FlatMapConcat(f, s, [x]);
    FlatMapOne(f, x);
  }

  /** Filtering what an element becomes, element by element. */
  lemma {:induction false} FilterFlatMap<T(!new), U>(keep: U -> bool, f: T -> seq<U>, g: T -> seq<U>, s: seq<T>)
    requires forall x :: g(x) == Filter(keep, f(x))
    ensures Filter(keep, FlatMap(f, s)) == FlatMap(g, s)
  {
    if s != [] {
      var t := s[..|s| - 1];
      FilterFlatMap(keep, f, g, t);
      FilterConcat(keep, FlatMap(f, t), f(s[|s| - 1]));
    }
  }

  // ---- a loop with a round limit ----------------------------------------

  datatype Iterated<S> = Iterated(final: S, rounds: nat)

  /** `step` while `more`, at most `limit` times. */
  function Iterate<S>(more: S -> bool, step: S -> S, limit: nat, s: S): Iterated<S>
    decreases limit, s
  {
    if limit == 0 || !more(s) then Iterated(s, 0)
    else
      var rest := Iterate(more, step, limit - 1, step(s));
      Iterated(rest.final, rest.rounds + 1)
  }

  lemma IterateOnce<S>(more: S -> bool, step: S -> S, limit: nat, s: S)
    requires limit > 0 && more(s)
    ensures Iterate(more, step, limit, s).final == Iterate(more, step, limit - 1, step(s)).final
    ensures Iterate(more, step, limit, s).rounds == Iterate(more, step, limit - 1, step(s)).rounds + 1
  {
  }

  lemma {:induction false} IterateStops<S>(more: S -> bool, step: S -> S, limit: nat, s: S)
    ensures var r := Iterate(more, step, limit, s);
            r.rounds <= limit && (r.rounds == limit || !more(r.final)) && (r.rounds == 0 ==> r.final == s)
  {
    if limit > 0 && more(s) {
      IterateStops(more, step, limit - 1, step(s));
    }
  }

  /** What every step keeps, relative to its own start and its cost in
      rounds, the whole loop keeps. */
  lemma {:induction false} IterateKeeps<S(!new)>(more: S -> bool, step: S -> S, limit: nat, s: S,
                                                 kept: (S, S, nat) -> bool)
    requires forall a :: kept(a, a, 0)
    requires forall a, b, n: nat :: more(a) && kept(b, step(a), n) ==> kept(b, a, n + 1)
    ensures var r := Iterate(more, step, limit, s);
            kept(r.final, s, r.rounds)
  {
    if limit > 0 && more(s) {
      IterateKeeps(more, step, limit - 1, step(s), kept);
    }
  }

  /** `step` exactly `n` times. */
  function Repeat<S>(step: S -> S, n: nat, s: S): S {
    if n == 0 then s else Repeat(step, n - 1, step(s))
  }

  lemma {:induction false} RepeatDone<S(!new)>(step: S -> S, done: S -> bool, n: nat, s: S)
    requires done(s) && forall a :: done(a) ==> done(step(a))
    ensures done(Repeat(step, n, s))
  {
    if n > 0 {
      RepeatDone(step, done, n - 1, step(s));
    }
  }

  lemma {:induction false} RepeatStuck<S>(step: S -> S, n: nat, s: S)
    requires step(s) == s
    ensures Repeat(step, n, s) == s
  {
    if n > 0 {
      RepeatStuck(step, n - 1, s);
    }
  }

  /** A loop with a limit is as many steps as it has rounds, and goes on before
      each of them. */
  lemma {:induction false} IterateIsRepeat<S>(more: S -> bool, step: S -> S, limit: nat, s: S)
    ensures var r := Iterate(more, step, limit, s);
            r.final == Repeat(step, r.rounds, s) && forall k: nat :: k < r.rounds ==> more(Repeat(step, k, s))
  {
    if limit > 0 && more(s) {
      IterateIsRepeat(more, step, limit - 1, step(s));
      var r := Iterate(more, step, limit, s);
      forall k: nat | k < r.rounds ensures more(Repeat(step, k, s)) {
        if k > 0 {
          assert Repeat(step, k, s) == Repeat(step, k - 1, step(s));
        }
      }
    }
  }

  /** A loop that stops when it is done or stuck ends done exactly if all its
      rounds together would; if it does not, it has gone through them all. */
  lemma {:induction false} IterateIsDone<S(!new)>(more: S -> bool, step: S -> S, done: S -> bool, n: nat, s: S)
    requires forall a :: done(a) ==> !more(a) && done(step(a))
    requires forall a :: !more(a) && !done(a) ==> step(a) == a
    ensures var final := Iterate(more, step, n, s).final;
            && (done(final) <==> done(Repeat(step, n, s)))
            && (!done(final) ==> final == Repeat(step, n, s))
  {
    if n > 0 && more(s) {
      IterateIsDone(more, step, done, n - 1, step(s));
    } else if done(s) {
      RepeatDone(step, done, n, s);
    } else if n > 0 {
      RepeatStuck(step, n, s);
    }
  }

  // ---- removal by index -------------------------------------------------

  /** The elements of `s` whose index is not in `gone`, in order. */
  function Without<T>(s: seq<T>, gone: set<int>): seq<T> {
    if s == [] then []
    else Without(s[..|s| - 1], gone) + (if |s| - 1 in gone then [] else [s[|s| - 1]])
  }

  lemma {:induction false} WithoutNone<T>(s: seq<T>, gone: set<int>)
    requires forall i :: 0 <= i < |s| ==> i !in gone
    ensures Without(s, gone) == s
  {
    if s != [] {
      WithoutNone(s[..|s| - 1], gone);
      assert s == s[..|s| - 1] + [s[|s| - 1]];
    }
  }

  lemma {:induction false} WithoutAgree<T>(s: seq<T>, a: set<int>, b: set<int>)
    requires forall i :: 0 <= i < |s| ==> (i in a <==> i in b)
    ensures Without(s, a) == Without(s, b)
  {
    if s != [] {
      WithoutAgree(s[..|s| - 1], a, b);
    }
  }

  /** Removing an index below all the removed ones deletes that position. */
  lemma {:induction false} WithoutOneMore<T>(s: seq<T>, gone: set<int>, i: nat)
    requires i < |s|
    requires forall j :: j in gone ==> i < j
    ensures i < |Without(s, gone)|
    ensures Without(s, gone + {i}) == Without(s, gone)[..i] + Without(s, gone)[i + 1..]
  {
    var t := s[..|s| - 1];
    if i == |s| - 1 {
      WithoutNone(s, gone);
      WithoutNone(t, gone + {i});
    } else {
      WithoutOneMore(t, gone, i);
    }
  }

  predicate Ascending(idx: seq<int>) {
    forall i, j :: 0 <= i < j < |idx| ==> idx[i] < idx[j]
  }

  /** `for i in idx.into_iter().rev() { v.remove(i) }` */
  method RemoveIndices<T>(s: seq<T>, idx: seq<int>) returns (r: seq<T>)
    requires Ascending(idx)
    requires forall i :: i in idx ==> 0 <= i < |s|
    ensures r == Without(s, set i | i in idx)
  {
    r := s;
    var k := |idx|;
    WithoutNone(s, {});
    ghost var gone: set<int> := {};
    while k > 0
      invariant 0 <= k <= |idx|
      invariant gone == set i | i in idx[k..]
      invariant r == Without(s, gone)
    {
      k := k - 1;
      assert idx[k] in idx;
      assert idx[k..] == [idx[k]] + idx[k + 1..];
      WithoutOneMore(s, gone, idx[k]);
      gone := gone + {idx[k]};
      r := r[..idx[k]] + r[idx[k] + 1..];
    }
    assert idx[0..] == idx;
  }

  // ---- decimal rendering ------------------------------------------------

  function Digit(n: nat): char
    requires n < 10
  {
    ['0', '1', '2', '3', '4', '5', '6', '7', '8', '9'][n]
  }

  /** `format!("{n}")` of an unsigned integer. */
  function Decimal(n: nat): string {
    if n < 10 then [Digit(n)] else Decimal(n / 10) + [Digit(n % 10)]
  }

  function ReadDecimal(s: string): int {
    if s == "" then 0 else 10 * ReadDecimal(s[..|s| - 1]) + (s[|s| - 1] as int - '0' as int)
  }

  /** Decimals read back, and have no leading zero. */
  lemma {:induction false} DecimalReadsBack(n: nat)
    ensures ReadDecimal(Decimal(n)) == n
    ensures Decimal(n) != "" && (n > 0 ==> Decimal(n)[0] != '0') && (n == 0 ==> Decimal(n) == "0")
  {
    var s := Decimal(n);
    if n >= 10 {
      DecimalReadsBack(n / 10);
      assert s[..|s| - 1] == Decimal(n / 10);
    } else {
      assert s[..0] == "";
    }
  }
}
