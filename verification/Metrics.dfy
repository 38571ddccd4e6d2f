/**
 Exponentially weighted moving averages. Values are real numbers; `fade` is the stored complement of
 the smoothing factor `alpha`.
 */
module Averages {
  import opened Wrappers

  /** Multiplication under a name, so that proofs can speak of products as a whole. */
  function Times(a: real, b: real): real {
    a * b
  }

  lemma TimesKeepsOrder(c: real, a: real, b: real)
    requires c >= 0.0 && a <= b
    ensures Times(c, a) <= Times(c, b)
  {
    assert c * (b - a) >= 0.0;
  }

  lemma TimesSplits(alpha: real, fade: real, x: real)
    requires alpha + fade == 1.0
    ensures Times(alpha, x) + Times(fade, x) == x
  {
    assert (alpha + fade) * x == 1.0 * x;
  }

  lemma TimesSwaps(a: real, b: real, c: real)
    ensures Times(a, Times(b, c)) == Times(b, Times(a, c))
  {
  }

  lemma TimesDistributes(c: real, a: real, s: real, x: real)
    ensures Times(c, a + Times(s, x)) == Times(c, a) + Times(Times(c, s), x)
  {
    assert c * (a + s * x) == c * a + c * (s * x);
    assert c * (s * x) == (c * s) * x;
  }

  // ---------------------------------------------------------------- moving averages

  function PushAverage(alpha: real, fade: real, value: Option<real>, x: real): real {
    match value
    case Some(v) => Times(alpha, x) + Times(fade, v)
    case None => x
  }

  /** The average after a series of samples. */
  function Average(alpha: real, fade: real, xs: seq<real>): Option<real> {
    if xs == [] then None
    else Some(PushAverage(alpha, fade, Average(alpha, fade, xs[..|xs| - 1]), xs[|xs| - 1]))
  }

  function Pow(x: real, n: nat): real {
    if n == 0 then 1.0 else Times(x, Pow(x, n - 1))
  }

  /** The share of sample `i` among `n`: the first one counts in full and later ones by `alpha`, and
      every further sample fades them. */
  function Share(alpha: real, fade: real, n: nat, i: nat): real
    requires i < n
  {
    if i == 0 then Pow(fade, n - 1) else Times(alpha, Pow(fade, n - 1 - i))
  }

  function WeightedSum(alpha: real, fade: real, n: nat, xs: seq<real>): real
    requires |xs| <= n
  {
    if xs == [] then 0.0
    else WeightedSum(alpha, fade, n, xs[..|xs| - 1]) + Times(Share(alpha, fade, n, |xs| - 1), xs[|xs| - 1])
  }

  function Ones(n: nat): seq<real> {
    seq(n, _ => 1.0)
  }

  lemma ShareFades(alpha: real, fade: real, n: nat, i: nat)
    requires i < n
    ensures Share(alpha, fade, n + 1, i) == Times(fade, Share(alpha, fade, n, i))
  {
    assert Pow(fade, n - i) == Times(fade, Pow(fade, n - 1 - i));
    TimesSwaps(alpha, fade, Pow(fade, n - 1 - i));
  }

  lemma {:induction false} SumFades(alpha: real, fade: real, n: nat, xs: seq<real>)
    requires |xs| <= n
    ensures WeightedSum(alpha, fade, n + 1, xs) == Times(fade, WeightedSum(alpha, fade, n, xs))
  {
    if xs != [] {
      var k := |xs| - 1;
      SumFades(alpha, fade, n, xs[..k]);
      ShareFades(alpha, fade, n, k);
      TimesDistributes(fade, WeightedSum(alpha, fade, n, xs[..k]), Share(alpha, fade, n, k), xs[k]);
    }
  }

  lemma LastShare(alpha: real, fade: real, n: nat, x: real)
    ensures Times(Share(alpha, fade, n + 1, n), x) == if n == 0 then x else Times(alpha, x)
  {
    assert Pow(fade, 0) == 1.0;
    assert n > 0 ==> Share(alpha, fade, n + 1, n) == Times(alpha, 1.0) == alpha;
  }

  /** The running average is the weighted sum of all samples. */
  lemma {:induction false} AverageIsWeightedSum(alpha: real, fade: real, xs: seq<real>)
    requires xs != []
    ensures Average(alpha, fade, xs) == Some(WeightedSum(alpha, fade, |xs|, xs))
  {
    var k := |xs| - 1;
    LastShare(alpha, fade, k, xs[k]);
    if k > 0 {
      AverageIsWeightedSum(alpha, fade, xs[..k]);
      SumFades(alpha, fade, k, xs[..k]);
    }
  }

  /** The shares add up to one: averaging neither gains nor loses weight. */
  lemma {:induction false} SharesAddUp(alpha: real, fade: real, n: nat)
    requires n > 0 && alpha + fade == 1.0
    ensures WeightedSum(alpha, fade, n, Ones(n)) == 1.0
  {
    assert Ones(n)[..n - 1] == Ones(n - 1);
    LastShare(alpha, fade, n - 1, 1.0);
    if n > 1 {
      SharesAddUp(alpha, fade, n - 1);
      SumFades(alpha, fade, n - 1, Ones(n - 1));
    }
  }

  lemma Between(alpha: real, fade: real, x: real, v: real, lo: real, hi: real)
    requires 0.0 <= alpha && 0.0 <= fade && alpha + fade == 1.0 && lo <= x <= hi && lo <= v <= hi
    ensures lo <= Times(alpha, x) + Times(fade, v) <= hi
  {
    TimesKeepsOrder(alpha, lo, x);
    TimesKeepsOrder(alpha, x, hi);
    TimesKeepsOrder(fade, lo, v);
    TimesKeepsOrder(fade, v, hi);
    TimesSplits(alpha, fade, lo);
    TimesSplits(alpha, fade, hi);
  }

  /** The average never leaves the range of the samples. */
  lemma {:induction false} AverageInRange(alpha: real, fade: real, xs: seq<real>, lo: real, hi: real)
    requires 0.0 <= alpha && 0.0 <= fade && alpha + fade == 1.0 && xs != []
    requires forall i :: 0 <= i < |xs| ==> lo <= xs[i] <= hi
    ensures lo <= Average(alpha, fade, xs).value <= hi
  {
    var k := |xs| - 1;
    if k > 0 {
      AverageInRange(alpha, fade, xs[..k], lo, hi);
      Between(alpha, fade, xs[k], Average(alpha, fade, xs[..k]).value, lo, hi);
    }
  }
}

/**
 Time windows: values are accumulated within a window and become one sample of a moving average when
 the window ends. Instants and sizes are nanoseconds; how many windows have passed is computed in
 whole milliseconds and rounded to the nearest.
 */
module TimeWindows {
  import opened Wrappers
  import opened Averages

  const MS := 1_000_000
  const MAX_USIZE := 0xFFFF_FFFF_FFFF_FFFF

  datatype Window = Window(
    size: nat,
    updated: int,
    acc: real,
    total: real,
    alpha: real,
    fade: real,
    value: Option<real>)

  function NewWindow(start: int, size: nat, alpha: real): Option<Window> {
    if alpha < 0.0 || alpha > 1.0 then None
    else Some(Window(size, start - size, 0.0, 0.0, alpha, 1.0 - alpha, None))
  }

  function PushValue(w: Window, x: real, time: int): Window {
    w.(total := w.total + x, value := Some(PushAverage(w.alpha, w.fade, w.value, x)), updated := time)
  }

  /** `elapsed / size` in milliseconds, rounded half up. A size below one millisecond divides by zero:
      the quotient is infinite, or undefined when nothing has elapsed. */
  function Cycles(elapsed: nat, size: nat): nat {
    var e, s := elapsed / MS, size / MS;
    if s > 0 then (2 * e + s) / (2 * s) else if e > 0 then MAX_USIZE else 0
  }

  /** The number of windows is the real quotient of the times in milliseconds, rounded half up. */
  lemma CyclesAreRounded(elapsed: nat, size: nat)
    requires size >= MS
    ensures var e, s := (elapsed / MS) as real, (size / MS) as real;
            Cycles(elapsed, size) == ((e + s / 2.0) / s).Floor
  {
    RoundedQuotient(elapsed / MS, size / MS);
  }

  lemma RoundedQuotient(e: nat, s: nat)
    requires s > 0
    ensures ((e as real + s as real / 2.0) / s as real).Floor == (2 * e + s) / (2 * s)
  {
    var t := s as real;
    var x := (e as real + t / 2.0) / t;
    assert Times(t, x) == e as real + t / 2.0;
    var f := x.Floor;
    TimesKeepsOrder(t, f as real, x);
    TimesKeepsStrictOrder(t, x, f as real + 1.0);
    TimesOfInts(s, f);
    TimesOfInts(s, f + 1);
    assert 2 * (s * f) <= 2 * e + s < 2 * (s * (f + 1));
    QuotientIs(f, 2 * s, 2 * e + s);
  }

  lemma TimesKeepsStrictOrder(c: real, a: real, b: real)
    requires c > 0.0 && a < b
    ensures Times(c, a) < Times(c, b)
  {
    assert c * (b - a) > 0.0;
  }

  lemma TimesOfInts(a: int, b: int)
    ensures Times(a as real, b as real) == (a * b) as real
  {
  }

  lemma QuotientIs(f: int, d: nat, n: nat)
    requires d > 0 && d * f <= n < d * (f + 1)
    ensures n / d == f
  {
    var q := n / d;
    assert d * q <= n < d * (q + 1);
    assert q < f ==> d * (q + 1) <= d * f;
    assert q > f ==> d * (f + 1) <= d * q;
  }

  function Samples(updated: int, size: nat, time: int): nat {
    if time <= updated then 0
    else
      var cycles := Cycles(time - updated, size);
      if cycles == 0 then 0 else cycles - 1
  }

  function PushZeros(w: Window, n: nat): Window
    decreases n
  {
    if n == 0 then w else PushZeros(PushValue(w, 0.0, w.updated + w.size), n - 1)
  }

  function Flushed(w: Window): Window {
    if w.acc != 0.0 then PushValue(w.(acc := 0.0), w.acc, w.updated) else w
  }

  function Advance(w: Window, time: int): Window {
    var n := Samples(w.updated, w.size, time);
    if n == 0 then w else PushZeros(Flushed(w), n)
  }

  function Push(w: Window, x: real, time: int): Window {
    if (if time > w.updated then time - w.updated else 0) < w.size then w.(acc := w.acc + x)
    else
      var v := Advance(w, time);
      PushValue(v.(acc := 0.0), x + v.acc, time)
  }

  function Combine(a: Window, b: Window): Window {
    var time := if a.updated >= b.updated then a.updated else b.updated;
    var v, w := Advance(a, time), Advance(b, time);
    v.(updated := time, acc := v.acc + w.acc, total := v.total + w.total,
       value := match (v.value, w.value)
                case (Some(x), Some(y)) => Some((x + y) / 2.0)
                case (Some(x), None) => Some(x)
                case (None, y) => y)
  }

  // ---------------------------------------------------------------- conservation

  function Balance(w: Window): real {
    w.total + w.acc
  }

  lemma {:induction false} ZerosConserve(w: Window, n: nat)
    ensures var v := PushZeros(w, n); v.total == w.total && v.acc == w.acc
    decreases n
  {
    if n != 0 {
      ZerosConserve(PushValue(w, 0.0, w.updated + w.size), n - 1);
    }
  }

  lemma AdvanceConserves(w: Window, time: int)
    ensures Balance(Advance(w, time)) == Balance(w)
  {
    ZerosConserve(Flushed(w), Samples(w.updated, w.size, time));
  }

  datatype Op = Pushing(x: real, time: int) | Averaging(time: int)

  function Step(w: Window, op: Op): Window {
    match op
    case Pushing(x, time) => Push(w, x, time)
    case Averaging(time) => Advance(w, time)
  }

  function Run(w: Window, ops: seq<Op>): Window
    decreases |ops|
  {
    if ops == [] then w else Run(Step(w, ops[0]), ops[1..])
  }

  function Pushed(ops: seq<Op>): real {
    if ops == [] then 0.0 else (if ops[0].Pushing? then ops[0].x else 0.0) + Pushed(ops[1..])
  }

  /** Nothing pushed into a window is lost or counted twice, at whatever times it is pushed or read. */
  lemma {:induction false} WindowConserves(w: Window, ops: seq<Op>)
    ensures Balance(Run(w, ops)) == Balance(w) + Pushed(ops)
    decreases |ops|
  {
    if ops != [] {
      match ops[0] {
        case Pushing(x, time) => AdvanceConserves(w, time);
        case Averaging(time) => AdvanceConserves(w, time);
      }
      WindowConserves(Step(w, ops[0]), ops[1..]);
    }
  }

  /** Adding two windows adds up everything that was pushed into either. */
  lemma CombineConserves(a: Window, b: Window)
    ensures Balance(Combine(a, b)) == Balance(a) + Balance(b)
  {
    var time := if a.updated >= b.updated then a.updated else b.updated;
    AdvanceConserves(a, time);
    AdvanceConserves(b, time);
  }

  /** The later of the two ends. */
  function LaterEnd(a: Window, b: Window): int {
    if a.updated >= b.updated then a.updated else b.updated
  }

  /** The merged average lies midway between the two averages at the later end, or is the only one there is. */
  lemma CombinedAverage(a: Window, b: Window)
    ensures var x, y, z := Advance(a, LaterEnd(a, b)).value, Advance(b, LaterEnd(a, b)).value, Combine(a, b).value;
            && (z.None? <==> x.None? && y.None?)
            && (x.Some? && y.Some? ==> z.value - x.value == y.value - z.value)
            && (x.Some? && y.None? ==> z == x) && (x.None? ==> z == y)
    ensures Combine(a, b).updated == LaterEnd(a, b)
  {
  }

  /** Of windows that measure in the same way, it does not matter which is added to which. */
  lemma CombineCommutes(a: Window, b: Window)
    requires a.size == b.size && a.alpha == b.alpha && a.fade == b.fade
    ensures Combine(a, b) == Combine(b, a)
  {
    var time := LaterEnd(a, b);
    ZerosKeepFactors(Flushed(a), Samples(a.updated, a.size, time));
    ZerosKeepFactors(Flushed(b), Samples(b.updated, b.size, time));
  }

  // ---------------------------------------------------------------- silence

  lemma {:induction false} ZerosDecay(w: Window, n: nat)
    requires w.value.Some?
    ensures PushZeros(w, n).value == Some(Times(Pow(w.fade, n), w.value.value))
    ensures PushZeros(w, n).updated == w.updated + n * w.size
    decreases n
  {
    if n != 0 {
      var v := PushValue(w, 0.0, w.updated + w.size);
      ZerosDecay(v, n - 1);
      assert v.value.value == Times(w.fade, w.value.value);
      DecayOnce(w.fade, n, w.value.value);
      assert w.size + (n - 1) * w.size == n * w.size;
    }
  }

  lemma DecayOnce(fade: real, n: nat, x: real)
    requires n > 0
    ensures Times(Pow(fade, n - 1), Times(fade, x)) == Times(Pow(fade, n), x)
  {
    var p := Pow(fade, n - 1);
    assert p * (fade * x) == (fade * p) * x;
  }

  /** With nothing accumulated, `n` silent windows scale the average by exactly `fade` to the `n`. */
  lemma SilenceDecays(w: Window, time: int)
    requires w.acc == 0.0 && w.value.Some?
    ensures Advance(w, time).value == Some(Times(Pow(w.fade, Samples(w.updated, w.size, time)), w.value.value))
  {
    ZerosDecay(w, Samples(w.updated, w.size, time));
    assert Times(Pow(w.fade, 0), w.value.value) == w.value.value;
  }

  /** A new window counts what is pushed at its start at once. */
  lemma FirstPushCounts(start: int, size: nat, alpha: real, x: real)
    requires NewWindow(start, size, alpha).Some?
    ensures var w := Push(NewWindow(start, size, alpha).value, x, start);
            w.value == Some(x) && w.total == x && w.acc == 0.0 && w.updated == start
  {
    if size / MS > 0 {
      QuotientIs(1, 2 * (size / MS), 3 * (size / MS));
    }
    assert Samples(start - size, size, start) == 0;
  }

  // ---------------------------------------------------------------- the end of the last window

  lemma {:induction false} ZerosMove(w: Window, n: nat)
    ensures PushZeros(w, n).updated == w.updated + n * w.size
    decreases n
  {
    if n != 0 {
      ZerosMove(PushValue(w, 0.0, w.updated + w.size), n - 1);
      assert w.size + (n - 1) * w.size == n * w.size;
    }
  }

  lemma AdvanceMoves(w: Window, time: int)
    ensures Advance(w, time).updated == w.updated + Samples(w.updated, w.size, time) * w.size
  {
    ZerosMove(Flushed(w), Samples(w.updated, w.size, time));
  }

  /** Whole windows fit into the elapsed time although half a window is rounded up. */
  lemma WindowsFit(e: nat, s: nat)
    requires s > 0
    ensures var cycles := (2 * e + s) / (2 * s); cycles > 0 ==> (cycles - 1) * s <= e
  {
    var cycles := (2 * e + s) / (2 * s);
    assert cycles * (2 * s) <= 2 * e + s;
    assert cycles * (2 * s) == 2 * (cycles * s);
    assert (cycles - 1) * s == cycles * s - s;
  }

  lemma WholeMillisecondsFit(size: nat, elapsed: nat)
    requires size % MS == 0
    ensures Cycles(elapsed, size) > 0 ==> (Cycles(elapsed, size) - 1) * size <= elapsed
  {
    var e, s := elapsed / MS, size / MS;
    assert size == s * MS;
    if s > 0 {
      WindowsFit(e, s);
      var n := Cycles(elapsed, size) - 1;
      assert n >= 0 ==> n * size == (n * s) * MS;
    }
  }

  /** Lost fractions of a millisecond add up until the window passes the present. */
  lemma FractionsPass(size: nat) returns (elapsed: nat)
    requires size % MS != 0
    ensures Samples(0, size, elapsed) * size > elapsed
  {
    var s, r := size / MS, size % MS;
    assert size == s * MS + r;
    if s == 0 {
      elapsed := MS;
      assert Cycles(elapsed, size) == MAX_USIZE;
      assert (MAX_USIZE - 1) * size >= MAX_USIZE - 1;
    } else {
      var n := s * MS + 2;
      elapsed := n * s * MS;
      ManyCycles(n, s, size);
      Surplus(s * MS, r);
      assert n * s * MS == n * (s * MS);
    }
  }

  lemma Surplus(a: nat, r: nat)
    requires r >= 1
    ensures (a + 1) * (a + r) > (a + 2) * a
  {
    assert (a + 1) * (a + r) == (a + 1) * a + (a + 1) * r;
    assert (a + 1) * r >= a + 1;
    assert (a + 2) * a == (a + 1) * a + a;
  }

  lemma ManyCycles(n: nat, s: nat, size: nat)
    requires s > 0 && size / MS == s
    ensures Cycles(n * s * MS, size) == n
  {
    Quotient(n * s, MS, 0);
    Quotient(n, 2 * s, s);
    assert n * (2 * s) == 2 * (n * s);
  }

  lemma Quotient(n: nat, d: nat, r: nat)
    requires r < d
    ensures (n * d + r) / d == n
  {
    var q := (n * d + r) / d;
    assert q < n ==> (q + 1) * d <= n * d;
    assert q > n ==> (n + 1) * d <= q * d;
    assert q * d <= n * d + r < (q + 1) * d;
  }

  /** Advancing never moves the end of the last window past the given time exactly when the window size
      is a whole number of milliseconds. */
  lemma NeverPassesIffWholeMilliseconds(size: nat)
    ensures (forall w: Window, time: int :: w.size == size && time > w.updated ==> Advance(w, time).updated <= time)
            <==> size % MS == 0
  {
    if size % MS == 0 {
      forall w: Window, time: int | w.size == size && time > w.updated ensures Advance(w, time).updated <= time {
        WholeMillisecondsFit(size, time - w.updated);
        AdvanceMoves(w, time);
      }
    } else {
      var elapsed := FractionsPass(size);
      assert elapsed > 0;
      var w := Window(size, 0, 0.0, 0.0, 0.0, 1.0, None);
      AdvanceMoves(w, elapsed);
      assert Advance(w, elapsed).updated > elapsed;
    }
  }

  lemma WindowsTaken(e: nat, s: nat, n: nat)
    requires s > 0 && n * s <= e && (2 * e + s) / (2 * s) == n + 1
    ensures (2 * (e - n * s) + s) / (2 * s) == 1
  {
    assert (n + 1) * (2 * s) <= 2 * e + s < (n + 2) * (2 * s);
    assert (n + 1) * (2 * s) == 2 * (n * s) + 2 * s && (n + 2) * (2 * s) == 2 * (n * s) + 4 * s;
    QuotientIs(1, 2 * s, 2 * (e - n * s) + s);
  }

  lemma NothingLeft(updated: int, size: nat, time: int)
    requires size % MS == 0 && size > 0
    ensures Samples(updated + Samples(updated, size, time) * size, size, time) == 0
  {
    var n := Samples(updated, size, time);
    if n > 0 {
      var elapsed, s := time - updated, size / MS;
      WholeMillisecondsFit(size, elapsed);
      assert size == s * MS && n * size == (n * s) * MS;
      assert (elapsed - n * size) / MS == elapsed / MS - n * s;
      WindowsTaken(elapsed / MS, s, n);
    }
  }

  /** Advancing is complete: to advance to the same time again changes nothing. */
  lemma AdvanceIsComplete(w: Window, time: int)
    requires w.size % MS == 0 && w.size > 0
    ensures Advance(Advance(w, time), time) == Advance(w, time)
  {
    AdvanceMoves(w, time);
    ZerosKeepFactors(Flushed(w), Samples(w.updated, w.size, time));
    NothingLeft(w.updated, w.size, time);
  }

  // ---------------------------------------------------------------- the samples of the average

  /** The samples that advancing feeds into the average. */
  function FedByAdvance(w: Window, time: int): seq<real> {
    var n := Samples(w.updated, w.size, time);
    if n == 0 then [] else (if w.acc != 0.0 then [w.acc] else []) + seq(n, _ => 0.0)
  }

  function Fed(w: Window, op: Op): seq<real> {
    match op
    case Averaging(time) => FedByAdvance(w, time)
    case Pushing(x, time) =>
      if (if time > w.updated then time - w.updated else 0) < w.size then []
      else FedByAdvance(w, time) + [x + Advance(w, time).acc]
  }

  function AllFed(w: Window, ops: seq<Op>): seq<real>
    decreases |ops|
  {
    if ops == [] then [] else Fed(w, ops[0]) + AllFed(Step(w, ops[0]), ops[1..])
  }

  predicate AverageOf(w: Window, xs: seq<real>) {
    w.value == Average(w.alpha, w.fade, xs)
  }

  lemma OneMoreSample(w: Window, xs: seq<real>, x: real, time: int)
    requires AverageOf(w, xs)
    ensures AverageOf(PushValue(w, x, time), xs + [x])
  {
    assert (xs + [x])[..|xs|] == xs;
  }

  lemma {:induction false} ZeroSamples(w: Window, xs: seq<real>, n: nat)
    requires AverageOf(w, xs)
    ensures AverageOf(PushZeros(w, n), xs + seq(n, _ => 0.0))
    decreases n
  {
    if n == 0 {
      assert xs + seq(0, _ => 0.0) == xs;
    } else {
      var v := PushValue(w, 0.0, w.updated + w.size);
      OneMoreSample(w, xs, 0.0, w.updated + w.size);
      ZeroSamples(v, xs + [0.0], n - 1);
      assert xs + [0.0] + seq(n - 1, _ => 0.0) == xs + seq(n, _ => 0.0);
    }
  }

  lemma AdvanceFeeds(w: Window, xs: seq<real>, time: int)
    requires AverageOf(w, xs)
    ensures AverageOf(Advance(w, time), xs + FedByAdvance(w, time))
  {
    var n := Samples(w.updated, w.size, time);
    if n == 0 {
      assert xs + [] == xs;
    } else {
      var zeros := seq(n, _ => 0.0);
      var v := w.(acc := 0.0);
      if w.acc != 0.0 {
        OneMoreSample(v, xs, w.acc, w.updated);
        ZeroSamples(Flushed(w), xs + [w.acc], n);
        assert xs + [w.acc] + zeros == xs + FedByAdvance(w, time);
      } else {
        ZeroSamples(w, xs, n);
        assert xs + zeros == xs + FedByAdvance(w, time);
      }
    }
  }

  lemma StepFeeds(w: Window, xs: seq<real>, op: Op)
    requires AverageOf(w, xs)
    ensures AverageOf(Step(w, op), xs + Fed(w, op))
  {
    match op {
      case Averaging(time) => AdvanceFeeds(w, xs, time);
      case Pushing(x, time) =>
        if (if time > w.updated then time - w.updated else 0) < w.size {
          assert xs + [] == xs;
        } else {
          AdvanceFeeds(w, xs, time);
          var v := Advance(w, time);
          OneMoreSample(v.(acc := 0.0), xs + FedByAdvance(w, time), x + v.acc, time);
          Associates(xs, FedByAdvance(w, time), [x + v.acc]);
        }
    }
  }

  /** At any time the average is the moving average of exactly the samples fed to it so far. */
  lemma {:induction false} RunFeeds(w: Window, xs: seq<real>, ops: seq<Op>)
    requires AverageOf(w, xs)
    ensures AverageOf(Run(w, ops), xs + AllFed(w, ops))
    decreases |ops|
  {
    if ops == [] {
      assert xs + [] == xs;
    } else {
      var w' := Step(w, ops[0]);
      StepFeeds(w, xs, ops[0]);
      RunFeeds(w', xs + Fed(w, ops[0]), ops[1..]);
      Associates(xs, Fed(w, ops[0]), AllFed(w', ops[1..]));
    }
  }

  lemma Associates(a: seq<real>, b: seq<real>, c: seq<real>)
    ensures a + b + c == a + (b + c)
  {
  }

  lemma {:induction false} FactorsStay(w: Window, ops: seq<Op>)
    ensures Run(w, ops).alpha == w.alpha && Run(w, ops).fade == w.fade
    decreases |ops|
  {
    if ops != [] {
      var time := ops[0].time;
      ZerosKeepFactors(Flushed(w), Samples(w.updated, w.size, time));
      FactorsStay(Step(w, ops[0]), ops[1..]);
    }
  }

  lemma {:induction false} ZerosKeepFactors(w: Window, n: nat)
    ensures PushZeros(w, n).alpha == w.alpha && PushZeros(w, n).fade == w.fade && PushZeros(w, n).size == w.size
    decreases n
  {
    if n != 0 {
      ZerosKeepFactors(PushValue(w, 0.0, w.updated + w.size), n - 1);
    }
  }

  /** So the average stays within the range of the samples fed to it. */
  lemma WindowAverageInRange(start: int, size: nat, alpha: real, ops: seq<Op>, lo: real, hi: real)
    requires NewWindow(start, size, alpha).Some?
    requires var xs := AllFed(NewWindow(start, size, alpha).value, ops);
             xs != [] && forall i :: 0 <= i < |xs| ==> lo <= xs[i] <= hi
    ensures var value := Run(NewWindow(start, size, alpha).value, ops).value;
            value.Some? && lo <= value.value <= hi
  {
    var w := NewWindow(start, size, alpha).value;
    var xs := AllFed(w, ops);
    RunFeeds(w, [], ops);
    FactorsStay(w, ops);
    assert [] + xs == xs;
    AverageInRange(w.alpha, w.fade, xs, lo, hi);
  }
}

/** The same in memory. */
module MetricObjects {
  import opened Wrappers
  import opened Averages
  import T = TimeWindows

  class Ewma {
    const alpha: real
    const oneMinAlpha: real
    var value: Option<real>

    constructor (alpha: real)
      ensures this.alpha == alpha && oneMinAlpha == 1.0 - alpha && value == None
    {
      this.alpha := alpha;
      this.oneMinAlpha := 1.0 - alpha;
      this.value := None;
    }

    method Push(x: real)
      modifies this
      ensures value == Some(PushAverage(alpha, oneMinAlpha, old(value), x))
    {
      value := Some(if value.Some? then alpha * x + oneMinAlpha * value.value else x);
    }

    method Merge(other: Option<real>)
      modifies this
      ensures value == match (old(value), other)
                       case (Some(x), Some(y)) => Some((x + y) / 2.0)
                       case (Some(x), None) => Some(x)
                       case (None, y) => y
    {
      if value.Some? && other.Some? {
        value := Some((value.value + other.value) / 2.0);
      } else if value.None? {
        value := other;
      }
    }
  }

  class TimeWindow {
    const size: nat
    const average: Ewma
    var updated: int
    var acc: real
    var total: real

    constructor (start: int, size: nat, alpha: real)
      requires 0.0 <= alpha <= 1.0
      ensures Some(Model()) == T.NewWindow(start, size, alpha) && fresh(average)
    {
      this.size := size;
      this.average := new Ewma(alpha);
      this.updated := start - size;
      this.acc := 0.0;
      this.total := 0.0;
    }

    ghost function Model(): T.Window
      reads this, average
    {
      T.Window(size, updated, acc, total, average.alpha, average.oneMinAlpha, average.value)
    }

    method PushValue(x: real, time: int)
      modifies this, average
      ensures Model() == T.PushValue(old(Model()), x, time)
    {
      total := total + x;
      average.Push(x);
      updated := time;
    }

    method Advance(time: int)
      modifies this, average
      ensures Model() == T.Advance(old(Model()), time)
    {
      if time <= updated {
        return;
      }
      var sizeMs, elapsedMs := size / T.MS, (time - updated) / T.MS;
      var cycles: nat;
      if sizeMs == 0 {
        cycles := if elapsedMs == 0 then 0 else T.MAX_USIZE;
      } else {
        T.RoundedQuotient(elapsedMs, sizeMs);
        cycles := ((elapsedMs as real + sizeMs as real / 2.0) / sizeMs as real).Floor;
      }
      if cycles <= 1 {
        return;
      }
      var samples := cycles - 1;
      if acc != 0.0 {
        var x := acc;
        acc := 0.0;
        PushValue(x, updated);
      }
      ghost var flushed := Model();
      for i := 0 to samples
        invariant T.PushZeros(Model(), samples - i) == T.PushZeros(flushed, samples)
      {
        PushValue(0.0, updated + size);
      }
    }

    method Push(x: real, time: int)
      modifies this, average
      ensures Model() == T.Push(old(Model()), x, time)
    {
      var elapsed := if time > updated then time - updated else 0;
      if elapsed < size {
        acc := acc + x;
      } else {
        Advance(time);
        var sum := x + acc;
        acc := 0.0;
        PushValue(sum, time);
      }
    }

    /** Merge another window into this one. */
    method Add(rhs: TimeWindow)
      requires rhs != this && rhs.average != average
      modifies this, average, rhs, rhs.average
      ensures Model() == T.Combine(old(Model()), old(rhs.Model()))
    {
      var time := if updated >= rhs.updated then updated else rhs.updated;
      Advance(time);
      rhs.Advance(time);
      updated := time;
      acc := acc + rhs.acc;
      total := total + rhs.total;
      average.Merge(rhs.average.value);
    }
  }
}
