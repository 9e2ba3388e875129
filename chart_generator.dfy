/** The list logic of the chart helper: aligning the x series with the y
    series before a scatter plot (`PlotGenerator.__adjust_length__`), and
    the trendline helper `_trendline` with its method dispatch, its
    moving average and the degree search of its polynomial fit. Floats
    are modelled as exact reals; a NaN is a value of its own. */
module ChartGenerator {
  import opened Wrappers

  // ---------------------------------------------------------------------
  // Series with missing values
  // ---------------------------------------------------------------------

  /** An element of a numpy float array: a number or NaN. */
  datatype Value = Num(r: real) | NaN

  predicate NaNFree(s: seq<Value>) {
    forall i :: 0 <= i < |s| ==> s[i].Num?
  }

  function Min(a: int, b: int): int {
    if a <= b then a else b
  }

  /** `s[~np.isnan(s)]`: the elements of `s` that are not NaN, in order. */
  function DropNaN(s: seq<Value>): (r: seq<Value>)
    ensures NaNFree(r)
    ensures |r| <= |s|
    ensures forall v :: v in r <==> v in s && v.Num?
  {
    if s == [] then []
    else if s[0].NaN? then DropNaN(s[1..])
    else [s[0]] + DropNaN(s[1..])
  }

  /** Filtering distributes over concatenation, so the relative order of
      the kept elements is that of the input. */
  lemma {:induction false} DropNaNAppend(a: seq<Value>, b: seq<Value>)
    ensures DropNaN(a + b) == DropNaN(a) + DropNaN(b)
  {
    if a == [] {
      assert a + b == b;
    } else {
      assert (a + b)[0] == a[0];
      assert (a + b)[1..] == a[1..] + b;
      DropNaNAppend(a[1..], b);
    }
  }

  /** A series without NaN is left as it is. */
  lemma {:induction false} DropNaNOfNaNFree(s: seq<Value>)
    requires NaNFree(s)
    ensures DropNaN(s) == s
  {
    if s != [] {
      DropNaNOfNaNFree(s[1..]);
    }
  }

  /** Filtering twice is filtering once. */
  lemma DropNaNIdempotent(s: seq<Value>)
    ensures DropNaN(DropNaN(s)) == DropNaN(s)
  {
  }

  /** One element of `s * 100`: NaN stays NaN. */
  function Percent(v: Value): Value {
    if v.NaN? then NaN else Num(100.0 * v.r)
  }

  /** `s * 100` on a numpy array. */
  function Scaled(s: seq<Value>): (r: seq<Value>)
    ensures |r| == |s|
    ensures forall i :: 0 <= i < |s| ==> r[i] == Percent(s[i])
  {
    if s == [] then [] else [Percent(s[0])] + Scaled(s[1..])
  }

  /** Scaling and dropping NaNs commute: the series `__percentage__`
      scales after the alignment are the filtered originals, scaled. */
  lemma {:induction false} ScaledDropNaN(s: seq<Value>)
    ensures DropNaN(Scaled(s)) == Scaled(DropNaN(s))
  {
    if s != [] {
      var t := Scaled(s);
      assert t[0] == Percent(s[0]);
      assert t[1..] == Scaled(s[1..]);
      ScaledDropNaN(s[1..]);
    }
  }

  /** `min([len(i) for i in ys])`. */
  function MinLength(ys: seq<seq<Value>>): (m: nat)
    requires |ys| > 0
    ensures forall i :: 0 <= i < |ys| ==> m <= |ys[i]|
    ensures exists i :: 0 <= i < |ys| && m == |ys[i]|
  {
    if |ys| == 1 then |ys[0]|
    else
      var rest := MinLength(ys[1..]);
      assert forall i :: 1 <= i < |ys| ==> ys[1..][i - 1] == ys[i];
      if |ys[0]| <= rest then |ys[0]| else rest
  }

  /** Every series of the list with its NaNs dropped. */
  function DropAllNaN(ys: seq<seq<Value>>): (r: seq<seq<Value>>)
    ensures |r| == |ys|
    ensures forall i :: 0 <= i < |ys| ==> r[i] == DropNaN(ys[i])
  {
    seq(|ys|, i requires 0 <= i < |ys| => DropNaN(ys[i]))
  }

  /** Every series of the list cut to its first `n` elements. */
  function TruncateAll(ys: seq<seq<Value>>, n: nat): (r: seq<seq<Value>>)
    requires forall i :: 0 <= i < |ys| ==> n <= |ys[i]|
    ensures |r| == |ys|
    ensures forall i :: 0 <= i < |ys| ==> r[i] == ys[i][..n]
  {
    seq(|ys|, i requires 0 <= i < |ys| => ys[i][..n])
  }

  /** What `__adjust_length__` leaves in `x` and `y` when `y` holds at
      least one series. As written, the bound the y series are cut to is
      also computed with `min`, so the y series are cut only when the
      filtered x is shorter than every filtered y series. */
  function Adjusted(x: seq<Value>, ys: seq<seq<Value>>): (r: (seq<Value>, seq<seq<Value>>))
    requires |ys| > 0
    ensures |r.1| == |ys|
    ensures NaNFree(r.0) && r.0 <= DropNaN(x)
    ensures forall i :: 0 <= i < |ys| ==> NaNFree(r.1[i]) && r.1[i] <= DropNaN(ys[i])
    ensures |r.0| == Min(|DropNaN(x)|, MinLength(DropAllNaN(ys)))
    ensures forall i :: 0 <= i < |ys| ==> |r.0| <= |r.1[i]|
    ensures |DropNaN(x)| < MinLength(DropAllNaN(ys)) ==>
              forall i :: 0 <= i < |ys| ==> |r.1[i]| == |r.0|
    ensures |DropNaN(x)| >= MinLength(DropAllNaN(ys)) ==>
              forall i :: 0 <= i < |ys| ==> r.1[i] == DropNaN(ys[i])
  {
    var fx := DropNaN(x);
    var fys := DropAllNaN(ys);
    var minYLength := MinLength(fys);
    var maxYLength := MinLength(fys);
    if |fx| > minYLength then (fx[..minYLength], fys)
    else if |fx| < maxYLength then (fx, TruncateAll(fys, |fx|))
    else (fx, fys)
  }

  /** Aligning an already aligned pair changes nothing. */
  lemma AdjustedIdempotent(x: seq<Value>, ys: seq<seq<Value>>)
    requires |ys| > 0
    ensures Adjusted(Adjusted(x, ys).0, Adjusted(x, ys).1) == Adjusted(x, ys)
  {
    var (ax, ays) := Adjusted(x, ys);
    DropNaNOfNaNFree(ax);
    forall i | 0 <= i < |ays|
      ensures DropNaN(ays[i]) == ays[i]
    {
      DropNaNOfNaNFree(ays[i]);
    }
    assert DropAllNaN(ays) == ays;
  }

  /** As written, the alignment can leave the y series of different
      lengths: with x of length 3 and y series of lengths 1 and 2, x is cut
      to 1 and the second y series keeps both elements. */
  lemma AdjustedLengthsDiffer()
    ensures var r := Adjusted([Num(1.0), Num(2.0), Num(3.0)], [[Num(1.0)], [Num(1.0), Num(2.0)]]);
            |r.0| == 1 && |r.1[0]| == 1 && |r.1[1]| == 2
  {
  }

  /** The alignment the docstring describes: x and every y series, with
      their NaNs dropped, cut to the length of the shortest of them. */
  function Aligned(x: seq<Value>, ys: seq<seq<Value>>): (r: (seq<Value>, seq<seq<Value>>))
    requires |ys| > 0
    ensures |r.1| == |ys|
    ensures NaNFree(r.0) && r.0 <= DropNaN(x)
    ensures forall i :: 0 <= i < |ys| ==> NaNFree(r.1[i]) && r.1[i] <= DropNaN(ys[i])
    ensures forall i :: 0 <= i < |ys| ==> |r.1[i]| == |r.0|
    ensures |r.0| == Min(|DropNaN(x)|, MinLength(DropAllNaN(ys)))
  {
    var fx := DropNaN(x);
    var fys := DropAllNaN(ys);
    var n := Min(|fx|, MinLength(fys));
    (fx[..n], TruncateAll(fys, n))
  }

  /** The two alignments agree whenever the filtered x is shorter than
      every filtered y series. */
  lemma AlignedAgreesWhenXShortest(x: seq<Value>, ys: seq<seq<Value>>)
    requires |ys| > 0
    requires |DropNaN(x)| < MinLength(DropAllNaN(ys))
    ensures Adjusted(x, ys) == Aligned(x, ys)
  {
    var fx := DropNaN(x);
    assert fx[..|fx|] == fx;
  }

  // ---------------------------------------------------------------------
  // PlotGenerator
  // ---------------------------------------------------------------------

  datatype ChartError =
    | EmptySeriesList  // `min()` of an empty list raises ValueError
    | UnknownMethod    // `__main__` returns attributes no strategy has set
    | DegreeUnset      // `np.polyfit` called with a degree of None
    | InvalidSeries    // an empty series, or x and y of different lengths
    | FitFailed        // the regression library rejects the data

  /** The data part of `PlotGenerator`: the x series and the list of y
      series after column extraction. */
  class PlotGenerator {
    var x: seq<Value>
    var y: seq<seq<Value>>

    constructor (x: seq<Value>, y: seq<seq<Value>>)
      ensures this.x == x && this.y == y
    {
      this.x := x;
      this.y := y;
    }

    /** `__adjust_length__`: drops the NaNs of `x` and of every `y[i]` in
      place, then cuts `x` or the y series. With an empty list of y series
      the source raises once `x` has already been filtered. */
    method AdjustLength() returns (r: Outcome<ChartError>)
      modifies this
      ensures |y| == |old(y)|
      ensures |old(y)| == 0 ==> r == Fail(EmptySeriesList) && x == DropNaN(old(x)) && y == old(y)
      ensures |old(y)| > 0 ==> r == Pass && (x, y) == Adjusted(old(x), old(y))
    {
      x := DropNaN(x);
      DropNaNEach();
      if |y| == 0 {
        return Fail(EmptySeriesList);
      }
      var minYLength := MinLength(y);
      var maxYLength := MinLength(y);
      if |x| > minYLength {
        x := x[..minYLength];
      } else if |x| < maxYLength {
        TruncateEach(|x|);
      }
      return Pass;
    }

    /** `__percentage__`: with `percentage` set, every y series is
      multiplied by 100 in place; the percent axis formatter is plotting. */
    method Percentage(percentage: bool)
      modifies this`y
      ensures percentage ==> |y| == |old(y)| && forall k :: 0 <= k < |y| ==> y[k] == Scaled(old(y)[k])
      ensures !percentage ==> y == old(y)
    {
      if percentage {
        for i := 0 to |y|
          invariant |y| == |old(y)|
          invariant forall k :: 0 <= k < i ==> y[k] == Scaled(old(y)[k])
          invariant forall k :: i <= k < |y| ==> y[k] == old(y)[k]
        {
          y := y[i := Scaled(y[i])];
        }
      }
    }

    /** The first loop of `__adjust_length__`: every `y[i]` loses its NaNs. */
    method DropNaNEach()
      modifies this`y
      ensures y == DropAllNaN(old(y))
    {
      for i := 0 to |y|
        invariant |y| == |old(y)|
        invariant forall k :: 0 <= k < i ==> y[k] == DropNaN(old(y)[k])
        invariant forall k :: i <= k < |y| ==> y[k] == old(y)[k]
      {
        y := y[i := DropNaN(y[i])];
      }
    }

    /** The second loop of `__adjust_length__`: every `y[i]` is cut to `n`. */
    method TruncateEach(n: nat)
      requires forall k :: 0 <= k < |y| ==> n <= |y[k]|
      modifies this`y
      ensures y == TruncateAll(old(y), n)
    {
      for i := 0 to |y|
        invariant |y| == |old(y)|
        invariant forall k :: 0 <= k < i ==> y[k] == old(y)[k][..n]
        invariant forall k :: i <= k < |y| ==> y[k] == old(y)[k]
      {
        y := y[i := y[i][..n]];
      }
    }
  }

  // ---------------------------------------------------------------------
  // Trendline method names
  // ---------------------------------------------------------------------

  /** `str.lower` on one character; only A-Z change. */
  function LowerChar(c: char): char {
    if 'A' <= c <= 'Z' then (c as int + 32) as char else c
  }

  function Lower(s: string): (r: string)
    ensures |r| == |s|
    ensures forall i :: 0 <= i < |s| ==> r[i] == LowerChar(s[i])
  {
    if s == [] then [] else [LowerChar(s[0])] + Lower(s[1..])
  }

  /** A string with no upper-case letter is its own lower case. */
  lemma LowerOfLowercase(s: string)
    requires forall i :: 0 <= i < |s| ==> !('A' <= s[i] <= 'Z')
    ensures Lower(s) == s
  {
  }

  lemma LowerIdempotent(s: string)
    ensures Lower(Lower(s)) == Lower(s)
  {
  }

  /** The three fitting strategies of `_trendline`. */
  datatype Strategy = OlsMethod | PolyMethod | MovingAverageMethod

  /** The lower-case name `__main__` compares against. */
  function MethodName(m: Strategy): string {
    match m
    case OlsMethod => "ols"
    case PolyMethod => "poly"
    case MovingAverageMethod => "moving average"
  }

  /** The case-insensitive selection of `__main__`: the strategy whose
      name equals the lower-cased method string, if there is one. */
  function ParseMethod(name: string): (r: Option<Strategy>)
    ensures r.Some? ==> Lower(name) == MethodName(r.value)
    ensures r.None? ==> forall m :: Lower(name) != MethodName(m)
  {
    var lower := Lower(name);
    if lower == "ols" then Some(OlsMethod)
    else if lower == "poly" then Some(PolyMethod)
    else if lower == "moving average" then Some(MovingAverageMethod)
    else None
  }

  /** Each strategy is selected by its own name, and the selection does
      not depend on letter case. */
  lemma ParseMethodName(m: Strategy, name: string)
    ensures ParseMethod(MethodName(m)) == Some(m)
    ensures ParseMethod(Lower(name)) == ParseMethod(name)
  {
    LowerOfLowercase(MethodName(m));
    LowerIdempotent(name);
  }

  // ---------------------------------------------------------------------
  // Moving average
  // ---------------------------------------------------------------------

  /** The window `__moving_average__` is called with. */
  const NumberOfPoints: nat := 10

  function Sum(s: seq<real>): real {
    if s == [] then 0.0 else s[0] + Sum(s[1..])
  }

  /** The windows of `y[1..]` are those of `y` shifted by one. */
  lemma ShiftedWindows(y: seq<real>, w: nat, rest: seq<real>)
    requires 1 <= w < |y| && |rest| == |y| - w
    requires forall i :: 0 <= i < |rest| ==> rest[i] == Sum(y[1..][i..i + w]) / (w as real)
    ensures forall i :: 0 <= i < |rest| ==> rest[i] == Sum(y[i + 1..i + 1 + w]) / (w as real)
  {
    forall i | 0 <= i < |rest|
      ensures rest[i] == Sum(y[i + 1..i + 1 + w]) / (w as real)
    {
      assert y[1..][i..i + w] == y[i + 1..i + 1 + w];
    }
  }

  /** `np.convolve(y, np.ones(w), 'valid') / w` for a window no longer
      than the series: the mean of every full window, in order. */
  function RollingMean(y: seq<real>, w: nat): (r: seq<real>)
    requires 1 <= w <= |y|
    ensures |r| == |y| - w + 1
    ensures forall i :: 0 <= i < |r| ==> r[i] == Sum(y[i..i + w]) / (w as real)
    decreases |y|
  {
    var head := Sum(y[..w]) / (w as real);
    if |y| == w then [head]
    else
      var rest := RollingMean(y[1..], w);
      ShiftedWindows(y, w, rest);
      assert y[..w] == y[0..0 + w];
      [head] + rest
  }

  lemma {:induction false} SumConstant(s: seq<real>, c: real)
    requires forall i :: 0 <= i < |s| ==> s[i] == c
    ensures Sum(s) == |s| as real * c
  {
    if s != [] {
      SumConstant(s[1..], c);
    }
  }

  lemma MulDiv(total: real, a: real, c: real)
    requires a != 0.0 && total == a * c
    ensures total / a == c
  {
  }

  /** A constant series is its own moving average. */
  lemma RollingMeanOfConstant(y: seq<real>, w: nat, c: real)
    requires 1 <= w <= |y|
    requires forall i :: 0 <= i < |y| ==> y[i] == c
    ensures forall i :: 0 <= i < |RollingMean(y, w)| ==> RollingMean(y, w)[i] == c
  {
    var r := RollingMean(y, w);
    forall i | 0 <= i < |r|
      ensures r[i] == c
    {
      var window := y[i..i + w];
      assert |window| == w;
      SumConstant(window, c);
      assert r[i] == Sum(window) / (w as real);
      MulDiv(Sum(window), w as real, c);
    }
  }

  /** The moving average of a prefix is a prefix of the moving average:
      each output only looks at its own window. */
  lemma RollingMeanPrefix(y: seq<real>, w: nat, n: nat)
    requires 1 <= w <= n <= |y|
    ensures RollingMean(y[..n], w) == RollingMean(y, w)[..n - w + 1]
  {
    var a, b := RollingMean(y[..n], w), RollingMean(y, w)[..n - w + 1];
    forall i | 0 <= i < |a|
      ensures a[i] == b[i]
    {
      assert y[..n][i..i + w] == y[i..i + w];
    }
  }

  /** `np.convolve(y, np.ones(w), 'valid') / w` for any series. numpy swaps
      the operands when the window is the longer one, so a non-empty series
      shorter than the window gives `w - len(y) + 1` copies of its total over
      `w`; an empty series raises. */
  function WindowMean(y: seq<real>, w: nat): (r: Option<seq<real>>)
    requires w >= 1
    ensures r.None? <==> y == []
    ensures |y| >= w ==> r == Some(RollingMean(y, w))
    ensures 0 < |y| < w ==>
              |r.value| == w - |y| + 1 &&
              forall i :: 0 <= i < |r.value| ==> r.value[i] == Sum(y) / (w as real)
  {
    if y == [] then None
    else if |y| >= w then Some(RollingMean(y, w))
    else Some(seq(w - |y| + 1, _ => Sum(y) / (w as real)))
  }

  /** The two regimes of `WindowMean` meet: a series exactly as long as the
      window gives one value, its total over the window, which is also what
      the swapped computation gives. */
  lemma WindowMeanAtWindowLength(y: seq<real>, w: nat)
    requires 1 <= w == |y|
    ensures WindowMean(y, w) == Some([Sum(y) / (w as real)])
  {
    assert y[0..0 + w] == y;
  }

  // ---------------------------------------------------------------------
  // Degree search of the polynomial fit
  // ---------------------------------------------------------------------

  /** The largest degree `__poly__` tries. */
  const MaxDegree: nat := 5

  /** A mean squared error as numpy computes it: finite, infinite, or NaN. */
  datatype FitError = Finite(value: real) | Infinite | Undefined

  /** Float `<` on errors: NaN compares false with everything. */
  predicate Below(a: FitError, b: FitError) {
    match (a, b)
    case (Finite(u), Finite(v)) => u < v
    case (Finite(_), Infinite) => true
    case _ => false
  }

  /** The degree loop of `__poly__` as written. Each pass fits one degree
      and keeps its in-sample prediction `y_pred`, overwriting the previous
      one; the error and the comparison against `best_error = inf` come
      after the loop, once, for the last prediction. `predict(d)` is the
      degree-d polynomial evaluated at the data's x values and `error(p)`
      the mean squared error of a prediction against y; both are the
      numeric library's. */
  method SelectDegree(predict: nat -> seq<real>, error: seq<real> -> FitError, maxDegree: nat)
    returns (bestDegree: Option<nat>, bestError: FitError)
    requires maxDegree >= 1
    ensures Below(error(predict(maxDegree)), Infinite) ==>
              bestDegree == Some(maxDegree) && bestError == error(predict(maxDegree))
    ensures !Below(error(predict(maxDegree)), Infinite) ==>
              bestDegree == None && bestError == Infinite
  {
    bestDegree := None;
    bestError := Infinite;
    var degree: nat := 0;
    var yPred: seq<real> := [];
    for d := 1 to maxDegree + 1
      invariant d > 1 ==> degree == d - 1 && yPred == predict(degree)
    {
      degree := d;
      yPred := predict(d);
    }
    var err := error(yPred);
    if Below(err, bestError) {
      bestError := err;
      bestDegree := Some(degree);
    }
  }

  /** The degree search with the error and the comparison inside the loop:
      the first degree of least finite error, or none when no error is
      finite. */
  method SelectBestDegree(predict: nat -> seq<real>, error: seq<real> -> FitError, maxDegree: nat)
    returns (bestDegree: Option<nat>, bestError: FitError)
    ensures bestDegree.None? <==> forall d :: 1 <= d <= maxDegree ==> !error(predict(d)).Finite?
    ensures bestDegree.None? ==> bestError == Infinite
    ensures bestDegree.Some? ==>
              1 <= bestDegree.value <= maxDegree &&
              bestError == error(predict(bestDegree.value)) && bestError.Finite? &&
              (forall d :: 1 <= d <= maxDegree && error(predict(d)).Finite? ==>
                 bestError.value <= error(predict(d)).value) &&
              (forall d :: 1 <= d < bestDegree.value && error(predict(d)).Finite? ==>
                 bestError.value < error(predict(d)).value)
  {
    bestDegree := None;
    bestError := Infinite;
    for degree := 1 to maxDegree + 1
      invariant bestDegree.None? <==> forall d :: 1 <= d < degree ==> !error(predict(d)).Finite?
      invariant bestDegree.None? ==> bestError == Infinite
      invariant bestDegree.Some? ==>
                  1 <= bestDegree.value < degree &&
                  bestError == error(predict(bestDegree.value)) && bestError.Finite? &&
                  (forall d :: 1 <= d < degree && error(predict(d)).Finite? ==>
                     bestError.value <= error(predict(d)).value) &&
                  (forall d :: 1 <= d < bestDegree.value && error(predict(d)).Finite? ==>
                     bestError.value < error(predict(d)).value)
    {
      var yPred := predict(degree);
      var err := error(yPred);
      if Below(err, bestError) {
        bestError := err;
        bestDegree := Some(degree);
      }
    }
  }

  /** In-sample least-squares errors never rise with the degree. When they
      are all finite, the last degree's error is a least one, so the loop
      as written reports the least error; it only breaks ties towards the
      highest degree. */
  method DegreeSearchOnNonIncreasingErrors(predict: nat -> seq<real>, error: seq<real> -> FitError, maxDegree: nat)
    returns (asWritten: Option<nat>, asWrittenError: FitError, corrected: Option<nat>, correctedError: FitError)
    requires maxDegree >= 1
    requires forall d :: 1 <= d <= maxDegree ==> error(predict(d)).Finite?
    requires forall d, e :: 1 <= d <= e <= maxDegree ==> error(predict(e)).value <= error(predict(d)).value
    ensures asWritten == Some(maxDegree) && corrected.Some?
    ensures asWrittenError == correctedError
  {
    asWritten, asWrittenError := SelectDegree(predict, error, maxDegree);
    corrected, correctedError := SelectBestDegree(predict, error, maxDegree);
    assert error(predict(1)).Finite?;
    var b := corrected.value;
    assert error(predict(maxDegree)).value <= error(predict(b)).value;
    assert correctedError.value <= error(predict(maxDegree)).value;
  }

  /** Data that every degree fits exactly, such as points on a line: each
      fit reproduces y and every error is 0. The loop as written reports
      degree 5, the corrected loop the simplest exact degree, 1. */
  method DegreeSearchDiscrepancy(y: seq<real>) returns (asWritten: Option<nat>, corrected: Option<nat>)
    ensures asWritten == Some(MaxDegree) && corrected == Some(1)
  {
    var predict := (d: nat) => y;
    var error := (p: seq<real>) => if p == y then Finite(0.0) else Finite(1.0);
    assert forall d: nat :: error(predict(d)) == Finite(0.0);
    var e1, e2;
    asWritten, e1 := SelectDegree(predict, error, MaxDegree);
    corrected, e2 := SelectBestDegree(predict, error, MaxDegree);
    assert error(predict(1)).Finite?;
  }

  /** Errors that are 0 up to degree 4 and NaN for degree 5: the loop as
      written reports no degree, so the final `polyfit` is called with a
      degree of None; the corrected loop reports degree 1. */
  method DegreeSearchUndefinedLast() returns (asWritten: Option<nat>, corrected: Option<nat>)
    ensures asWritten == None && corrected == Some(1)
  {
    var predict := (d: nat) => [d as real];
    var error := (p: seq<real>) => if p == [MaxDegree as real] then Undefined else Finite(0.0);
    assert error(predict(MaxDegree)) == Undefined;
    assert forall d: nat :: d != MaxDegree ==> error(predict(d)) == Finite(0.0);
    var e1, e2;
    asWritten, e1 := SelectDegree(predict, error, MaxDegree);
    corrected, e2 := SelectBestDegree(predict, error, MaxDegree);
    assert error(predict(1)).Finite?;
  }

  // ---------------------------------------------------------------------
  // _trendline
  // ---------------------------------------------------------------------

  /** What a strategy stores: `x_pred`, `y_pred` and `reg_text`. */
  datatype Prediction = Prediction(xPred: seq<real>, yPred: seq<real>, regText: string)

  /** The results of the numeric library for given data: the linear
      regression's prediction (none when the regression rejects the data,
      for instance when all x values are equal), the in-sample prediction
      of the degree-d polynomial fit, the mean squared error of a prediction
      against y, and the stored prediction of the final polynomial fit. */
  datatype FitLibrary = FitLibrary(
    ols: (seq<real>, seq<real>) -> Option<Prediction>,
    polyPredict: (seq<real>, seq<real>, nat) -> seq<real>,
    meanSquaredError: (seq<real>, seq<real>) -> FitError,
    poly: (seq<real>, seq<real>, nat) -> Prediction)

  /** The error `__poly__` compares: that of the last degree's fit. */
  function LastFitError(lib: FitLibrary, x: seq<real>, y: seq<real>): FitError {
    lib.meanSquaredError(lib.polyPredict(x, y, MaxDegree), y)
  }

  /** The shapes `polyfit`, `linregress` and `x.min()` accept: a non-empty
      x and a y of the same length. */
  predicate FitShapeOk(x: seq<real>, y: seq<real>) {
    |x| > 0 && |x| == |y|
  }

  const MovingAverageText: string := "Moving Average: \n  10 points"

  /** `_trendline`: a method name and the NaN-free series to fit; the
      strategies store their prediction in its fields, `fitted` records
      whether those fields exist yet. Every strategy that raises does so
      before it stores anything. */
  class Trendline {
    var methodName: string
    var x: seq<real>
    var y: seq<real>
    var fitted: bool
    var xPred: seq<real>
    var yPred: seq<real>
    var regText: string

    constructor (methodName: string, x: seq<real>, y: seq<real>)
      ensures this.methodName == methodName && this.x == x && this.y == y
      ensures !fitted
    {
      this.methodName := methodName;
      this.x := x;
      this.y := y;
      fitted := false;
    }

    function Stored(): Prediction
      reads this
    {
      Prediction(xPred, yPred, regText)
    }

    /** `__moving_average__` with its 10-point window. */
    method MovingAverage() returns (r: Outcome<ChartError>)
      modifies this`fitted, this`xPred, this`yPred, this`regText
      ensures y == [] ==> r == Fail(InvalidSeries) && fitted == old(fitted) && Stored() == old(Stored())
      ensures y != [] ==>
                r == Pass && fitted && WindowMean(y, NumberOfPoints) == Some(yPred) &&
                xPred == x[..Min(|x|, |yPred|)] && regText == MovingAverageText
      ensures |y| >= NumberOfPoints ==>
                |yPred| == |y| - (NumberOfPoints - 1) &&
                forall i :: 0 <= i < |yPred| ==> yPred[i] == Sum(y[i..i + NumberOfPoints]) / 10.0
      ensures y != [] && |x| >= |yPred| ==> |xPred| == |yPred|
    {
      var mean := WindowMean(y, NumberOfPoints);
      if mean.None? {
        return Fail(InvalidSeries);
      }
      yPred := mean.value;
      xPred := x[..Min(|x|, |yPred|)];
      regText := MovingAverageText;
      fitted := true;
      r := Pass;
    }

    /** `__ols__`: the regression and its formatting are the library's. */
    method Ols(lib: FitLibrary) returns (r: Outcome<ChartError>)
      modifies this`fitted, this`xPred, this`yPred, this`regText
      ensures !FitShapeOk(x, y) ==>
                r == Fail(InvalidSeries) && fitted == old(fitted) && Stored() == old(Stored())
      ensures FitShapeOk(x, y) && lib.ols(x, y).None? ==>
                r == Fail(FitFailed) && fitted == old(fitted) && Stored() == old(Stored())
      ensures FitShapeOk(x, y) && lib.ols(x, y).Some? ==>
                r == Pass && fitted && Stored() == lib.ols(x, y).value
    {
      if !FitShapeOk(x, y) {
        return Fail(InvalidSeries);
      }
      var fit := lib.ols(x, y);
      if fit.None? {
        return Fail(FitFailed);
      }
      var p := fit.value;
      xPred, yPred, regText := p.xPred, p.yPred, p.regText;
      fitted := true;
      r := Pass;
    }

    /** `__poly__`: the degree search as written, then the fit of the
      chosen degree. Data `polyfit` rejects fail in the first pass of the
      loop; when no degree is chosen the final fit is asked for degree None
      and fails. */
    method Poly(lib: FitLibrary) returns (r: Outcome<ChartError>)
      modifies this`fitted, this`xPred, this`yPred, this`regText
      ensures !FitShapeOk(x, y) ==>
                r == Fail(InvalidSeries) && fitted == old(fitted) && Stored() == old(Stored())
      ensures FitShapeOk(x, y) && Below(LastFitError(lib, x, y), Infinite) ==>
                r == Pass && fitted && Stored() == lib.poly(x, y, MaxDegree)
      ensures FitShapeOk(x, y) && !Below(LastFitError(lib, x, y), Infinite) ==>
                r == Fail(DegreeUnset) && fitted == old(fitted) && Stored() == old(Stored())
    {
      if !FitShapeOk(x, y) {
        return Fail(InvalidSeries);
      }
      var xs, ys := x, y;
      var bestDegree, bestError := SelectDegree(
        (d: nat) => lib.polyPredict(xs, ys, d),
        (p: seq<real>) => lib.meanSquaredError(p, ys),
        MaxDegree);
      if bestDegree.None? {
        return Fail(DegreeUnset);
      }
      var p := lib.poly(x, y, bestDegree.value);
      xPred, yPred, regText := p.xPred, p.yPred, p.regText;
      fitted := true;
      r := Pass;
    }

    /** `__main__`: runs the strategy named by the method string, ignoring
      case, and returns the stored prediction. A strategy's failure
      propagates with nothing stored. An unknown name runs no strategy, so
      the return fails unless a prediction is already stored. */
    method Dispatch(lib: FitLibrary) returns (r: Result<Prediction, ChartError>)
      modifies this`fitted, this`xPred, this`yPred, this`regText
      ensures ParseMethod(methodName) == Some(OlsMethod) ==>
                r == if !FitShapeOk(x, y) then Err(InvalidSeries)
                     else if lib.ols(x, y).None? then Err(FitFailed)
                     else Ok(lib.ols(x, y).value)
      ensures ParseMethod(methodName) == Some(PolyMethod) ==>
                r == if !FitShapeOk(x, y) then Err(InvalidSeries)
                     else if Below(LastFitError(lib, x, y), Infinite) then Ok(lib.poly(x, y, MaxDegree))
                     else Err(DegreeUnset)
      ensures ParseMethod(methodName) == Some(MovingAverageMethod) ==>
                r == if y == [] then Err(InvalidSeries)
                     else var mean := WindowMean(y, NumberOfPoints).value;
                     Ok(Prediction(x[..Min(|x|, |mean|)], mean, MovingAverageText))
      ensures ParseMethod(methodName) == None ==>
                r == if old(fitted) then Ok(old(Stored())) else Err(UnknownMethod)
      ensures r.Ok? ==> fitted && r.value == Stored()
      ensures r.Err? ==> fitted == old(fitted) && Stored() == old(Stored())
    {
      var strategy := ParseMethod(methodName);
      var outcome := Pass;
      if strategy == Some(OlsMethod) {
        outcome := Ols(lib);
      } else if strategy == Some(PolyMethod) {
        outcome := Poly(lib);
      } else if strategy == Some(MovingAverageMethod) {
        outcome := MovingAverage();
      }
      if outcome.Fail? {
        return Err(outcome.error);
      }
      if !fitted {
        return Err(UnknownMethod);
      }
      r := Ok(Stored());
    }
  }
}
