/** The sparkline mapper (the `path` memo of `LiveChart` in src/App.jsx): the
    window becomes one path command per sample in a 280 by 80 viewport, each
    axis normalised by the window's own minimum and range, the y axis
    inverted so that larger values are drawn higher. */
module Sparkline {
  import opened Common
  import opened SampleWindow

  const Width: real := 280.0
  const Height: real := 80.0

  /** A coordinate: a real number, or NaN where JavaScript arithmetic meets
      an `undefined` field. */
  datatype Coord = At(v: real) | NaN

  /** SVG path command letters: `M` (move to) and `L` (line to). */
  datatype Kind = Move | Line

  datatype Cmd = Cmd(kind: Kind, x: Coord, y: Coord)

  /** The memo's value: the empty string for short windows, else `{d, w, h}`. */
  datatype Projection = NoPath | Path(d: seq<Cmd>, w: real, h: real)

  /** `Math.min` of a non-empty list of numbers. */
  function Min(s: seq<real>): (m: real)
    requires |s| > 0
    ensures forall i :: 0 <= i < |s| ==> m <= s[i]
    ensures exists i :: 0 <= i < |s| && s[i] == m
    decreases |s|
  {
    if |s| == 1 then s[0]
    else
      var rest := Min(s[1..]);
      assert forall i :: 1 <= i < |s| ==> s[i] == s[1..][i - 1];
      if s[0] <= rest then s[0] else rest
  }

  /** `Math.max` of a non-empty list of numbers. */
  function Max(s: seq<real>): (m: real)
    requires |s| > 0
    ensures forall i :: 0 <= i < |s| ==> s[i] <= m
    ensures exists i :: 0 <= i < |s| && s[i] == m
    decreases |s|
  {
    if |s| == 1 then s[0]
    else
      var rest := Max(s[1..]);
      assert forall i :: 1 <= i < |s| ==> s[i] == s[1..][i - 1];
      if s[0] >= rest then s[0] else rest
  }

  /** `Math.max(1, hi - lo)`: the divisor that normalises one axis. It is
      never below 1, so even a flat series divides safely. */
  function Spread(lo: real, hi: real): (r: real)
    ensures r >= 1.0 && r >= hi - lo
    ensures r == 1.0 || r == hi - lo
  {
    if 1.0 >= hi - lo then 1.0 else hi - lo
  }

  predicate AllNumbers(fs: seq<Field>) {
    forall i :: 0 <= i < |fs| ==> fs[i].Num?
  }

  /** The numbers on an axis whose every field is a number. */
  function Reals(fs: seq<Field>): (r: seq<real>)
    requires AllNumbers(fs)
    ensures |r| == |fs| && forall i :: 0 <= i < |fs| ==> r[i] == fs[i].v
  {
    seq(|fs|, i requires 0 <= i < |fs| => fs[i].v)
  }

  /** A number's offset from the axis minimum as a fraction of the spread. */
  function Fraction(v: real, lo: real, hi: real): real {
    (v - lo) / Spread(lo, hi)
  }

  /** Each field's position along its axis as a fraction of the axis range.
      When some field is absent, `Math.min` and `Math.max` are NaN, and so is
      every position on that axis. */
  function Fractions(fs: seq<Field>): (r: seq<Coord>)
    ensures |r| == |fs|
  {
    if !AllNumbers(fs) then seq(|fs|, _ => NaN)
    else if |fs| == 0 then []
    else
      var vs := Reals(fs);
      var lo, hi := Min(vs), Max(vs);
      seq(|fs|, i requires 0 <= i < |fs| => At(Fraction(fs[i].v, lo, hi)))
  }

  /** `mapX`: a fraction scaled to the viewport width. */
  function ToX(f: Coord): Coord {
    match f
    case At(u) => At(u * Width)
    case NaN => NaN
  }

  /** `mapY`: a fraction scaled to the viewport height and flipped. */
  function ToY(f: Coord): Coord {
    match f
    case At(u) => At(Height - u * Height)
    case NaN => NaN
  }

  function Times(w: Window): (r: seq<Field>)
    ensures |r| == |w| && forall i :: 0 <= i < |w| ==> r[i] == w[i].t
  {
    seq(|w|, i requires 0 <= i < |w| => w[i].t)
  }

  function Values(w: Window): (r: seq<Field>)
    ensures |r| == |w| && forall i :: 0 <= i < |w| ==> r[i] == w[i].c
  {
    seq(|w|, i requires 0 <= i < |w| => w[i].c)
  }

  /** The path of a window: nothing for fewer than two samples, otherwise one
      command per sample in window order, a move first and lines after. */
  function Project(w: Window): (p: Projection)
    ensures p.NoPath? <==> |w| < 2
    ensures p.Path? ==> p.w == Width && p.h == Height && |p.d| == |w|
    ensures p.Path? ==> p.d[0].kind == Move
    ensures p.Path? ==> forall i :: 1 <= i < |w| ==> p.d[i].kind == Line
  {
    if |w| < 2 then NoPath
    else
      var xs := Fractions(Times(w));
      var ys := Fractions(Values(w));
      Path(seq(|w|, i requires 0 <= i < |w| =>
             Cmd(if i == 0 then Move else Line, ToX(xs[i]), ToY(ys[i]))),
           Width, Height)
  }

  /** The `<svg>` width and height: the projection's, or 280 by 80 when the
      memo holds the empty string (`path.w || 280`, `path.h || 80`). */
  function Viewport(p: Projection): (real, real) {
    (if p.Path? && p.w != 0.0 then p.w else 280.0,
     if p.Path? && p.h != 0.0 then p.h else 80.0)
  }

  // ---------------------------------------------------------------------
  // Arithmetic facts about one normalised coordinate.

  /** A value between the axis extremes normalises into [0, 1]. */
  lemma FractionInUnit(v: real, lo: real, hi: real)
    requires lo <= v <= hi
    ensures 0.0 <= Fraction(v, lo, hi) <= 1.0
  {
    var r := Spread(lo, hi);
    assert Fraction(v, lo, hi) * r == v - lo;
  }

  /** Normalisation preserves the order of values. */
  lemma FractionMonotone(a: real, b: real, lo: real, hi: real)
    requires a <= b
    ensures Fraction(a, lo, hi) <= Fraction(b, lo, hi)
  {
    var r := Spread(lo, hi);
    assert Fraction(a, lo, hi) * r == a - lo && Fraction(b, lo, hi) * r == b - lo;
  }

  /** The axis minimum normalises to 0, and when the axis spans at least one
      unit its maximum normalises to 1. */
  lemma FractionEnds(lo: real, hi: real)
    ensures Fraction(lo, lo, hi) == 0.0
    ensures hi - lo >= 1.0 ==> Fraction(hi, lo, hi) == 1.0
  {
    if hi - lo >= 1.0 {
      var d := hi - lo;
      assert Spread(lo, hi) == d;
      assert d / d == 1.0;
    }
  }

  // ---------------------------------------------------------------------
  // Properties of one axis.

  /** Where one numeric field lands: the normalisation of its value by the
      axis minimum and maximum. */
  lemma FractionAt(fs: seq<Field>, i: int)
    requires AllNumbers(fs) && 0 <= i < |fs|
    ensures Fractions(fs)[i] == At(Fraction(fs[i].v, Min(Reals(fs)), Max(Reals(fs))))
  {
  }

  /** On a fully numeric axis every fraction is a real in [0, 1]. */
  lemma FractionsInUnit(fs: seq<Field>, i: int)
    requires AllNumbers(fs) && 0 <= i < |fs|
    ensures Fractions(fs)[i].At?
    ensures 0.0 <= Fractions(fs)[i].v <= 1.0
  {
    var vs := Reals(fs);
    FractionAt(fs, i);
    FractionInUnit(fs[i].v, Min(vs), Max(vs));
  }

  /** On a fully numeric axis, fractions follow the order of the values. */
  lemma FractionsMonotone(fs: seq<Field>, i: int, j: int)
    requires AllNumbers(fs) && 0 <= i < |fs| && 0 <= j < |fs|
    requires fs[i].v <= fs[j].v
    ensures Fractions(fs)[i].At? && Fractions(fs)[j].At?
    ensures Fractions(fs)[i].v <= Fractions(fs)[j].v
  {
    var vs := Reals(fs);
    FractionAt(fs, i);
    FractionAt(fs, j);
    FractionMonotone(fs[i].v, fs[j].v, Min(vs), Max(vs));
  }

  /** The smallest value on an axis sits at fraction 0. */
  lemma SmallestAtZero(fs: seq<Field>, i: int)
    requires AllNumbers(fs) && 0 <= i < |fs|
    requires forall k :: 0 <= k < |fs| ==> fs[i].v <= fs[k].v
    ensures Fractions(fs)[i] == At(0.0)
  {
    var vs := Reals(fs);
    assert fs[i].v == Min(vs);
    FractionAt(fs, i);
    FractionEnds(Min(vs), Max(vs));
  }

  /** When an axis spans at least one unit, its largest value sits at
      fraction 1. */
  lemma LargestAtOne(fs: seq<Field>, i: int)
    requires AllNumbers(fs) && 0 <= i < |fs|
    requires forall k :: 0 <= k < |fs| ==> fs[k].v <= fs[i].v
    requires exists k :: 0 <= k < |fs| && fs[i].v - fs[k].v >= 1.0
    ensures Fractions(fs)[i] == At(1.0)
  {
    var vs := Reals(fs);
    var lo, hi := Min(vs), Max(vs);
    assert fs[i].v == hi;
    var k :| 0 <= k < |fs| && fs[i].v - fs[k].v >= 1.0;
    assert lo <= vs[k];
    FractionAt(fs, i);
    FractionEnds(lo, hi);
  }

  /** A single absent field turns every fraction on its axis into NaN. */
  lemma AbsentFieldPoisonsAxis(fs: seq<Field>, k: int)
    requires 0 <= k < |fs| && fs[k].Absent?
    ensures forall i :: 0 <= i < |fs| ==> Fractions(fs)[i] == NaN
  {
  }

  // ---------------------------------------------------------------------
  // Properties of the path.

  /** Fewer than two samples draw nothing, and whatever the window the
      viewport is 280 by 80. */
  lemma ShortWindowDrawsNothing(w: Window)
    ensures |w| < 2 ==> Project(w) == NoPath
    ensures Viewport(Project(w)) == (280.0, 80.0)
  {
  }

  /** The i-th command of a path, read off the two axes. */
  lemma CommandAt(w: Window, i: int)
    requires |w| >= 2 && 0 <= i < |w|
    ensures Project(w).d[i]
      == Cmd(if i == 0 then Move else Line, ToX(Fractions(Times(w))[i]), ToY(Fractions(Values(w))[i]))
  {
  }

  /** Each command places its own sample: its x is the sample's timestamp
      normalised by the window's earliest and latest timestamps and scaled to
      the width, and its y is the sample's value normalised by the window's
      smallest and largest values, scaled to the height and flipped. An axis
      with an absent field puts every command at NaN on that axis. */
  lemma CommandPlacesSample(w: Window, i: int)
    requires |w| >= 2 && 0 <= i < |w|
    ensures AllNumbers(Times(w)) ==>
      var ts := Reals(Times(w));
      Project(w).d[i].x == ToX(At(Fraction(ts[i], Min(ts), Max(ts))))
    ensures AllNumbers(Values(w)) ==>
      var cs := Reals(Values(w));
      Project(w).d[i].y == ToY(At(Fraction(cs[i], Min(cs), Max(cs))))
    ensures !AllNumbers(Times(w)) ==> Project(w).d[i].x == NaN
    ensures !AllNumbers(Values(w)) ==> Project(w).d[i].y == NaN
  {
    var xs, ys := Fractions(Times(w)), Fractions(Values(w));
    CommandAt(w, i);
    if AllNumbers(Times(w)) {
      var ts := Reals(Times(w));
      assert xs[i] == At(Fraction(ts[i], Min(ts), Max(ts))) by {
        FractionAt(Times(w), i);
      }
    } else {
      assert xs[i] == NaN;
    }
    if AllNumbers(Values(w)) {
      var cs := Reals(Values(w));
      assert ys[i] == At(Fraction(cs[i], Min(cs), Max(cs))) by {
        FractionAt(Values(w), i);
      }
    } else {
      assert ys[i] == NaN;
    }
  }

  /** With numeric timestamps every x lies in [0, 280]. */
  lemma XInViewport(w: Window, i: int)
    requires |w| >= 2 && 0 <= i < |w| && AllNumbers(Times(w))
    ensures Project(w).d[i].x.At? && 0.0 <= Project(w).d[i].x.v <= Width
  {
    FractionsInUnit(Times(w), i);
  }

  /** With numeric values every y lies in [0, 80]. */
  lemma YInViewport(w: Window, i: int)
    requires |w| >= 2 && 0 <= i < |w| && AllNumbers(Values(w))
    ensures Project(w).d[i].y.At? && 0.0 <= Project(w).d[i].y.v <= Height
  {
    FractionsInUnit(Values(w), i);
  }

  /** A later timestamp is never drawn further left. */
  lemma XNonDecreasing(w: Window, i: int, j: int)
    requires |w| >= 2 && 0 <= i < |w| && 0 <= j < |w| && AllNumbers(Times(w))
    requires w[i].t.v <= w[j].t.v
    ensures Project(w).d[i].x.At? && Project(w).d[j].x.At?
    ensures Project(w).d[i].x.v <= Project(w).d[j].x.v
  {
    FractionsMonotone(Times(w), i, j);
  }

  /** A larger value is never drawn lower: its y is smaller or equal. */
  lemma YNonIncreasing(w: Window, i: int, j: int)
    requires |w| >= 2 && 0 <= i < |w| && 0 <= j < |w| && AllNumbers(Values(w))
    requires w[i].c.v <= w[j].c.v
    ensures Project(w).d[i].y.At? && Project(w).d[j].y.At?
    ensures Project(w).d[i].y.v >= Project(w).d[j].y.v
  {
    FractionsMonotone(Values(w), i, j);
  }

  /** The earliest timestamp is drawn at the left edge. */
  lemma EarliestAtLeftEdge(w: Window, i: int)
    requires |w| >= 2 && 0 <= i < |w| && AllNumbers(Times(w))
    requires forall k :: 0 <= k < |w| ==> w[i].t.v <= w[k].t.v
    ensures Project(w).d[i].x == At(0.0)
  {
    SmallestAtZero(Times(w), i);
  }

  /** The smallest value is drawn at the bottom edge, and the largest at the
      top edge once the values span at least one unit. */
  lemma ValueExtremesOnEdges(w: Window, lo: int, hi: int)
    requires |w| >= 2 && 0 <= lo < |w| && 0 <= hi < |w| && AllNumbers(Values(w))
    requires forall k :: 0 <= k < |w| ==> w[lo].c.v <= w[k].c.v <= w[hi].c.v
    ensures Project(w).d[lo].y == At(Height)
    ensures w[hi].c.v - w[lo].c.v >= 1.0 ==> Project(w).d[hi].y == At(0.0)
  {
    SmallestAtZero(Values(w), lo);
    if w[hi].c.v - w[lo].c.v >= 1.0 {
      LargestAtOne(Values(w), hi);
    }
  }

  /** When all samples share one timestamp, every x is the finite value 0. */
  lemma FlatTimesAreFinite(w: Window, t: real)
    requires |w| >= 2
    requires forall k :: 0 <= k < |w| ==> w[k].t == Num(t)
    ensures forall i :: 0 <= i < |w| ==> Project(w).d[i].x == At(0.0)
  {
    forall i | 0 <= i < |w|
      ensures Project(w).d[i].x == At(0.0)
    {
      EarliestAtLeftEdge(w, i);
    }
  }

  /** A window with one absent timestamp draws every x as NaN. */
  lemma AbsentTimePoisonsPath(w: Window, k: int)
    requires |w| >= 2 && 0 <= k < |w| && w[k].t.Absent?
    ensures forall i :: 0 <= i < |w| ==> Project(w).d[i].x == NaN
  {
    AbsentFieldPoisonsAxis(Times(w), k);
  }

  lemma MinMaxOfThree(a: real, b: real, c: real)
    ensures Min([a, b, c]) == (if a <= b && a <= c then a else if b <= c then b else c)
    ensures Max([a, b, c]) == (if a >= b && a >= c then a else if b >= c then b else c)
  {
    assert [a, b, c][1..] == [b, c];
    assert [b, c][1..] == [c];
  }

  /** The fractions of a three-sample axis, spelled out. */
  lemma FractionsOfThree(fs: seq<Field>, a: real, b: real, c: real)
    requires fs == [Num(a), Num(b), Num(c)]
    ensures var lo, hi := Min([a, b, c]), Max([a, b, c]);
      Fractions(fs) == [At(Fraction(a, lo, hi)), At(Fraction(b, lo, hi)), At(Fraction(c, lo, hi))]
  {
    var lo, hi := Min([a, b, c]), Max([a, b, c]);
    var r := Fractions(fs);
    assert Reals(fs) == [a, b, c];
    assert r[0] == At(Fraction(a, lo, hi)) by { FractionAt(fs, 0); }
    assert r[1] == At(Fraction(b, lo, hi)) by { FractionAt(fs, 1); }
    assert r[2] == At(Fraction(c, lo, hi)) by { FractionAt(fs, 2); }
  }

  lemma ExampleTimeFractions(ts: seq<Field>)
    requires ts == [Num(0.0), Num(1.0), Num(2.0)]
    ensures Fractions(ts) == [At(0.0), At(0.5), At(1.0)]
  {
    MinMaxOfThree(0.0, 1.0, 2.0);
    FractionsOfThree(ts, 0.0, 1.0, 2.0);
    assert Fraction(1.0, 0.0, 2.0) == 0.5;
  }

  lemma ExampleValueFractions(cs: seq<Field>)
    requires cs == [Num(10.0), Num(20.0), Num(15.0)]
    ensures Fractions(cs) == [At(0.0), At(1.0), At(0.5)]
  {
    MinMaxOfThree(10.0, 20.0, 15.0);
    FractionsOfThree(cs, 10.0, 20.0, 15.0);
    assert Fraction(15.0, 10.0, 20.0) == 0.5;
  }

  lemma ExampleScaling()
    ensures ToX(At(0.0)) == At(0.0) && ToX(At(0.5)) == At(140.0) && ToX(At(1.0)) == At(280.0)
    ensures ToY(At(0.0)) == At(80.0) && ToY(At(1.0)) == At(0.0) && ToY(At(0.5)) == At(40.0)
  {
  }

  /** The two axes of the example window. */
  lemma ExampleAxes(w: Window)
    requires w == [Sample(Num(0.0), Num(10.0)), Sample(Num(1.0), Num(20.0)), Sample(Num(2.0), Num(15.0))]
    ensures Times(w) == [Num(0.0), Num(1.0), Num(2.0)]
    ensures Values(w) == [Num(10.0), Num(20.0), Num(15.0)]
  {
  }

  /** The three commands of the example window, one by one. */
  lemma ExampleCommands(w: Window)
    requires |w| == 3
    requires Times(w) == [Num(0.0), Num(1.0), Num(2.0)]
    requires Values(w) == [Num(10.0), Num(20.0), Num(15.0)]
    ensures Project(w).d[0] == Cmd(Move, At(0.0), At(80.0))
    ensures Project(w).d[1] == Cmd(Line, At(140.0), At(0.0))
    ensures Project(w).d[2] == Cmd(Line, At(280.0), At(40.0))
  {
    ExampleTimeFractions(Times(w));
    ExampleValueFractions(Values(w));
    ExampleScaling();
    CommandAt(w, 0);
    CommandAt(w, 1);
    CommandAt(w, 2);
  }

  /** The samples (0, 10), (1, 20), (2, 15) draw `M 0 80 L 140 0 L 280 40`:
      x steps evenly across the viewport, and the largest value, 20, is drawn
      at the top. */
  lemma ThreeSampleExample(w: Window)
    requires w == [Sample(Num(0.0), Num(10.0)), Sample(Num(1.0), Num(20.0)), Sample(Num(2.0), Num(15.0))]
    ensures Project(w)
      == Path([Cmd(Move, At(0.0), At(80.0)), Cmd(Line, At(140.0), At(0.0)), Cmd(Line, At(280.0), At(40.0))],
              280.0, 80.0)
  {
    ExampleAxes(w);
    ExampleCommands(w);
  }
}
