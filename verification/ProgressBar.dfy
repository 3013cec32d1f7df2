/**
 The text of one progress bar: the bar itself, the counts, and the estimate of the time
 left. Percentages are exact rationals here, until they are converted to 64-bit integers;
 times are 64-bit nanoseconds.
 */
module ProgressBar {
  import opened Options

  const SECOND := 1_000_000_000

  /** The largest width of the bar, in marks. */
  const MARKS := 50

  const TWO_TO_THE_63 := 0x8000_0000_0000_0000

  type int64 = x: int | -0x8000_0000_0000_0000 <= x < 0x8000_0000_0000_0000

  datatype Progress = Progress(
    current: int64,
    total: int64,
    start: int64,
    hideCounts: bool,
    units: string,
    elapsed: int64,     // nanoseconds between `start` and now
    outOfRange: int64   // what the machine makes of a percentage that is no 64-bit integer
  )

  /** Formatting that belongs to other libraries. */
  datatype Formats = Formats(size: int -> string, number: int -> string, duration: int -> string)

  /** Integer division as the program's language does it: towards zero. */
  function Quotient(a: int, b: int): int
    requires b > 0
  {
    if a >= 0 then a / b else -((-a) / b)
  }

  /** Wrap-around of 64-bit signed arithmetic. */
  function Wrap64(n: int): int {
    (n + TWO_TO_THE_63) % (2 * TWO_TO_THE_63) - TWO_TO_THE_63
  }

  /** The percentage, cut to an integer. */
  function Percent(p: Progress): int
    requires p.total > 0
  {
    Quotient(p.current * 100, p.total)
  }

  /** Is the percentage a 64-bit integer? */
  predicate Representable(p: Progress)
    requires p.total > 0
  {
    -TWO_TO_THE_63 <= Percent(p) < TWO_TO_THE_63
  }

  /** Half the percentage as converted, at most 50. */
  function HalfPercent(p: Progress): int
    requires p.total > 0
  {
    var half := Quotient(if Representable(p) then Percent(p) else p.outOfRange, 2);
    if half > MARKS then MARKS else half
  }

  function Repeat(c: char, n: nat): (s: string)
    ensures |s| == n && forall i | 0 <= i < n :: s[i] == c
  {
    seq(n, _ => c)
  }

  /** The estimate, cut to whole seconds, as the program computes it. */
  function TimeLeft(p: Progress): int
    requires p.current > 0
  {
    var perEntry := Quotient(p.elapsed, p.current);
    var left := Wrap64((p.total - p.current) * perEntry);
    Quotient(left, SECOND) * SECOND
  }

  /** Is an estimate made? */
  predicate Estimates(p: Progress)
    requires p.total > 0
  {
    p.current > 0 && p.start > 0 && HalfPercent(p) < MARKS
  }

  /** What is shown of the counts. */
  function Counts(p: Progress, f: Formats): string {
    if p.hideCounts then ""
    else if p.units == "" then
      if p.current > p.total then f.size(p.current) else f.size(p.current) + "/" + f.size(p.total)
    else if p.current > p.total then f.number(p.current) + " " + p.units
    else f.number(p.current) + "/" + f.number(p.total) + " " + p.units
  }

  /**
   The text of the bar for a terminal of the given width. `None` is the panic of repeating
   a mark a negative number of times.
   */
  method String(p: Progress, width: int, f: Formats) returns (text: Option<string>)
    ensures p.current <= 0 && p.total <= 0 ==> text == Some("")
    ensures p.current > 0 && p.total <= 0 ==>
              text == Some(if p.units == "" then f.size(p.current) else f.number(p.current) + " " + p.units)
    // On a narrow terminal only the counts are shown, the total just if it is not exceeded.
    ensures p.total > 0 && width <= 50 && p.hideCounts ==> text == Some("")
    ensures p.total > 0 && width <= 50 && !p.hideCounts && p.current <= p.total ==>
              text == Some(if p.units == "" then f.size(p.current) + "/" + f.size(p.total)
                           else f.number(p.current) + "/" + f.number(p.total) + " " + p.units)
    ensures p.total > 0 && width <= 50 && !p.hideCounts && p.current > p.total ==>
              text == Some(if p.units == "" then f.size(p.current) else f.number(p.current) + " " + p.units)
    ensures p.total > 0 ==> (text.None? <==> width > 110 && HalfPercent(p) < 0)
    ensures p.total > 0 && text.Some? ==>
              var box := if width > 110 then BarBox(HalfPercent(p)) else "";
              var left := if Estimates(p) && width > 50 then " " + f.duration(TimeLeft(p)) else "";
              text.value == box + Counts(p, f) + left
  {
    hide Quotient, Wrap64, Percent, Representable;
    var pbBox, numbersBox, timeLeftBox := "", "", "";
    if p.current <= 0 && p.total <= 0 {
      return Some("");
    }
    if p.total <= 0 {
      if p.units == "" {
        return Some(f.size(p.current));
      }
      return Some(f.number(p.current) + " " + p.units);
    }
    var percentage := Quotient(if Representable(p) then Percent(p) else p.outOfRange, 2);
    if percentage > MARKS {
      percentage := MARKS;
    }
    if width > 110 {
      var numSpaces := 0;
      if MARKS - percentage > 0 {
        numSpaces := MARKS - percentage;
      }
      if percentage < 0 {
        return None;
      }
      pbBox := "[" + Repeat('=', percentage) + ">" + Repeat(' ', numSpaces) + "] ";
    }
    if p.hideCounts {
    } else if p.units == "" {
      numbersBox := f.size(p.current) + "/" + f.size(p.total);
      if p.current > p.total {
        numbersBox := f.size(p.current);
      }
    } else {
      numbersBox := f.number(p.current) + "/" + f.number(p.total) + " " + p.units;
      if p.current > p.total {
        numbersBox := f.number(p.current) + " " + p.units;
      }
    }
    assert percentage == HalfPercent(p);
    hide HalfPercent;
    if p.current > 0 && p.start > 0 && percentage < MARKS {
      var perEntry := Quotient(p.elapsed, p.current);
      var left := Wrap64((p.total - p.current) * perEntry);
      left := Quotient(left, SECOND) * SECOND;
      assert left == TimeLeft(p);
      if width > 50 {
        timeLeftBox := " " + f.duration(left);
      }
    }
    assert numbersBox == Counts(p, f);
    assert "" + numbersBox + "" == numbersBox;
    text := Some(pbBox + numbersBox + timeLeftBox);
  }

  /** A bar of `half` marks, the tip, and spaces up to the full width. */
  function BarBox(half: int): (s: string)
    ensures 0 <= half <= MARKS ==>
              && |s| == MARKS + 4 && s[0] == '[' && s[MARKS + 2] == ']' && s[MARKS + 3] == ' '
              && forall i | 1 <= i < MARKS + 2 :: s[i] == if i <= half then '=' else if i == half + 1 then '>' else ' '
  {
    if 0 <= half <= MARKS then "[" + Repeat('=', half) + ">" + Repeat(' ', MARKS - half) + "] " else ""
  }

  /**
   What makes the bar panic, on a terminal wide enough for it: a negative count, or a
   percentage beyond 64 bits that the machine converts to a negative number.
   */
  lemma HalfPercentNegativeIff(p: Progress)
    requires p.total > 0
    ensures HalfPercent(p) < 0 <==>
            if Representable(p) then 50 * p.current <= -p.total else p.outOfRange <= -2
  {
    if p.current < 0 {
      DivAtLeast(-(p.current as int) * 100, p.total, 2);
    } else {
      DivAtLeast(p.current * 100, p.total, 0);
    }
    HalfNegative(Percent(p));
    HalfNegative(p.outOfRange);
  }

  lemma HalfNegative(whole: int)
    ensures Quotient(whole, 2) < 0 <==> whole <= -2
  {
  }

  lemma DivAtLeast(a: nat, b: nat, k: nat)
    requires b > 0
    ensures a / b >= k <==> a >= k * b
  {
    var q, r := a / b, a % b;
    assert a == q * b + r;
    if q >= k {
      MulMonotone(k, q, b);
    } else {
      MulMonotone(q + 1, k, b);
    }
  }

  lemma MulMonotone(x: nat, y: nat, b: nat)
    requires x <= y
    ensures x * b <= y * b
  {
  }

  /** The guard of the estimate, read back: the work is not complete - if the percentage is representable. */
  lemma UnfinishedIff(p: Progress)
    requires p.total > 0 && p.current >= 0
    ensures Representable(p) <==> 100 * p.current < TWO_TO_THE_63 * p.total
    ensures Representable(p) ==> 0 <= HalfPercent(p) <= MARKS && (HalfPercent(p) < MARKS <==> p.current < p.total)
    ensures !Representable(p) ==> p.current > p.total
  {
    DivAtLeast(p.current * 100, p.total, 100);
    DivAtLeast(p.current * 100, p.total, TWO_TO_THE_63);
  }

  /** The marks are the half percentage, cut to an integer. */
  lemma HalfPercentBounds(p: Progress)
    requires p.total > 0 && p.current >= 0 && Representable(p)
    ensures var h := HalfPercent(p);
            if p.current >= p.total then h == MARKS else 2 * h * p.total <= 100 * p.current < (2 * h + 2) * p.total
  {
    hide HalfPercent, Representable;
    UnfinishedIff(p);
    if p.current < p.total {
      HalfPercentIs(p);
      HalfOf(p.current, p.total, HalfPercent(p));
    }
  }

  lemma HalfPercentIs(p: Progress)
    requires p.total > 0 && 0 <= p.current < p.total && Representable(p)
    ensures HalfPercent(p) == p.current * 100 / p.total / 2
  {
    hide Percent, Representable;
    UnfinishedIff(p);
    PercentIs(p);
  }

  lemma PercentIs(p: Progress)
    requires p.total > 0 && p.current >= 0
    ensures Percent(p) == p.current * 100 / p.total >= 0
  {
    DivAtLeast(p.current * 100, p.total, 0);
  }

  lemma HalfOf(current: nat, total: nat, h: nat)
    requires total > 0 && h == current * 100 / total / 2
    ensures 2 * h * total <= 100 * current < (2 * h + 2) * total
  {
    DivAtLeast(current * 100, total, 2 * h);
    DivAtLeast(current * 100, total, 2 * h + 2);
  }

  /** With a representable percentage, an estimate is made exactly of work that has a start and a part done, but not all. */
  lemma EstimatesIff(p: Progress)
    requires p.total > 0 && Representable(p)
    ensures Estimates(p) <==> p.start > 0 && 0 < p.current < p.total
  {
    if p.current >= 0 {
      UnfinishedIff(p);
    }
  }

  /** So an estimate is made of unfinished work exactly if the percentage is representable. */
  lemma EstimateIsOfUnfinishedIff(p: Progress)
    requires p.total > 0 && Estimates(p)
    ensures p.current < p.total <==> Representable(p)
  {
    UnfinishedIff(p);
  }

  /**
   The estimate of unfinished work never exceeds the time the rest takes at the rate so far.
   Any estimate is non-negative exactly if the 64-bit product is above minus one second, as
   it is whenever the product of unfinished work fits.
   */
  lemma TimeLeftBounds(p: Progress)
    requires p.total > 0 && Estimates(p) && p.elapsed >= 0
    ensures Representable(p) ==> TimeLeft(p) * p.current <= (p.total - p.current) * p.elapsed
    ensures 0 <= TimeLeft(p) <==> Wrap64((p.total - p.current) * (p.elapsed / p.current)) > -SECOND
    ensures Representable(p) && (p.total - p.current) * (p.elapsed / p.current) < TWO_TO_THE_63 ==> 0 <= TimeLeft(p)
  {
    hide Percent, Representable, HalfPercent, Wrap64;
    var rest, per := p.total - p.current, p.elapsed / p.current;
    var product := rest * per;
    WholeSeconds(Wrap64(product));
    UnfinishedIff(p);
    if Representable(p) {
      MulMonotone(0, rest, per);
      WrapOfNat(product);
      assert per * p.current <= p.elapsed;
      AtTheRateSoFar(TimeLeft(p), rest, per, p.current, p.elapsed);
    }
  }

  lemma WrapOfNat(x: nat)
    ensures Wrap64(x) <= x && (x < TWO_TO_THE_63 ==> Wrap64(x) == x)
  {
  }

  lemma AtTheRateSoFar(left: int, rest: nat, per: nat, current: nat, elapsed: nat)
    requires left <= rest * per && per * current <= elapsed
    ensures left * current <= rest * elapsed
  {
    assert (rest * per - left) * current >= 0;
    assert rest * per * current == rest * (per * current);
    assert rest * (elapsed - per * current) >= 0;
  }

  /** Cutting to whole seconds goes towards zero. */
  lemma WholeSeconds(x: int)
    ensures x >= 0 ==> 0 <= Quotient(x, SECOND) * SECOND <= x
    ensures x < 0 ==> x <= Quotient(x, SECOND) * SECOND <= 0
    ensures Quotient(x, SECOND) * SECOND >= 0 <==> x > -SECOND
  {
  }

  /** The estimate is the exact one, in whole seconds, exactly when the product fits 64 bits. */
  lemma TimeLeftExactIff(p: Progress)
    requires p.total > 0 && Estimates(p)
    ensures var product := (p.total - p.current) * Quotient(p.elapsed, p.current);
            TimeLeft(p) == Quotient(product, SECOND) * SECOND <==> -TWO_TO_THE_63 <= product < TWO_TO_THE_63
  {
    WrapMovesFar((p.total - p.current) * Quotient(p.elapsed, p.current));
  }

  lemma WrapMovesFar(x: int)
    ensures Quotient(Wrap64(x), SECOND) * SECOND == Quotient(x, SECOND) * SECOND <==> -TWO_TO_THE_63 <= x < TWO_TO_THE_63
  {
  }
}
