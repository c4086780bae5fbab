/**
 * The colour of the loading spinner (`generateRGBColor`,
 * src/Components/wow.tsx:214-248): every 25 ms the colour interval moves an
 * RGB triple one 5-unit step around the hue wheel red -> yellow -> green ->
 * cyan -> blue -> magenta -> red.
 */
module LoadingColor {

  datatype Rgb = Rgb(r: int, g: int, b: int)

  /** The colour the page starts with. */
  const Start: Rgb := Rgb(255, 0, 0)

  /**
   * One tick. The six tests are sequential `if`s, not an `else if` chain:
   * each test sees the channels already changed by the tests before it, so at
   * a corner two channels move in the same tick.
   */
  function Next(c: Rgb): Rgb
  {
    var g1 := if c.r == 255 && c.g != 255 && c.b == 0 then c.g + 5 else c.g;
    var r1 := if c.r != 0 && g1 == 255 && c.b == 0 then c.r - 5 else c.r;
    var b1 := if r1 == 0 && g1 == 255 && c.b != 255 then c.b + 5 else c.b;
    var g2 := if r1 == 0 && g1 != 0 && b1 == 255 then g1 - 5 else g1;
    var r2 := if r1 != 255 && g2 == 0 && b1 == 255 then r1 + 5 else r1;
    var b2 := if r2 == 255 && g2 == 0 && b1 != 0 then b1 - 5 else b1;
    Rgb(r2, g2, b2)
  }

  /** The colour after n ticks from c. */
  function Iterate(c: Rgb, n: nat): Rgb
    decreases n
  {
    if n == 0 then c else Iterate(Next(c), n - 1)
  }

  /** A channel value the spinner can show: a multiple of 5 in [0, 255]. */
  predicate IsLevel(x: int)
  {
    0 <= x <= 255 && x % 5 == 0
  }

  /** A colour on the rim of the hue wheel: one channel full, one off. */
  predicate OnWheel(c: Rgb)
  {
    && IsLevel(c.r) && IsLevel(c.g) && IsLevel(c.b)
    && (c.r == 255 || c.g == 255 || c.b == 255)
    && (c.r == 0 || c.g == 0 || c.b == 0)
  }

  /** A tick keeps a colour on the wheel and always moves it. */
  lemma NextOnWheel(c: Rgb)
    requires OnWheel(c)
    ensures OnWheel(Next(c))
    ensures Next(c) != c
  {
  }

  lemma {:induction false} IterateOnWheel(c: Rgb, n: nat)
    requires OnWheel(c)
    ensures OnWheel(Iterate(c, n))
    decreases n
  {
    if n > 0 {
      NextOnWheel(c);
      IterateOnWheel(Next(c), n - 1);
    }
  }

  /** Every colour the spinner shows, starting from red, is on the wheel. */
  lemma ReachableOnWheel(n: nat)
    ensures OnWheel(Iterate(Start, n))
  {
    IterateOnWheel(Start, n);
  }

  /** Ticks compose: m ticks then n ticks is m + n ticks. */
  lemma {:induction false} IterateAdd(c: Rgb, m: nat, n: nat)
    ensures Iterate(Iterate(c, m), n) == Iterate(c, m + n)
    decreases m
  {
    if m > 0 {
      IterateAdd(Next(c), m - 1, n);
    }
  }

  // The six edges of the wheel. On each, k ticks move one channel by 5 * k
  // until the tick that reaches the next corner.

  lemma {:induction false} RedToYellow(g: int, k: nat)
    requires 0 <= g && g + 5 * k <= 250
    ensures Iterate(Rgb(255, g, 0), k) == Rgb(255, g + 5 * k, 0)
    decreases k
  {
    if k > 0 {
      RedToYellow(g + 5, k - 1);
    }
  }

  lemma {:induction false} YellowToGreen(r: int, k: nat)
    requires 5 <= r - 5 * k && r <= 250
    ensures Iterate(Rgb(r, 255, 0), k) == Rgb(r - 5 * k, 255, 0)
    decreases k
  {
    if k > 0 {
      YellowToGreen(r - 5, k - 1);
    }
  }

  lemma {:induction false} GreenToCyan(b: int, k: nat)
    requires 5 <= b && b + 5 * k <= 250
    ensures Iterate(Rgb(0, 255, b), k) == Rgb(0, 255, b + 5 * k)
    decreases k
  {
    if k > 0 {
      GreenToCyan(b + 5, k - 1);
    }
  }

  lemma {:induction false} CyanToBlue(g: int, k: nat)
    requires 5 <= g - 5 * k && g <= 250
    ensures Iterate(Rgb(0, g, 255), k) == Rgb(0, g - 5 * k, 255)
    decreases k
  {
    if k > 0 {
      CyanToBlue(g - 5, k - 1);
    }
  }

  lemma {:induction false} BlueToMagenta(r: int, k: nat)
    requires 5 <= r && r + 5 * k <= 250
    ensures Iterate(Rgb(r, 0, 255), k) == Rgb(r + 5 * k, 0, 255)
    decreases k
  {
    if k > 0 {
      BlueToMagenta(r + 5, k - 1);
    }
  }

  lemma {:induction false} MagentaToRed(b: int, k: nat)
    requires 5 <= b - 5 * k && b <= 250
    ensures Iterate(Rgb(255, 0, b), k) == Rgb(255, 0, b - 5 * k)
    decreases k
  {
    if k > 0 {
      MagentaToRed(b - 5, k - 1);
    }
  }

  /** One edge followed by its corner tick: n ticks along, then one more. */
  lemma EdgeThenCorner(from: Rgb, n: nat)
    ensures Iterate(from, n + 1) == Next(Iterate(from, n))
  {
    IterateAdd(from, n, 1);
  }

  lemma RedLeg()
    ensures Iterate(Start, 51) == Rgb(250, 255, 0)
  {
    RedToYellow(0, 50);
    EdgeThenCorner(Start, 50);
  }

  lemma YellowLeg()
    ensures Iterate(Rgb(250, 255, 0), 50) == Rgb(0, 255, 5)
  {
    YellowToGreen(250, 49);
    EdgeThenCorner(Rgb(250, 255, 0), 49);
  }

  lemma GreenLeg()
    ensures Iterate(Rgb(0, 255, 5), 50) == Rgb(0, 250, 255)
  {
    GreenToCyan(5, 49);
    EdgeThenCorner(Rgb(0, 255, 5), 49);
  }

  lemma CyanLeg()
    ensures Iterate(Rgb(0, 250, 255), 50) == Rgb(5, 0, 255)
  {
    CyanToBlue(250, 49);
    EdgeThenCorner(Rgb(0, 250, 255), 49);
  }

  lemma BlueLeg()
    ensures Iterate(Rgb(5, 0, 255), 50) == Rgb(255, 0, 250)
  {
    BlueToMagenta(5, 49);
    EdgeThenCorner(Rgb(5, 0, 255), 49);
  }

  lemma MagentaLeg()
    ensures Iterate(Rgb(255, 0, 250), 50) == Start
  {
    MagentaToRed(250, 49);
    EdgeThenCorner(Rgb(255, 0, 250), 49);
  }

  // From each corner, the ticks left until red again.

  lemma FromBluish()
    ensures Iterate(Rgb(5, 0, 255), 100) == Start
  {
    BlueLeg();
    MagentaLeg();
    IterateAdd(Rgb(5, 0, 255), 50, 50);
  }

  lemma FromCyanish()
    ensures Iterate(Rgb(0, 250, 255), 150) == Start
  {
    CyanLeg();
    FromBluish();
    IterateAdd(Rgb(0, 250, 255), 50, 100);
  }

  lemma FromGreenish()
    ensures Iterate(Rgb(0, 255, 5), 200) == Start
  {
    GreenLeg();
    FromCyanish();
    IterateAdd(Rgb(0, 255, 5), 50, 150);
  }

  lemma FromYellowish()
    ensures Iterate(Rgb(250, 255, 0), 250) == Start
  {
    YellowLeg();
    FromGreenish();
    IterateAdd(Rgb(250, 255, 0), 50, 200);
  }

  /**
   * The spinner colour is periodic: after 301 ticks it is red again. The
   * corner ticks that move two channels skip pure yellow, green, cyan, blue
   * and magenta.
   */
  lemma FullCycle()
    ensures Iterate(Start, 301) == Start
  {
    RedLeg();
    FromYellowish();
    IterateAdd(Start, 51, 250);
  }

  /** Where the spinner is after each leg: the five corner ticks from red. */
  lemma Corners()
    ensures Iterate(Start, 51) == Rgb(250, 255, 0)
    ensures Iterate(Start, 101) == Rgb(0, 255, 5)
    ensures Iterate(Start, 151) == Rgb(0, 250, 255)
    ensures Iterate(Start, 201) == Rgb(5, 0, 255)
    ensures Iterate(Start, 251) == Rgb(255, 0, 250)
  {
    RedLeg();
    YellowLeg();
    IterateAdd(Start, 51, 50);
    GreenLeg();
    IterateAdd(Start, 101, 50);
    CyanLeg();
    IterateAdd(Start, 151, 50);
    BlueLeg();
    IterateAdd(Start, 201, 50);
  }

  /** 301 is the least period: the spinner is not red at any earlier tick. */
  lemma NotRedBefore301(n: nat)
    requires 0 < n < 301
    ensures Iterate(Start, n) != Start
  {
    Corners();
    if n <= 50 {
      RedToYellow(0, n);
    } else if n <= 100 {
      IterateAdd(Start, 51, n - 51);
      YellowToGreen(250, n - 51);
    } else if n <= 150 {
      IterateAdd(Start, 101, n - 101);
      GreenToCyan(5, n - 101);
    } else if n <= 200 {
      IterateAdd(Start, 151, n - 151);
      CyanToBlue(250, n - 151);
    } else if n <= 250 {
      IterateAdd(Start, 201, n - 201);
      BlueToMagenta(5, n - 201);
    } else {
      IterateAdd(Start, 251, n - 251);
      MagentaToRed(250, n - 251);
    }
  }
}
