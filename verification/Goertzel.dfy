/**
  The Goertzel single-bin estimate of internal/domain/features/goertzel.go and
  the discrete Fourier transform it computes. Amplitudes are squared, so no
  square root is needed; the cosine and sine of 2*pi*k/n are parameters about
  which only the Pythagorean identity is used.

  Products are kept inside small named functions so that the inductions below
  can treat them as symbols.
 */
module Goertzel {
  import opened Common

  function Times(x: real, y: real): real {
    x * y
  }

  function Square(x: real): real {
    Times(x, x)
  }

  /** Squared magnitude. */
  function Norm(re: real, im: real): real {
    Square(re) + Square(im)
  }

  /** Real part of (x - jy)(re + j im), and its imaginary part negated. */
  function Dot(x: real, y: real, re: real, im: real): real {
    x * re + y * im
  }

  function Cross(x: real, y: real, re: real, im: real): real {
    y * re - x * im
  }

  /** The angle (x,y) turned further by (c,s). */
  function TurnX(c: real, s: real, x: real, y: real): real {
    c * x - s * y
  }

  function TurnY(c: real, s: real, x: real, y: real): real {
    s * x + c * y
  }

  /** Adds v*x to an accumulator. */
  function Acc(sum: real, v: real, x: real): real {
    sum + v * x
  }

  /** cos(i*w) and sin(i*w) by angle addition from c = cos w and s = sin w. */
  function Turn(c: real, s: real, i: nat): (real, real) {
    if i == 0 then (1.0, 0.0)
    else
      var (x, y) := Turn(c, s, i - 1);
      (TurnX(c, s, x, y), TurnY(c, s, x, y))
  }

  function Cos(c: real, s: real, i: nat): real {
    Turn(c, s, i).0
  }

  function Sin(c: real, s: real, i: nat): real {
    Turn(c, s, i).1
  }

  /** Real part of sum x_i * exp(-j*w*i). */
  function DftRe(xs: seq<real>, c: real, s: real): real {
    if xs == [] then 0.0 else Acc(DftRe(xs[..|xs| - 1], c, s), xs[|xs| - 1], Cos(c, s, |xs| - 1))
  }

  /** Imaginary part, negated. */
  function DftIm(xs: seq<real>, c: real, s: real): real {
    if xs == [] then 0.0 else Acc(DftIm(xs[..|xs| - 1], c, s), xs[|xs| - 1], Sin(c, s, |xs| - 1))
  }

  /** |X|^2 for the bin at angle w. */
  function DftPower(xs: seq<real>, c: real, s: real): real {
    Norm(DftRe(xs, c, s), DftIm(xs, c, s))
  }

  function Next(v: real, coeff: real, s1: real, s2: real): real {
    v + coeff * s1 - s2
  }

  /** The recurrence s0 = x + coeff*s1 - s2 over all samples: (s1, s2). */
  function Recurrence(xs: seq<real>, coeff: real): (real, real) {
    if xs == [] then (0.0, 0.0)
    else
      var (s1, s2) := Recurrence(xs[..|xs| - 1], coeff);
      (Next(xs[|xs| - 1], coeff, s1, s2), s1)
  }

  function Power(s1: real, s2: real, coeff: real): real {
    s1 * s1 + s2 * s2 - coeff * s1 * s2
  }

  // ----- The power is the transform's -----

  lemma TurnKeepsNorm(c: real, s: real, x: real, y: real)
    requires Norm(c, s) == 1.0
    ensures Norm(TurnX(c, s, x, y), TurnY(c, s, x, y)) == Norm(x, y)
  {
    assert Norm(TurnX(c, s, x, y), TurnY(c, s, x, y)) == (c * c + s * s) * (x * x + y * y);
  }

  lemma UnitCircle(c: real, s: real)
    ensures Norm(c, s) == c * c + s * s
  {
  }

  lemma {:induction false} OnCircle(c: real, s: real, i: nat)
    requires Norm(c, s) == 1.0
    ensures Norm(Cos(c, s, i), Sin(c, s, i)) == 1.0
  {
    if i > 0 {
      hide Norm, TurnX, TurnY;
      OnCircle(c, s, i - 1);
      TurnKeepsNorm(c, s, Cos(c, s, i - 1), Sin(c, s, i - 1));
    }
  }

  /** The recurrence state (s1,s2), turned by one sample, is the transform re - j*im turned by the angle (x,y). */
  predicate Rotated(c: real, s: real, x: real, y: real, re: real, im: real, s1: real, s2: real) {
    c * s1 - s2 == Dot(x, y, re, im) && s * s1 == Cross(x, y, re, im)
  }

  lemma TurnedDot(c: real, s: real, x: real, y: real, re: real, im: real)
    ensures Dot(TurnX(c, s, x, y), TurnY(c, s, x, y), re, im) == c * Dot(x, y, re, im) - s * Cross(x, y, re, im)
    ensures Cross(TurnX(c, s, x, y), TurnY(c, s, x, y), re, im) == s * Dot(x, y, re, im) + c * Cross(x, y, re, im)
  {
  }

  lemma DotOfSum(x: real, y: real, re: real, im: real, v: real, u: real, w: real)
    ensures Dot(x, y, Acc(re, v, u), Acc(im, v, w)) == Dot(x, y, re, im) + v * Dot(x, y, u, w)
    ensures Cross(x, y, Acc(re, v, u), Acc(im, v, w)) == Cross(x, y, re, im) + v * Cross(x, y, u, w)
  {
  }

  lemma DotOfSelf(x: real, y: real)
    ensures Dot(x, y, x, y) == Norm(x, y) && Cross(x, y, x, y) == 0.0
  {
  }

  lemma NextTurned(c: real, s: real, s1: real, s2: real, v: real)
    requires c * c + s * s == 1.0
    ensures c * Next(v, 2.0 * c, s1, s2) - s1 == c * (c * s1 - s2) - s * (s * s1) + v * c
    ensures s * Next(v, 2.0 * c, s1, s2) == s * (c * s1 - s2) + c * (s * s1) + v * s
  {
    assert c * (c * s1 - s2) - s * (s * s1) == 2.0 * c * (c * s1) - (c * c + s * s) * s1 - c * s2;
  }

  /** One more sample v, seen at the angle (x,y). */
  lemma RotateStep(c: real, s: real, x: real, y: real, re: real, im: real, s1: real, s2: real, v: real)
    requires c * c + s * s == 1.0 && Norm(x, y) == 1.0
    requires Rotated(c, s, x, y, re, im, s1, s2)
    ensures Rotated(c, s, TurnX(c, s, x, y), TurnY(c, s, x, y),
                    Acc(re, v, x), Acc(im, v, y), Next(v, 2.0 * c, s1, s2), s1)
  {
    hide Norm, Dot, Cross, TurnX, TurnY, Acc, Next;
    TurnedDot(c, s, x, y, re, im);
    TurnedDot(c, s, x, y, x, y);
    DotOfSelf(x, y);
    DotOfSum(TurnX(c, s, x, y), TurnY(c, s, x, y), re, im, v, x, y);
    NextTurned(c, s, s1, s2, v);
  }

  lemma {:induction false} RecurrenceIsRotatedDft(xs: seq<real>, c: real, s: real)
    requires Norm(c, s) == 1.0
    ensures Rotated(c, s, Cos(c, s, |xs|), Sin(c, s, |xs|), DftRe(xs, c, s), DftIm(xs, c, s),
                    Recurrence(xs, 2.0 * c).0, Recurrence(xs, 2.0 * c).1)
  {
    if xs != [] {
      UnitCircle(c, s);
      hide Rotated, Norm, TurnX, TurnY, Acc, Next;
      var front := xs[..|xs| - 1];
      RecurrenceIsRotatedDft(front, c, s);
      OnCircle(c, s, |front|);
      var (s1, s2) := Recurrence(front, 2.0 * c);
      RotateStep(c, s, Cos(c, s, |front|), Sin(c, s, |front|), DftRe(front, c, s), DftIm(front, c, s), s1, s2,
        xs[|xs| - 1]);
    }
  }

  lemma DotNorm(x: real, y: real, re: real, im: real)
    requires Norm(x, y) == 1.0
    ensures Norm(Dot(x, y, re, im), Cross(x, y, re, im)) == Norm(re, im)
  {
    assert Norm(Dot(x, y, re, im), Cross(x, y, re, im)) == (x * x + y * y) * (re * re + im * im);
  }

  lemma PowerOfRotated(c: real, s: real, x: real, y: real, re: real, im: real, s1: real, s2: real)
    requires c * c + s * s == 1.0 && Norm(x, y) == 1.0
    requires Rotated(c, s, x, y, re, im, s1, s2)
    ensures Power(s1, s2, 2.0 * c) == Norm(re, im)
  {
    DotNorm(x, y, re, im);
    assert Norm(c * s1 - s2, s * s1) == (c * c + s * s) * (s1 * s1) - 2.0 * c * s1 * s2 + s2 * s2;
  }

  lemma NormNonNegative(re: real, im: real)
    ensures Norm(re, im) >= 0.0
  {
  }

  /**
    For any samples and any angle the recurrence's power is exactly the squared
    magnitude of the transform, so it is never negative.
   */
  lemma PowerIsDft(xs: seq<real>, c: real, s: real)
    requires Norm(c, s) == 1.0
    ensures Power(Recurrence(xs, 2.0 * c).0, Recurrence(xs, 2.0 * c).1, 2.0 * c) == DftPower(xs, c, s)
    ensures DftPower(xs, c, s) >= 0.0
  {
    UnitCircle(c, s);
    hide Rotated, Norm, Power, Recurrence, DftRe, DftIm;
    RecurrenceIsRotatedDft(xs, c, s);
    OnCircle(c, s, |xs|);
    var (s1, s2) := Recurrence(xs, 2.0 * c);
    PowerOfRotated(c, s, Cos(c, s, |xs|), Sin(c, s, |xs|), DftRe(xs, c, s), DftIm(xs, c, s), s1, s2);
    NormNonNegative(DftRe(xs, c, s), DftIm(xs, c, s));
  }

  // ----- Sums over one window -----

  function SumCosCos(c: real, s: real, n: nat): real {
    if n == 0 then 0.0 else Acc(SumCosCos(c, s, n - 1), Cos(c, s, n - 1), Cos(c, s, n - 1))
  }

  function SumSinSin(c: real, s: real, n: nat): real {
    if n == 0 then 0.0 else Acc(SumSinSin(c, s, n - 1), Sin(c, s, n - 1), Sin(c, s, n - 1))
  }

  function SumSinCos(c: real, s: real, n: nat): real {
    if n == 0 then 0.0 else Acc(SumSinCos(c, s, n - 1), Sin(c, s, n - 1), Cos(c, s, n - 1))
  }

  /** cos and sin of twice the angle (x,y). */
  function CosTwice(x: real, y: real): real {
    x * x - y * y
  }

  function SinTwice(x: real, y: real): real {
    2.0 * x * y
  }

  lemma DoubleTurn(c: real, s: real, x: real, y: real)
    ensures CosTwice(TurnX(c, s, x, y), TurnY(c, s, x, y))
            == TurnX(CosTwice(c, s), SinTwice(c, s), CosTwice(x, y), SinTwice(x, y))
    ensures SinTwice(TurnX(c, s, x, y), TurnY(c, s, x, y))
            == TurnY(CosTwice(c, s), SinTwice(c, s), CosTwice(x, y), SinTwice(x, y))
  {
  }

  /** Real and imaginary part of the sum of exp(2jwi) over i < n. */
  function SumCosTwice(c: real, s: real, n: nat): real {
    if n == 0 then 0.0 else SumCosTwice(c, s, n - 1) + CosTwice(Cos(c, s, n - 1), Sin(c, s, n - 1))
  }

  function SumSinTwice(c: real, s: real, n: nat): real {
    if n == 0 then 0.0 else SumSinTwice(c, s, n - 1) + SinTwice(Cos(c, s, n - 1), Sin(c, s, n - 1))
  }

  /** Turning the sum d + je by the ratio exchanges its first term 1 for the next term dn + j*en. */
  predicate Telescoped(c2: real, s2: real, d: real, e: real, dn: real, en: real) {
    TurnX(c2, s2, d, e) == d + dn - 1.0 && TurnY(c2, s2, d, e) == e + en
  }

  lemma TelescopeStep(c2: real, s2: real, d: real, e: real, dn: real, en: real)
    requires Telescoped(c2, s2, d, e, dn, en)
    ensures Telescoped(c2, s2, d + dn, e + en, TurnX(c2, s2, dn, en), TurnY(c2, s2, dn, en))
  {
    assert TurnX(c2, s2, d + dn, e + en) == TurnX(c2, s2, d, e) + TurnX(c2, s2, dn, en);
    assert TurnY(c2, s2, d + dn, e + en) == TurnY(c2, s2, d, e) + TurnY(c2, s2, dn, en);
  }

  lemma {:induction false} Telescopes(c: real, s: real, n: nat)
    ensures Telescoped(CosTwice(c, s), SinTwice(c, s), SumCosTwice(c, s, n), SumSinTwice(c, s, n),
                       CosTwice(Cos(c, s, n), Sin(c, s, n)), SinTwice(Cos(c, s, n), Sin(c, s, n)))
  {
    if n > 0 {
      hide Telescoped, CosTwice, SinTwice, TurnX, TurnY;
      Telescopes(c, s, n - 1);
      var x, y := Cos(c, s, n - 1), Sin(c, s, n - 1);
      DoubleTurn(c, s, x, y);
      TelescopeStep(CosTwice(c, s), SinTwice(c, s), SumCosTwice(c, s, n - 1), SumSinTwice(c, s, n - 1),
                    CosTwice(x, y), SinTwice(x, y));
    }
  }

  lemma CancelFactor(s: real, x: real)
    requires s != 0.0 && s * x == 0.0
    ensures x == 0.0
  {
  }

  lemma ClosedSumVanishes(c: real, s: real, d: real, e: real)
    requires Norm(c, s) == 1.0 && s != 0.0
    requires Telescoped(CosTwice(c, s), SinTwice(c, s), d, e, 1.0, 0.0)
    ensures d == 0.0 && e == 0.0
  {
    var f, g := s * d + c * e, c * d - s * e;
    assert s * f == 0.0 by {
      assert TurnX(CosTwice(c, s), SinTwice(c, s), d, e) == (c * c + s * s) * d - 2.0 * (s * f);
    }
    assert s * g == 0.0 by {
      assert TurnY(CosTwice(c, s), SinTwice(c, s), d, e) == (c * c + s * s) * e + 2.0 * (s * g);
    }
    CancelFactor(s, f);
    CancelFactor(s, g);
    assert (c * c + s * s) * d == c * g + s * f;
    assert (c * c + s * s) * e == c * f - s * g;
  }

  /** cos^2 + sin^2 = 1 and the double-angle identities, summed. */
  predicate DoubleAngleSums(cc: real, ss: real, sc: real, d: real, e: real, n: real) {
    cc + ss == n && cc - ss == d && 2.0 * sc == e
  }

  lemma DoubleAngleStep(cc: real, ss: real, sc: real, d: real, e: real, n: real, x: real, y: real)
    requires DoubleAngleSums(cc, ss, sc, d, e, n) && Norm(x, y) == 1.0
    ensures DoubleAngleSums(Acc(cc, x, x), Acc(ss, y, y), Acc(sc, y, x),
                            d + CosTwice(x, y), e + SinTwice(x, y), n + 1.0)
  {
  }

  lemma {:induction false} SumsFromTwice(c: real, s: real, n: nat)
    requires Norm(c, s) == 1.0
    ensures DoubleAngleSums(SumCosCos(c, s, n), SumSinSin(c, s, n), SumSinCos(c, s, n),
                            SumCosTwice(c, s, n), SumSinTwice(c, s, n), n as real)
  {
    if n > 0 {
      hide DoubleAngleSums, Norm, Acc, CosTwice, SinTwice, Turn;
      SumsFromTwice(c, s, n - 1);
      OnCircle(c, s, n - 1);
      DoubleAngleStep(SumCosCos(c, s, n - 1), SumSinSin(c, s, n - 1), SumSinCos(c, s, n - 1),
                      SumCosTwice(c, s, n - 1), SumSinTwice(c, s, n - 1), (n - 1) as real,
                      Cos(c, s, n - 1), Sin(c, s, n - 1));
      assert (n - 1) as real + 1.0 == n as real;
    }
  }

  /** Orthogonality over n samples of an angle that closes after n samples and is neither 0 nor pi. */
  lemma Orthogonal(c: real, s: real, n: nat)
    requires Norm(c, s) == 1.0 && s != 0.0 && Turn(c, s, n) == (1.0, 0.0)
    ensures SumCosCos(c, s, n) == n as real / 2.0 && SumSinSin(c, s, n) == n as real / 2.0 && SumSinCos(c, s, n) == 0.0
  {
    Telescopes(c, s, n);
    assert CosTwice(1.0, 0.0) == 1.0 && SinTwice(1.0, 0.0) == 0.0;
    hide Telescoped, CosTwice, SinTwice, Turn, SumCosTwice, SumSinTwice, SumCosCos, SumSinSin, SumSinCos;
    ClosedSumVanishes(c, s, SumCosTwice(c, s, n), SumSinTwice(c, s, n));
    SumsFromTwice(c, s, n);
  }

  // ----- A sine at its own bin -----

  /** A*sin(w*i + phi), where (x,y) is the angle w*i, cp = cos phi and sp = sin phi. */
  function Sample(a: real, cp: real, sp: real, x: real, y: real): real {
    a * (y * cp + x * sp)
  }

  function Sine(a: real, cp: real, sp: real, c: real, s: real, n: nat): seq<real> {
    seq(n, i requires 0 <= i => Sample(a, cp, sp, Cos(c, s, i), Sin(c, s, i)))
  }

  function Mix(a: real, cp: real, sp: real, m: real, p: real): real {
    a * (cp * m + sp * p)
  }

  lemma MixStep(a: real, cp: real, sp: real, m: real, p: real, x: real, y: real, v: real)
    ensures Acc(Mix(a, cp, sp, m, p), Sample(a, cp, sp, x, y), v) == Mix(a, cp, sp, Acc(m, y, v), Acc(p, x, v))
  {
  }

  lemma AccCommutes(sum: real, v: real, x: real)
    ensures Acc(sum, v, x) == Acc(sum, x, v)
  {
  }

  lemma {:induction false} SineDft(a: real, cp: real, sp: real, c: real, s: real, n: nat)
    ensures DftRe(Sine(a, cp, sp, c, s, n), c, s) == Mix(a, cp, sp, SumSinCos(c, s, n), SumCosCos(c, s, n))
    ensures DftIm(Sine(a, cp, sp, c, s, n), c, s) == Mix(a, cp, sp, SumSinSin(c, s, n), SumSinCos(c, s, n))
  {
    if n > 0 {
      hide Mix, Acc, Sample, Turn;
      var xs := Sine(a, cp, sp, c, s, n);
      SineDft(a, cp, sp, c, s, n - 1);
      assert xs[..n - 1] == Sine(a, cp, sp, c, s, n - 1);
      var x, y := Cos(c, s, n - 1), Sin(c, s, n - 1);
      MixStep(a, cp, sp, SumSinCos(c, s, n - 1), SumCosCos(c, s, n - 1), x, y, x);
      MixStep(a, cp, sp, SumSinSin(c, s, n - 1), SumSinCos(c, s, n - 1), x, y, y);
      AccCommutes(SumSinCos(c, s, n - 1), x, y);
    }
  }

  lemma SinePower(a: real, cp: real, sp: real, n: real)
    requires Norm(cp, sp) == 1.0
    ensures 4.0 * Norm(Mix(a, cp, sp, 0.0, n / 2.0), Mix(a, cp, sp, n / 2.0, 0.0)) == Square(n) * Square(a)
  {
    var t := n * a;
    assert 2.0 * Mix(a, cp, sp, 0.0, n / 2.0) == sp * t && 2.0 * Mix(a, cp, sp, n / 2.0, 0.0) == cp * t;
    assert Norm(sp * t, cp * t) == (cp * cp + sp * sp) * (t * t);
    assert t * t == Square(n) * Square(a);
  }

  /**
    A pure sine A*sin(w*i + phi) sampled over a whole number of periods (its
    angle closes after n samples and is strictly between the DC and Nyquist
    bins) has power exactly (n*A/2)^2 at its own bin, whatever its phase.
   */
  lemma SineAtOwnBin(a: real, cp: real, sp: real, c: real, s: real, n: nat)
    requires Norm(c, s) == 1.0 && Norm(cp, sp) == 1.0
    requires s != 0.0 && Turn(c, s, n) == (1.0, 0.0)
    ensures 4.0 * DftPower(Sine(a, cp, sp, c, s, n), c, s) == Square(n as real) * Square(a)
  {
    hide Norm, Mix, Sine, Turn, Square, SumCosCos, SumSinSin, SumSinCos, DftRe, DftIm;
    Orthogonal(c, s, n);
    SineDft(a, cp, sp, c, s, n);
    SinePower(a, cp, sp, n as real);
  }

  // ----- The estimate -----

  /** Round half away from zero, of a non-negative argument. */
  function Round(x: real): int {
    (x + 0.5).Floor
  }

  function Bin(n: nat, sampleRate: real, target: real): int
    requires sampleRate > 0.0
  {
    Round(n as real * target / sampleRate)
  }

  predicate Degenerate(n: nat, sampleRate: real, target: real) {
    n < 2 || sampleRate <= 0.0 || target < 0.0 || target > sampleRate / 2.0
  }

  lemma TimesPositive(x: real, y: real)
    requires x > 0.0 && y > 0.0
    ensures Times(x, y) > 0.0
  {
  }

  lemma SquarePositive(x: real)
    requires x > 0.0
    ensures Square(x) > 0.0
  {
    hide Times;
    TimesPositive(x, x);
  }

  /** Squared amplitude of a bin: the DC and Nyquist bins are not doubled. */
  function SquaredAmplitude(power: real, n: nat, k: int): real
    requires n > 0
  {
    SquarePositive(n as real);
    var doubled := 4.0 * power / Square(n as real);
    if k == 0 || 2 * k == n then doubled / 4.0 else doubled
  }

  /** The cosine and sine of 2*pi*k/n. */
  datatype Trig = Trig(cos: (int, int) -> real, sin: (int, int) -> real)

  ghost predicate Pythagorean(t: Trig) {
    forall k: int, n: int :: Norm(t.cos(k, n), t.sin(k, n)) == 1.0
  }

  lemma QuotientOfProduct(p: real, d: real, q: real)
    requires d > 0.0 && p == d * q
    ensures p / d == q
  {
  }

  /**
    The values are those of points on a circle: n turns by k/n of it close, and
    between 0 and a half the sine is not 0.
   */
  ghost predicate Circular(t: Trig) {
    && Pythagorean(t)
    && (forall k: int, n: nat :: n > 0 ==> Turn(t.cos(k, n), t.sin(k, n), n) == (1.0, 0.0))
    && (forall k: int, n: int :: 0 < 2 * k < n ==> t.sin(k, n) != 0.0)
  }

  /**
    The samples are a sine of amplitude `a`, at any phase, whose frequency is
    the bin nearest `target`, strictly between DC and Nyquist.
   */
  ghost predicate SineAtBin(xs: seq<real>, sampleRate: real, target: real, t: Trig, a: real, cp: real, sp: real) {
    && Circular(t) && Norm(cp, sp) == 1.0 && !Degenerate(|xs|, sampleRate, target)
    && var k, n := Bin(|xs|, sampleRate, target), |xs|;
       0 < 2 * k < n && xs == Sine(a, cp, sp, t.cos(k, n), t.sin(k, n), n)
  }

  /** So the estimate for a sine at its own bin is A^2: the amplitude is A. */
  lemma AmplitudeIsA(xs: seq<real>, sampleRate: real, target: real, t: Trig, a: real, cp: real, sp: real)
    requires SineAtBin(xs, sampleRate, target, t, a, cp, sp)
    ensures var k, n := Bin(|xs|, sampleRate, target), |xs|;
            SquaredAmplitude(DftPower(xs, t.cos(k, n), t.sin(k, n)), n, k) == Square(a)
  {
    var k, n := Bin(|xs|, sampleRate, target), |xs|;
    SineAtOwnBin(a, cp, sp, t.cos(k, n), t.sin(k, n), n);
    SquarePositive(n as real);
    hide Square, DftPower, Norm, Turn, Bin, Sine;
    QuotientOfProduct(4.0 * DftPower(xs, t.cos(k, n), t.sin(k, n)), Square(n as real), Square(a));
  }

  /**
    The squared amplitude of the bin nearest `target`; 0 for degenerate inputs.
    For a sine at that bin this is the square of its amplitude.
   */
  method Goertzel(xs: seq<real>, sampleRate: real, target: real, t: Trig) returns (squared: real)
    requires Pythagorean(t)
    ensures Degenerate(|xs|, sampleRate, target) ==> squared == 0.0
    ensures !Degenerate(|xs|, sampleRate, target) ==>
              var k := Bin(|xs|, sampleRate, target);
              squared == SquaredAmplitude(DftPower(xs, t.cos(k, |xs|), t.sin(k, |xs|)), |xs|, k)
    ensures forall a: real, cp: real, sp: real ::
              SineAtBin(xs, sampleRate, target, t, a, cp, sp) ==> squared == Square(a)
  {
    hide SquaredAmplitude, DftPower, Norm, Square, Sine, Turn;
    var n := |xs|;
    if n < 2 || sampleRate <= 0.0 || target < 0.0 || target > sampleRate / 2.0 {
      return 0.0;
    }
    var k := Bin(n, sampleRate, target);
    var coeff := 2.0 * t.cos(k, n);
    var s1, s2 := RunRecurrence(xs, coeff);
    var power := Power(s1, s2, coeff);
    PowerIsDft(xs, t.cos(k, n), t.sin(k, n));
    if power < 0.0 {
      power := 0.0;
    }
    squared := SquaredAmplitude(power, n, k);
    forall a: real, cp: real, sp: real | SineAtBin(xs, sampleRate, target, t, a, cp, sp)
      ensures squared == Square(a)
    {
      AmplitudeIsA(xs, sampleRate, target, t, a, cp, sp);
    }
  }

  method RunRecurrence(xs: seq<real>, coeff: real) returns (s1: real, s2: real)
    ensures (s1, s2) == Recurrence(xs, coeff)
  {
    var s0 := 0.0;
    s1, s2 := 0.0, 0.0;
    for i := 0 to |xs|
      invariant (s1, s2) == Recurrence(xs[..i], coeff)
    {
      assert xs[..i + 1][..i] == xs[..i];
      s0 := xs[i] + coeff * s1 - s2;
      assert s0 == Next(xs[i], coeff, s1, s2);
      s2 := s1;
      s1 := s0;
    }
    assert xs[..|xs|] == xs;
  }

  lemma HalfBin(q: real, n: nat)
    requires 0.0 <= q <= n as real / 2.0
    ensures 0 <= Round(q) && 2 * Round(q) <= n + 1
    ensures 2 * Round(q) == n + 1 <==> n % 2 == 1 && q == n as real / 2.0
  {
    if n % 2 == 1 && q == n as real / 2.0 {
      assert q + 0.5 == ((n + 1) / 2) as real;
    }
  }

  /**
    The nearest bin is one of the lower half of the spectrum, except that an odd
    window asked for exactly the Nyquist frequency rounds up past it.
   */
  lemma BinRange(n: nat, sampleRate: real, target: real)
    requires !Degenerate(n, sampleRate, target)
    ensures var k := Bin(n, sampleRate, target);
            && 0 <= 2 * k <= n + 1
            && (2 * k == n + 1 <==> n % 2 == 1 && target == sampleRate / 2.0)
  {
    var q, m := n as real * target / sampleRate, n as real;
    assert q * sampleRate == m * target;
    assert m * target <= m * (sampleRate / 2.0);
    assert q * sampleRate <= m / 2.0 * sampleRate;
    assert 0.0 <= q <= m / 2.0;
    assert q == m / 2.0 <==> target == sampleRate / 2.0;
    hide Round;
    HalfBin(q, n);
  }

  /** The bin is the nearest one: no further than half a bin from the target. */
  lemma BinIsNearest(n: nat, sampleRate: real, target: real)
    requires sampleRate > 0.0
    ensures var at := n as real * target / sampleRate; Abs(Bin(n, sampleRate, target) as real - at) <= 0.5
  {
    var at := n as real * target / sampleRate;
    assert at + 0.5 - 1.0 < Round(at) as real <= at + 0.5;
  }

  // ----- The two bins that are not doubled -----

  /** `n` samples of a constant (c = 1) or of the fastest alternation there is (c = -1). */
  function Edge(a: real, c: real, n: nat): (xs: seq<real>)
    ensures |xs| == n
  {
    if n == 0 then [] else Edge(a, c, n - 1) + [Times(a, Cos(c, 0.0, n - 1))]
  }

  lemma {:induction false} EdgeTurns(c: real, i: nat)
    requires c == 1.0 || c == -1.0
    ensures Sin(c, 0.0, i) == 0.0 && (Cos(c, 0.0, i) == 1.0 || Cos(c, 0.0, i) == -1.0)
  {
    if i > 0 {
      EdgeTurns(c, i - 1);
    }
  }

  lemma {:induction false} EdgeDft(a: real, c: real, n: nat)
    requires c == 1.0 || c == -1.0
    ensures DftRe(Edge(a, c, n), c, 0.0) == Times(n as real, a) && DftIm(Edge(a, c, n), c, 0.0) == 0.0
  {
    OneMoreTime(a, n + 1);
    if n == 0 {
      assert Edge(a, c, 0) == [];
    } else {
      hide Edge, DftRe, DftIm, Turn, Acc, Times;
      EdgeDft(a, c, n - 1);
      EdgeTurns(c, n - 1);
      LastOfEdge(a, c, n);
      EdgeStep(DftRe(Edge(a, c, n - 1), c, 0.0), a, Cos(c, 0.0, n - 1));
      AccNothing(Times(a, Cos(c, 0.0, n - 1)));
      OneMoreTime(a, n);
    }
  }

  lemma LastOfEdge(a: real, c: real, n: nat)
    requires n > 0
    ensures var x, front := Cos(c, 0.0, n - 1), Edge(a, c, n - 1);
            && DftRe(Edge(a, c, n), c, 0.0) == Acc(DftRe(front, c, 0.0), Times(a, x), x)
            && DftIm(Edge(a, c, n), c, 0.0) == Acc(DftIm(front, c, 0.0), Times(a, x), Sin(c, 0.0, n - 1))
  {
    hide Turn, Acc, Times;
    assert Edge(a, c, n)[..n - 1] == Edge(a, c, n - 1);
  }

  lemma AccNothing(v: real)
    ensures Acc(0.0, v, 0.0) == 0.0
  {
  }

  lemma OneMoreTime(a: real, n: nat)
    requires n > 0
    ensures Times(0.0, a) == 0.0 && Times(n as real, a) == Times((n - 1) as real, a) + a
  {
  }

  lemma EdgeStep(sum: real, a: real, x: real)
    requires x == 1.0 || x == -1.0
    ensures Acc(sum, Times(a, x), x) == sum + a
  {
  }

  /** At DC and at Nyquist the estimate of such a signal is its squared amplitude as well. */
  lemma EdgeAmplitude(a: real, n: nat, k: int)
    requires n > 0 && (k == 0 || 2 * k == n)
    ensures var c := if k == 0 then 1.0 else -1.0;
            SquaredAmplitude(DftPower(Edge(a, c, n), c, 0.0), n, k) == Square(a)
  {
    hide Edge, DftRe, DftIm, Square, Times, Turn;
    var c := if k == 0 then 1.0 else -1.0;
    EdgeDft(a, c, n);
    SquarePositive(n as real);
    SquareOfProduct(n as real, a);
    FourTimes(DftPower(Edge(a, c, n), c, 0.0), Square(n as real), Square(a));
  }

  lemma SquareOfProduct(n: real, a: real)
    ensures Norm(Times(n, a), 0.0) == Square(n) * Square(a)
  {
    assert (n * a) * (n * a) == (n * n) * (a * a);
  }

  lemma FourTimes(power: real, d: real, q: real)
    requires d > 0.0 && power == d * q
    ensures 4.0 * power / d / 4.0 == q
  {
    QuotientOfProduct(4.0 * power, d, 4.0 * q);
  }
}
