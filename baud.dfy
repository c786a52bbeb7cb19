/** Baud-rate generator settings of the Xmega USART: the selector BSEL computed
    from the system clock, the baud rate, the scale exponent BSCALE and the
    clock-doubling flag, and the search for the smallest BSCALE whose BSEL fits
    the 12-bit BSEL field (uart.c: calc_bsel, calc_bscale, and the pair that
    init_uart / init_uart_levels hand to the hardware).

    The C code works in AVR `double`; this model works in exact reals and
    rounds with C's `round` (half away from zero). */
module UartBaud {

  import opened CTypes

  /** The BSEL register field is 12 bits wide: a selector qualifies when below this. */
  const BSEL_LIMIT: int := 4096

  /** The first exponent calc_bscale tries. */
  const BSCALE_FIRST: int := -7

  /** The bound of calc_bscale's loop (`bscale < 8`), and so its result when nothing qualifies. */
  const BSCALE_END: int := 8

  /** The largest shift `1 << k` that the 16-bit `int` of avr-gcc can hold without overflow. */
  const MAX_SHIFT: int := 14

  /** Oversampling factor N: `16 >> (clk2x & 1)`. */
  function Oversampling(clk2x: bv8): (n: int)
    ensures n == 16 || n == 8
    ensures n == 8 <==> clk2x & 1 == 1
  {
    (16 as bv8 >> ((clk2x & 1) as int)) as int
  }

  /** `1 << k` for a non-negative shift, as the real it is multiplied with. */
  function Pow2(k: nat): (r: real)
    ensures r >= 1.0
  {
    if k == 0 then 1.0 else 2.0 * Pow2(k - 1)
  }

  /** C's `round`: to the nearest integer, halfway cases away from zero. */
  function RoundHalfAway(x: real): (r: int)
    ensures -0.5 <= r as real - x <= 0.5
    ensures r as real - x == 0.5 ==> x >= 0.0
    ensures x - r as real == 0.5 ==> x < 0.0
  {
    if x >= 0.0 then (x + 0.5).Floor else -((-x + 0.5).Floor)
  }

  /** f_cpu / (N * baud), computed exactly. */
  function ClockPerSample(fcpu: u32, baud: u32, clk2x: bv8): real
    requires baud > 0
  {
    fcpu as real / Oversampling(clk2x) as real / baud as real
  }

  /** The unrounded BSEL of the formula in calc_bsel's documentation:
      (f_cpu/(N*baud) - 1) * 2^-scale for a negative scale,
      f_cpu/(N*baud*2^scale) - 1 otherwise. */
  function ExactBsel(fcpu: u32, baud: u32, scale: int, clk2x: bv8): real
    requires baud > 0 && -MAX_SHIFT <= scale <= MAX_SHIFT
  {
    var q := ClockPerSample(fcpu, baud, clk2x);
    if scale < 0 then (q - 1.0) * Pow2(-scale)
    else q / Pow2(scale) - 1.0
  }

  /** The rounded BSEL before its conversion to `uint16_t`. */
  function RoundedBsel(fcpu: u32, baud: u32, scale: int, clk2x: bv8): int
    requires baud > 0 && -MAX_SHIFT <= scale <= MAX_SHIFT
  {
    RoundHalfAway(ExactBsel(fcpu, baud, scale, clk2x))
  }

  /** The conversion of the rounded value to `uint16_t` is defined. */
  predicate BselInRange(fcpu: u32, baud: u32, scale: int, clk2x: bv8)
    requires baud > 0 && -MAX_SHIFT <= scale <= MAX_SHIFT
  {
    0 <= RoundedBsel(fcpu, baud, scale, clk2x) < 0x1_0000
  }

  /** calc_bsel (uart.c:182-192). */
  function CalcBsel(fcpu: u32, baud: u32, scale: int, clk2x: bv8): (r: u16)
    requires baud > 0 && -MAX_SHIFT <= scale <= MAX_SHIFT
    requires BselInRange(fcpu, baud, scale, clk2x)
    ensures -0.5 <= r as real - ExactBsel(fcpu, baud, scale, clk2x) <= 0.5
    ensures r as real - ExactBsel(fcpu, baud, scale, clk2x) == 0.5 ==> ExactBsel(fcpu, baud, scale, clk2x) >= 0.0
    ensures ExactBsel(fcpu, baud, scale, clk2x) - r as real != 0.5
  {
    RoundedBsel(fcpu, baud, scale, clk2x) as u16
  }

  /** The baud rate that the generator produces from a selector, by the
      formula of calc_bsel's documentation solved for f_baud. */
  function BaudOf(fcpu: u32, scale: int, clk2x: bv8, bsel: real): real
    requires -MAX_SHIFT <= scale <= MAX_SHIFT
    requires if scale < 0 then bsel / Pow2(-scale) + 1.0 != 0.0 else bsel + 1.0 != 0.0
  {
    var n := Oversampling(clk2x) as real;
    if scale < 0 then fcpu as real / n / (bsel / Pow2(-scale) + 1.0)
    else fcpu as real / n / Pow2(scale) / (bsel + 1.0)
  }

  /** The round trip for a negative exponent, over the reals. */
  lemma NegativeScaleInverse(f: real, n: real, bd: real, p: real, b: real)
    requires f > 0.0 && n > 0.0 && bd > 0.0 && p > 0.0
    requires b == (f / n / bd - 1.0) * p
    ensures b / p + 1.0 != 0.0 && f / n / (b / p + 1.0) == bd
  {
  }

  /** The round trip for a non-negative exponent, over the reals. */
  lemma NonNegativeScaleInverse(f: real, n: real, bd: real, p: real, b: real)
    requires f > 0.0 && n > 0.0 && bd > 0.0 && p > 0.0
    requires b == f / n / bd / p - 1.0
    ensures b + 1.0 != 0.0 && f / n / p / (b + 1.0) == bd
  {
  }

  /** The unrounded selector reproduces the requested baud rate exactly:
      ExactBsel is the inverse of the generator's formula. */
  lemma ExactBselRoundTrip(fcpu: u32, baud: u32, scale: int, clk2x: bv8)
    requires fcpu > 0 && baud > 0 && -MAX_SHIFT <= scale <= MAX_SHIFT
    ensures var b := ExactBsel(fcpu, baud, scale, clk2x);
            (if scale < 0 then b / Pow2(-scale) + 1.0 != 0.0 else b + 1.0 != 0.0)
            && BaudOf(fcpu, scale, clk2x, b) == baud as real
  {
    if scale < 0 {
      NegativeScaleRoundTrip(fcpu, baud, scale, clk2x);
    } else {
      NonNegativeScaleRoundTrip(fcpu, baud, scale, clk2x);
    }
  }

  lemma NegativeScaleRoundTrip(fcpu: u32, baud: u32, scale: int, clk2x: bv8)
    requires fcpu > 0 && baud > 0 && -MAX_SHIFT <= scale < 0
    ensures var b := ExactBsel(fcpu, baud, scale, clk2x);
            b / Pow2(-scale) + 1.0 != 0.0 && BaudOf(fcpu, scale, clk2x, b) == baud as real
  {
    var f, n, bd := fcpu as real, Oversampling(clk2x) as real, baud as real;
    var p := Pow2(-scale);
    var b := ExactBsel(fcpu, baud, scale, clk2x);
    NegativeScaleInverse(f, n, bd, p, b);
  }

  lemma NonNegativeScaleRoundTrip(fcpu: u32, baud: u32, scale: int, clk2x: bv8)
    requires fcpu > 0 && baud > 0 && 0 <= scale <= MAX_SHIFT
    ensures var b := ExactBsel(fcpu, baud, scale, clk2x);
            b + 1.0 != 0.0 && BaudOf(fcpu, scale, clk2x, b) == baud as real
  {
    var f, n, bd := fcpu as real, Oversampling(clk2x) as real, baud as real;
    var p := Pow2(scale);
    var b := ExactBsel(fcpu, baud, scale, clk2x);
    NonNegativeScaleInverse(f, n, bd, p, b);
  }

  /** BSEL fits in the 12-bit field. */
  predicate Qualifies(fcpu: u32, baud: u32, scale: int, clk2x: bv8)
    requires baud > 0 && -MAX_SHIFT <= scale <= MAX_SHIFT
  {
    RoundedBsel(fcpu, baud, scale, clk2x) < BSEL_LIMIT
  }

  /** Every call of calc_bsel made by calc_bscale's loop from `scale` on
      converts a value that fits `uint16_t`. */
  predicate SearchDefined(fcpu: u32, baud: u32, clk2x: bv8, scale: int)
    requires baud > 0 && BSCALE_FIRST <= scale <= BSCALE_END
    decreases BSCALE_END - scale
  {
    scale == BSCALE_END
    || (BselInRange(fcpu, baud, scale, clk2x)
        && (Qualifies(fcpu, baud, scale, clk2x) || SearchDefined(fcpu, baud, clk2x, scale + 1)))
  }

  /** The exponent calc_bscale's loop returns when started at `scale`. */
  function FirstFit(fcpu: u32, baud: u32, clk2x: bv8, scale: int): (r: int)
    requires baud > 0 && BSCALE_FIRST <= scale <= BSCALE_END
    ensures scale <= r <= BSCALE_END
    ensures forall t :: scale <= t < r ==> !Qualifies(fcpu, baud, t, clk2x)
    ensures r < BSCALE_END ==> Qualifies(fcpu, baud, r, clk2x)
    decreases BSCALE_END - scale
  {
    if scale == BSCALE_END then BSCALE_END
    else if Qualifies(fcpu, baud, scale, clk2x) then scale
    else FirstFit(fcpu, baud, clk2x, scale + 1)
  }

  /** calc_bscale (uart.c:205-215): the least exponent in [-7, 7] whose BSEL
      is below 4096, or 8 when there is none. Each BSEL is converted to
      `uint16_t` before the comparison, so the first one must be in range
      (and then, by SearchDefinedIff, so is every later one). */
  method CalcBscale(fcpu: u32, baud: u32, clk2x: bv8) returns (bscale: int)
    requires baud > 0 && BselInRange(fcpu, baud, BSCALE_FIRST, clk2x)
    ensures BSCALE_FIRST <= bscale <= BSCALE_END
    ensures forall t :: BSCALE_FIRST <= t < bscale ==> !Qualifies(fcpu, baud, t, clk2x)
    ensures bscale < BSCALE_END ==> Qualifies(fcpu, baud, bscale, clk2x)
    ensures bscale == FirstFit(fcpu, baud, clk2x, BSCALE_FIRST)
  {
    SearchDefinedIff(fcpu, baud, clk2x);
    bscale := BSCALE_FIRST;
    while bscale < BSCALE_END
      invariant BSCALE_FIRST <= bscale <= BSCALE_END
      invariant SearchDefined(fcpu, baud, clk2x, bscale)
      invariant forall t :: BSCALE_FIRST <= t < bscale ==> !Qualifies(fcpu, baud, t, clk2x)
      invariant FirstFit(fcpu, baud, clk2x, BSCALE_FIRST) == FirstFit(fcpu, baud, clk2x, bscale)
    {
      var bsel := CalcBsel(fcpu, baud, bscale, clk2x);
      if bsel as int < BSEL_LIMIT {
        return bscale;
      }
      bscale := bscale + 1;
    }
  }

  /** The whole search is defined exactly when its first conversion is:
      a BSEL at -7 that fits `uint16_t` and does not qualify is positive, and
      the BSELs after it, down to the one at -2 that qualifies, are smaller
      positive values. */
  lemma SearchDefinedIff(fcpu: u32, baud: u32, clk2x: bv8)
    requires baud > 0
    ensures SearchDefined(fcpu, baud, clk2x, BSCALE_FIRST) <==> BselInRange(fcpu, baud, BSCALE_FIRST, clk2x)
  {
    if BselInRange(fcpu, baud, BSCALE_FIRST, clk2x) && !Qualifies(fcpu, baud, BSCALE_FIRST, clk2x) {
      var d := ClockPerSample(fcpu, baud, clk2x) - 1.0;
      assert Pow2(7) == 128.0;
      assert ExactBsel(fcpu, baud, BSCALE_FIRST, clk2x) == d * 128.0;
      SearchDefinedFrom(fcpu, baud, clk2x, BSCALE_FIRST + 1);
    }
  }

  /** From -6 on, the search is defined when f_cpu/(N*baud) - 1 is positive
      and 128 times it rounds below 65536. */
  lemma {:induction false} SearchDefinedFrom(fcpu: u32, baud: u32, clk2x: bv8, scale: int)
    requires baud > 0 && BSCALE_FIRST <= scale <= -2
    requires 0.0 < ClockPerSample(fcpu, baud, clk2x) - 1.0
    requires (ClockPerSample(fcpu, baud, clk2x) - 1.0) * 128.0 < 65535.5
    ensures SearchDefined(fcpu, baud, clk2x, scale)
    decreases -scale
  {
    NegativeScaleInRange(fcpu, baud, clk2x, scale);
    if scale == -2 {
      assert Pow2(2) == 4.0;
      assert ExactBsel(fcpu, baud, scale, clk2x) < 2048.0;
    } else {
      SearchDefinedFrom(fcpu, baud, clk2x, scale + 1);
    }
  }

  lemma NegativeScaleInRange(fcpu: u32, baud: u32, clk2x: bv8, scale: int)
    requires baud > 0 && BSCALE_FIRST <= scale < 0
    requires 0.0 < ClockPerSample(fcpu, baud, clk2x) - 1.0
    requires (ClockPerSample(fcpu, baud, clk2x) - 1.0) * 128.0 < 65535.5
    ensures BselInRange(fcpu, baud, scale, clk2x)
  {
    var d := ClockPerSample(fcpu, baud, clk2x) - 1.0;
    var p := Pow2(-scale);
    Pow2Monotone(-scale, 7);
    assert Pow2(7) == 128.0;
    assert d * p <= d * 128.0;
    assert 0.0 < ExactBsel(fcpu, baud, scale, clk2x) < 65535.5;
  }

  /** calc_bscale with the comparison made on the rounded value before its
      conversion to `uint16_t`: defined for every baud rate, and the least
      exponent in [-7, 7] whose BSEL is below 4096, or 8 when there is none. */
  method CalcBscaleUnnarrowed(fcpu: u32, baud: u32, clk2x: bv8) returns (bscale: int)
    requires baud > 0
    ensures BSCALE_FIRST <= bscale <= BSCALE_END
    ensures forall t :: BSCALE_FIRST <= t < bscale ==> !Qualifies(fcpu, baud, t, clk2x)
    ensures bscale < BSCALE_END ==> Qualifies(fcpu, baud, bscale, clk2x)
    ensures bscale == FirstFit(fcpu, baud, clk2x, BSCALE_FIRST)
  {
    bscale := BSCALE_FIRST;
    while bscale < BSCALE_END
      invariant BSCALE_FIRST <= bscale <= BSCALE_END
      invariant forall t :: BSCALE_FIRST <= t < bscale ==> !Qualifies(fcpu, baud, t, clk2x)
      invariant FirstFit(fcpu, baud, clk2x, BSCALE_FIRST) == FirstFit(fcpu, baud, clk2x, bscale)
    {
      if RoundedBsel(fcpu, baud, bscale, clk2x) < BSEL_LIMIT {
        return bscale;
      }
      bscale := bscale + 1;
    }
  }

  /** At 32 MHz without doubling, the standard 1200 baud: the first BSEL of
      calc_bscale's loop, 213205, does not fit `uint16_t`, so its conversion
      is undefined, although the exponent -1 gives BSEL 3331, which fits the
      12-bit field. */
  lemma LowBaudFirstConversionUndefined()
    ensures !BselInRange(32000000, 1200, BSCALE_FIRST, 0)
    ensures FirstFit(32000000, 1200, 0, BSCALE_FIRST) == -1
    ensures BselInRange(32000000, 1200, -1, 0)
  {
    assert Oversampling(0) == 16;
    assert ClockPerSample(32000000, 1200, 0) == 5000.0 / 3.0;
    assert Pow2(1) == 2.0 && Pow2(7) == 128.0;
    assert ExactBsel(32000000, 1200, BSCALE_FIRST, 0) == 4997.0 / 3.0 * 128.0;
    assert ExactBsel(32000000, 1200, -1, 0) == 4997.0 / 3.0 * 2.0;
    forall t | BSCALE_FIRST <= t <= -2
      ensures !Qualifies(32000000, 1200, t, 0)
    {
      SlowBaudDoesNotQualify(t);
    }
  }

  lemma SlowBaudDoesNotQualify(scale: int)
    requires BSCALE_FIRST <= scale <= -2
    ensures !Qualifies(32000000, 1200, scale, 0)
  {
    assert Oversampling(0) == 16;
    var d := ClockPerSample(32000000, 1200, 0) - 1.0;
    assert d == 4997.0 / 3.0;
    Pow2Monotone(2, -scale);
    assert Pow2(2) == 4.0;
    var p := Pow2(-scale);
    assert d * p >= d * 4.0;
  }

  /** The exponent the search returns, when below 8, has a defined BSEL. */
  lemma {:induction false} FoundBselInRange(fcpu: u32, baud: u32, clk2x: bv8, scale: int)
    requires baud > 0 && BSCALE_FIRST <= scale <= BSCALE_END
    requires SearchDefined(fcpu, baud, clk2x, scale)
    requires FirstFit(fcpu, baud, clk2x, scale) < BSCALE_END
    ensures BselInRange(fcpu, baud, FirstFit(fcpu, baud, clk2x, scale), clk2x)
    decreases BSCALE_END - scale
  {
    if !Qualifies(fcpu, baud, scale, clk2x) {
      FoundBselInRange(fcpu, baud, clk2x, scale + 1);
    }
  }

  /** The exponent 8 that ends calc_bscale's loop is a value of the search
      compared before conversion (a 1-baud request on a 32 MHz clock), where
      the second calc_bsel gives 7812, a tie rounded up; the C code's
      conversions of the BSELs at -7 to 4 overflow for that input... */
  lemma FallbackReachable()
    ensures FirstFit(32000000, 1, 0, BSCALE_FIRST) == BSCALE_END
    ensures BselInRange(32000000, 1, BSCALE_END, 0)
    ensures CalcBsel(32000000, 1, BSCALE_END, 0) == 7812
  {
    assert Oversampling(0) == 16;
    assert Pow2(8) == 256.0;
    assert ExactBsel(32000000, 1, BSCALE_END, 0) == 7811.5;
    forall t | BSCALE_FIRST <= t < BSCALE_END
      ensures !Qualifies(32000000, 1, t, 0)
    {
      OneBaudNeverQualifies(t);
    }
  }

  lemma OneBaudNeverQualifies(scale: int)
    requires BSCALE_FIRST <= scale < BSCALE_END
    ensures !Qualifies(32000000, 1, scale, 0)
  {
    assert Oversampling(0) == 16;
    var q := ClockPerSample(32000000, 1, 0);
    assert q == 2000000.0;
    var x := ExactBsel(32000000, 1, scale, 0);
    if scale < 0 {
      assert x == 1999999.0 * Pow2(-scale);
    } else {
      Pow2Monotone(scale, 7);
      assert Pow2(7) == 128.0;
      var p := Pow2(scale);
      assert x == 2000000.0 / p - 1.0;
      assert 2000000.0 / p >= 2000000.0 / 128.0;
    }
  }

  lemma {:induction false} Pow2Monotone(j: nat, k: nat)
    requires j <= k
    ensures Pow2(j) <= Pow2(k)
    decreases k
  {
    if j < k {
      Pow2Monotone(j, k - 1);
    }
  }

  /** ...but not when the first conversion of calc_bscale's loop is defined:
      a BSEL at -7 below 65536 makes the BSEL at -2, 32 times smaller, less
      than 2048, so the search stops there at the latest, at an exponent
      whose BSEL converts without overflow. */
  lemma DefinedSearchStopsEarly(fcpu: u32, baud: u32, clk2x: bv8)
    requires baud > 0 && BselInRange(fcpu, baud, BSCALE_FIRST, clk2x)
    ensures FirstFit(fcpu, baud, clk2x, BSCALE_FIRST) <= -2
    ensures BselInRange(fcpu, baud, FirstFit(fcpu, baud, clk2x, BSCALE_FIRST), clk2x)
  {
    assert Qualifies(fcpu, baud, -2, clk2x) by {
      var q := ClockPerSample(fcpu, baud, clk2x);
      assert Pow2(7) == 128.0 && Pow2(2) == 4.0;
      var x7 := ExactBsel(fcpu, baud, -7, clk2x);
      var x2 := ExactBsel(fcpu, baud, -2, clk2x);
      assert x7 == (q - 1.0) * 128.0;
      assert x2 == (q - 1.0) * 4.0;
      assert x7 < 65535.5;
      assert x2 < 2048.0;
    }
    SearchDefinedIff(fcpu, baud, clk2x);
    FoundBselInRange(fcpu, baud, clk2x, BSCALE_FIRST);
  }

  /** The (BSCALE, BSEL) pair init_uart and init_uart_levels hand to the
      baud-rate generator (uart.c:238-239, uart.c:276-277), with the search
      of CalcBscaleUnnarrowed. The second calc_bsel converts the BSEL of the
      exponent found, also of the fallback 8, which must therefore fit
      `uint16_t`; DefinedSearchStopsEarly shows it does whenever the BSEL at
      -7 fits. */
  method BaudSettings(fcpu: u32, baud: u32, clk2x: bv8) returns (bscale: int, bsel: u16)
    requires baud > 0
    requires BselInRange(fcpu, baud, FirstFit(fcpu, baud, clk2x, BSCALE_FIRST), clk2x)
    ensures bscale == FirstFit(fcpu, baud, clk2x, BSCALE_FIRST)
    ensures bsel == CalcBsel(fcpu, baud, bscale, clk2x)
    ensures -0.5 <= bsel as real - ExactBsel(fcpu, baud, bscale, clk2x) <= 0.5
    ensures ExactBsel(fcpu, baud, bscale, clk2x) - bsel as real != 0.5
    ensures bscale < BSCALE_END ==> bsel as int < BSEL_LIMIT
  {
    bscale := CalcBscaleUnnarrowed(fcpu, baud, clk2x);
    bsel := CalcBsel(fcpu, baud, bscale, clk2x);
  }

  /** The settings for the banner port of the clock maker (32 MHz, 230400
      baud, no doubling, main.c:71): BSCALE -7 and BSEL 983. */
  lemma ClockmakerSettings()
    ensures SearchDefined(32000000, 230400, 0, BSCALE_FIRST)
    ensures FirstFit(32000000, 230400, 0, BSCALE_FIRST) == -7
    ensures CalcBsel(32000000, 230400, -7, 0) == 983
  {
    assert Oversampling(0) == 16;
    assert Pow2(7) == 128.0;
    var x := ExactBsel(32000000, 230400, -7, 0);
    assert x == (32000000.0 / 3686400.0 - 1.0) * 128.0;
    assert 982.5 < x < 983.5;
    assert RoundedBsel(32000000, 230400, -7, 0) == 983;
  }
}
