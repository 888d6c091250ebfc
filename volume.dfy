/*
 * The value normaliser shared by the three adapters: how a raw addon reading
 * becomes a volume in 0..100, and how a requested volume is rounded and
 * clamped before it is handed to a backend.
 */
module Volume {
  import opened JsValues

  /** The TypeError message of `set` for a volume that is not a finite number. */
  const NOT_A_NUMBER := "volume must be a number"

  /** A canonical volume: an integer percentage. */
  predicate IsVolume(v: int) {
    0 <= v <= 100
  }

  /** The reading of a raw addon value: a finite value up to 1 is a fraction
      and is scaled by 100, NaN reads as 0, then the value is rounded and
      clamped. `Number(raw)`, `v <= 1 ? v * 100`, `Math.round(v || 0)` and the
      clamp, as every adapter writes them. */
  function NormalizeRaw(raw: Num): (v: int)
    ensures IsVolume(v)
    ensures raw.Fin? && 0.0 <= raw.val <= 1.0 ==> raw.val * 100.0 - 1.0 / 2.0 < v as real <= raw.val * 100.0 + 1.0 / 2.0
    ensures raw.Fin? && 1.0 < raw.val <= 100.0 ==> raw.val - 1.0 / 2.0 < v as real <= raw.val + 1.0 / 2.0
    ensures raw.Fin? && raw.val < 0.0 ==> v == 0
    ensures raw.Fin? && raw.val > 100.0 ==> v == 100
    ensures raw.NaN? || raw.NegInf? ==> v == 0
    ensures raw.PosInf? ==> v == 100
  {
    var scaled := if IsFinite(raw) && raw.val <= 1.0 then Fin(raw.val * 100.0) else raw;
    Integral(ClampPercent(Round(OrZero(scaled))))
  }

  /** Math.max(0, Math.min(100, Math.round(x))): the value a `set` passes on.
      NaN is the only input that does not give an integer percentage. */
  function ClampRound(x: Num): (r: Num)
    ensures r.NaN? <==> x.NaN?
    ensures !x.NaN? ==> r.Fin? && IsInteger(r.val) && 0.0 <= r.val <= 100.0
    ensures x.Fin? && -1.0 / 2.0 <= x.val < 201.0 / 2.0 ==> x.val - 1.0 / 2.0 < r.val <= x.val + 1.0 / 2.0
    ensures (x.Fin? && x.val < -1.0 / 2.0) || x.NegInf? ==> r == Fin(0.0)
    ensures (x.Fin? && x.val >= 201.0 / 2.0) || x.PosInf? ==> r == Fin(100.0)
  {
    ClampPercent(Round(x))
  }

  /** The integer percentage a `set` of a number other than NaN passes on. */
  function SetValue(x: Num): (v: nat)
    requires !x.NaN?
    ensures IsVolume(v) && ClampRound(x) == Fin(v as real)
  {
    Integral(ClampRound(x))
  }

  /** Reading back a stored integer percentage gives it back, except 1: a
      reading of exactly 1 is taken for the fraction 1.0 and reads as 100. */
  lemma ReadStoredPercent(v: int)
    requires IsVolume(v)
    ensures NormalizeRaw(Fin(v as real)) == if v == 1 then 100 else v
  {
    if v == 0 {
      assert NormalizeRaw(Fin(0.0)) == 0;
    } else if v == 1 {
      assert NormalizeRaw(Fin(1.0)) == 100;
    }
  }

  /** `set(x)` followed by `get()` against an addon that stores what it is
      given: the rounded, clamped value comes back, except that 1 comes back as 100. */
  lemma SetThenGet(x: Num)
    requires !x.NaN?
    ensures var v := SetValue(x); NormalizeRaw(ClampRound(x)) == if v == 1 then 100 else v
  {
    ReadStoredPercent(SetValue(x));
  }

  /** A `set` is idempotent: passing on a value already passed on changes nothing. */
  lemma ClampRoundIdempotent(x: Num)
    ensures ClampRound(ClampRound(x)) == ClampRound(x)
  {
    if !x.NaN? {
      var k := SetValue(x);
      assert (k as real + 1.0 / 2.0).Floor == k;
      assert Round(Fin(k as real)) == Fin(k as real);
    }
  }

  /** Readings the adapters' tests state: 0.42, 0.55 and 0.73 read as 42, 55
      and 73, and 77 reads as 77. */
  lemma ReadExamples()
    ensures NormalizeRaw(Fin(0.42)) == 42
    ensures NormalizeRaw(Fin(0.55)) == 55
    ensures NormalizeRaw(Fin(0.73)) == 73
    ensures NormalizeRaw(Fin(77.0)) == 77
  {
  }

  /** Values the adapters' tests set: 33.9, 12.3 and 55.7 are set as 34, 12 and 56. */
  lemma SetRoundsExamples()
    ensures ClampRound(Fin(33.9)) == Fin(34.0)
    ensures ClampRound(Fin(12.3)) == Fin(12.0)
    ensures ClampRound(Fin(55.7)) == Fin(56.0)
  {
  }

  /** Values the adapters' tests set out of range: 200 is set as 100 and -5 as 0. */
  lemma SetClampsExamples()
    ensures ClampRound(Fin(200.0)) == Fin(100.0)
    ensures ClampRound(Fin(-5.0)) == Fin(0.0)
  {
  }
}
