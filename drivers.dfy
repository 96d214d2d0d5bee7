/** The reference-voltage calculation of the four driver panels: their slider
    ranges and defaults, the A4988 resistor labels, the per-driver formula
    and the text each panel displays. */
module Drivers {
  import opened Decimal

  datatype Driver = A4988 | DRV8825 | TMC2208 | TMC2209

  /** The range of a tk.Scale: `from_`, `to` and `resolution`. */
  datatype Slider = Slider(lo: int, hi: int, resolution: nat)

  /** The values a slider can emit: in range, on a multiple of its resolution. */
  predicate OnSlider(s: Slider, v: int)
  {
    s.lo <= v <= s.hi && s.resolution > 0 && (v - s.lo) % s.resolution == 0
  }

  /** The max-current-per-phase slider of each panel, in mA. */
  function CurrentSlider(d: Driver): Slider
  {
    match d
    case A4988 => Slider(0, 2000, 100)
    case DRV8825 => Slider(0, 2500, 100)
    case TMC2208 => Slider(0, 1200, 100)
    case TMC2209 => Slider(0, 2000, 100)
  }

  /** The safety-margin slider all four panels share, in percent. */
  const MarginSlider := Slider(0, 50, 1)

  /** What every panel's constructor sets its sliders to. */
  const DefaultCurrent := 1000
  const DefaultMargin := 20

  /** The A4988 resistor dropdown: its labels, and the unit they carry. */
  const ResistorOptions: seq<string> := ["0.05 Ω", "0.1 Ω", "0.068 Ω"]
  const ResistorUnit := " Ω"

  /** The sense-resistor values, in ohms, the labels stand for. */
  const ResistorChoices: seq<real> := [0.05, 0.1, 0.068]

  /** `float(option.replace(" Ω", ""))`: None where `float` raises. */
  function ResistorOhms(option: string): Option<real>
  {
    ParseDecimal(Replace(option, ResistorUnit, ""))
  }

  /** The phase current, in A, after the safety margin is taken off. */
  function EffectiveCurrent(mA: int, margin: int): real
  {
    mA as real / 1000.0 * (1.0 - margin as real / 100.0)
  }

  /** The reference voltage the panel of `d` computes; `ohms`, the sense
      resistor, is read by the A4988 panel only. */
  function ReferenceVoltage(d: Driver, mA: int, margin: int, ohms: real): real
  {
    var amps := EffectiveCurrent(mA, margin);
    match d
    case A4988 => amps * 8.0 * ohms
    case DRV8825 => amps / 2.0
    case TMC2208 => amps * 1.41
    case TMC2209 => amps * 1.41
  }

  /** The text the panel of `d` puts in its result label. */
  function DisplayText(d: Driver, vref: real): string
  {
    match d
    case A4988 => Fixed2(vref) + " V"
    case DRV8825 => Fixed2(vref) + " V"
    case TMC2208 => "Reference Voltage: " + Fixed2(vref) + " V"
    case TMC2209 => "Reference Voltage: " + Fixed2(vref) + " V"
  }

  /** What one run of the panel's `calculate_reference_voltage` writes into
      the result label; None where it raises before writing (an A4988
      resistor label `float` cannot read). */
  function CalculationText(d: Driver, mA: int, margin: int, resistorLabel: string): (r: Option<string>)
    ensures r.None? <==> d == A4988 && ResistorOhms(resistorLabel).None?
  {
    if d == A4988 then
      match ResistorOhms(resistorLabel)
      case None => None
      case Some(ohms) => Some(DisplayText(d, ReferenceVoltage(d, mA, margin, ohms)))
    else Some(DisplayText(d, ReferenceVoltage(d, mA, margin, 0.0)))
  }

  // ---------------------------------------------------------------------
  // Inverse of the formulas: the current each chip limits to for a given
  // Vref; and reading the voltage back from the displayed text.
  // ---------------------------------------------------------------------

  /** The phase-current limit, in A, that reference voltage `vref` sets on
      the driver: A4988 `Vref / (8 Rs)`, DRV8825 `2 Vref`, TMC `Vref / 1.41`. */
  function CurrentLimit(d: Driver, vref: real, ohms: real): real
    requires d == A4988 ==> ohms != 0.0
  {
    match d
    case A4988 => vref / (8.0 * ohms)
    case DRV8825 => vref * 2.0
    case TMC2208 => vref / 1.41
    case TMC2209 => vref / 1.41
  }

  /** The voltage a reader takes from a panel's result text. */
  function ShownVoltage(d: Driver, text: string): Option<real>
  {
    var prefix := if d == TMC2208 || d == TMC2209 then "Reference Voltage: " else "";
    if |text| >= |prefix| + 2 && text[..|prefix|] == prefix && text[|text| - 2..] == " V"
    then ParseDecimal(text[|prefix|..|text| - 2])
    else None
  }

  /** The largest voltage each panel can show on its slider domain. */
  function MaxVoltage(d: Driver): real
  {
    match d
    case A4988 => 1.6
    case DRV8825 => 1.25
    case TMC2208 => 1.692
    case TMC2209 => 2.82
  }

  // ---------------------------------------------------------------------
  // Properties
  // ---------------------------------------------------------------------

  /** The safety margin only ever takes current off, at most half of it. */
  lemma EffectiveCurrentBounds(mA: int, margin: int)
    requires mA >= 0 && OnSlider(MarginSlider, margin)
    ensures mA as real / 2000.0 <= EffectiveCurrent(mA, margin) <= mA as real / 1000.0
    ensures margin == 0 ==> EffectiveCurrent(mA, margin) == mA as real / 1000.0
  {
    var f := 1.0 - margin as real / 100.0;
    assert 0.5 <= f <= 1.0;
    MulBetween(mA as real / 1000.0, f, 0.5, 1.0);
  }

  lemma MulBetween(a: real, f: real, lo: real, hi: real)
    requires a >= 0.0 && lo <= f <= hi
    ensures a * lo <= a * f <= a * hi
  {
  }

  /** The reference voltage is the effective current the driver limits to:
      applying the driver's own current law to it gives the effective current
      back. */
  lemma CurrentLimitInverts(d: Driver, mA: int, margin: int, ohms: real)
    requires d == A4988 ==> ohms != 0.0
    ensures CurrentLimit(d, ReferenceVoltage(d, mA, margin, ohms), ohms) == EffectiveCurrent(mA, margin)
  {
    var amps := EffectiveCurrent(mA, margin);
    if d == A4988 {
      assert amps * 8.0 * ohms / (8.0 * ohms) == amps;
    }
  }

  /** TMC2208 and TMC2209 compute the same voltage from the same inputs. */
  lemma TmcPanelsAgree(mA: int, margin: int, ohms: real)
    ensures ReferenceVoltage(TMC2208, mA, margin, ohms) == ReferenceVoltage(TMC2209, mA, margin, ohms)
    ensures DisplayText(TMC2208, ReferenceVoltage(TMC2208, mA, margin, ohms))
         == DisplayText(TMC2209, ReferenceVoltage(TMC2209, mA, margin, ohms))
  {
  }

  /** Only the A4988 panel reads the resistor. */
  lemma ResistorOnlyForA4988(d: Driver, mA: int, margin: int, ohms1: real, ohms2: real)
    requires d != A4988
    ensures ReferenceVoltage(d, mA, margin, ohms1) == ReferenceVoltage(d, mA, margin, ohms2)
  {
  }

  /** More current never lowers the voltage. */
  lemma MonotoneInCurrent(d: Driver, mA1: int, mA2: int, margin: int, ohms: real)
    requires mA1 <= mA2 && margin <= 100 && ohms >= 0.0
    ensures ReferenceVoltage(d, mA1, margin, ohms) <= ReferenceVoltage(d, mA2, margin, ohms)
  {
    var f := 1.0 - margin as real / 100.0;
    assert EffectiveCurrent(mA1, margin) <= EffectiveCurrent(mA2, margin) by {
      MulLe(mA1 as real / 1000.0, mA2 as real / 1000.0, f);
    }
    MulLe(EffectiveCurrent(mA1, margin), EffectiveCurrent(mA2, margin), 8.0 * ohms);
  }

  /** A larger safety margin never raises the voltage. */
  lemma AntitoneInMargin(d: Driver, mA: int, margin1: int, margin2: int, ohms: real)
    requires mA >= 0 && margin1 <= margin2 && ohms >= 0.0
    ensures ReferenceVoltage(d, mA, margin2, ohms) <= ReferenceVoltage(d, mA, margin1, ohms)
  {
    var a := mA as real / 1000.0;
    MulLe(1.0 - margin2 as real / 100.0, 1.0 - margin1 as real / 100.0, a);
    assert EffectiveCurrent(mA, margin2) <= EffectiveCurrent(mA, margin1);
    MulLe(EffectiveCurrent(mA, margin2), EffectiveCurrent(mA, margin1), 8.0 * ohms);
  }

  /** On the A4988 a larger sense resistor never lowers the voltage. */
  lemma A4988MonotoneInResistor(mA: int, margin: int, ohms1: real, ohms2: real)
    requires mA >= 0 && margin <= 100 && ohms1 <= ohms2
    ensures ReferenceVoltage(A4988, mA, margin, ohms1) <= ReferenceVoltage(A4988, mA, margin, ohms2)
  {
    var amps := EffectiveCurrent(mA, margin);
    MulLe(mA as real / 1000.0 * 0.0, mA as real / 1000.0, 1.0 - margin as real / 100.0);
    assert amps >= 0.0;
    MulLe(ohms1, ohms2, amps * 8.0);
  }

  lemma MulLe(a: real, b: real, k: real)
    requires a <= b && k >= 0.0
    ensures a * k <= b * k && k * a <= k * b
  {
  }

  /** No current, no voltage; and the voltage is never negative on the
      slider domains. */
  lemma VoltageNonNegative(d: Driver, mA: int, margin: int, ohms: real)
    requires mA >= 0 && margin <= 100 && ohms >= 0.0
    ensures ReferenceVoltage(d, mA, margin, ohms) >= 0.0
    ensures mA == 0 ==> ReferenceVoltage(d, mA, margin, ohms) == 0.0
  {
    MonotoneInCurrent(d, 0, mA, margin, ohms);
  }

  /** A safety margin of 100 % leaves nothing, whatever the current. */
  lemma FullMarginGivesZero(d: Driver, mA: int, ohms: real)
    ensures ReferenceVoltage(d, mA, 100, ohms) == 0.0
  {
  }

  /** Every choice in the resistor dropdown parses to its value in ohms. */
  lemma ResistorOptionsParse()
    ensures |ResistorOptions| == |ResistorChoices| == 3
    ensures forall i :: 0 <= i < 3 ==> ResistorOhms(ResistorOptions[i]) == Some(ResistorChoices[i])
  {
    forall i | 0 <= i < 3
      ensures ResistorOhms(ResistorOptions[i]) == Some(ResistorChoices[i])
    {
      if i == 0 {
        FirstOptionParses();
      } else if i == 1 {
        SecondOptionParses();
      } else {
        ThirdOptionParses();
      }
    }
  }

  lemma FirstOptionParses()
    ensures ResistorOhms(ResistorOptions[0]) == Some(0.05)
  {
    assert NaturalValue("0") == 0 by { assert "0"[..0] == []; }
    assert NaturalValue("05") == 5 by { assert "05"[..1] == "0"; }
    assert Pow10(2) == 100;
    assert ResistorOptions[0] == "0.05" + ResistorUnit;
    LabelParses("0.05", "0", "05", 0.05);
  }

  lemma SecondOptionParses()
    ensures ResistorOhms(ResistorOptions[1]) == Some(0.1)
  {
    assert NaturalValue("0") == 0 by { assert "0"[..0] == []; }
    assert NaturalValue("1") == 1 by { assert "1"[..0] == []; }
    assert Pow10(1) == 10;
    assert ResistorOptions[1] == "0.1" + ResistorUnit;
    LabelParses("0.1", "0", "1", 0.1);
  }

  lemma ThirdOptionParses()
    ensures ResistorOhms(ResistorOptions[2]) == Some(0.068)
  {
    assert NaturalValue("0") == 0 by { assert "0"[..0] == []; }
    assert NaturalValue("068") == 68 by {
      assert "068"[..2] == "06" && "06"[..1] == "0";
    }
    assert Pow10(3) == 1000;
    assert ResistorOptions[2] == "0.068" + ResistorUnit;
    LabelParses("0.068", "0", "068", 0.068);
  }

  /** The label `whole.frac Ω` stands for `whole.frac` ohms. */
  lemma LabelParses(number: string, whole: string, frac: string, ohms: real)
    requires number == whole + "." + frac
    requires AllDigits(whole) && AllDigits(frac) && |whole| + |frac| > 0
    requires DecimalValue(whole, frac) == ohms
    ensures ResistorOhms(number + ResistorUnit) == Some(ohms)
  {
    assert forall i :: 0 <= i < |number| ==> number[i] != ' ' by {
      forall i | 0 <= i < |number| ensures number[i] != ' ' {
        if i < |whole| { assert number[i] == whole[i]; }
        else if i > |whole| { assert number[i] == frac[i - |whole| - 1]; }
      }
    }
    ReplaceSuffix(number, ResistorUnit, "");
    assert number + "" == number;
    ParseDigitsDotDigits(whole, frac);
  }

  /** The defaults sit on every panel's sliders (TMC2208's 0..1200 included),
      and give 0.32 V, 0.40 V and 1.128 V. */
  lemma DefaultsOnSliders(d: Driver)
    ensures OnSlider(CurrentSlider(d), DefaultCurrent) && OnSlider(MarginSlider, DefaultMargin)
    ensures ReferenceVoltage(A4988, DefaultCurrent, DefaultMargin, ResistorChoices[0]) == 0.32
    ensures ReferenceVoltage(DRV8825, DefaultCurrent, DefaultMargin, 0.0) == 0.4
    ensures ReferenceVoltage(TMC2208, DefaultCurrent, DefaultMargin, 0.0) == 1.128
    ensures ReferenceVoltage(TMC2209, DefaultCurrent, DefaultMargin, 0.0) == 1.128
  {
  }

  /** The slider maxima bound the voltage, and the bound is reached at full
      current, no margin and (A4988) the 0.1 Ω resistor. */
  lemma VoltageUpperBound(d: Driver, mA: int, margin: int, ohms: real)
    requires OnSlider(CurrentSlider(d), mA) && OnSlider(MarginSlider, margin)
    requires d == A4988 ==> ohms in ResistorChoices
    ensures ReferenceVoltage(d, mA, margin, ohms) <= MaxVoltage(d)
    ensures ReferenceVoltage(d, CurrentSlider(d).hi, 0, 0.1) == MaxVoltage(d)
  {
    var top := CurrentSlider(d).hi;
    var o := if d == A4988 then ohms else 0.0;
    assert ReferenceVoltage(d, mA, margin, ohms) == ReferenceVoltage(d, mA, margin, o);
    assert o <= 0.1;
    MonotoneInCurrent(d, mA, top, margin, o);
    AntitoneInMargin(d, top, 0, margin, o);
    if d == A4988 {
      A4988MonotoneInResistor(top, 0, o, 0.1);
    }
  }

  /** The displayed text reads back as the voltage to within half a
      hundredth. */
  lemma DisplayReadsBack(d: Driver, vref: real)
    ensures ShownVoltage(d, DisplayText(d, vref)).Some?
    ensures -0.005 <= ShownVoltage(d, DisplayText(d, vref)).value - vref <= 0.005
  {
    Fixed2ReadsBack(vref);
    var prefix := if d == TMC2208 || d == TMC2209 then "Reference Voltage: " else "";
    var text := DisplayText(d, vref);
    assert text == prefix + Fixed2(vref) + " V";
    assert text[..|prefix|] == prefix;
    assert text[|text| - 2..] == " V";
    assert text[|prefix|..|text| - 2] == Fixed2(vref);
  }

  /** Every panel's text ends in " V", and it starts with
      "Reference Voltage: " exactly on the TMC panels. */
  lemma DisplayTextShape(d: Driver, vref: real)
    ensures var t := DisplayText(d, vref);
      |t| >= 6 && t[|t| - 2..] == " V"
      && (d == TMC2208 || d == TMC2209 <==> |t| >= 19 && t[..19] == "Reference Voltage: ")
  {
    Fixed2Shape(vref);
    var f := Fixed2(vref);
    var t := DisplayText(d, vref);
    if d == TMC2208 || d == TMC2209 {
      assert t == "Reference Voltage: " + f + " V";
      assert t[..19] == "Reference Voltage: ";
    } else {
      assert t == f + " V" && t[0] == f[0];
      assert |t| >= 19 ==> t[..19][0] == f[0];
    }
  }

  /** A voltage that is a whole number `n` of hundredths is written as
      `Hundredths(n)`. */
  lemma Fixed2OfHundredths(v: real, n: nat)
    requires v * 100.0 == n as real
    ensures Fixed2(v) == Hundredths(n)
  {
    assert (n as real).Floor == n;
  }

  /** The resistor label a panel starts with: the first option on the
      A4988, none on the others. */
  function DefaultResistorLabel(d: Driver): string
  {
    if d == A4988 then ResistorOptions[0] else ""
  }

  /** The result text each panel starts with. */
  function DefaultText(d: Driver): string
  {
    match d
    case A4988 => "0.32 V"
    case DRV8825 => "0.40 V"
    case TMC2208 => "Reference Voltage: 1.13 V"
    case TMC2209 => "Reference Voltage: 1.13 V"
  }

  /** What each panel shows at start-up: 0.32 V, 0.40 V and, rounded,
      1.13 V on both TMC panels. */
  lemma DefaultTexts(d: Driver)
    ensures CalculationText(d, DefaultCurrent, DefaultMargin, DefaultResistorLabel(d)) == Some(DefaultText(d))
  {
    match d
    case A4988 => FirstOptionParses(); A4988DefaultText(ResistorOptions[0]);
    case DRV8825 => Drv8825DefaultText();
    case TMC2208 => TmcDefaultText(d);
    case TMC2209 => TmcDefaultText(d);
  }

  /** Any A4988 resistor label that reads as 0.05 ohm gives 0.32 V at the
      default sliders. */
  lemma A4988DefaultText(option: string)
    requires ResistorOhms(option) == Some(0.05)
    ensures CalculationText(A4988, DefaultCurrent, DefaultMargin, option) == Some("0.32 V")
  {
    assert ReferenceVoltage(A4988, DefaultCurrent, DefaultMargin, 0.05) == 0.32;
    Fixed2OfHundredths(0.32, 32);
    assert Fixed2(0.32) == "0.32" by { assert NatToString(0) == "0"; }
    assert DisplayText(A4988, 0.32) == "0.32 V";
    assert CalculationText(A4988, DefaultCurrent, DefaultMargin, option)
      == Some(DisplayText(A4988, ReferenceVoltage(A4988, DefaultCurrent, DefaultMargin, 0.05)));
  }

  lemma Drv8825DefaultText()
    ensures CalculationText(DRV8825, DefaultCurrent, DefaultMargin, "") == Some("0.40 V")
  {
    DefaultsOnSliders(DRV8825);
    Fixed2OfHundredths(0.4, 40);
    assert Hundredths(40) == "0.40" by { assert NatToString(0) == "0"; }
    assert DisplayText(DRV8825, 0.4) == "0.40 V";
  }

  /** At 100 mA and 50 % the DRV8825 voltage is exactly 0.025 V, a tie that
      rounds to the even hundredth: the panel shows "0.02 V". */
  lemma Drv8825TieText()
    ensures ReferenceVoltage(DRV8825, 100, 50, 0.0) == 0.025
    ensures CalculationText(DRV8825, 100, 50, "") == Some("0.02 V")
  {
    assert ReferenceVoltage(DRV8825, 100, 50, 0.0) == 0.025;
    assert RoundHalfEven(0.025 * 100.0) == 2;
    assert Hundredths(2) == "0.02" by { assert NatToString(0) == "0"; }
    assert Fixed2(0.025) == "0.02";
    assert DisplayText(DRV8825, 0.025) == "0.02 V";
  }

  lemma TmcDefaultText(d: Driver)
    requires d == TMC2208 || d == TMC2209
    ensures CalculationText(d, DefaultCurrent, DefaultMargin, "") == Some("Reference Voltage: 1.13 V")
  {
    DefaultsOnSliders(d);
    assert RoundHalfEven(1.128 * 100.0) == 113;
    assert Hundredths(113) == "1.13" by { assert NatToString(1) == "1"; }
    assert Fixed2(1.128) == "1.13";
    assert DisplayText(d, 1.128) == "Reference Voltage: 1.13 V";
  }
}
