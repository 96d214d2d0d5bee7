/** The main menu: a driver-type dropdown over four panels, of which the
    one matching the selected label is shown. Each panel owns its slider
    state and the result label it recomputes on every input change. */
module Frames {
  import opened Decimal
  import opened Drivers

  /** The dropdown's labels; the first stands for the A4988 panel and is
      spelt "A4899" both here and where a selection is compared. */
  const DriverOptions: seq<string> := ["A4899", "DRV8825", "TMC2208", "TMC2209"]

  /** Which panel `change_frame` shows for a selected label. */
  function FrameFor(selected: string): (r: Option<Driver>)
    ensures r.Some? ==> selected == OptionLabel(r.value)
    ensures r.None? ==> selected !in DriverOptions
  {
    if selected == "A4899" then Some(A4988)
    else if selected == "DRV8825" then Some(DRV8825)
    else if selected == "TMC2208" then Some(TMC2208)
    else if selected == "TMC2209" then Some(TMC2209)
    else None
  }

  /** The dropdown label of each panel. */
  function OptionLabel(d: Driver): string
  {
    match d
    case A4988 => DriverOptions[0]
    case DRV8825 => DriverOptions[1]
    case TMC2208 => DriverOptions[2]
    case TMC2209 => DriverOptions[3]
  }

  /** The dropdown's labels and the panels correspond one to one: a label
      selects a panel exactly when it is that panel's option. */
  lemma FrameForOptionLabel(selected: string, d: Driver)
    ensures FrameFor(selected) == Some(d) <==> selected == OptionLabel(d)
    ensures FrameFor(selected).Some? <==> selected in DriverOptions
  {
  }

  /** The chip's own name is not one of the labels: selecting "A4988" would
      show no panel. */
  lemma ChipNameSelectsNothing()
    ensures "A4988" !in DriverOptions && FrameFor("A4988") == None
  {
  }

  /** One driver panel: its two sliders, the A4988 resistor dropdown, the
      result label and whether it is shown. */
  class DriverFrame {
    const driver: Driver
    var current: int
    var margin: int
    /** The A4988 dropdown's value; the other panels have none and keep "". */
    var resistorLabel: string
    var resultText: string
    var visible: bool

    /** The sliders hold values they can emit, and the A4988 dropdown one of
        its options. */
    ghost predicate Valid()
      reads this`current, this`margin, this`resistorLabel
    {
      && OnSlider(CurrentSlider(driver), current)
      && OnSlider(MarginSlider, margin)
      && (driver == A4988 ==> resistorLabel in ResistorOptions)
      && (driver != A4988 ==> resistorLabel == "")
    }

    /** The result label shows what the calculation gives for the inputs. */
    ghost predicate Shows()
      reads this`current, this`margin, this`resistorLabel, this`resultText
    {
      CalculationText(driver, current, margin, resistorLabel) == Some(resultText)
    }

    /** The sense resistor the panel reads, in ohms (0 where it has none). */
    ghost function Ohms(): (r: real)
      reads this`resistorLabel
      requires driver == A4988 ==> resistorLabel in ResistorOptions
      ensures r in ResistorChoices || (driver != A4988 && r == 0.0)
    {
      ResistorOptionsParse();
      if driver == A4988 then ResistorOhms(resistorLabel).value else 0.0
    }

    /** The voltage the panel computes from its inputs; when Shows() holds,
        the result label displays it. */
    ghost function Voltage(): real
      reads this`current, this`margin, this`resistorLabel
      requires Valid()
    {
      ReferenceVoltage(driver, current, margin, Ohms())
    }

    /** Sliders at 1000 mA and 20 %, the first resistor option on the A4988,
        and the result label showing what those give (DefaultTexts). */
    constructor (d: Driver)
      ensures Valid() && driver == d && !visible
      ensures current == DefaultCurrent && margin == DefaultMargin
      ensures resistorLabel == DefaultResistorLabel(d)
      ensures resultText == DefaultText(d)
    {
      driver := d;
      current := DefaultCurrent;
      margin := DefaultMargin;
      resistorLabel := DefaultResistorLabel(d);
      resultText := "";
      visible := false;
      new;
      DefaultsOnSliders(d);
      Recalculate();
      DefaultTexts(d);
    }

    /** `calculate_reference_voltage`: recompute and show the voltage; where
        the resistor label cannot be read the label keeps its old text. */
    method Recalculate()
      modifies this`resultText
      ensures resultText == match CalculationText(driver, current, margin, resistorLabel)
                            case Some(t) => t
                            case None => old(resultText)
    {
      var text := CalculationText(driver, current, margin, resistorLabel);
      if text.Some? {
        resultText := text.value;
      }
    }

    /** The current slider moved to `v`: the voltage is recomputed. */
    method MoveCurrentSlider(v: int)
      requires Valid() && OnSlider(CurrentSlider(driver), v)
      modifies this`current, this`resultText
      ensures Valid() && Shows() && current == v
      ensures Voltage() == ReferenceVoltage(driver, v, margin, old(Ohms()))
    {
      current := v;
      ResistorOptionsParse();
      Recalculate();
    }

    /** The margin slider moved to `v`: the voltage is recomputed. */
    method MoveMarginSlider(v: int)
      requires Valid() && OnSlider(MarginSlider, v)
      modifies this`margin, this`resultText
      ensures Valid() && Shows() && margin == v
      ensures Voltage() == ReferenceVoltage(driver, current, v, old(Ohms()))
    {
      margin := v;
      ResistorOptionsParse();
      Recalculate();
    }

    /** An A4988 resistor option chosen: the voltage is recomputed. */
    method SelectResistor(option: string)
      requires Valid() && driver == A4988 && option in ResistorOptions
      modifies this`resistorLabel, this`resultText
      ensures Valid() && Shows() && resistorLabel == option
      ensures Ohms() in ResistorChoices
    {
      resistorLabel := option;
      ResistorOptionsParse();
      Recalculate();
    }
  }

  /** The main menu: the dropdown's value and the four panels. */
  class MainMenu {
    var selected: string
    const a4988: DriverFrame
    const drv8825: DriverFrame
    const tmc2208: DriverFrame
    const tmc2209: DriverFrame

    ghost function Frames(): seq<DriverFrame>
      reads this
    {
      [a4988, drv8825, tmc2208, tmc2209]
    }

    /** Each panel is the one for its driver (so the four are distinct). */
    ghost predicate Wired()
      reads this
    {
      a4988.driver == A4988 && drv8825.driver == DRV8825
      && tmc2208.driver == TMC2208 && tmc2209.driver == TMC2209
    }

    /** Exactly the panel the selected label names is shown. */
    ghost predicate ShowsSelected()
      reads this, a4988, drv8825, tmc2208, tmc2209
    {
      var shown := FrameFor(selected);
      && a4988.visible == (shown == Some(A4988))
      && drv8825.visible == (shown == Some(DRV8825))
      && tmc2208.visible == (shown == Some(TMC2208))
      && tmc2209.visible == (shown == Some(TMC2209))
    }

    ghost predicate Valid()
      reads this, a4988, drv8825, tmc2208, tmc2209
    {
      && Wired()
      && a4988.Valid() && drv8825.Valid() && tmc2208.Valid() && tmc2209.Valid()
      && ShowsSelected()
    }

    /** Builds the four panels at their defaults, selects "A4899" and shows
        the A4988 panel only. */
    constructor ()
      ensures Valid() && selected == DriverOptions[0]
      ensures fresh(a4988) && fresh(drv8825) && fresh(tmc2208) && fresh(tmc2209)
      ensures a4988.visible && !drv8825.visible && !tmc2208.visible && !tmc2209.visible
      ensures a4988.current == drv8825.current == tmc2208.current == tmc2209.current == DefaultCurrent
      ensures a4988.margin == drv8825.margin == tmc2208.margin == tmc2209.margin == DefaultMargin
      ensures a4988.resistorLabel == ResistorOptions[0]
      ensures a4988.resultText == DefaultText(A4988) && drv8825.resultText == DefaultText(DRV8825)
      ensures tmc2208.resultText == DefaultText(TMC2208) && tmc2209.resultText == DefaultText(TMC2209)
    {
      selected := "Select Type";
      selected := DriverOptions[0];
      a4988 := new DriverFrame(A4988);
      drv8825 := new DriverFrame(DRV8825);
      tmc2208 := new DriverFrame(TMC2208);
      tmc2209 := new DriverFrame(TMC2209);
      new;
      a4988.visible := true;
      drv8825.visible := true;
      tmc2208.visible := true;
      tmc2209.visible := true;
      drv8825.visible := false;
      tmc2208.visible := false;
      tmc2209.visible := false;
    }

    /** `change_frame`: hide all four panels, then show the one the selected
        label names, if any. Nothing but visibility changes. */
    method ChangeFrame()
      requires Wired()
      modifies a4988`visible, drv8825`visible, tmc2208`visible, tmc2209`visible
      ensures ShowsSelected()
      ensures unchanged(a4988`current, a4988`margin, a4988`resistorLabel, a4988`resultText)
      ensures unchanged(drv8825`current, drv8825`margin, drv8825`resistorLabel, drv8825`resultText)
      ensures unchanged(tmc2208`current, tmc2208`margin, tmc2208`resistorLabel, tmc2208`resultText)
      ensures unchanged(tmc2209`current, tmc2209`margin, tmc2209`resistorLabel, tmc2209`resultText)
    {
      a4988.visible := false;
      drv8825.visible := false;
      tmc2208.visible := false;
      tmc2209.visible := false;
      if selected == "A4899" {
        a4988.visible := true;
      } else if selected == "DRV8825" {
        drv8825.visible := true;
      } else if selected == "TMC2208" {
        tmc2208.visible := true;
      } else if selected == "TMC2209" {
        tmc2209.visible := true;
      }
    }

    /** A dropdown option chosen: the value is set, then `change_frame` runs. */
    method SelectDriverType(option: string)
      requires Valid()
      modifies this`selected, a4988`visible, drv8825`visible, tmc2208`visible, tmc2209`visible
      ensures Valid() && selected == option
      ensures unchanged(a4988`current, a4988`margin, a4988`resistorLabel, a4988`resultText)
      ensures unchanged(drv8825`current, drv8825`margin, drv8825`resistorLabel, drv8825`resultText)
      ensures unchanged(tmc2208`current, tmc2208`margin, tmc2208`resistorLabel, tmc2208`resultText)
      ensures unchanged(tmc2209`current, tmc2209`margin, tmc2209`resistorLabel, tmc2209`resultText)
    {
      selected := option;
      ChangeFrame();
    }
  }

  /** In a consistent menu at most one panel is shown; one is shown exactly
      when the selected label is a dropdown option, and it is that option's
      panel. */
  lemma ShownPanel(m: MainMenu)
    requires m.Wired() && m.ShowsSelected()
    ensures forall f, g | f in m.Frames() && g in m.Frames() && f.visible && g.visible :: f == g
    ensures m.selected in DriverOptions <==> exists f :: f in m.Frames() && f.visible
    ensures forall f | f in m.Frames() && f.visible :: m.selected == OptionLabel(f.driver)
  {
    if m.selected in DriverOptions {
      var d := FrameFor(m.selected).value;
      var f := m.Frames()[if d == A4988 then 0 else if d == DRV8825 then 1 else if d == TMC2208 then 2 else 3];
      assert f in m.Frames() && f.visible;
    }
  }
}
