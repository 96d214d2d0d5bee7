# Stepper-driver reference-voltage calculator, modelled in Dafny

The program is a small Tk desktop tool. A stepper-motor driver sets its phase current with a reference voltage, Vref, and the tool computes Vref for four driver chips. A dropdown at the top of the main menu picks the driver type. Below it, the panel for that chip is shown, and only that panel. Each panel has two sliders:

- the maximum current per phase, in mA, in steps of 100;
- a safety margin, 0 to 50 %, in steps of 1.

The A4988 panel also has a dropdown of sense-resistor labels (`"0.05 Ω"`, `"0.1 Ω"`, `"0.068 Ω"`). Every change recomputes the voltage, and the panel writes it, to two decimals, into its result label.

The model has three modules:

- `Decimal` (`decimal.dfy`): the Python built-ins the calculation relies on, over Dafny strings.
  - `str.replace`;
  - `float()` on plain decimal literals;
  - the `f"{x:.2f}"` format. Values are exact `real`s, and the format rounds the exact rational half-to-even. Python instead rounds the exact value of the binary float, which can differ at a tie (see "## Left out").
- `Drivers` (`drivers.dfy`) covers the panels' arithmetic and constants.
  - The per-driver formulas, on the effective current `Ieff = mA/1000 · (1 − margin/100)`:
    - A4988: `Ieff · 8 · R`;
    - DRV8825: `Ieff / 2`;
    - TMC2208 and TMC2209: `Ieff · 1.41`.
  - The slider ranges and start values, the resistor labels, and the text each panel shows.
  - The inverse of the formulas: the current each chip limits to for a given Vref.
  - Reading the voltage back from the displayed text, which inverts the formatting to within half a hundredth.
- `Frames` (`frames.dfy`) covers the mutable state.
  - `DriverFrame`: a panel's slider values, resistor label, result text and visibility, with one method per input event.
  - `MainMenu`: the driver-type dropdown and the four panels, with `change_frame`'s hide-all-then-show-one step.

The four Python panel classes differ in four ways:

- the current slider's range;
- the formula;
- the A4988's resistor dropdown, which only that panel has and reads (src/main.py:117-120, 171-173);
- the prefix of the result text: `"Reference Voltage: <v> V"` on the TMC panels (319, 390), `"<v> V"` on the others (177, 248).

Here they are one class, `DriverFrame`, whose `driver` field selects all four. The dropdown label for the A4988 panel is spelt `"A4899"`, in the option list (src/main.py:61) and in the comparison (src/main.py:92). The model keeps that spelling. Because the same spelling sits on both sides, selecting the first option does show the A4988 panel (`FrameForOptionLabel`). Selecting the chip's own name would show nothing (`ChipNameSelectsNothing`).

## Model

| member | source | states |
|---|---|---|
| Decimal.NatToString | src/main.py:177 | `str(n)` of the whole part: at least one digit, all digits, and a leading zero only for 0 |
| Decimal.NatToStringRoundTrip | src/main.py:177 | the digits written for `n` read back as `n` |
| Decimal.IndexOf | src/main.py:172-173 | the index found holds the character and no earlier index does; None means it does not occur |
| Decimal.Replace | src/main.py:172 | `str.replace`: every non-overlapping occurrence of the pattern, scanned from the left, is replaced; an empty pattern inserts the replacement around every character (no contract of its own; see the Replace lemmas) |
| Decimal.ReplaceAbsent | src/main.py:172 | `replace` leaves unchanged every string in which the non-empty search string occurs at no index |
| Decimal.ReplaceSuffix | src/main.py:172 | a string that does not contain the unit's first character, followed by the unit, becomes that string followed by the replacement |
| Decimal.ParseUnsigned | src/main.py:173 | `float` accepts only non-empty literals and yields a non-negative value for an unsigned one; None where Python raises ValueError |
| Decimal.ParseDecimal | src/main.py:173 | a parsed value is negative only when the literal starts with `-` |
| Decimal.ParseDigitsDotDigits | src/main.py:173 | the literal `whole.frac` reads as its whole part plus its fraction over 10^len(frac) |
| Decimal.RoundHalfEven | src/main.py:177 | the integer chosen is within 1/2 of the value and, at exactly 1/2, is the even one |
| Decimal.Hundredths | src/main.py:177 | writes `n` hundredths as the whole part, a point and two digits (no contract of its own; see `HundredthsReadsBack`, `Fixed2Shape`) |
| Decimal.Fixed2Unsigned | src/main.py:177 | `f"{v:.2f}"` for `v >= 0`: the value rounded half-even to hundredths, then written out (see `Fixed2UnsignedReadsBack`) |
| Decimal.Fixed2 | src/main.py:177 | `f"{v:.2f}"`: a minus sign and the magnitude for a negative value, otherwise the unsigned form (see `Fixed2ReadsBack`, `Fixed2Shape`) |
| Decimal.Fixed2Shape | src/main.py:177 | the two-decimal text has a point before its last two digits, and starts with a minus sign exactly for a negative value, otherwise with a digit |
| Decimal.HundredthsReadsBack | src/main.py:177 | what the formatter writes for `n` hundredths reads back as exactly `n/100` |
| Decimal.Fixed2UnsignedReadsBack | src/main.py:177 | for a non-negative value, the two-decimal text starts with a digit and reads back as the value rounded to hundredths |
| Decimal.Fixed2ReadsBack | src/main.py:177 | `f"{v:.2f}"` always reads back as a whole number of hundredths within 0.005 of `v` |
| Drivers.OnSlider | src/main.py:115-116 | the values a `tk.Scale` can emit: within `from_`..`to`, on a multiple of `resolution` from `from_` (no contract of its own; used by `DefaultsOnSliders`, `VoltageUpperBound` and `DriverFrame.Valid`) |
| Drivers.CurrentSlider | src/main.py:115 | each panel's current slider: 0-2000 mA on the A4988, 0-2500 on the DRV8825 (194), 0-1200 on the TMC2208 (265), 0-2000 on the TMC2209 (336), step 100 (no contract of its own; see `DefaultsOnSliders`, `VoltageUpperBound`) |
| Drivers.MarginSlider | src/main.py:116 | the margin slider every panel has, 0-50 % in steps of 1 (also 195, 266, 337) (a constant; see `DefaultsOnSliders`, `EffectiveCurrentBounds`) |
| Drivers.DefaultCurrent | src/main.py:121 | the 1000 mA every panel's current slider starts at (also 196, 267, 338) (a constant; see `DefaultsOnSliders`, `DefaultTexts`) |
| Drivers.DefaultMargin | src/main.py:122 | the 20 % every panel's margin slider starts at (also 197, 268, 339) (a constant; see `DefaultsOnSliders`, `DefaultTexts`) |
| Drivers.ResistorOptions | src/main.py:117 | the A4988 resistor labels `"0.05 Ω"`, `"0.1 Ω"`, `"0.068 Ω"`, in order (a constant; see `ResistorOptionsParse`) |
| Drivers.DefaultResistorLabel | src/main.py:119 | the label a panel starts with: the first resistor option on the A4988, none on the others (no contract of its own; see `DefaultTexts`, `DriverFrame.constructor`) |
| Drivers.EffectiveCurrent | src/main.py:174 | the phase current in A after the margin is taken off, `mA/1000 · (1 − margin/100)`, shared by the four panels (245, 316, 387) (no contract of its own; see `EffectiveCurrentBounds`) |
| Drivers.ReferenceVoltage | src/main.py:174-176 | the per-driver formula: A4988 `Ieff·8·R`, DRV8825 `Ieff/2` (245-247), TMC2208 and TMC2209 `Ieff·1.41` (316-318, 387-389) (no contract of its own; see `CurrentLimitInverts` and the monotonicity lemmas) |
| Drivers.ResistorOhms | src/main.py:171-173 | strips `" Ω"` from the label and parses the rest with `float`, None where `float` raises (see `ResistorOptionsParse`, `LabelParses`) |
| Drivers.DisplayText | src/main.py:177 | the result text: the voltage to two decimals and `" V"`, with a `"Reference Voltage: "` prefix on the TMC panels (248, 319, 390) (see `DisplayTextShape`, `DisplayReadsBack`) |
| Drivers.CalculationText | src/main.py:168-177 | one run of `calculate_reference_voltage`: there is no text exactly when the panel is the A4988 and its resistor label cannot be parsed, where `float` raises before the label is written |
| Drivers.DisplayTextShape | src/main.py:177 | every panel text ends in `" V"`, and it starts with `"Reference Voltage: "` exactly on the TMC panels (319, 390) |
| Drivers.EffectiveCurrentBounds | src/main.py:174 | on the margin slider the effective current lies between half and all of `mA/1000`, and equals `mA/1000` at 0 % |
| Drivers.CurrentLimitInverts | src/main.py:174-176 | applying the chip's current law (A4988 `Vref/(8R)`, DRV8825 `2·Vref`, TMC `Vref/1.41`) to the computed Vref gives back the effective current |
| Drivers.TmcPanelsAgree | src/main.py:387-390 | TMC2208 and TMC2209 compute the same voltage and show the same text for the same inputs (duplicated at 316-319) |
| Drivers.ResistorOnlyForA4988 | src/main.py:242-247 | the DRV8825 and TMC voltages do not depend on any resistor value |
| Drivers.MonotoneInCurrent | src/main.py:174-176 | for every driver, more current never lowers the voltage |
| Drivers.AntitoneInMargin | src/main.py:174-176 | for every driver, a larger margin never raises the voltage |
| Drivers.A4988MonotoneInResistor | src/main.py:176 | on the A4988 a larger sense resistor never lowers the voltage |
| Drivers.VoltageNonNegative | src/main.py:115-116 | on the slider domains the voltage is never negative, and 0 mA gives 0 V |
| Drivers.FullMarginGivesZero | src/main.py:174 | a 100 % margin leaves 0 V whatever the current |
| Drivers.ResistorOptionsParse | src/main.py:117-119 | the three resistor labels, with `" Ω"` stripped, parse to 0.05, 0.1 and 0.068 ohm, in order |
| Drivers.LabelParses | src/main.py:171-173 | a label `whole.frac Ω` strips to `whole.frac` and parses to its decimal value |
| Drivers.DefaultsOnSliders | src/main.py:121-122 | 1000 mA and 20 % lie on every panel's sliders, TMC2208's 0-1200 included (also 196-197, 267-268, 338-339), and give 0.32, 0.4 and 1.128 V |
| Drivers.VoltageUpperBound | src/main.py:115-116 | on the slider ranges (2000, 2500, 1200 and 2000 mA; 194-195, 265-266, 336-337 for the others) Vref is at most 1.6, 1.25, 1.692 and 2.82 V, each reached at full current, 0 % and R = 0.1 |
| Drivers.DisplayReadsBack | src/main.py:177 | each panel's text (`"<v> V"`, or `"Reference Voltage: <v> V"` on the TMC panels, 319 and 390) reads back as the voltage to within 0.005 |
| Drivers.A4988DefaultText | src/main.py:168-177 | at the defaults, a label reading as 0.05 ohm gives the text `"0.32 V"` |
| Drivers.Drv8825DefaultText | src/main.py:242-248 | at the defaults the DRV8825 panel shows `"0.40 V"` |
| Drivers.Drv8825TieText | src/main.py:242-248 | at 100 mA and 50 % the exact DRV8825 voltage is 0.025 V, and the model's panel shows `"0.02 V"` (the tie rounded to even); the program, on binary floats, shows `"0.03 V"` (see "## Left out") |
| Drivers.TmcDefaultText | src/main.py:313-319 | at the defaults each TMC panel shows `"Reference Voltage: 1.13 V"` (1.128 rounded) |
| Drivers.DefaultTexts | src/main.py:152-156 | the calculation a panel runs while it is built, on its defaults, writes `DefaultText` |
| Frames.DriverOptions | src/main.py:61 | `types_options`: `"A4899"`, `"DRV8825"`, `"TMC2208"`, `"TMC2209"`, in order (a constant; see `FrameForOptionLabel`, `ChipNameSelectsNothing`) |
| Frames.OptionLabel | src/main.py:92-99 | the dropdown label each panel is shown for, the spelling compared at 92-99 (no contract of its own; see `FrameFor`, `FrameForOptionLabel`, `ShownPanel`) |
| Frames.FrameFor | src/main.py:92-99 | the panel `change_frame` shows for a label: if a panel is chosen, the label is that panel's option; if none is, the label is not an option |
| Frames.FrameForOptionLabel | src/main.py:92-99 | a label selects a panel exactly when it is that panel's option, and selects some panel exactly when it is one of the four options |
| Frames.ChipNameSelectsNothing | src/main.py:61-92 | `"A4988"` is not an option and selects no panel |
| Frames.DriverFrame.Valid | src/main.py:115-120 | the panel invariant: both sliders hold values they can emit, and the A4988 dropdown holds one of its options (the other panels keep no label) (no contract of its own; kept by every `DriverFrame` method) |
| Frames.DriverFrame.Shows | src/main.py:168-177 | the result label holds what `calculate_reference_voltage` writes for the panel's current inputs (no contract of its own; established by the slider and resistor methods, and at construction through `DefaultTexts`) |
| Frames.DriverFrame.Ohms | src/main.py:171-173 | the resistance a panel reads is one of the three choices (0 for panels without a resistor) |
| Frames.DriverFrame.constructor | src/main.py:101-156 | a new panel is hidden, on 1000 mA and 20 %, holds the first resistor label (A4988) and shows its default text |
| Frames.DriverFrame.Recalculate | src/main.py:168-177 | the result text becomes the calculation's text, and stays as it was where the resistor label cannot be parsed |
| Frames.DriverFrame.MoveCurrentSlider | src/main.py:158-166 | a current-slider move stores the value and leaves the label showing the voltage for the new current and the unchanged margin and resistor |
| Frames.DriverFrame.MoveMarginSlider | src/main.py:158-166 | a margin-slider move stores the value and leaves the label showing the voltage for the new margin |
| Frames.DriverFrame.SelectResistor | src/main.py:120 | picking a resistor option stores it and leaves the label showing the voltage for it |
| Frames.MainMenu.ShowsSelected | src/main.py:82-99 | the menu invariant: each panel is visible exactly when the selected label names it (no contract of its own; established by `MainMenu.constructor` and `ChangeFrame`, used by `ShownPanel`) |
| Frames.MainMenu.constructor | src/main.py:59-80 | the dropdown holds `"A4899"`, only the A4988 panel is visible, and all four panels are fresh and at their defaults |
| Frames.MainMenu.ChangeFrame | src/main.py:82-99 | afterwards exactly the panel the selected label names is visible (none for an unknown label), and no panel's sliders, resistor or text change |
| Frames.MainMenu.SelectDriverType | src/main.py:62 | choosing an option stores it, runs `change_frame`, and keeps the menu consistent without touching any panel's inputs or text |
| Frames.ShownPanel | src/main.py:82-99 | in a consistent menu at most one panel is visible, one is visible exactly when the label is an option, and its option is the label |

## Left out

- Window and DPI setup (src/main.py:1-13): Win32 calls through `ctypes`, outside the model.
- The `App` window, its `turned_on` flag, the hand-written update loop and `on_close` (src/main.py:15-43): Tk event-loop plumbing.
- Layout, fonts, colours, grid weights and spacer labels: presentation only. Showing and hiding a panel is modelled as the boolean `visible`, standing for `grid()` and `grid_remove()`.
- The slider captions written by `update_slider_labels` (src/main.py:158-165): cosmetic. Only the recalculation they trigger is modelled.
- The `.bind(func=self.calculate_reference_voltage())` calls (src/main.py:155-156 and the same lines in the other panels) bind nothing. Building a panel runs the calculation three times on the same inputs: once through `update_slider_labels()` at 152 (166), and once at each of 155 and 156. All three write the same text. The single `Recalculate` call in `DriverFrame`'s constructor stands for them.
- IEEE-754 floating point: the model computes in exact rationals and then rounds half-to-even to hundredths. Python rounds the binary float, which can lie just above or just below an exact tie. Where it lies on the side away from the even neighbour, the last digit differs; where it lies on the even neighbour's side, both print the same digits. Take DRV8825 at 100 mA and 50 %:
  - The exact value is 0.025, a tie. The model rounds it to even and shows `"0.02 V"` (`Drv8825TieText`).
  - The float Python computes is slightly above 0.025, so Python shows `"0.03 V"`.
- The model's `float()` reads an optional `+` or `-`, then digits, an optional point and digits, with at least one digit in all (so `"5."` and `".5"` read too). Python's `float()` accepts more: among others surrounding whitespace, underscores, exponents, non-ASCII decimal digits, and `inf`, `infinity` and `nan` in any letter case; the list is not exhaustive. None of these forms can reach it from the fixed resistor labels, so they are not modelled.
- Frames.DriverFrame.MoveCurrentSlider: requires a value the slider can emit. Tk clamps and rounds arbitrary values passed to `Scale.set`, and that is not modelled.
- Frames.DriverFrame.MoveMarginSlider: requires a value the slider can emit, for the same reason.
- Frames.DriverFrame.SelectResistor: requires one of the three options, the only values the dropdown offers.
- Frames.MainMenu.constructor: the transient `"Select Type"` value set at src/main.py:60 is overwritten before anything reads it. The constructor states only the final dropdown value.
- Frames.DriverFrame.constructor: states the start-up text as the literal `DefaultText`. `DefaultTexts` proves that this text is what the calculation on the defaults writes, and the constructor relies on that proof rather than restating the calculation.
- The four Python panel classes `A4988Frame`, `DRV8825Frame`, `TMC2208Frame` and `TMC2209Frame` are one class here, `DriverFrame`, keyed by its `driver` field. On the non-A4988 panels the resistor label is the empty string.
