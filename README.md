# BBB-playground: seven-segment displays, a counter, a clock and a user LED

BBB-playground holds small Rust programs for the BeagleBone Black. This
project models four of them in Dafny and proves properties of the model:

- **The four-digit multiplexed display** (`time_7seg_multiplex`). It has eight
  segment lines, A to G plus the decimal point, shared by four digit-select
  lines.
- **The digital clock** (`time_7seg_multiplex`). It reads the wall clock and
  sweeps the four positions of that display.
- **The single-digit display and the counter** (`counter_7seg`). The counter
  counts up, down or up-and-down, or shows random digits.
- **The user-LED tool** (`BBB_user_led`). It writes a trigger name or a
  brightness to the sysfs attributes of user LED 3.

The files and what they model:

- `gpio.dfy`: what the display drivers use from a GPIO character device.
  - A board GPIO number resolves to a chip and a line offset: four bands of
    32 numbers from 512.
  - A requested output line has a starting level.
  - A `set_value` call either changes exactly one owned line or fails.
  - A display issues its writes one by one and stops at the first failure,
    the way a chain of `?` calls does. `Perform` models this.
  - `Then` joins two runs of writes.
- `mux_seven_segment.dfy`: the multiplexed `SevenSegmentDisplay`, its
  `Segment` and `Digits` tables, and what the display shows.
  - `ActiveSegments` gives the segments driven Active.
  - `SelectedDigits` gives the digit positions driven Inactive. An Inactive
    digit line selects that position.
- `counter_seven_segment.dfy`: the single-digit `SevenSegmentDisplay`. Its
  segment lines are addressed by raw GPIO number.
- `digital_clock.dfy`: `DigitalClock`, covering the time of day, the 12-hour
  and 24-hour formats, and one sweep over the four positions.
- `counter.dfy`: `Counter` and its four counting modes.
- `counter_main.dfy`, `clock_main.dfy`: the argument handling of the two
  display programs.
- `decimal.dfy`: decimal text of natural numbers. `u64` parsing and
  `format!("{}")` use it.
- `user_led.dfy`: the user-LED program over a sysfs tree that maps paths to
  content.

How the models are stated:

- **Display classes.** Each display is a class. Its fields are:
  - `lines`: the owned output lines, keyed by GPIO number;
  - `trace`: every write that took effect;
  - `failing`: the lines whose `set_value` fails.

  Every method is proved against a plan, which is the sequence of writes
  the source issues. It ends in the state that `Perform` of that plan
  gives. Lemmas then prove what that state shows on the display.
- **Sweep order.** `display_time` selects a position with `enable_digit`
  and only then programs its digit with `set_digit`
  (`digital_clock.rs:66-67`). It does not blank the old position first, so
  the order is not disable, program, enable. `enable_digit` writes the digit
  lines in the fixed order D1 to D4. Moving the selection from D4 back to D1
  therefore selects both positions for a moment (`EnableOverlaps`), and the
  newly selected position first shows the old digit's segments.
  `DecimalPointFollowsHours` proves one consequence of this order.
- **Loops.** The `loop { ... }` bodies of the counter and the clock run for a
  finite number of rounds or readings. Each is proved against a run
  function: `RoundsRun`, `CountRun` or `SweepsRun`.
- **Inputs.** The wall clock, the random digits and the hardware's refusals
  are inputs:
  - `clock`: the seconds since the epoch;
  - `draws`: the random digits;
  - `refused`: the lines the chip will not hand out;
  - `failing`: the lines whose `set_value` fails.

## Model

| member | source | states |
|---|---|---|
| Gpio.ChipOffset | projects_src/time_7seg_multiplex/src/seven_segment.rs:149-158 | a GPIO number resolves exactly when it lies in 512..=639; the offset is its distance from the start of its 32-line band; any other number fails with `UnsupportedPin` |
| Gpio.ChipOffsetChip | projects_src/counter_7seg/src/seven_segment.rs:61-70 | a resolved number's chip is `/dev/gpiochipN`, where N is the index of the band that holds the number |
| Gpio.Apply | projects_src/time_7seg_multiplex/src/seven_segment.rs:168-176 | the writes never add or drop an owned line and never change a line's offset |
| Gpio.PerformPrefix | projects_src/time_7seg_multiplex/src/seven_segment.rs:189-191 | the writes that took effect are a prefix of those issued; the run passes exactly when all of them took effect |
| Gpio.PerformApplies | projects_src/time_7seg_multiplex/src/seven_segment.rs:168-176 | the lines after a run are the lines after applying the writes that took effect |
| Gpio.PerformKeys | projects_src/time_7seg_multiplex/src/seven_segment.rs:168-176 | a run keeps the set of owned lines |
| Gpio.PerformStopsAtRejection | projects_src/time_7seg_multiplex/src/seven_segment.rs:170-173 | no applied write was rejected; a failed run stops at the first rejected write and reports `NotInitialized` for an unowned pin, `WriteFailed` for a failing one |
| Gpio.PerformPassesIff | projects_src/time_7seg_multiplex/src/seven_segment.rs:189-191 | a run passes if and only if no write in it is rejected |
| Gpio.ApplyUntouched | projects_src/time_7seg_multiplex/src/seven_segment.rs:168-176 | a line no write names keeps its value |
| Gpio.PerformUntouched | projects_src/time_7seg_multiplex/src/seven_segment.rs:168-176 | the same for a run: a line no write names is unchanged |
| Gpio.PerformPassOwned | projects_src/time_7seg_multiplex/src/seven_segment.rs:170-173 | a passing run wrote only owned, working lines and applied all of its writes |
| Gpio.PerformNext | projects_src/time_7seg_multiplex/src/seven_segment.rs:189-191 | one more write extends a passing prefix by exactly that write's step |
| Gpio.ThenAssociates | projects_src/counter_7seg/src/counter.rs:43-48 | joining runs is associative |
| Gpio.ThenStep | projects_src/counter_7seg/src/counter.rs:43-48 | the loop step for joined runs: a failed step ends the whole, and a passing one moves its writes into the done part |
| Gpio.PerformAbort | projects_src/time_7seg_multiplex/src/seven_segment.rs:189-191 | once a prefix fails, the later writes change nothing |
| Gpio.Advance | projects_src/time_7seg_multiplex/src/seven_segment.rs:189-191 | the loop step of a write loop: a passing write extends the run, and a failing one is the run's end |
| Gpio.PerformSingle | projects_src/time_7seg_multiplex/src/seven_segment.rs:168-176 | a run of one write is that write's step |
| Gpio.ApplyAppend | projects_src/time_7seg_multiplex/src/seven_segment.rs:225-227 | applying `a + b` is applying `a`, then `b` |
| Gpio.ApplyAt | projects_src/time_7seg_multiplex/src/seven_segment.rs:168-176 | each line ends at the last value written to it, or keeps its value when nothing is written to it |
| Gpio.LastValueTwice | projects_src/time_7seg_multiplex/src/seven_segment.rs:168-176 | the last value written does not depend on the starting value once the pin is written |
| Gpio.ApplyTwice | projects_src/time_7seg_multiplex/src/seven_segment.rs:168-176 | applying the same writes twice is applying them once |
| Gpio.PerformTwice | projects_src/time_7seg_multiplex/src/seven_segment.rs:168-176 | re-issuing a plan that passed leaves the lines as they are; it passes again because a line that worked once keeps working in the model |
| Gpio.PerformAppend | projects_src/time_7seg_multiplex/src/seven_segment.rs:225-227 | issuing `a + b` is issuing `a` and, if that passed, `b` from where it left off |
| Gpio.PerformThen | projects_src/time_7seg_multiplex/src/seven_segment.rs:225-227 | the same, stated with `Then` |
| Gpio.PerformStuck | projects_src/time_7seg_multiplex/src/seven_segment.rs:227 | writes after a failed plan are never issued |
| Gpio.ApplyDistinct | projects_src/time_7seg_multiplex/src/seven_segment.rs:189-191 | when no pin is written twice, each written line ends at its written value |
| Gpio.ApplyWrites | projects_src/counter_7seg/src/seven_segment.rs:89-91 | writing one value to distinct pins sets exactly those lines and leaves the others alone |
| Gpio.RequestedAt | projects_src/time_7seg_multiplex/src/seven_segment.rs:112-123 | the request loop owns exactly the earlier lines plus the resolvable requested pins, each at its offset with the starting level |
| Gpio.RequestedStep | projects_src/time_7seg_multiplex/src/seven_segment.rs:122 | one more request inserts that pin's line |
| Gpio.FirstRefusal | projects_src/time_7seg_multiplex/src/seven_segment.rs:114-120 | the pin a failed request reports is the first pin of the list that the chip refuses |
| Gpio.FirstRefusedBefore | projects_src/time_7seg_multiplex/src/seven_segment.rs:112-137 | the first refused pin of the first request list is the first refused pin of both lists in turn |
| Gpio.FirstRefusedAfter | projects_src/time_7seg_multiplex/src/seven_segment.rs:112-137 | when the first list has no refused pin, the first refused pin of the second list is the first of both lists in turn |
| Gpio.RequestLines | projects_src/time_7seg_multiplex/src/seven_segment.rs:112-123 | the request loop succeeds if and only if no pin is unavailable, and then owns the requested lines; otherwise it fails with the error of the first unavailable pin |
| MuxSevenSegment.Segment.GpioNumber | projects_src/time_7seg_multiplex/src/seven_segment.rs:37-48 | each segment's GPIO number is one of the eight segment pins |
| MuxSevenSegment.Digit.GpioNumber | projects_src/time_7seg_multiplex/src/seven_segment.rs:68-75 | each digit position's GPIO number is one of the four digit pins |
| MuxSevenSegment.SevenSegmentDisplay.constructor | projects_src/time_7seg_multiplex/src/seven_segment.rs:93-95 | a display owns the given lines and has a trace that starts empty |
| MuxSevenSegment.SevenSegmentDisplay.New | projects_src/time_7seg_multiplex/src/seven_segment.rs:102-140 | succeeds exactly when none of the twelve lines is refused, with segments Inactive and digits Active; otherwise fails naming the first refused pin in request order |
| MuxSevenSegment.SevenSegmentDisplay.RequestAll | projects_src/time_7seg_multiplex/src/seven_segment.rs:112-137 | the two request loops own exactly the initial lines when no pin is refused; otherwise they stop at the first refused pin in the order A, B, C, DP, D, E, F, G, D1 to D4 and report it |
| MuxSevenSegment.SegmentRefusedFirst | projects_src/time_7seg_multiplex/src/seven_segment.rs:112-123 | a segment refused first is the first refused pin of the whole request |
| MuxSevenSegment.DigitRefusedFirst | projects_src/time_7seg_multiplex/src/seven_segment.rs:126-137 | once the segments were granted, a digit refused first is the first refused pin of the whole request |
| MuxSevenSegment.SevenSegmentDisplay.SetLine | projects_src/time_7seg_multiplex/src/seven_segment.rs:208-212 | one write to an owned line; it passes exactly when the pin is owned and working; it keeps the display owning exactly its pins |
| MuxSevenSegment.SevenSegmentDisplay.SetSegment | projects_src/time_7seg_multiplex/src/seven_segment.rs:168-176 | one write to the segment's line; it passes exactly when that line is owned and working; it keeps the display owning exactly its pins |
| MuxSevenSegment.SevenSegmentDisplay.ClearAll | projects_src/time_7seg_multiplex/src/seven_segment.rs:182-194 | writes Inactive to A,B,C,D,DP,E,F,G in that order, keeps the digit lines, and when it passes no segment is lit; it keeps the display owning exactly its pins |
| MuxSevenSegment.SevenSegmentDisplay.EnableDigit | projects_src/time_7seg_multiplex/src/seven_segment.rs:203-216 | issues the enable plan, stopping at the first failure; it keeps the display owning exactly its pins |
| MuxSevenSegment.SevenSegmentDisplay.SetDigit | projects_src/time_7seg_multiplex/src/seven_segment.rs:225-310 | clears, then lights the arm's segments; when it passes, the lit segments are exactly the digit's pattern; the digit lines are kept; it keeps the display owning exactly its pins |
| MuxSevenSegment.SevenSegmentDisplay.LightSegments | projects_src/time_7seg_multiplex/src/seven_segment.rs:229-307 | writes Active to each listed segment in order, stopping at the first failure; it keeps the display owning exactly its pins |
| MuxSevenSegment.SevenSegmentDisplay.SetDecimalPoint | projects_src/time_7seg_multiplex/src/seven_segment.rs:319-321 | one write to DP: Active when the state is true, Inactive otherwise; no other line changes; it keeps the display owning exactly its pins |
| MuxSevenSegment.SevenSegmentDisplay.Drop | projects_src/time_7seg_multiplex/src/seven_segment.rs:325-329 | issues `clear_all` and ignores its result; when every segment line works, nothing is left lit; it keeps the display owning exactly its pins |
| MuxSevenSegment.PinTablesInvert | projects_src/time_7seg_multiplex/src/seven_segment.rs:37-75 | reading a segment or digit back from its GPIO number gives that segment or digit, and never one of the other kind |
| MuxSevenSegment.PinTablesInjective | projects_src/time_7seg_multiplex/src/seven_segment.rs:37-75 | the twelve GPIO numbers are pairwise distinct |
| MuxSevenSegment.PinsResolve | projects_src/time_7seg_multiplex/src/seven_segment.rs:149-158 | every pin of the display resolves to a chip line |
| MuxSevenSegment.RequestListsCover | projects_src/time_7seg_multiplex/src/seven_segment.rs:106-137 | the two request loops cover exactly the display's pins |
| MuxSevenSegment.AllSegmentsListed | projects_src/time_7seg_multiplex/src/seven_segment.rs:184-187 | every segment is in the request list and in the clear list; every digit is in the digit list |
| MuxSevenSegment.InitialLineAt | projects_src/time_7seg_multiplex/src/seven_segment.rs:112-137 | a fresh display owns exactly its pins: segment lines start Inactive and digit lines start Active |
| MuxSevenSegment.InitialLinesKeys | projects_src/time_7seg_multiplex/src/seven_segment.rs:102-140 | a fresh display owns exactly the twelve pins |
| MuxSevenSegment.InitialDisplayDark | projects_src/time_7seg_multiplex/src/seven_segment.rs:119-133 | a fresh display lights nothing and selects no position |
| MuxSevenSegment.SegmentWritesMissDigits | projects_src/time_7seg_multiplex/src/seven_segment.rs:168-176 | segment writes never touch a digit line |
| MuxSevenSegment.ClearKeepsDigits | projects_src/time_7seg_multiplex/src/seven_segment.rs:182-194 | `clear_all` keeps every digit line |
| MuxSevenSegment.ClearBlanks | projects_src/time_7seg_multiplex/src/seven_segment.rs:182-194 | after `clear_all` no segment is lit |
| MuxSevenSegment.EnableKeepsSegments | projects_src/time_7seg_multiplex/src/seven_segment.rs:203-216 | `enable_digit` keeps every segment line |
| MuxSevenSegment.EnableSelects | projects_src/time_7seg_multiplex/src/seven_segment.rs:203-216 | when `enable_digit` passes, exactly the target position is selected |
| MuxSevenSegment.EnableLineAt | projects_src/time_7seg_multiplex/src/seven_segment.rs:211-212 | each digit line ends Inactive if it is the target and Active otherwise |
| MuxSevenSegment.KeptSelection | projects_src/time_7seg_multiplex/src/seven_segment.rs:168-176 | keeping the digit lines keeps the selection |
| MuxSevenSegment.KeptSegments | projects_src/time_7seg_multiplex/src/seven_segment.rs:205-213 | keeping the segment lines keeps what is lit |
| MuxSevenSegment.SegmentWriteShows | projects_src/time_7seg_multiplex/src/seven_segment.rs:168-176 | setting one segment line lights or darkens exactly that segment and keeps the selection |
| MuxSevenSegment.EnableEffect | projects_src/time_7seg_multiplex/src/seven_segment.rs:203-216 | `enable_digit` keeps the segments and, when it passes, selects the target alone |
| MuxSevenSegment.EnableOverlaps | projects_src/time_7seg_multiplex/src/seven_segment.rs:205-213 | moving the selection from another position to D1 first selects D1 while the old position is still selected, because D1 is written first |
| MuxSevenSegment.SetDigitKeepsDigits | projects_src/time_7seg_multiplex/src/seven_segment.rs:225-310 | `set_digit` never changes a digit line |
| MuxSevenSegment.SegmentListsDistinct | projects_src/time_7seg_multiplex/src/seven_segment.rs:229-307 | neither the clear list nor any arm of the match writes a segment twice |
| MuxSevenSegment.ApplyWritesDistinctSegments | projects_src/time_7seg_multiplex/src/seven_segment.rs:189-191 | writing one value to distinct segments sets exactly those segments |
| MuxSevenSegment.ClearPosition | projects_src/time_7seg_multiplex/src/seven_segment.rs:184-187 | every segment has a place in the clear order |
| MuxSevenSegment.ClearOwnsSegments | projects_src/time_7seg_multiplex/src/seven_segment.rs:189-191 | a passing `clear_all` shows that all eight segment lines are owned |
| MuxSevenSegment.SetDigitOwnsSegments | projects_src/time_7seg_multiplex/src/seven_segment.rs:227 | a passing `set_digit` shows that all eight segment lines are owned |
| MuxSevenSegment.SetDigitLightsAt | projects_src/time_7seg_multiplex/src/seven_segment.rs:225-310 | after `set_digit` a segment line is Active exactly when its segment is in the digit's arm |
| MuxSevenSegment.SetDigitLights | projects_src/time_7seg_multiplex/src/seven_segment.rs:225-310 | the lit segments after `set_digit` are exactly the digit's pattern; a digit above 10 is blank |
| MuxSevenSegment.SetDigitShows | projects_src/time_7seg_multiplex/src/seven_segment.rs:225-310 | when `set_digit` passes, the display shows exactly the digit's pattern |
| MuxSevenSegment.SetDigitTwice | projects_src/time_7seg_multiplex/src/seven_segment.rs:225-310 | a second `set_digit` of the same digit changes no line; it passes again because a line that worked once keeps working in the model |
| MuxSevenSegment.DigitsMatchGlyphs | projects_src/time_7seg_multiplex/src/seven_segment.rs:229-298 | the arms for 0 to 9 light exactly the segments of the conventional glyph codes, and never DP |
| MuxSevenSegment.LowGlyphs | projects_src/time_7seg_multiplex/src/seven_segment.rs:230-261 | the same for the digits 0 to 4 |
| MuxSevenSegment.HighGlyphs | projects_src/time_7seg_multiplex/src/seven_segment.rs:262-298 | the same for the digits 5 to 9 |
| CounterSevenSegment.SevenSegmentDisplay.constructor | projects_src/counter_7seg/src/seven_segment.rs:31-33 | a display owns the given lines and has a trace that starts empty |
| CounterSevenSegment.SevenSegmentDisplay.New | projects_src/counter_7seg/src/seven_segment.rs:36-58 | succeeds exactly when none of the eight segment lines is refused, with all of them Inactive; otherwise fails naming the first refused pin in request order |
| CounterSevenSegment.SevenSegmentDisplay.SetSegment | projects_src/counter_7seg/src/seven_segment.rs:72-80 | one write to a raw GPIO number; it passes exactly when that line is owned and working; it keeps the display owning exactly its pins |
| CounterSevenSegment.SevenSegmentDisplay.ClearAll | projects_src/counter_7seg/src/seven_segment.rs:82-94 | writes Inactive to A,B,C,D,DP,E,F,G in that order, stopping at the first failure; it keeps the display owning exactly its pins |
| CounterSevenSegment.SevenSegmentDisplay.WriteAll | projects_src/counter_7seg/src/seven_segment.rs:89-91 | writes one value to each listed pin in order, stopping at the first failure; it keeps the display owning exactly its pins |
| CounterSevenSegment.SevenSegmentDisplay.SetDigit | projects_src/counter_7seg/src/seven_segment.rs:96-181 | clears, then writes the arm's pins Active; it keeps the display owning exactly its pins |
| CounterSevenSegment.SevenSegmentDisplay.SetDecimalPoint | projects_src/counter_7seg/src/seven_segment.rs:183-185 | one write to the DP pin: Active when the state is true, Inactive otherwise; it keeps the display owning exactly its pins |
| CounterSevenSegment.SevenSegmentDisplay.Drop | projects_src/counter_7seg/src/seven_segment.rs:188-192 | issues `clear_all` and ignores its result; when every segment line works, nothing is left lit; it keeps the display owning exactly its pins |
| CounterSevenSegment.PinsResolve | projects_src/counter_7seg/src/seven_segment.rs:40-55 | every requested pin resolves, and the request list covers exactly the eight segment pins |
| CounterSevenSegment.InitialLineAt | projects_src/counter_7seg/src/seven_segment.rs:45-55 | a fresh display owns exactly the segment pins, all Inactive |
| CounterSevenSegment.InitialLinesKeys | projects_src/counter_7seg/src/seven_segment.rs:36-58 | a fresh display owns exactly the eight segment pins |
| CounterSevenSegment.InitialDisplayDark | projects_src/counter_7seg/src/seven_segment.rs:51 | a fresh display lights nothing |
| CounterSevenSegment.PinListsDistinct | projects_src/counter_7seg/src/seven_segment.rs:84-177 | the clear list and every arm write each pin at most once; the arms use segment pins only, never DP |
| CounterSevenSegment.ClearPosition | projects_src/counter_7seg/src/seven_segment.rs:84-87 | every segment pin has a place in the clear order |
| CounterSevenSegment.ClearBlanks | projects_src/counter_7seg/src/seven_segment.rs:82-94 | after a passing `clear_all` no segment is lit |
| CounterSevenSegment.ClearOwnsSegments | projects_src/counter_7seg/src/seven_segment.rs:89-91 | a passing `clear_all` shows that all eight segment pins are owned |
| CounterSevenSegment.SetDigitLightsAt | projects_src/counter_7seg/src/seven_segment.rs:96-181 | after `set_digit` a segment pin is Active exactly when the digit's arm writes it |
| CounterSevenSegment.SetDigitLights | projects_src/counter_7seg/src/seven_segment.rs:96-181 | the lit pins after `set_digit` are exactly the arm's pins; a digit above 10 is blank |
| CounterSevenSegment.SetDigitShows | projects_src/counter_7seg/src/seven_segment.rs:96-181 | when `set_digit` passes, the lit pins are exactly the arm's pins |
| CounterSevenSegment.SetDigitTwice | projects_src/counter_7seg/src/seven_segment.rs:96-181 | a second `set_digit` of the same digit changes no line; it passes again because a line that worked once keeps working in the model |
| CounterSevenSegment.TablesAgree | projects_src/counter_7seg/src/seven_segment.rs:100-178 | the single-digit driver issues the same writes as the multiplexed one, in the clear order and in every arm |
| Clock.CurrentTime | projects_src/time_7seg_multiplex/src/digital_clock.rs:26-47 | minutes are below 60; hours are below 24 in the 24-hour format and 1 to 12 in the 12-hour one |
| Clock.SweepStuck | projects_src/time_7seg_multiplex/src/digital_clock.rs:61-69 | once a position's step fails, the sweep issues nothing more |
| Clock.DigitalClock.constructor | projects_src/time_7seg_multiplex/src/digital_clock.rs:15-18 | a clock holds the given display and format |
| Clock.DigitalClock.New | projects_src/time_7seg_multiplex/src/digital_clock.rs:21-24 | succeeds exactly when the display can be acquired, with a fresh, dark display; otherwise fails naming the first refused pin in request order |
| Clock.DigitalClock.ShowPosition | projects_src/time_7seg_multiplex/src/digital_clock.rs:62-67 | one turn of the sweep: DP before D3, then the position is enabled and its digit set, ending in the position's run |
| Clock.DigitalClock.Lead | projects_src/time_7seg_multiplex/src/digital_clock.rs:62-65 | sets DP Active before D3 and writes nothing before the other positions |
| Clock.DigitalClock.Draw | projects_src/time_7seg_multiplex/src/digital_clock.rs:66-67 | enables the position, then sets its digit unless enabling failed |
| Clock.DigitalClock.DisplayTime | projects_src/time_7seg_multiplex/src/digital_clock.rs:49-72 | one sweep over D1 to D4 with the digits of the current time, with DP set before D3, ending in the time's run |
| Clock.DigitalClock.RunSweeps | projects_src/time_7seg_multiplex/src/digital_clock.rs:74-78 | one sweep per clock reading, stopping at the first failure |
| Clock.PositionRunWrites | projects_src/time_7seg_multiplex/src/digital_clock.rs:66-67 | a position's run is the run of one plan of writes |
| Clock.SweepRunWrites | projects_src/time_7seg_multiplex/src/digital_clock.rs:61-69 | a sweep's run is the run of one plan of writes |
| Clock.SweepsRunWrites | projects_src/time_7seg_multiplex/src/digital_clock.rs:74-78 | a series of sweeps is the run of one plan of writes |
| Clock.PositionShows | projects_src/time_7seg_multiplex/src/digital_clock.rs:66-67 | after a passing position step, exactly that position is selected and it shows the digit's pattern |
| Clock.SweepShows | projects_src/time_7seg_multiplex/src/digital_clock.rs:61-69 | after a passing sweep, D4 is selected and shows the last minute digit |
| Clock.DecimalPointFollowsHours | projects_src/time_7seg_multiplex/src/digital_clock.rs:62-66 | the DP write lands while D2 is still selected, so D2 shows its digit with the point; enabling D3 then shows the same segments on D3 |
| Clock.HoursMinutesIff | projects_src/time_7seg_multiplex/src/digital_clock.rs:33-35 | (h, m) is the time of day of a reading exactly when h < 24, m < 60 and the second of the day falls in that minute |
| Clock.DisplayHourAgrees | projects_src/time_7seg_multiplex/src/digital_clock.rs:37-44 | in the 12-hour format the hour is 1 to 12 and agrees with the 24-hour hour modulo 12; in the 24-hour format it is unchanged |
| Clock.TimeDigitsSpell | projects_src/time_7seg_multiplex/src/digital_clock.rs:52-57 | four decimal digits that spell the hour and the minute, with a tens-of-hours digit at most 2 and a tens-of-minutes digit at most 5 |
| Clock.HoursMinutesRange | projects_src/time_7seg_multiplex/src/digital_clock.rs:33-35 | the hour is below 24 and the minute below 60 |
| Counting.Ascending | projects_src/counter_7seg/src/counter.rs:44 | the values `lo..=hi` in increasing order |
| Counting.Descending | projects_src/counter_7seg/src/counter.rs:61 | the values `(lo..=hi).rev()`, from `hi` down |
| Counting.Counter.constructor | projects_src/counter_7seg/src/counter.rs:21-23 | a counter holds the given display |
| Counting.Counter.New | projects_src/counter_7seg/src/counter.rs:30-33 | succeeds exactly when the display can be acquired, with a fresh, dark display; otherwise fails naming the first refused pin in request order |
| Counting.Counter.Show | projects_src/counter_7seg/src/counter.rs:44-47 | `set_digit` for each digit in turn, stopping at the first failure |
| Counting.Counter.Rounds | projects_src/counter_7seg/src/counter.rs:43-48 | whole rounds of one cycle of digits, stopping at the first failure |
| Counting.Counter.CountUp | projects_src/counter_7seg/src/counter.rs:42-49 | rounds of 0 to 10 |
| Counting.Counter.CountDown | projects_src/counter_7seg/src/counter.rs:58-66 | rounds of 10 down to 0 |
| Counting.Counter.CountUpDown | projects_src/counter_7seg/src/counter.rs:75-87 | rounds of 0 to 9, then 10 down to 1 |
| Counting.Counter.TwoLegRounds | projects_src/counter_7seg/src/counter.rs:77-86 | rounds of a rising leg followed by a falling leg |
| Counting.Counter.TwoLegs | projects_src/counter_7seg/src/counter.rs:78-85 | one rising leg and then one falling leg |
| Counting.Counter.CountRandom | projects_src/counter_7seg/src/counter.rs:96-104 | `set_digit` for each draw in turn, every draw below 10 |
| Counting.RoundsRunCounts | projects_src/counter_7seg/src/counter.rs:43-48 | `rounds` rounds of a cycle are the run of the cycle repeated `rounds` times |
| Counting.CountRunAppend | projects_src/counter_7seg/src/counter.rs:78-85 | counting through `a + b` is counting through `a`, then through `b` if nothing failed |
| Counting.CountRunWrites | projects_src/counter_7seg/src/counter.rs:44-47 | counting is the run of one plan of writes |
| Counting.CountShowsLast | projects_src/counter_7seg/src/counter.rs:44-47 | after counting through digits without failure, the display shows the last one |
| Counting.UpCycleSteps | projects_src/counter_7seg/src/counter.rs:44 | counting up runs from 0 to 10 in steps of one |
| Counting.DownReversesUp | projects_src/counter_7seg/src/counter.rs:61 | counting down is counting up reversed |
| Counting.UpDownSteps | projects_src/counter_7seg/src/counter.rs:78-85 | the up-down cycle has 20 steps of one, starts at 0, ends at 1 so the next round continues by one step, and hits 0 and 10 once each |
| Counting.RiseFallSteps | projects_src/counter_7seg/src/counter.rs:78-85 | the same for any bounds `lo < hi` |
| Decimal.DigitValue | projects_src/counter_7seg/src/main.rs:28 | the value of a decimal digit is below 10 |
| Decimal.DigitChar | projects_src/BBB_user_led/src/main.rs:121 | the character of a digit value is a decimal digit with that value |
| Decimal.Show | projects_src/BBB_user_led/src/main.rs:92 | decimal text is non-empty, all digits, and starts with 0 only for zero |
| Decimal.NumberOfShow | projects_src/counter_7seg/src/main.rs:28 | reading back the decimal text of n gives n |
| Decimal.ShowInjective | projects_src/BBB_user_led/src/main.rs:92 | different numbers have different decimal texts |
| Decimal.LeadingZero | projects_src/counter_7seg/src/main.rs:28 | leading zeros do not change the value read |
| CounterMain.ParseU64 | projects_src/counter_7seg/src/main.rs:28 | an accepted delay fits 64 bits and starts with a digit or `+` |
| CounterMain.Launch | projects_src/counter_7seg/src/main.rs:17-53 | no arguments at all panics; other than three arguments, finishes; a bad delay fails before the display is acquired; a refused line fails naming the first refused pin; otherwise the mode runs from a dark display and ends `StillCounting` with the clamped delay and the run's lines, or fails with the display's error after the drop has issued `clear_all`; an unknown direction finishes after the drop has issued `clear_all` |
| CounterMain.RunMode | projects_src/counter_7seg/src/main.rs:35-49 | each direction calls its counting mode |
| CounterMain.ParseShow | projects_src/counter_7seg/src/main.rs:28 | every 64-bit value parses back from its text, with or without `+` |
| CounterMain.ParseRejectsSigns | projects_src/counter_7seg/src/main.rs:28 | a leading `-` or a lone `+` is refused |
| CounterMain.ParseRejectsOverflow | projects_src/counter_7seg/src/main.rs:28 | values of 2^64 and above are refused |
| CounterMain.ModeNames | projects_src/counter_7seg/src/main.rs:35-49 | up, down, updown and random are the only directions accepted, each naming its own mode |
| CounterMain.ClampBounds | projects_src/counter_7seg/src/main.rs:30-33 | the clamped delay is at most 9999, keeps every delay up to 9999, and clamping twice changes nothing |
| ClockMain.Launch | projects_src/time_7seg_multiplex/src/main.rs:8-46 | no arguments at all panics; help or too few arguments finishes; more than three arguments finish; an option other than `-f` or a format other than 12h/24h fails with its message; a refused line fails naming the first refused pin; otherwise the clock sweeps and ends `StillRunning` with the sweeps' lines, or fails with the display's error after the drop has issued `clear_all` |
| ClockMain.FormatNames | projects_src/time_7seg_multiplex/src/main.rs:28-32 | "12h" and "24h" are the only formats accepted, each naming its own format |
| UserLed.Sysfs.constructor | projects_src/BBB_user_led/src/main.rs:94-96 | a sysfs tree with the given files and unwritable paths |
| UserLed.AttributePath | projects_src/BBB_user_led/src/main.rs:91-92 | the path built is the attribute path of the LED |
| UserLed.WriteTriggerValues | projects_src/BBB_user_led/src/main.rs:89-102 | replaces the trigger attribute's content with the name when the file can be opened for writing; otherwise fails and changes nothing |
| UserLed.WriteBrightnessValues | projects_src/BBB_user_led/src/main.rs:112-125 | replaces the brightness attribute's content with the single character `'0' + v`; an unopenable file fails and changes nothing |
| UserLed.ProcessTriggerValue | projects_src/BBB_user_led/src/main.rs:52-60 | the five trigger names are written; anything else is refused and changes nothing |
| UserLed.ProcessBrightnessValue | projects_src/BBB_user_led/src/main.rs:69-79 | "0" and "1" are written back as the same character; anything else is refused and changes nothing |
| UserLed.Dispatch | projects_src/BBB_user_led/src/main.rs:12-43 | fewer than two arguments, or trigger or brightness without a value, panic and write nothing; trigger and brightness go to their handlers; help and info write nothing; any other option is refused |
| UserLed.UserLedPath | projects_src/BBB_user_led/src/main.rs:5 | the program writes to the attributes of `beaglebone:green:usr3` under `/sys/class/leds` |
| UserLed.LedPathsDistinct | projects_src/BBB_user_led/src/main.rs:114-115 | different LEDs, or different attributes of one LED, are different files |

## Left out

- The GPIO character-device library is not part of this model, and neither
  is `counter_7seg/src/gpio.rs`. A line request is refused when its pin is in
  `refused`. A `set_value` fails when its pin is in `failing`. The driver's
  error text becomes an `Error` value naming the pin.
- `thread::sleep` calls are left out. The `delay` argument of the counting
  modes only sets their timing, so the counting methods do not take it.
- The `loop { ... }` of the counting modes and of `DigitalClock::run` never
  ends unless a call fails. The model runs a finite number of rounds,
  readings or draws. A run in which no call failed ends `StillCounting` or
  `StillRunning`.
- `SystemTime::now()` becomes the `clock` input, in seconds since the epoch.
  A reading before the epoch counts as zero, as `unwrap_or_default` does.
- `rand::rng().random_range(0..10)` becomes the `draws` input, each draw
  below 10. The doc comment of `count_random` says 0 to 10 inclusive. The
  model follows the code, which never draws 10.
- `println!` output and the usage texts are left out. `env::args()` becomes
  the `args` parameter.
- Gpio.PerformTwice, MuxSevenSegment.SetDigitTwice, CounterSevenSegment.SetDigitTwice:
  the `failing` set is fixed for the life of a display, so a line that
  worked once never fails later. That the second run passes again follows
  from this modelling choice. That it leaves the lines unchanged
  (`Gpio.ApplyTwice`) is a property of the code.
- UserLed.WriteBrightnessValues: `b'0' + v` overflows a `u8` above 207. The
  only caller passes 0 or 1, so the model requires `v <= 207`.
- UserLed: `OpenOptions::new().write(true)` does not truncate. On a regular
  file, a shorter value would leave the old tail in place. The model follows
  the sysfs attribute store, where one write replaces the attribute's value,
  so a write replaces the whole content.
- UserLed: file content is kept as characters. Every value written is
  ASCII. A failing `write_all` is folded into the failure to open, through
  the `unwritable` paths.
- The second `info` arm of the user-LED `main` can never be taken. The model
  shows it as dead code.
- Digit 10 is the extra glyph A, G, E, D, C that both drivers light. It has
  no conventional glyph code, so the glyph comparison covers 0 to 9 only.
  Digits above 10 light nothing.
- Integer widths:
  - The clock's `u8` casts never wrap, because hours stay below 24 and
    minutes below 60.
  - The counter's digits stay below 11.
  - GPIO numbers are at most 639.
  - So the model uses unbounded naturals throughout.
