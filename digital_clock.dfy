/**
 * The four-digit wall clock of the multiplexed display: the time of day
 * from a count of seconds since the Unix epoch, in 12- or 24-hour form,
 * and the sweep over the four digit positions that shows hours and
 * minutes, with the decimal point between them.
 *
 * The wall clock is an input (`clock`, whole seconds since the epoch,
 * negative before it); the pauses between writes are not modelled.
 */
module Clock {
  import opened Gpio
  import opened MuxSevenSegment

  datatype ClockFormat = TwelveHour | TwentyFourHour

  const SECONDS_PER_MINUTE: nat := 60
  const SECONDS_PER_HOUR: nat := 60 * 60
  const SECONDS_PER_DAY: nat := 60 * 60 * 24

  /** `duration_since(UNIX_EPOCH).unwrap_or_default().as_secs()`: a clock
      before the epoch reads as zero seconds. */
  function SinceEpoch(clock: int): nat
  {
    if clock < 0 then 0 else clock
  }

  /** The hour (0 to 23) and minute (0 to 59) of the UTC day of `now`. */
  function HoursMinutes(now: nat): (nat, nat)
  {
    var seconds := now % SECONDS_PER_DAY;
    (seconds / SECONDS_PER_HOUR, (seconds % SECONDS_PER_HOUR) / SECONDS_PER_MINUTE)
  }

  /** The hour as shown in the given format. */
  function DisplayHour(format: ClockFormat, hours: nat): nat
  {
    match format
    case TwelveHour => if hours == 0 then 12 else if hours > 12 then hours - 12 else hours
    case TwentyFourHour => hours
  }

  /** `get_current_time`: the displayed hour and the minute. Both fit the
      `u8` the source casts them to. */
  function CurrentTime(format: ClockFormat, clock: int): (t: (nat, nat))
    ensures t.1 < 60
    ensures format == TwentyFourHour ==> t.0 < 24
    ensures format == TwelveHour ==> 1 <= t.0 <= 12
  {
    var hm := HoursMinutes(SinceEpoch(clock));
    HoursMinutesRange(SinceEpoch(clock));
    (DisplayHour(format, hm.0), hm.1)
  }

  /** The four digits `display_time` shows: tens and units of the hour,
      then of the minute. */
  function TimeDigits(t: (nat, nat)): seq<nat>
  {
    [t.0 / 10, t.0 % 10, t.1 / 10, t.1 % 10]
  }

  // One sweep over the display, call by call.

  /** The writes `display_time` makes before selecting `position`: the decimal point before D3. */
  function LeadRun(lines: map<nat, Line>, failing: set<nat>, position: Digit): Run
  {
    if position == D3 then Perform(lines, failing, SetSegmentPlan(DP, Active)) else Run(lines, [], Pass)
  }

  /** The run of one turn of `display_time`'s loop, call by call. */
  function PositionRun(lines: map<nat, Line>, failing: set<nat>, position: Digit, digit: nat): Run
  {
    var lead := LeadRun(lines, failing, position);
    var enabled := Then(lead, Perform(lead.lines, failing, EnablePlan(position)));
    Then(enabled, Perform(enabled.lines, failing, SetDigitPlan(digit)))
  }

  /** The run of the first `n` positions of a sweep showing `digits`. */
  function SweepRun(lines: map<nat, Line>, failing: set<nat>, digits: seq<nat>, n: nat): Run
    requires |digits| == |DIGITS| && n <= |digits|
  {
    if n == 0 then Run(lines, [], Pass)
    else
      var prev := SweepRun(lines, failing, digits, n - 1);
      Then(prev, PositionRun(prev.lines, failing, DIGITS[n - 1], digits[n - 1]))
  }

  lemma {:induction false} SweepStuck(lines: map<nat, Line>, failing: set<nat>, digits: seq<nat>, n: nat, m: nat)
    requires |digits| == |DIGITS| && n <= m <= |digits|
    requires SweepRun(lines, failing, digits, n).outcome.Fail?
    ensures SweepRun(lines, failing, digits, m) == SweepRun(lines, failing, digits, n)
    decreases m
  {
    if m > n {
      SweepStuck(lines, failing, digits, n, m - 1);
    }
  }

  class DigitalClock {
    const display: SevenSegmentDisplay
    const format: ClockFormat

    constructor (display: SevenSegmentDisplay, format: ClockFormat)
      ensures this.display == display && this.format == format
    {
      this.display := display;
      this.format := format;
    }

    /** `DigitalClock::new`: acquire the display, then keep the format. */
    static method New(format: ClockFormat, refused: set<nat>, failing: set<nat>) returns (r: Result<DigitalClock>)
      ensures r.Ok? <==> forall p | p in AllPins() :: p !in refused
      ensures r.Ok? ==> fresh(r.value) && fresh(r.value.display) && r.value.format == format
      ensures r.Ok? ==> r.value.display.lines == InitialLines() && r.value.display.trace == []
      ensures r.Ok? ==> r.value.display.failing == failing
      ensures r.Err? ==> exists p | p in AllPins() :: p in refused && r.error == RequestRefused(p)
      ensures r.Err? ==> exists k: nat :: FirstRefused(RequestOrder(), refused, k) && r.error == RequestRefused(RequestOrder()[k])
    {
      var display := SevenSegmentDisplay.New(refused, failing);
      if display.Err? {
        return Err(display.error);
      }
      var clock := new DigitalClock(display.value, format);
      r := Ok(clock);
    }

    /** One turn of `display_time`'s loop: the decimal point before D3,
        then the position is selected and `digit` drawn on it. */
    method ShowPosition(position: Digit, digit: nat) returns (r: Outcome)
      modifies display
      ensures display.Reached(PositionRun(old(display.lines), display.failing, position, digit), r)
    {
      ghost var t0 := display.trace;
      ghost var lead := LeadRun(display.lines, display.failing, position);
      r := Lead(position);
      if r.Fail? {
        return;
      }
      ghost var enabled := Perform(display.lines, display.failing, EnablePlan(position));
      ghost var drawn := Perform(enabled.lines, display.failing, SetDigitPlan(digit));
      r := Draw(position, digit);
      ThenAssociates(lead, enabled, drawn);
      Associate(t0, lead.applied, Then(enabled, drawn).applied);
    }

    /** The decimal point `display_time` lights before D3, and nothing before the other positions. */
    method Lead(position: Digit) returns (r: Outcome)
      modifies display
      ensures display.Reached(LeadRun(old(display.lines), display.failing, position), r)
    {
      if position == D3 {
        PerformSingle(display.lines, display.failing, Write(DP.GpioNumber(), Active));
        r := display.SetSegment(DP, Active);
      } else {
        r := Pass;
      }
    }

    /** `enable_digit` for the position, then `set_digit` unless it failed. */
    method Draw(position: Digit, digit: nat) returns (r: Outcome)
      modifies display
      ensures var enabled := Perform(old(display.lines), display.failing, EnablePlan(position));
              display.Reached(Then(enabled, Perform(enabled.lines, display.failing, SetDigitPlan(digit))), r)
    {
      ghost var t0 := display.trace;
      ghost var enabled := Perform(display.lines, display.failing, EnablePlan(position));
      r := display.EnableDigit(position);
      if r.Fail? {
        return;
      }
      ghost var drawn := Perform(display.lines, display.failing, SetDigitPlan(digit));
      r := display.SetDigit(digit);
      Associate(t0, enabled.applied, drawn.applied);
    }

    /** `display_time` for the wall-clock reading `clock`: D1 to D4 in turn,
        stopping at the first failing call. */
    method DisplayTime(clock: int) returns (r: Outcome)
      modifies display
      ensures display.Reached(TimeRun(old(display.lines), display.failing, format, clock), r)
    {
      var time := CurrentTime(format, clock);
      var hours, minutes := time.0, time.1;
      var digits := [hours / 10, hours % 10, minutes / 10, minutes % 10];
      ghost var l0, t0 := display.lines, display.trace;
      ghost var done: seq<Write> := [];
      var i := 0;
      r := Pass;
      while i < |DIGITS|
        invariant 0 <= i <= |DIGITS|
        invariant SweepRun(l0, display.failing, digits, i) == Run(display.lines, done, Pass)
        invariant display.trace == t0 + done
        invariant r == Pass
      {
        ghost var st := PositionRun(display.lines, display.failing, DIGITS[i], digits[i]);
        r := ShowPosition(DIGITS[i], digits[i]);
        Associate(t0, done, st.applied);
        if r.Fail? {
          SweepStuck(l0, display.failing, digits, i + 1, |digits|);
          return;
        }
        done := done + st.applied;
        i := i + 1;
      }
    }

    /** `run`, over a finite series of clock readings: one sweep per reading,
        stopping at the first error. The source repeats forever, so it can
        only ever return an error; here `Pass` means no sweep failed. */
    method RunSweeps(clocks: seq<int>) returns (r: Outcome)
      modifies display
      ensures display.Reached(SweepsRun(old(display.lines), display.failing, format, clocks), r)
    {
      ghost var l0, t0 := display.lines, display.trace;
      ghost var done: seq<Write> := [];
      var k := 0;
      r := Pass;
      while k < |clocks|
        invariant 0 <= k <= |clocks|
        invariant Then(Run(display.lines, done, Pass), SweepsRun(display.lines, display.failing, format, clocks[k..]))
                  == SweepsRun(l0, display.failing, format, clocks)
        invariant display.trace == t0 + done
        invariant r == Pass
      {
        ghost var first := TimeRun(display.lines, display.failing, format, clocks[k]);
        assert clocks[k..][0] == clocks[k] && clocks[k..][1..] == clocks[k + 1..];
        r := DisplayTime(clocks[k]);
        Associate(t0, done, first.applied);
        if r.Fail? {
          return;
        }
        Associate(done, first.applied, SweepsRun(display.lines, display.failing, format, clocks[k + 1..]).applied);
        done := done + first.applied;
        k := k + 1;
      }
      assert done + [] == done;
    }
  }

  /** The run of one `display_time` for the reading `clock`. */
  function TimeRun(lines: map<nat, Line>, failing: set<nat>, format: ClockFormat, clock: int): Run
  {
    var digits := TimeDigits(CurrentTime(format, clock));
    SweepRun(lines, failing, digits, |digits|)
  }

  /** The run of one sweep per reading, in order, up to the first failure. */
  function SweepsRun(lines: map<nat, Line>, failing: set<nat>, format: ClockFormat, clocks: seq<int>): Run
    decreases |clocks|
  {
    if clocks == [] then Run(lines, [], Pass)
    else
      var first := TimeRun(lines, failing, format, clocks[0]);
      Then(first, SweepsRun(first.lines, failing, format, clocks[1..]))
  }

  // The same runs as one sequence of writes each.

  /** The writes `display_time` issues for one digit position: the decimal
      point is switched on just before D3 is selected, then the position is
      selected and its digit drawn. */
  function PositionPlan(position: Digit, digit: nat): seq<Write>
  {
    (if position == D3 then SetSegmentPlan(DP, Active) else []) + EnablePlan(position) + SetDigitPlan(digit)
  }

  /** The writes of the first `n` positions of a sweep showing `digits`. */
  function SweepPlan(digits: seq<nat>, n: nat): seq<Write>
    requires |digits| == |DIGITS| && n <= |digits|
  {
    if n == 0 then [] else SweepPlan(digits, n - 1) + PositionPlan(DIGITS[n - 1], digits[n - 1])
  }

  /** The writes of one `display_time` for the reading `clock`. */
  function TimePlan(format: ClockFormat, clock: int): seq<Write>
  {
    var digits := TimeDigits(CurrentTime(format, clock));
    SweepPlan(digits, |digits|)
  }

  /** The writes of one sweep per reading, in order. */
  function SweepsPlan(format: ClockFormat, clocks: seq<int>): seq<Write>
    decreases |clocks|
  {
    if clocks == [] then [] else TimePlan(format, clocks[0]) + SweepsPlan(format, clocks[1..])
  }

  /** One turn of the loop performs its writes, in order, up to the first
      that fails. */
  lemma PositionRunWrites(lines: map<nat, Line>, failing: set<nat>, position: Digit, digit: nat)
    ensures PositionRun(lines, failing, position, digit) == Perform(lines, failing, PositionPlan(position, digit))
  {
    var lead: seq<Write> := if position == D3 then SetSegmentPlan(DP, Active) else [];
    PerformThen(lines, failing, lead, EnablePlan(position));
    PerformThen(lines, failing, lead + EnablePlan(position), SetDigitPlan(digit));
    if position != D3 {
      assert lead + EnablePlan(position) == EnablePlan(position);
    }
  }

  /** A partial sweep performs the writes of its positions, in order. */
  lemma {:induction false} SweepRunWrites(lines: map<nat, Line>, failing: set<nat>, digits: seq<nat>, n: nat)
    requires |digits| == |DIGITS| && n <= |digits|
    ensures SweepRun(lines, failing, digits, n) == Perform(lines, failing, SweepPlan(digits, n))
    decreases n
  {
    if n > 0 {
      SweepRunWrites(lines, failing, digits, n - 1);
      var prev := SweepRun(lines, failing, digits, n - 1);
      PositionRunWrites(prev.lines, failing, DIGITS[n - 1], digits[n - 1]);
      PerformThen(lines, failing, SweepPlan(digits, n - 1), PositionPlan(DIGITS[n - 1], digits[n - 1]));
    }
  }

  /** Repeated sweeps perform the writes of all their sweeps, in order, up
      to the first that fails. */
  lemma {:induction false} SweepsRunWrites(lines: map<nat, Line>, failing: set<nat>, format: ClockFormat, clocks: seq<int>)
    ensures SweepsRun(lines, failing, format, clocks) == Perform(lines, failing, SweepsPlan(format, clocks))
    decreases |clocks|
  {
    if clocks != [] {
      var digits := TimeDigits(CurrentTime(format, clocks[0]));
      SweepRunWrites(lines, failing, digits, |digits|);
      var first := TimeRun(lines, failing, format, clocks[0]);
      SweepsRunWrites(first.lines, failing, format, clocks[1..]);
      PerformThen(lines, failing, TimePlan(format, clocks[0]), SweepsPlan(format, clocks[1..]));
    }
  }

  // What the display shows.

  /** After a turn of the loop that completes, the position alone is
      selected and shows exactly the segments of its digit. */
  lemma PositionShows(lines: map<nat, Line>, failing: set<nat>, position: Digit, digit: nat)
    requires PositionRun(lines, failing, position, digit).outcome.Pass?
    ensures var run := PositionRun(lines, failing, position, digit);
            SelectedDigits(run.lines) == {position} && ActiveSegments(run.lines) == Pattern(digit)
  {
    var lead := LeadRun(lines, failing, position);
    var enabled := Then(lead, Perform(lead.lines, failing, EnablePlan(position)));
    EnableSelects(lead.lines, failing, position);
    SetDigitKeepsDigits(enabled.lines, failing, digit);
    SetDigitShows(enabled.lines, failing, digit);
    PerformKeys(enabled.lines, failing, SetDigitPlan(digit));
    KeptSelection(enabled.lines, Perform(enabled.lines, failing, SetDigitPlan(digit)).lines);
  }

  /** After a whole sweep that completes, D4 alone is selected and shows
      its digit: between sweeps the display holds the last position. */
  lemma SweepShows(lines: map<nat, Line>, failing: set<nat>, digits: seq<nat>)
    requires |digits| == |DIGITS| && SweepRun(lines, failing, digits, |digits|).outcome.Pass?
    ensures var run := SweepRun(lines, failing, digits, |digits|);
            SelectedDigits(run.lines) == {D4} && ActiveSegments(run.lines) == Pattern(digits[3])
  {
    var prev := SweepRun(lines, failing, digits, 3);
    PositionShows(prev.lines, failing, D4, digits[3]);
  }

  /** The decimal point is switched on while D2 is still selected: D2 then
      shows the units of the hour with the point, and once D3 is selected it
      briefly shows the same, until its own digit is drawn. */
  lemma DecimalPointFollowsHours(lines: map<nat, Line>, failing: set<nat>, digits: seq<nat>)
    requires |digits| == |DIGITS|
    requires SweepRun(lines, failing, digits, 2).outcome.Pass?
    ensures var prev := SweepRun(lines, failing, digits, 2);
            var lead := Perform(prev.lines, failing, SetSegmentPlan(DP, Active));
            var enabled := Perform(lead.lines, failing, EnablePlan(D3));
            && (lead.outcome.Pass? ==>
                  SelectedDigits(lead.lines) == {D2} && ActiveSegments(lead.lines) == Pattern(digits[1]) + {DP})
            && (lead.outcome.Pass? && enabled.outcome.Pass? ==>
                  SelectedDigits(enabled.lines) == {D3} && ActiveSegments(enabled.lines) == Pattern(digits[1]) + {DP})
  {
    var first := SweepRun(lines, failing, digits, 1);
    PositionShows(first.lines, failing, D2, digits[1]);
    var prev := SweepRun(lines, failing, digits, 2);
    var w := Write(DP.GpioNumber(), Active);
    PerformSingle(prev.lines, failing, w);
    var lead := Perform(prev.lines, failing, SetSegmentPlan(DP, Active));
    if lead.outcome.Pass? {
      SegmentWriteShows(prev.lines, DP, Active);
      EnableEffect(lead.lines, failing, D3);
      PerformKeys(lead.lines, failing, EnablePlan(D3));
      KeptSegments(lead.lines, Perform(lead.lines, failing, EnablePlan(D3)).lines);
    }
  }

  // Time of day.

  /** `HoursMinutes` reads the hour and minute of the day: `now` falls within
      minute `m` of hour `h` of its day exactly when it returns `(h, m)`. */
  lemma HoursMinutesIff(now: nat, h: nat, m: nat)
    ensures HoursMinutes(now) == (h, m) <==>
              h < 24 && m < 60 && h * SECONDS_PER_HOUR + m * SECONDS_PER_MINUTE <= now % SECONDS_PER_DAY < h * SECONDS_PER_HOUR + m * SECONDS_PER_MINUTE + SECONDS_PER_MINUTE
  {
  }

  /** In 12-hour form the hour is 1 to 12 and agrees with the hour of the
      day modulo 12; in 24-hour form it is the hour of the day. */
  lemma DisplayHourAgrees(format: ClockFormat, hours: nat)
    requires hours < 24
    ensures format == TwelveHour ==> 1 <= DisplayHour(format, hours) <= 12 && DisplayHour(format, hours) % 12 == hours % 12
    ensures format == TwentyFourHour ==> DisplayHour(format, hours) == hours
  {
  }

  /** The four digits are decimal digits spelling hours and minutes, so each
      is drawn from its own arm of `set_digit`. */
  lemma TimeDigitsSpell(format: ClockFormat, clock: int)
    ensures var t := CurrentTime(format, clock);
            var digits := TimeDigits(t);
            && |digits| == |DIGITS|
            && (forall i | 0 <= i < |digits| :: digits[i] < 10)
            && 10 * digits[0] + digits[1] == t.0 && 10 * digits[2] + digits[3] == t.1
            && digits[0] <= 2 && digits[2] <= 5
  {
  }

  // Time of day.

  lemma HoursMinutesRange(now: nat)
    ensures HoursMinutes(now).0 < 24 && HoursMinutes(now).1 < 60
  {
  }
}
