/**
 * The single-digit seven-segment display driven by the counter program:
 * eight segment lines (A to G and the decimal point), addressed directly
 * by their GPIO numbers.
 */
module CounterSevenSegment {
  import opened Gpio
  import Mux = MuxSevenSegment

  const GPIO_SEG_A: nat := 546
  const GPIO_SEG_B: nat := 547
  const GPIO_SEG_C: nat := 549
  const GPIO_SEG_DP: nat := 548
  const GPIO_SEG_D: nat := 525
  const GPIO_SEG_E: nat := 524
  const GPIO_SEG_F: nat := 634
  const GPIO_SEG_G: nat := 526

  /** The GPIO numbers in the order the constructor requests them. */
  const PINS: seq<nat> := [GPIO_SEG_A, GPIO_SEG_B, GPIO_SEG_C, GPIO_SEG_DP,
                           GPIO_SEG_D, GPIO_SEG_E, GPIO_SEG_F, GPIO_SEG_G]

  /** The GPIO numbers in the order `clear_all` writes them. */
  const CLEAR_PINS: seq<nat> := [GPIO_SEG_A, GPIO_SEG_B, GPIO_SEG_C, GPIO_SEG_D,
                                 GPIO_SEG_DP, GPIO_SEG_E, GPIO_SEG_F, GPIO_SEG_G]

  const SEGMENT_PINS: set<nat> := {546, 547, 549, 548, 525, 524, 634, 526}

  /** The segment lines lit for a digit, in the order `set_digit` writes them;
      10 is the extra glyph, anything above 10 is blank. */
  function ArmPins(digit: nat): seq<nat>
  {
    match digit
    case 0 => [GPIO_SEG_A, GPIO_SEG_B, GPIO_SEG_C, GPIO_SEG_D, GPIO_SEG_E, GPIO_SEG_F]
    case 1 => [GPIO_SEG_B, GPIO_SEG_C]
    case 2 => [GPIO_SEG_A, GPIO_SEG_B, GPIO_SEG_G, GPIO_SEG_E, GPIO_SEG_D]
    case 3 => [GPIO_SEG_A, GPIO_SEG_B, GPIO_SEG_G, GPIO_SEG_C, GPIO_SEG_D]
    case 4 => [GPIO_SEG_F, GPIO_SEG_B, GPIO_SEG_G, GPIO_SEG_C]
    case 5 => [GPIO_SEG_A, GPIO_SEG_F, GPIO_SEG_G, GPIO_SEG_C, GPIO_SEG_D]
    case 6 => [GPIO_SEG_A, GPIO_SEG_F, GPIO_SEG_G, GPIO_SEG_E, GPIO_SEG_C, GPIO_SEG_D]
    case 7 => [GPIO_SEG_A, GPIO_SEG_B, GPIO_SEG_C]
    case 8 => [GPIO_SEG_A, GPIO_SEG_B, GPIO_SEG_C, GPIO_SEG_D, GPIO_SEG_E, GPIO_SEG_F, GPIO_SEG_G]
    case 9 => [GPIO_SEG_A, GPIO_SEG_B, GPIO_SEG_C, GPIO_SEG_D, GPIO_SEG_F, GPIO_SEG_G]
    case 10 => [GPIO_SEG_A, GPIO_SEG_G, GPIO_SEG_E, GPIO_SEG_D, GPIO_SEG_C]
    case _ => []
  }

  /** The set of segment lines an arm lights. */
  function ArmSet(digit: nat): set<nat>
  {
    set p | p in ArmPins(digit)
  }

  /** The segment lines driven Active. */
  function LitPins(lines: map<nat, Line>): set<nat>
  {
    set p | p in SEGMENT_PINS && p in lines && lines[p].value == Active
  }

  /** The lines right after construction: all eight segments Inactive. */
  function InitialLines(): map<nat, Line>
  {
    Requested(map[], PINS, Inactive)
  }

  function ClearPlan(): seq<Write>
  {
    Writes(CLEAR_PINS, Inactive)
  }

  function SetDigitPlan(digit: nat): seq<Write>
  {
    ClearPlan() + Writes(ArmPins(digit), Active)
  }

  function DecimalPointPlan(state: bool): seq<Write>
  {
    [Write(GPIO_SEG_DP, if state then Active else Inactive)]
  }

  class SevenSegmentDisplay {
    /** The owned output lines, keyed by GPIO number. */
    var lines: map<nat, Line>
    /** Every write that took effect, oldest first. */
    var trace: seq<Write>
    /** GPIO numbers whose `set_value` fails. */
    const failing: set<nat>

    ghost predicate Valid()
      reads this
    {
      lines.Keys == SEGMENT_PINS
    }

    /** The state change of issuing `plan` from the state on entry, with result `r`. */
    twostate predicate Did(plan: seq<Write>, r: Outcome)
      reads this
    {
      var run := Perform(old(lines), failing, plan);
      lines == run.lines && trace == old(trace) + run.applied && r == run.outcome
    }

    /** The state change that ends in `run`, with result `r`. */
    twostate predicate Reached(run: Run, r: Outcome)
      reads this
    {
      lines == run.lines && trace == old(trace) + run.applied && r == run.outcome
    }

    /** The state change of issuing the single write `w`, with result `r`. */
    twostate predicate DidStep(w: Write, r: Outcome)
      reads this
    {
      var st := Step(old(lines), failing, w);
      lines == st.lines && trace == old(trace) + st.applied && r == st.outcome
    }

    constructor (lines: map<nat, Line>, failing: set<nat>)
      ensures this.lines == lines && this.failing == failing && trace == []
    {
      this.lines := lines;
      this.failing := failing;
      trace := [];
    }

    /** `SevenSegmentDisplay::new`: request the eight segment lines Inactive. */
    static method New(refused: set<nat>, failing: set<nat>) returns (r: Result<SevenSegmentDisplay>)
      ensures r.Ok? <==> forall p | p in SEGMENT_PINS :: p !in refused
      ensures r.Ok? ==> fresh(r.value) && r.value.Valid()
      ensures r.Ok? ==> r.value.lines == InitialLines() && r.value.trace == [] && r.value.failing == failing
      ensures r.Err? ==> exists k: nat :: FirstRefused(PINS, refused, k) && r.error == RequestRefused(PINS[k])
      ensures r.Err? ==> exists p | p in SEGMENT_PINS :: p in refused && r.error == RequestRefused(p)
    {
      PinsResolve();
      var all := RequestLines(map[], PINS, Inactive, refused);
      if all.Err? {
        var k := FirstRefusal(PINS, refused, all.error);
        assert PINS[k] in SEGMENT_PINS;
        return Err(all.error);
      }
      InitialLinesKeys();
      var display := new SevenSegmentDisplay(all.value, failing);
      r := Ok(display);
    }

    /** `set_segment`: look up the line of any GPIO number and set its value;
        a number the display does not own is reported as not initialized. */
    method SetSegment(pin: nat, value: Value) returns (r: Outcome)
      modifies this
      ensures old(Valid()) ==> Valid()
      ensures DidStep(Write(pin, value), r)
      ensures r.Pass? <==> pin in old(lines) && pin !in failing
    {
      if pin !in lines {
        return Fail(NotInitialized(pin));
      }
      if pin in failing {
        return Fail(WriteFailed(pin));
      }
      lines := lines[pin := lines[pin].(value := value)];
      trace := trace + [Write(pin, value)];
      r := Pass;
    }

    /** `clear_all`: every segment line Inactive, in `CLEAR_PINS` order. */
    method ClearAll() returns (r: Outcome)
      modifies this
      ensures old(Valid()) ==> Valid()
      ensures Did(ClearPlan(), r)
    {
      r := WriteAll(CLEAR_PINS, Inactive);
    }

    /** One `?`-chained run of `set_segment` calls writing `value` to `pins` in order. */
    method WriteAll(pins: seq<nat>, value: Value) returns (r: Outcome)
      modifies this
      ensures old(Valid()) ==> Valid()
      ensures Did(Writes(pins, value), r)
    {
      var plan := Writes(pins, value);
      ghost var l0, t0 := lines, trace;
      ghost var done: seq<Write> := [];
      var i := 0;
      r := Pass;
      while i < |pins|
        invariant 0 <= i <= |pins|
        invariant Perform(l0, failing, plan[..i]) == Run(lines, done, Pass)
        invariant trace == t0 + done
        invariant r == Pass
        invariant old(Valid()) ==> Valid()
      {
        Advance(l0, failing, plan, i, lines, done);
        assert plan[i] == Write(pins[i], value);
        r := SetSegment(pins[i], value);
        if r.Fail? {
          return;
        }
        done := done + [plan[i]];
        i := i + 1;
      }
      assert plan[..i] == plan;
    }

    /** `set_digit`: clear all segments, then drive the digit's segment lines
        Active in the order its match arm lists them. */
    method SetDigit(digit: nat) returns (r: Outcome)
      modifies this
      ensures old(Valid()) ==> Valid()
      ensures Did(SetDigitPlan(digit), r)
    {
      var arm := Writes(ArmPins(digit), Active);
      PerformAppend(old(lines), failing, ClearPlan(), arm);
      r := ClearAll();
      if r.Pass? {
        ghost var cleared := Perform(old(lines), failing, ClearPlan());
        r := WriteAll(ArmPins(digit), Active);
        ghost var lit := Perform(cleared.lines, failing, arm);
        Associate(old(trace), cleared.applied, lit.applied);
      }
    }

    /** `set_decimal_point`: only the DP line changes, to Active exactly when `state`. */
    method SetDecimalPoint(state: bool) returns (r: Outcome)
      modifies this
      ensures old(Valid()) ==> Valid()
      ensures Did(DecimalPointPlan(state), r)
    {
      r := SetSegment(GPIO_SEG_DP, if state then Active else Inactive);
      PerformSingle(old(lines), failing, Write(GPIO_SEG_DP, if state then Active else Inactive));
    }

    /** `Drop`: clear all segments and discard any error. */
    method Drop()
      modifies this
      ensures old(Valid()) ==> Valid()
      ensures var run := Perform(old(lines), failing, ClearPlan());
              lines == run.lines && trace == old(trace) + run.applied
      ensures (forall p | p in SEGMENT_PINS :: p !in failing) && Valid() ==> LitPins(lines) == {}
    {
      var r := ClearAll();
      if Valid() && forall p | p in SEGMENT_PINS :: p !in failing {
        PerformKeys(old(lines), failing, ClearPlan());
        PerformPassesIff(old(lines), failing, ClearPlan());
        ClearBlanks(old(lines), failing);
      }
    }
  }

  // Properties of the pin tables.

  /** All eight GPIO numbers resolve, so only a refusal stops the constructor. */
  lemma PinsResolve()
    ensures forall p | p in SEGMENT_PINS :: ChipOffset(p).Ok?
    ensures forall p :: p in SEGMENT_PINS <==> p in PINS
  {
    assert forall p | p in SEGMENT_PINS :: 512 <= p < 640;
  }

  lemma InitialLineAt(p: nat)
    ensures p in InitialLines() <==> p in SEGMENT_PINS
    ensures p in SEGMENT_PINS ==> InitialLines()[p].value == Inactive
  {
    PinsResolve();
    RequestedAt(map[], PINS, Inactive, p);
  }

  lemma InitialLinesKeys()
    ensures InitialLines().Keys == SEGMENT_PINS
  {
    forall p | p in InitialLines() ensures p in SEGMENT_PINS {
      InitialLineAt(p);
    }
    forall p | p in SEGMENT_PINS ensures p in InitialLines() {
      InitialLineAt(p);
    }
  }

  /** Right after construction no segment is lit. */
  lemma InitialDisplayDark()
    ensures forall p | p in SEGMENT_PINS :: p in InitialLines() && InitialLines()[p].value == Inactive
    ensures LitPins(InitialLines()) == {}
  {
    forall p | p in SEGMENT_PINS ensures p in InitialLines() && InitialLines()[p].value == Inactive {
      InitialLineAt(p);
    }
  }

  /** The eight GPIO numbers are distinct, so `clear_all` and every arm
      write each line at most once. */
  lemma PinListsDistinct(digit: nat)
    ensures forall i, j | 0 <= i < j < |CLEAR_PINS| :: CLEAR_PINS[i] != CLEAR_PINS[j]
    ensures forall i, j | 0 <= i < j < |ArmPins(digit)| :: ArmPins(digit)[i] != ArmPins(digit)[j]
    ensures forall p | p in ArmPins(digit) :: p in SEGMENT_PINS && p != GPIO_SEG_DP
  {
  }

  /** Where a segment line stands in `CLEAR_PINS`. */
  lemma ClearPosition(p: nat) returns (i: nat)
    requires p in SEGMENT_PINS
    ensures i < |CLEAR_PINS| && CLEAR_PINS[i] == p
  {
    i := if p == 546 then 0 else if p == 547 then 1 else if p == 549 then 2 else if p == 525 then 3
         else if p == 548 then 4 else if p == 524 then 5 else if p == 634 then 6 else 7;
  }

  // Properties of the write sequences.

  /** After a complete `clear_all` no segment is lit. */
  lemma ClearBlanks(lines: map<nat, Line>, failing: set<nat>)
    requires Perform(lines, failing, ClearPlan()).outcome.Pass?
    ensures LitPins(Perform(lines, failing, ClearPlan()).lines) == {}
  {
    PerformPassOwned(lines, failing, ClearPlan());
    PinListsDistinct(0);
    forall p | p in SEGMENT_PINS && p in lines
      ensures Apply(lines, ClearPlan())[p].value == Inactive
    {
      var i := ClearPosition(p);
      ApplyWrites(lines, CLEAR_PINS, Inactive, p);
    }
  }

  /** A `clear_all` that passes wrote, and so owned, every segment line. */
  lemma ClearOwnsSegments(lines: map<nat, Line>, failing: set<nat>)
    requires Perform(lines, failing, ClearPlan()).outcome.Pass?
    ensures SEGMENT_PINS <= lines.Keys
  {
    PerformPassOwned(lines, failing, ClearPlan());
    forall p | p in SEGMENT_PINS ensures p in lines {
      var i := ClearPosition(p);
      assert ClearPlan()[i].pin == p;
    }
  }

  /** One segment line after clearing and lighting a digit's arm. */
  lemma SetDigitLightsAt(lines: map<nat, Line>, digit: nat, p: nat)
    requires p in lines && p in SEGMENT_PINS
    ensures Apply(lines, SetDigitPlan(digit))[p].value == if p in ArmPins(digit) then Active else Inactive
  {
    var clear: seq<Write> := ClearPlan();
    ApplyAppend(lines, clear, Writes(ArmPins(digit), Active));
    PinListsDistinct(digit);
    var i := ClearPosition(p);
    ApplyWrites(lines, CLEAR_PINS, Inactive, p);
    ApplyWrites(Apply(lines, clear), ArmPins(digit), Active, p);
  }

  lemma SetDigitLights(lines: map<nat, Line>, digit: nat)
    requires SEGMENT_PINS <= lines.Keys
    ensures LitPins(Apply(lines, SetDigitPlan(digit))) == ArmSet(digit)
  {
    PinListsDistinct(digit);
    forall p | p in SEGMENT_PINS
      ensures Apply(lines, SetDigitPlan(digit))[p].value == if p in ArmPins(digit) then Active else Inactive
    {
      SetDigitLightsAt(lines, digit, p);
    }
  }

  /** After a complete `set_digit(d)` the lit lines are exactly the arm's. */
  lemma SetDigitShows(lines: map<nat, Line>, failing: set<nat>, digit: nat)
    requires Perform(lines, failing, SetDigitPlan(digit)).outcome.Pass?
    ensures LitPins(Perform(lines, failing, SetDigitPlan(digit)).lines) == ArmSet(digit)
  {
    PerformPassOwned(lines, failing, SetDigitPlan(digit));
    PerformAppend(lines, failing, ClearPlan(), Writes(ArmPins(digit), Active));
    ClearOwnsSegments(lines, failing);
    SetDigitLights(lines, digit);
  }

  /** Showing the same digit twice in a row leaves the lines as the first call did. */
  lemma SetDigitTwice(lines: map<nat, Line>, failing: set<nat>, digit: nat)
    requires Perform(lines, failing, SetDigitPlan(digit)).outcome.Pass?
    ensures var once := Perform(lines, failing, SetDigitPlan(digit)).lines;
            Perform(once, failing, SetDigitPlan(digit)) == Run(once, SetDigitPlan(digit), Pass)
  {
    PerformTwice(lines, failing, SetDigitPlan(digit));
  }

  /** The two display drivers share one wiring and one digit table: the
      counter display issues the very writes the multiplexed one does. */
  lemma TablesAgree(digit: nat)
    ensures CLEAR_PINS == Mux.SegmentPins(Mux.CLEAR_ORDER)
    ensures ArmPins(digit) == Mux.SegmentPins(Mux.DigitSegments(digit))
    ensures SetDigitPlan(digit) == Mux.SetDigitPlan(digit)
    ensures ClearPlan() == Mux.ClearPlan()
  {
    assert CLEAR_PINS == Mux.SegmentPins(Mux.CLEAR_ORDER);
    assert ArmPins(digit) == Mux.SegmentPins(Mux.DigitSegments(digit));
  }
}
