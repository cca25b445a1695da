/**
 * The 4-digit multiplexed seven-segment display driven by the clock program:
 * eight segment lines (A to G and the decimal point) shared by four digit
 * lines. A digit line driven Inactive selects that digit position.
 */
module MuxSevenSegment {
  import opened Gpio

  /** GPIO numbers of the segment lines and of the digit lines. */
  const SEGMENT_PINS: set<nat> := {546, 547, 549, 548, 525, 524, 634, 526}
  const DIGIT_PINS: set<nat> := {540, 528, 529, 595}

  datatype Segment = A | B | C | DP | D | E | F | G
  {
    /** The bit the segment occupies in a glyph code (A lowest, DP highest). */
    function Bit(): (k: nat)
      ensures k < 8
    {
      match this
      case A => 0 case B => 1 case C => 2 case D => 3
      case E => 4 case F => 5 case G => 6 case DP => 7
    }

    /** The board GPIO number the segment is wired to. */
    function GpioNumber(): (pin: nat)
      ensures pin in SEGMENT_PINS
    {
      match this
      case A => 546
      case B => 547
      case C => 549
      case DP => 548
      case D => 525
      case E => 524
      case F => 634
      case G => 526
    }
  }

  datatype Digit = D1 | D2 | D3 | D4
  {
    /** The board GPIO number of the digit's enable line. */
    function GpioNumber(): (pin: nat)
      ensures pin in DIGIT_PINS
    {
      match this
      case D1 => 540
      case D2 => 528
      case D3 => 529
      case D4 => 595
    }
  }

  /** Segments in the order the constructor requests them. */
  const SEGMENTS: seq<Segment> := [A, B, C, DP, D, E, F, G]

  /** Segments in the order `clear_all` writes them. */
  const CLEAR_ORDER: seq<Segment> := [A, B, C, D, DP, E, F, G]

  /** Digit positions in the order they are requested, enabled and swept. */
  const DIGITS: seq<Digit> := [D1, D2, D3, D4]

  function SegmentPins(segs: seq<Segment>): (pins: seq<nat>)
    ensures |pins| == |segs|
    ensures forall i | 0 <= i < |segs| :: pins[i] == segs[i].GpioNumber()
  {
    seq(|segs|, i requires 0 <= i < |segs| => segs[i].GpioNumber())
  }

  function DigitPins(digits: seq<Digit>): (pins: seq<nat>)
    ensures |pins| == |digits|
    ensures forall i | 0 <= i < |digits| :: pins[i] == digits[i].GpioNumber()
  {
    seq(|digits|, i requires 0 <= i < |digits| => digits[i].GpioNumber())
  }

  /** Every GPIO number the display owns a line for. */
  function AllPins(): set<nat>
  {
    SEGMENT_PINS + DIGIT_PINS
  }

  /** GPIO numbers in the order the constructor requests them: the segment
      lines, then the digit lines. */
  function RequestOrder(): seq<nat>
  {
    SegmentPins(SEGMENTS) + DigitPins(DIGITS)
  }

  /** The segment wired to a GPIO number, if any (inverse of `Segment.GpioNumber`). */
  function SegmentOf(pin: nat): Option<Segment>
  {
    if pin == 546 then Some(A) else if pin == 547 then Some(B) else if pin == 549 then Some(C)
    else if pin == 548 then Some(DP) else if pin == 525 then Some(D) else if pin == 524 then Some(E)
    else if pin == 634 then Some(F) else if pin == 526 then Some(G) else None
  }

  /** The digit position whose enable line is a GPIO number, if any. */
  function DigitOf(pin: nat): Option<Digit>
  {
    if pin == 540 then Some(D1) else if pin == 528 then Some(D2)
    else if pin == 529 then Some(D3) else if pin == 595 then Some(D4) else None
  }

  /** The segments `set_digit` lights for a digit, in the order it writes
      them: `ARMS[digit]` is the arm of its match for `digit`; 10 is the
      extra glyph, anything above 10 lights nothing. */
  function DigitSegments(digit: nat): seq<Segment>
  {
    if digit < |ARMS| then ARMS[digit] else []
  }

  const ARMS: seq<seq<Segment>> := [
    [A, B, C, D, E, F], [B, C], [A, B, G, E, D], [A, B, G, C, D], [F, B, G, C],
    [A, F, G, C, D], [A, F, G, E, C, D], [A, B, C], [A, B, C, D, E, F, G],
    [A, B, C, D, F, G], [A, G, E, D, C]]

  function Pattern(digit: nat): set<Segment>
  {
    set s | s in DigitSegments(digit)
  }

  /** The segments whose lines are driven Active. */
  function ActiveSegments(lines: map<nat, Line>): set<Segment>
  {
    set s | s in SEGMENTS && s.GpioNumber() in lines && lines[s.GpioNumber()].value == Active
  }

  /** The digit positions whose enable lines are driven Inactive, i.e. selected. */
  function SelectedDigits(lines: map<nat, Line>): set<Digit>
  {
    set d | d in DIGITS && d.GpioNumber() in lines && lines[d.GpioNumber()].value == Inactive
  }

  /** True when the digit lines of `lines` are those of `before`. */
  predicate DigitLinesKept(before: map<nat, Line>, lines: map<nat, Line>)
  {
    forall d: Digit | d.GpioNumber() in before :: d.GpioNumber() in lines && lines[d.GpioNumber()] == before[d.GpioNumber()]
  }

  /** True when the segment lines of `lines` are those of `before`. */
  predicate SegmentLinesKept(before: map<nat, Line>, lines: map<nat, Line>)
  {
    forall s: Segment | s.GpioNumber() in before :: s.GpioNumber() in lines && lines[s.GpioNumber()] == before[s.GpioNumber()]
  }

  /** The lines right after construction: segments Inactive, digit lines Active. */
  function InitialLines(): map<nat, Line>
  {
    Requested(Requested(map[], SegmentPins(SEGMENTS), Inactive), DigitPins(DIGITS), Active)
  }

  // The write sequences each operation issues.

  function SetSegmentPlan(seg: Segment, value: Value): seq<Write>
  {
    [Write(seg.GpioNumber(), value)]
  }

  function ClearPlan(): seq<Write>
  {
    Writes(SegmentPins(CLEAR_ORDER), Inactive)
  }

  function EnablePlan(target: Digit): (ws: seq<Write>)
    ensures |ws| == |DIGITS|
    ensures forall i | 0 <= i < |DIGITS| ::
              ws[i] == Write(DIGITS[i].GpioNumber(), if DIGITS[i] == target then Inactive else Active)
  {
    seq(|DIGITS|, i requires 0 <= i < |DIGITS| =>
      Write(DIGITS[i].GpioNumber(), if DIGITS[i] == target then Inactive else Active))
  }

  function SetDigitPlan(digit: nat): seq<Write>
  {
    ClearPlan() + Writes(SegmentPins(DigitSegments(digit)), Active)
  }

  function DecimalPointPlan(state: bool): seq<Write>
  {
    SetSegmentPlan(DP, if state then Active else Inactive)
  }

  class SevenSegmentDisplay {
    /** The owned output lines, keyed by GPIO number. */
    var lines: map<nat, Line>
    /** Every write that took effect, oldest first. */
    var trace: seq<Write>
    /** GPIO numbers whose `set_value` fails. */
    const failing: set<nat>

    ghost predicate Valid()
      reads this
    {
      lines.Keys == AllPins()
    }

    /** The state change of issuing `plan` from the state on entry, with result `r`. */
    twostate predicate Did(plan: seq<Write>, r: Outcome)
      reads this
    {
      var run := Perform(old(lines), failing, plan);
      lines == run.lines && trace == old(trace) + run.applied && r == run.outcome
    }

    /** The state change that ends in `run`, with result `r`. */
    twostate predicate Reached(run: Run, r: Outcome)
      reads this
    {
      lines == run.lines && trace == old(trace) + run.applied && r == run.outcome
    }

    /** The state change of issuing the single write `w`, with result `r`. */
    twostate predicate DidStep(w: Write, r: Outcome)
      reads this
    {
      var st := Step(old(lines), failing, w);
      lines == st.lines && trace == old(trace) + st.applied && r == st.outcome
    }

    constructor (lines: map<nat, Line>, failing: set<nat>)
      ensures this.lines == lines && this.failing == failing && trace == []
    {
      this.lines := lines;
      this.failing := failing;
      trace := [];
    }

    /** `SevenSegmentDisplay::new`: request the eight segment lines Inactive,
        then the four digit lines Active. */
    static method New(refused: set<nat>, failing: set<nat>) returns (r: Result<SevenSegmentDisplay>)
      ensures r.Ok? <==> forall p | p in AllPins() :: p !in refused
      ensures r.Ok? ==> fresh(r.value) && r.value.Valid()
      ensures r.Ok? ==> r.value.lines == InitialLines() && r.value.trace == [] && r.value.failing == failing
      ensures r.Err? ==> exists k: nat :: FirstRefused(RequestOrder(), refused, k) && r.error == RequestRefused(RequestOrder()[k])
      ensures r.Err? ==> exists p | p in AllPins() :: p in refused && r.error == RequestRefused(p)
    {
      var all := RequestAll(refused);
      if all.Err? {
        return Err(all.error);
      }
      InitialLinesKeys();
      var display := new SevenSegmentDisplay(all.value, failing);
      r := Ok(display);
    }

    /** The two request loops of `new`, which stop at the first refused line. */
    static method RequestAll(refused: set<nat>) returns (r: Result<map<nat, Line>>)
      ensures r.Ok? <==> forall p | p in AllPins() :: p !in refused
      ensures r.Ok? ==> r.value == InitialLines()
      ensures r.Err? ==> exists k: nat :: FirstRefused(RequestOrder(), refused, k) && r.error == RequestRefused(RequestOrder()[k])
      ensures r.Err? ==> exists p | p in AllPins() :: p in refused && r.error == RequestRefused(p)
    {
      PinsResolve();
      RequestListsCover();
      var segs := RequestLines(map[], SegmentPins(SEGMENTS), Inactive, refused);
      if segs.Err? {
        var k := FirstRefusal(SegmentPins(SEGMENTS), refused, segs.error);
        SegmentRefusedFirst(refused, k);
        return Err(segs.error);
      }
      r := RequestLines(segs.value, DigitPins(DIGITS), Active, refused);
      if r.Err? {
        var k := FirstRefusal(DigitPins(DIGITS), refused, r.error);
        DigitRefusedFirst(refused, k);
      }
    }

    /** Look up the owned line of a GPIO number and set its value; an unowned
        line is reported as not initialized, a failing one as a failed write. */
    method SetLine(pin: nat, value: Value) returns (r: Outcome)
      modifies this
      ensures old(Valid()) ==> Valid()
      ensures DidStep(Write(pin, value), r)
      ensures r.Pass? <==> pin in old(lines) && pin !in failing
    {
      if pin !in lines {
        return Fail(NotInitialized(pin));
      }
      if pin in failing {
        return Fail(WriteFailed(pin));
      }
      lines := lines[pin := lines[pin].(value := value)];
      trace := trace + [Write(pin, value)];
      r := Pass;
    }

    /** `set_segment`: one write to the segment's line. */
    method SetSegment(seg: Segment, value: Value) returns (r: Outcome)
      modifies this
      ensures old(Valid()) ==> Valid()
      ensures DidStep(Write(seg.GpioNumber(), value), r)
      ensures r.Pass? <==> seg.GpioNumber() in old(lines) && seg.GpioNumber() !in failing
    {
      r := SetLine(seg.GpioNumber(), value);
    }

    /** `clear_all`: every segment line Inactive, in `CLEAR_ORDER`. */
    method ClearAll() returns (r: Outcome)
      modifies this
      ensures old(Valid()) ==> Valid()
      ensures Did(ClearPlan(), r)
      ensures r.Pass? ==> ActiveSegments(lines) == {}
      ensures DigitLinesKept(old(lines), lines)
    {
      var plan := ClearPlan();
      ghost var l0, t0 := lines, trace;
      ghost var done: seq<Write> := [];
      var i := 0;
      r := Pass;
      while i < |CLEAR_ORDER|
        invariant 0 <= i <= |CLEAR_ORDER|
        invariant Perform(l0, failing, plan[..i]) == Run(lines, done, Pass)
        invariant trace == t0 + done
        invariant r == Pass
        invariant old(Valid()) ==> Valid()
      {
        PerformNext(l0, failing, plan, i);
        r := SetSegment(CLEAR_ORDER[i], Inactive);
        if r.Fail? {
          PerformAbort(l0, failing, plan, i);
          ClearKeepsDigits(l0, failing);
          return;
        }
        done := done + [plan[i]];
        i := i + 1;
      }
      assert plan[..i] == plan;
      ClearKeepsDigits(old(lines), failing);
      PerformPassOwned(old(lines), failing, plan);
      ClearBlanks(old(lines));
    }

    /** `enable_digit`: the target's line Inactive, the other three Active,
        written in `DIGITS` order. */
    method EnableDigit(target: Digit) returns (r: Outcome)
      modifies this
      ensures old(Valid()) ==> Valid()
      ensures Did(EnablePlan(target), r)
    {
      var plan := EnablePlan(target);
      ghost var l0, t0 := lines, trace;
      ghost var done: seq<Write> := [];
      var i := 0;
      r := Pass;
      while i < |DIGITS|
        invariant 0 <= i <= |DIGITS|
        invariant Perform(l0, failing, plan[..i]) == Run(lines, done, Pass)
        invariant trace == t0 + done
        invariant r == Pass
        invariant old(Valid()) ==> Valid()
      {
        Advance(l0, failing, plan, i, lines, done);
        var dig := DIGITS[i];
        r := SetLine(dig.GpioNumber(), if dig == target then Inactive else Active);
        if r.Fail? {
          return;
        }
        done := done + [plan[i]];
        i := i + 1;
      }
      assert plan[..i] == plan;
    }

    /** `set_digit`: clear all segments, then drive the digit's segments Active
        in the order its match arm lists them; anything above 10 stays blank. */
    method SetDigit(digit: nat) returns (r: Outcome)
      modifies this
      ensures old(Valid()) ==> Valid()
      ensures Did(SetDigitPlan(digit), r)
      ensures r.Pass? ==> ActiveSegments(lines) == Pattern(digit)
      ensures DigitLinesKept(old(lines), lines)
    {
      var arm := Writes(SegmentPins(DigitSegments(digit)), Active);
      PerformAppend(old(lines), failing, ClearPlan(), arm);
      r := ClearAll();
      if r.Pass? {
        ghost var cleared := Perform(old(lines), failing, ClearPlan());
        r := LightSegments(DigitSegments(digit));
        ghost var lit := Perform(cleared.lines, failing, arm);
        Associate(old(trace), cleared.applied, lit.applied);
        if r.Pass? {
          SetDigitShows(old(lines), failing, digit);
        }
      }
      SetDigitKeepsDigits(old(lines), failing, digit);
    }

    /** The body of one `set_digit` match arm: each listed segment Active, in order. */
    method LightSegments(segs: seq<Segment>) returns (r: Outcome)
      modifies this
      ensures old(Valid()) ==> Valid()
      ensures Did(Writes(SegmentPins(segs), Active), r)
    {
      var plan := Writes(SegmentPins(segs), Active);
      ghost var l0, t0 := lines, trace;
      ghost var done: seq<Write> := [];
      var i := 0;
      r := Pass;
      while i < |segs|
        invariant 0 <= i <= |segs|
        invariant Perform(l0, failing, plan[..i]) == Run(lines, done, Pass)
        invariant trace == t0 + done
        invariant r == Pass
        invariant lines.Keys == l0.Keys
      {
        PerformNext(l0, failing, plan, i);
        r := SetSegment(segs[i], Active);
        if r.Fail? {
          PerformAbort(l0, failing, plan, i);
          return;
        }
        done := done + [plan[i]];
        i := i + 1;
      }
      assert plan[..i] == plan;
    }

    /** `set_decimal_point`: only the DP line changes, to Active exactly when `state`. */
    method SetDecimalPoint(state: bool) returns (r: Outcome)
      modifies this
      ensures old(Valid()) ==> Valid()
      ensures Did(DecimalPointPlan(state), r)
      ensures r.Pass? ==> lines[DP.GpioNumber()].value == (if state then Active else Inactive)
      ensures forall p | p in old(lines) && p != DP.GpioNumber() :: lines[p] == old(lines)[p]
    {
      r := SetSegment(DP, if state then Active else Inactive);
      PerformSingle(old(lines), failing, Write(DP.GpioNumber(), if state then Active else Inactive));
    }

    /** `Drop`: clear all segments and discard any error. */
    method Drop()
      modifies this
      ensures old(Valid()) ==> Valid()
      ensures var run := Perform(old(lines), failing, ClearPlan());
              lines == run.lines && trace == old(trace) + run.applied
      ensures (forall s: Segment :: s.GpioNumber() !in failing) && Valid() ==> ActiveSegments(lines) == {}
    {
      var r := ClearAll();
      if Valid() {
        PerformKeys(old(lines), failing, ClearPlan());
        PerformPassesIff(old(lines), failing, ClearPlan());
      }
    }
  }

  // Properties of the pin tables.

  /** Each segment and each digit is the only one wired to its GPIO number. */
  lemma PinTablesInvert()
    ensures forall s: Segment :: SegmentOf(s.GpioNumber()) == Some(s) && DigitOf(s.GpioNumber()) == None
    ensures forall d: Digit :: DigitOf(d.GpioNumber()) == Some(d) && SegmentOf(d.GpioNumber()) == None
  {
    forall s: Segment ensures SegmentOf(s.GpioNumber()) == Some(s) && DigitOf(s.GpioNumber()) == None {
      match s
      case A => case B => case C => case DP => case D => case E => case F => case G =>
    }
    forall d: Digit ensures DigitOf(d.GpioNumber()) == Some(d) && SegmentOf(d.GpioNumber()) == None {
      match d
      case D1 => case D2 => case D3 => case D4 =>
    }
  }

  /** The twelve GPIO numbers are pairwise distinct and all resolve. */
  lemma PinTablesInjective()
    ensures forall s1: Segment, s2: Segment :: s1 != s2 ==> s1.GpioNumber() != s2.GpioNumber()
    ensures forall d1: Digit, d2: Digit :: d1 != d2 ==> d1.GpioNumber() != d2.GpioNumber()
    ensures forall s: Segment, d: Digit :: s.GpioNumber() != d.GpioNumber()
  {
    PinTablesInvert();
    forall s1: Segment, s2: Segment | s1.GpioNumber() == s2.GpioNumber() ensures s1 == s2 {
      assert SegmentOf(s1.GpioNumber()) == SegmentOf(s2.GpioNumber());
    }
    forall d1: Digit, d2: Digit | d1.GpioNumber() == d2.GpioNumber() ensures d1 == d2 {
      assert DigitOf(d1.GpioNumber()) == DigitOf(d2.GpioNumber());
    }
  }

  /** Every GPIO number of the display resolves, so only a refusal can stop
      the constructor. */
  /** A segment line refused first is the first refused pin of the whole request. */
  lemma SegmentRefusedFirst(refused: set<nat>, k: nat)
    requires FirstRefused(SegmentPins(SEGMENTS), refused, k)
    ensures FirstRefused(RequestOrder(), refused, k) && RequestOrder()[k] == SegmentPins(SEGMENTS)[k]
    ensures SegmentPins(SEGMENTS)[k] in AllPins()
  {
    FirstRefusedBefore(SegmentPins(SEGMENTS), DigitPins(DIGITS), refused, k);
    RequestListsCover();
  }

  /** Once every segment line was granted, a digit line refused first is the
      first refused pin of the whole request. */
  lemma DigitRefusedFirst(refused: set<nat>, k: nat)
    requires forall p | p in SegmentPins(SEGMENTS) :: p !in refused
    requires FirstRefused(DigitPins(DIGITS), refused, k)
    ensures FirstRefused(RequestOrder(), refused, |SEGMENTS| + k)
    ensures RequestOrder()[|SEGMENTS| + k] == DigitPins(DIGITS)[k]
    ensures DigitPins(DIGITS)[k] in AllPins()
  {
    FirstRefusedAfter(SegmentPins(SEGMENTS), DigitPins(DIGITS), refused, k);
    RequestListsCover();
  }

  lemma PinsResolve()
    ensures forall p | p in AllPins() :: ChipOffset(p).Ok?
  {
    assert forall p | p in AllPins() :: 512 <= p < 640;
  }

  /** The two request lists of the constructor name exactly `AllPins()`. */
  lemma RequestListsCover()
    ensures forall p :: p in AllPins() <==> p in SegmentPins(SEGMENTS) || p in DigitPins(DIGITS)
  {
    assert SegmentPins(SEGMENTS) == [546, 547, 549, 548, 525, 524, 634, 526];
    assert DigitPins(DIGITS) == [540, 528, 529, 595];
  }

  lemma AllSegmentsListed()
    ensures forall s: Segment :: s in SEGMENTS && s in CLEAR_ORDER
    ensures forall d: Digit :: d in DIGITS
  {
    forall s: Segment ensures s in SEGMENTS && s in CLEAR_ORDER {
      match s
      case A => case B => case C => case DP => case D => case E => case F => case G =>
    }
    forall d: Digit ensures d in DIGITS {
      match d
      case D1 => case D2 => case D3 => case D4 =>
    }
  }

  /** The line the constructor leaves at one GPIO number. */
  lemma InitialLineAt(p: nat)
    ensures p in InitialLines() <==> p in AllPins()
    ensures p in SEGMENT_PINS ==> InitialLines()[p].value == Inactive
    ensures p in DIGIT_PINS ==> InitialLines()[p].value == Active
  {
    var segPins := SegmentPins(SEGMENTS);
    var digitPins := DigitPins(DIGITS);
    assert segPins == [546, 547, 549, 548, 525, 524, 634, 526];
    assert digitPins == [540, 528, 529, 595];
    assert p in segPins <==> p in SEGMENT_PINS;
    assert p in digitPins <==> p in DIGIT_PINS;
    assert p in AllPins() ==> 512 <= p < 640;
    RequestedAt(map[], segPins, Inactive, p);
    RequestedAt(Requested(map[], segPins, Inactive), digitPins, Active, p);
  }

  lemma InitialLinesKeys()
    ensures InitialLines().Keys == AllPins()
  {
    forall p | p in InitialLines() ensures p in AllPins() {
      InitialLineAt(p);
    }
    forall p | p in AllPins() ensures p in InitialLines() {
      InitialLineAt(p);
    }
  }

  /** Right after construction no segment is lit and no digit is selected. */
  lemma InitialDisplayDark()
    ensures forall s: Segment :: s.GpioNumber() in InitialLines() && InitialLines()[s.GpioNumber()].value == Inactive
    ensures forall d: Digit :: d.GpioNumber() in InitialLines() && InitialLines()[d.GpioNumber()].value == Active
    ensures ActiveSegments(InitialLines()) == {} && SelectedDigits(InitialLines()) == {}
  {
    forall s: Segment ensures s.GpioNumber() in InitialLines() && InitialLines()[s.GpioNumber()].value == Inactive {
      InitialLineAt(s.GpioNumber());
    }
    forall d: Digit ensures d.GpioNumber() in InitialLines() && InitialLines()[d.GpioNumber()].value == Active {
      InitialLineAt(d.GpioNumber());
    }
  }

  // Properties of the write sequences.

  /** Writes to segment lines leave every digit line alone. */
  lemma SegmentWritesMissDigits(segs: seq<Segment>, v: Value, d: Digit)
    ensures Untouched(Writes(SegmentPins(segs), v), d.GpioNumber())
  {
    var ws := Writes(SegmentPins(segs), v);
    forall i | 0 <= i < |ws| ensures ws[i].pin != d.GpioNumber() {
      assert ws[i].pin == segs[i].GpioNumber();
      assert segs[i].GpioNumber() in SEGMENT_PINS && d.GpioNumber() in DIGIT_PINS;
    }
  }

  lemma ClearKeepsDigits(lines: map<nat, Line>, failing: set<nat>)
    ensures DigitLinesKept(lines, Perform(lines, failing, ClearPlan()).lines)
  {
    forall d: Digit | d.GpioNumber() in lines
      ensures d.GpioNumber() in Perform(lines, failing, ClearPlan()).lines
      ensures Perform(lines, failing, ClearPlan()).lines[d.GpioNumber()] == lines[d.GpioNumber()]
    {
      SegmentWritesMissDigits(CLEAR_ORDER, Inactive, d);
      PerformUntouched(lines, failing, ClearPlan(), d.GpioNumber());
    }
  }

  /** After a complete `clear_all` no segment is lit. */
  lemma ClearBlanks(lines: map<nat, Line>)
    ensures ActiveSegments(Apply(lines, ClearPlan())) == {}
  {
    AllSegmentsListed();
    forall s: Segment | s.GpioNumber() in lines
      ensures Apply(lines, ClearPlan())[s.GpioNumber()].value == Inactive
    {
      ApplyWritesDistinctSegments(lines, CLEAR_ORDER, Inactive, s);
    }
  }

  lemma EnableKeepsSegments(lines: map<nat, Line>, failing: set<nat>, target: Digit)
    ensures SegmentLinesKept(lines, Perform(lines, failing, EnablePlan(target)).lines)
  {
    forall s: Segment | s.GpioNumber() in lines
      ensures s.GpioNumber() in Perform(lines, failing, EnablePlan(target)).lines
      ensures Perform(lines, failing, EnablePlan(target)).lines[s.GpioNumber()] == lines[s.GpioNumber()]
    {
      PerformUntouched(lines, failing, EnablePlan(target), s.GpioNumber());
    }
  }

  /** After a complete `enable_digit(t)` exactly `t` is selected. */
  lemma EnableSelects(lines: map<nat, Line>, failing: set<nat>, target: Digit)
    requires Perform(lines, failing, EnablePlan(target)).outcome.Pass?
    ensures SelectedDigits(Perform(lines, failing, EnablePlan(target)).lines) == {target}
  {
    var plan := EnablePlan(target);
    PerformPassOwned(lines, failing, plan);
    forall d: Digit
      ensures d.GpioNumber() in lines
      ensures Apply(lines, plan)[d.GpioNumber()].value == (if d == target then Inactive else Active)
    {
      EnableLineAt(lines, target, d);
    }
    AllSegmentsListed();
  }

  /** The line of each digit position after all of `EnablePlan(target)` applies. */
  lemma EnableLineAt(lines: map<nat, Line>, target: Digit, d: Digit)
    requires forall i | 0 <= i < |DIGITS| :: EnablePlan(target)[i].pin in lines
    ensures d.GpioNumber() in lines
    ensures Apply(lines, EnablePlan(target))[d.GpioNumber()].value == (if d == target then Inactive else Active)
  {
    var plan := EnablePlan(target);
    PinTablesInvert();
    assert DistinctPins(plan);
    var i := if d == D1 then 0 else if d == D2 then 1 else if d == D3 then 2 else 3;
    assert plan[i].pin == d.GpioNumber();
    ApplyDistinct(lines, plan, i);
  }

  /** Lines whose digit lines are kept, over the same pins, select the same
      positions. */
  lemma KeptSelection(before: map<nat, Line>, lines: map<nat, Line>)
    requires DigitLinesKept(before, lines) && before.Keys == lines.Keys
    ensures SelectedDigits(lines) == SelectedDigits(before)
  {
    forall d: Digit | d.GpioNumber() in lines
      ensures d.GpioNumber() in before && lines[d.GpioNumber()] == before[d.GpioNumber()]
    {
      assert d.GpioNumber() in lines.Keys;
    }
  }

  /** Lines whose segment lines are kept, over the same pins, light the same
      segments. */
  lemma KeptSegments(before: map<nat, Line>, lines: map<nat, Line>)
    requires SegmentLinesKept(before, lines) && before.Keys == lines.Keys
    ensures ActiveSegments(lines) == ActiveSegments(before)
  {
    forall s: Segment | s.GpioNumber() in lines
      ensures s.GpioNumber() in before && lines[s.GpioNumber()] == before[s.GpioNumber()]
    {
      assert s.GpioNumber() in lines.Keys;
    }
  }

  /** Setting one owned segment line lights or darkens that segment alone
      and selects no other position. */
  lemma SegmentWriteShows(lines: map<nat, Line>, seg: Segment, value: Value)
    requires seg.GpioNumber() in lines
    ensures var after := lines[seg.GpioNumber() := lines[seg.GpioNumber()].(value := value)];
            && ActiveSegments(after) == (if value == Active then ActiveSegments(lines) + {seg} else ActiveSegments(lines) - {seg})
            && SelectedDigits(after) == SelectedDigits(lines)
  {
    PinTablesInjective();
    AllSegmentsListed();
  }

  /** What `enable_digit` leaves behind, whether or not it completes. */
  lemma EnableEffect(lines: map<nat, Line>, failing: set<nat>, target: Digit)
    ensures var run := Perform(lines, failing, EnablePlan(target));
            && SegmentLinesKept(lines, run.lines)
            && (run.outcome.Pass? ==> SelectedDigits(run.lines) == {target})
  {
    EnableKeepsSegments(lines, failing, target);
    if Perform(lines, failing, EnablePlan(target)).outcome.Pass? {
      EnableSelects(lines, failing, target);
    }
  }

  /** `enable_digit` writes the digit lines in the fixed order D1 to D4, so
      when D1 follows another selected position, as each sweep does after
      D4, both positions are selected once D1's line is written and until
      the old position's line is. */
  lemma EnableOverlaps(lines: map<nat, Line>, failing: set<nat>, previous: Digit)
    requires lines.Keys == AllPins()
    requires SelectedDigits(lines) == {previous} && previous != D1
    requires D1.GpioNumber() !in failing
    ensures SelectedDigits(Perform(lines, failing, EnablePlan(D1)[..1]).lines) == {D1, previous}
  {
    var pin := D1.GpioNumber();
    assert pin in lines;
    var w := Write(pin, Inactive);
    assert EnablePlan(D1)[..1] == [w];
    PerformSingle(lines, failing, w);
    var after := lines[pin := lines[pin].(value := Inactive)];
    assert Perform(lines, failing, EnablePlan(D1)[..1]).lines == after;
    forall d: Digit ensures d in SelectedDigits(after) <==> d == D1 || d == previous {
      AllSegmentsListed();
      if d != D1 {
        assert d.GpioNumber() != pin by {
          match d
          case D1 => case D2 => case D3 => case D4 =>
        }
        assert d in SelectedDigits(lines) <==> d == previous;
      }
    }
  }

  lemma SetDigitKeepsDigits(lines: map<nat, Line>, failing: set<nat>, digit: nat)
    ensures DigitLinesKept(lines, Perform(lines, failing, SetDigitPlan(digit)).lines)
  {
    forall d: Digit | d.GpioNumber() in lines
      ensures d.GpioNumber() in Perform(lines, failing, SetDigitPlan(digit)).lines
      ensures Perform(lines, failing, SetDigitPlan(digit)).lines[d.GpioNumber()] == lines[d.GpioNumber()]
    {
      var a: seq<Write> := ClearPlan();
      var b: seq<Write> := Writes(SegmentPins(DigitSegments(digit)), Active);
      SegmentWritesMissDigits(CLEAR_ORDER, Inactive, d);
      SegmentWritesMissDigits(DigitSegments(digit), Active, d);
      assert Untouched(a + b, d.GpioNumber()) by {
        forall i | 0 <= i < |a + b| ensures (a + b)[i].pin != d.GpioNumber() {
          if i < |a| { assert (a + b)[i] == a[i]; } else { assert (a + b)[i] == b[i - |a|]; }
        }
      }
      PerformUntouched(lines, failing, SetDigitPlan(digit), d.GpioNumber());
    }
  }

  /** The segment lists of `clear_all` and of every `set_digit` arm name no segment twice. */
  lemma SegmentListsDistinct(digit: nat)
    ensures forall i, j | 0 <= i < j < |CLEAR_ORDER| :: CLEAR_ORDER[i] != CLEAR_ORDER[j]
    ensures forall i, j | 0 <= i < j < |DigitSegments(digit)| :: DigitSegments(digit)[i] != DigitSegments(digit)[j]
  {
  }

  /** Writing one value to distinct segments: a segment's line holds the value
      exactly when the segment is in the list. */
  lemma ApplyWritesDistinctSegments(lines: map<nat, Line>, segs: seq<Segment>, v: Value, s: Segment)
    requires forall i, j | 0 <= i < j < |segs| :: segs[i] != segs[j]
    requires s.GpioNumber() in lines
    ensures Apply(lines, Writes(SegmentPins(segs), v))[s.GpioNumber()].value
            == if s in segs then v else lines[s.GpioNumber()].value
  {
    PinTablesInvert();
    var pins := SegmentPins(segs);
    forall i, j | 0 <= i < j < |pins| ensures pins[i] != pins[j] {
      assert SegmentOf(pins[i]) == Some(segs[i]);
    }
    ApplyWrites(lines, pins, v, s.GpioNumber());
    if s.GpioNumber() in pins {
      var k :| 0 <= k < |pins| && pins[k] == s.GpioNumber();
      assert SegmentOf(pins[k]) == Some(segs[k]);
    }
  }

  /** Where a segment stands in `CLEAR_ORDER`. */
  lemma ClearPosition(s: Segment) returns (i: nat)
    ensures i < |CLEAR_ORDER| && CLEAR_ORDER[i] == s
  {
    i := match s
      case A => 0 case B => 1 case C => 2 case D => 3
      case DP => 4 case E => 5 case F => 6 case G => 7;
  }

  /** A `clear_all` that passes wrote, and so owned, every segment line. */
  lemma ClearOwnsSegments(lines: map<nat, Line>, failing: set<nat>)
    requires Perform(lines, failing, ClearPlan()).outcome.Pass?
    ensures forall s: Segment :: s.GpioNumber() in lines
  {
    var pins := SegmentPins(CLEAR_ORDER);
    PerformPassOwned(lines, failing, ClearPlan());
    forall s: Segment ensures s.GpioNumber() in lines {
      var i := ClearPosition(s);
      assert ClearPlan()[i].pin == pins[i];
    }
  }

  /** A `set_digit` that passes wrote, and so owned, every segment line. */
  lemma SetDigitOwnsSegments(lines: map<nat, Line>, failing: set<nat>, digit: nat)
    requires Perform(lines, failing, SetDigitPlan(digit)).outcome.Pass?
    ensures forall s: Segment :: s.GpioNumber() in lines
  {
    PerformAppend(lines, failing, ClearPlan(), Writes(SegmentPins(DigitSegments(digit)), Active));
    ClearOwnsSegments(lines, failing);
  }

  /** One segment after clearing and lighting a digit's arm. */
  lemma SetDigitLightsAt(lines: map<nat, Line>, digit: nat, s: Segment)
    requires s.GpioNumber() in lines
    ensures Apply(lines, SetDigitPlan(digit))[s.GpioNumber()].value == if s in DigitSegments(digit) then Active else Inactive
  {
    var segs := DigitSegments(digit);
    var clear: seq<Write> := ClearPlan();
    ApplyAppend(lines, clear, Writes(SegmentPins(segs), Active));
    SegmentListsDistinct(digit);
    AllSegmentsListed();
    ApplyWritesDistinctSegments(lines, CLEAR_ORDER, Inactive, s);
    ApplyWritesDistinctSegments(Apply(lines, clear), segs, Active, s);
  }

  lemma SetDigitLights(lines: map<nat, Line>, digit: nat)
    requires forall s: Segment :: s.GpioNumber() in lines
    ensures ActiveSegments(Apply(lines, SetDigitPlan(digit))) == Pattern(digit)
  {
    AllSegmentsListed();
    forall s: Segment
      ensures Apply(lines, SetDigitPlan(digit))[s.GpioNumber()].value == if s in DigitSegments(digit) then Active else Inactive
    {
      SetDigitLightsAt(lines, digit, s);
    }
  }

  /** After a complete `set_digit(d)` the lit segments are exactly the digit's pattern. */
  lemma SetDigitShows(lines: map<nat, Line>, failing: set<nat>, digit: nat)
    requires Perform(lines, failing, SetDigitPlan(digit)).outcome.Pass?
    ensures ActiveSegments(Perform(lines, failing, SetDigitPlan(digit)).lines) == Pattern(digit)
  {
    PerformPassOwned(lines, failing, SetDigitPlan(digit));
    SetDigitOwnsSegments(lines, failing, digit);
    SetDigitLights(lines, digit);
  }

  /** Showing the same digit twice in a row leaves the lines as the first
      call did. */
  lemma SetDigitTwice(lines: map<nat, Line>, failing: set<nat>, digit: nat)
    requires Perform(lines, failing, SetDigitPlan(digit)).outcome.Pass?
    ensures var once := Perform(lines, failing, SetDigitPlan(digit)).lines;
            Perform(once, failing, SetDigitPlan(digit)) == Run(once, SetDigitPlan(digit), Pass)
  {
    PerformTwice(lines, failing, SetDigitPlan(digit));
  }

  // An independent reference: the conventional seven-segment glyph codes,
  // one bit per segment (bit 0 = A, ..., bit 6 = G, bit 7 = DP).

  /** The glyph code of each decimal digit. */
  const GLYPHS: seq<bv8> := [0x3F, 0x06, 0x5B, 0x4F, 0x66, 0x6D, 0x7D, 0x07, 0x7F, 0x6F]

  /** True when bit `k` of `code` is set. */
  predicate Lit(code: bv8, k: nat)
    requires k < 8
  {
    (code >> k) & 1 == 1
  }

  /** The arms of `set_digit` for 0 to 9 light exactly the segments of the
      conventional glyphs, and never the decimal point. */
  lemma DigitsMatchGlyphs(digit: nat, s: Segment)
    requires digit < |GLYPHS|
    ensures s in Pattern(digit) <==> Lit(GLYPHS[digit], s.Bit())
  {
    if digit < 5 {
      LowGlyphs(digit, s);
    } else {
      HighGlyphs(digit, s);
    }
  }

  lemma LowGlyphs(digit: nat, s: Segment)
    requires digit < 5
    ensures s in Pattern(digit) <==> Lit(GLYPHS[digit], s.Bit())
  {
    match s
    case A => case B => case C => case D => case E => case F => case G => case DP =>
  }

  lemma HighGlyphs(digit: nat, s: Segment)
    requires 5 <= digit < 10
    ensures s in Pattern(digit) <==> Lit(GLYPHS[digit], s.Bit())
  {
    match s
    case A => case B => case C => case D => case E => case F => case G => case DP =>
  }
}
