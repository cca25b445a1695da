/**
 * The counting modes of the single-digit display: up from 0 to 10, down from
 * 10 to 0, up and down, and random digits.
 *
 * Each mode of the source repeats forever and sleeps `delay` milliseconds
 * after every digit. Here a mode runs a given number of rounds (the random
 * mode takes its draws as input), the sleeps are not modelled, and a run that
 * returns `Pass` is one in which no call failed.
 */
module Counting {
  import opened Gpio
  import opened CounterSevenSegment

  const MAX_DIGIT: nat := 10
  const MIN_DIGIT: nat := 0

  /** The digits `lo` to `hi`, both included, in increasing order: a Rust
      range `lo..=hi`. */
  function Ascending(lo: nat, hi: nat): (ds: seq<nat>)
    ensures |ds| == if lo <= hi then hi - lo + 1 else 0
    ensures forall i | 0 <= i < |ds| :: ds[i] == lo + i
    decreases hi + 1 - lo
  {
    if lo > hi then [] else [lo] + Ascending(lo + 1, hi)
  }

  /** The digits `lo` to `hi`, both included, in decreasing order:
      `(lo..=hi).rev()`. */
  function Descending(lo: nat, hi: nat): (ds: seq<nat>)
    ensures |ds| == if lo <= hi then hi - lo + 1 else 0
    ensures forall i | 0 <= i < |ds| :: ds[i] + i == hi
    decreases hi + 1 - lo
  {
    if lo > hi then [] else Descending(lo + 1, hi) + [lo]
  }

  /** `cycle`, `rounds` times over. */
  function Repeat(cycle: seq<nat>, rounds: nat): seq<nat>
  {
    if rounds == 0 then [] else cycle + Repeat(cycle, rounds - 1)
  }

  /** One round of each counting mode. */
  function UpCycle(): seq<nat> { Ascending(MIN_DIGIT, MAX_DIGIT) }
  function DownCycle(): seq<nat> { Descending(MIN_DIGIT, MAX_DIGIT) }
  function RiseLeg(): seq<nat> { Ascending(MIN_DIGIT, MAX_DIGIT - 1) }
  function FallLeg(): seq<nat> { Descending(MIN_DIGIT + 1, MAX_DIGIT) }
  function UpDownCycle(): seq<nat> { RiseLeg() + FallLeg() }

  /** The run of `set_digit` for each of `digits` in turn, up to the first
      failing call. */
  function CountRun(lines: map<nat, Line>, failing: set<nat>, digits: seq<nat>): Run
    decreases |digits|
  {
    if digits == [] then Run(lines, [], Pass)
    else
      var first := Perform(lines, failing, SetDigitPlan(digits[0]));
      Then(first, CountRun(first.lines, failing, digits[1..]))
  }

  /** The run of `rounds` rounds of `cycle`, up to the first failing call. */
  function RoundsRun(lines: map<nat, Line>, failing: set<nat>, cycle: seq<nat>, rounds: nat): Run
    decreases rounds
  {
    if rounds == 0 then Run(lines, [], Pass)
    else
      var first := CountRun(lines, failing, cycle);
      Then(first, RoundsRun(first.lines, failing, cycle, rounds - 1))
  }

  class Counter {
    const display: SevenSegmentDisplay

    constructor (display: SevenSegmentDisplay)
      ensures this.display == display
    {
      this.display := display;
    }

    /** `Counter::new`: acquire the display. */
    static method New(refused: set<nat>, failing: set<nat>) returns (r: Result<Counter>)
      ensures r.Ok? <==> forall p | p in SEGMENT_PINS :: p !in refused
      ensures r.Ok? ==> fresh(r.value) && fresh(r.value.display) && r.value.display.Valid()
      ensures r.Ok? ==> r.value.display.lines == InitialLines() && r.value.display.trace == []
      ensures r.Ok? ==> r.value.display.failing == failing
      ensures r.Err? ==> exists p | p in SEGMENT_PINS :: p in refused && r.error == RequestRefused(p)
      ensures r.Err? ==> exists k: nat :: FirstRefused(PINS, refused, k) && r.error == RequestRefused(PINS[k])
    {
      var display := SevenSegmentDisplay.New(refused, failing);
      if display.Err? {
        return Err(display.error);
      }
      var counter := new Counter(display.value);
      r := Ok(counter);
    }

    /** One `for` loop of a counting mode: `set_digit` for each of `digits`
        in order, returning at the first error. */
    method Show(digits: seq<nat>) returns (r: Outcome)
      modifies display
      ensures display.Reached(CountRun(old(display.lines), display.failing, digits), r)
    {
      ghost var l0, t0 := display.lines, display.trace;
      ghost var done: seq<Write> := [];
      var k := 0;
      r := Pass;
      while k < |digits|
        invariant 0 <= k <= |digits|
        invariant Then(Run(display.lines, done, Pass), CountRun(display.lines, display.failing, digits[k..]))
                  == CountRun(l0, display.failing, digits)
        invariant display.trace == t0 + done
        invariant r == Pass
      {
        ghost var first := Perform(display.lines, display.failing, SetDigitPlan(digits[k]));
        assert digits[k..][0] == digits[k] && digits[k..][1..] == digits[k + 1..];
        r := display.SetDigit(digits[k]);
        Associate(t0, done, first.applied);
        if r.Fail? {
          return;
        }
        Associate(done, first.applied, CountRun(display.lines, display.failing, digits[k + 1..]).applied);
        done := done + first.applied;
        k := k + 1;
      }
      assert done + [] == done;
    }

    /** `rounds` rounds of a mode whose round is the `for` loop over `cycle`. */
    method Rounds(cycle: seq<nat>, rounds: nat) returns (r: Outcome)
      modifies display
      ensures display.Reached(RoundsRun(old(display.lines), display.failing, cycle, rounds), r)
    {
      ghost var l0, t0 := display.lines, display.trace;
      ghost var done: seq<Write> := [];
      var j := 0;
      r := Pass;
      while j < rounds
        invariant 0 <= j <= rounds
        invariant Then(Run(display.lines, done, Pass), RoundsRun(display.lines, display.failing, cycle, rounds - j))
                  == RoundsRun(l0, display.failing, cycle, rounds)
        invariant display.trace == t0 + done
        invariant r == Pass
      {
        ghost var first := CountRun(display.lines, display.failing, cycle);
        ghost var rest := RoundsRun(first.lines, display.failing, cycle, rounds - j - 1);
        ThenStep(display.lines, done, first, rest);
        r := Show(cycle);
        Associate(t0, done, first.applied);
        if r.Fail? {
          return;
        }
        done := done + first.applied;
        j := j + 1;
      }
      assert done + [] == done;
    }

    /** `count_up`: 0 to 10, over and over. */
    method CountUp(rounds: nat) returns (r: Outcome)
      modifies display
      ensures display.Reached(RoundsRun(old(display.lines), display.failing, UpCycle(), rounds), r)
    {
      r := Rounds(Ascending(MIN_DIGIT, MAX_DIGIT), rounds);
    }

    /** `count_down`: 10 to 0, over and over. */
    method CountDown(rounds: nat) returns (r: Outcome)
      modifies display
      ensures display.Reached(RoundsRun(old(display.lines), display.failing, DownCycle(), rounds), r)
    {
      r := Rounds(Descending(MIN_DIGIT, MAX_DIGIT), rounds);
    }

    /** `count_updown`: 0 to 9, then 10 down to 1, over and over. */
    method CountUpDown(rounds: nat) returns (r: Outcome)
      modifies display
      ensures display.Reached(RoundsRun(old(display.lines), display.failing, UpDownCycle(), rounds), r)
    {
      r := TwoLegRounds(Ascending(MIN_DIGIT, MAX_DIGIT - 1), Descending(MIN_DIGIT + 1, MAX_DIGIT), rounds);
    }

    /** `rounds` rounds of a mode whose round is a `for` loop over `rise`
        followed by one over `fall`. */
    method TwoLegRounds(rise: seq<nat>, fall: seq<nat>, rounds: nat) returns (r: Outcome)
      modifies display
      ensures display.Reached(RoundsRun(old(display.lines), display.failing, rise + fall, rounds), r)
    {
      ghost var l0, t0 := display.lines, display.trace;
      ghost var done: seq<Write> := [];
      var j := 0;
      r := Pass;
      while j < rounds
        invariant 0 <= j <= rounds
        invariant Then(Run(display.lines, done, Pass), RoundsRun(display.lines, display.failing, rise + fall, rounds - j))
                  == RoundsRun(l0, display.failing, rise + fall, rounds)
        invariant display.trace == t0 + done
        invariant r == Pass
      {
        ghost var first := CountRun(display.lines, display.failing, rise + fall);
        ghost var rest := RoundsRun(first.lines, display.failing, rise + fall, rounds - j - 1);
        ThenStep(display.lines, done, first, rest);
        r := TwoLegs(rise, fall);
        Associate(t0, done, first.applied);
        if r.Fail? {
          return;
        }
        done := done + first.applied;
        j := j + 1;
      }
      assert done + [] == done;
    }

    /** One round of `count_updown`'s loop: a `for` loop over `rise`, then
        one over `fall`. */
    method TwoLegs(rise: seq<nat>, fall: seq<nat>) returns (r: Outcome)
      modifies display
      ensures display.Reached(CountRun(old(display.lines), display.failing, rise + fall), r)
    {
      ghost var t0 := display.trace;
      ghost var first := CountRun(display.lines, display.failing, rise);
      CountRunAppend(display.lines, display.failing, rise, fall);
      r := Show(rise);
      if r.Fail? {
        return;
      }
      ghost var second := CountRun(display.lines, display.failing, fall);
      r := Show(fall);
      Associate(t0, first.applied, second.applied);
    }

    /** `count_random`: one digit per draw of `random_range(0..10)`; the
        draws are the input. */
    method CountRandom(draws: seq<nat>) returns (r: Outcome)
      requires forall k | 0 <= k < |draws| :: draws[k] < MAX_DIGIT
      modifies display
      ensures display.Reached(CountRun(old(display.lines), display.failing, draws), r)
    {
      r := Show(draws);
    }
  }

  /** Rounds of a cycle count through the cycle repeated. */
  lemma {:induction false} RoundsRunCounts(lines: map<nat, Line>, failing: set<nat>, cycle: seq<nat>, rounds: nat)
    ensures RoundsRun(lines, failing, cycle, rounds) == CountRun(lines, failing, Repeat(cycle, rounds))
    decreases rounds
  {
    if rounds > 0 {
      var first := CountRun(lines, failing, cycle);
      RoundsRunCounts(first.lines, failing, cycle, rounds - 1);
      CountRunAppend(lines, failing, cycle, Repeat(cycle, rounds - 1));
    }
  }

  /** Counting through `a + b` is counting through `a` and then, if no call
      failed, through `b`. */
  lemma {:induction false} CountRunAppend(lines: map<nat, Line>, failing: set<nat>, a: seq<nat>, b: seq<nat>)
    ensures CountRun(lines, failing, a + b)
              == Then(CountRun(lines, failing, a), CountRun(CountRun(lines, failing, a).lines, failing, b))
    decreases |a|
  {
    if a == [] {
      assert a + b == b;
      assert [] + CountRun(lines, failing, b).applied == CountRun(lines, failing, b).applied;
    } else {
      assert (a + b)[0] == a[0] && (a + b)[1..] == a[1..] + b;
      var first := Perform(lines, failing, SetDigitPlan(a[0]));
      CountRunAppend(first.lines, failing, a[1..], b);
      var rest := CountRun(first.lines, failing, a[1..]);
      ThenAssociates(first, rest, CountRun(rest.lines, failing, b));
    }
  }

  /** The writes of `set_digit` for each of `digits` in turn. */
  function CountPlan(digits: seq<nat>): seq<Write>
    decreases |digits|
  {
    if digits == [] then [] else SetDigitPlan(digits[0]) + CountPlan(digits[1..])
  }

  /** Counting performs the writes of its `set_digit` calls, in order, up to
      the first that fails. */
  lemma {:induction false} CountRunWrites(lines: map<nat, Line>, failing: set<nat>, digits: seq<nat>)
    ensures CountRun(lines, failing, digits) == Perform(lines, failing, CountPlan(digits))
    decreases |digits|
  {
    if digits != [] {
      var first := Perform(lines, failing, SetDigitPlan(digits[0]));
      CountRunWrites(first.lines, failing, digits[1..]);
      PerformThen(lines, failing, SetDigitPlan(digits[0]), CountPlan(digits[1..]));
    }
  }

  /** After counting through `digits` without an error, the display shows
      the last of them. */
  lemma {:induction false} CountShowsLast(lines: map<nat, Line>, failing: set<nat>, digits: seq<nat>)
    requires digits != [] && CountRun(lines, failing, digits).outcome.Pass?
    ensures LitPins(CountRun(lines, failing, digits).lines) == ArmSet(digits[|digits| - 1])
    decreases |digits|
  {
    var first := Perform(lines, failing, SetDigitPlan(digits[0]));
    if |digits| == 1 {
      SetDigitShows(lines, failing, digits[0]);
    } else {
      CountShowsLast(first.lines, failing, digits[1..]);
    }
  }

  // The digits each mode walks through.

  /** Counting up walks 0 to 10 one step at a time, then starts over at 0. */
  lemma UpCycleSteps()
    ensures |UpCycle()| == MAX_DIGIT - MIN_DIGIT + 1
    ensures UpCycle()[0] == MIN_DIGIT && UpCycle()[|UpCycle()| - 1] == MAX_DIGIT
    ensures forall i | 0 <= i < |UpCycle()| - 1 :: UpCycle()[i + 1] == UpCycle()[i] + 1
  {
  }

  /** Counting down walks the same digits as counting up, in reverse. */
  lemma DownReversesUp()
    ensures |DownCycle()| == |UpCycle()|
    ensures forall i | 0 <= i < |DownCycle()| :: DownCycle()[i] == UpCycle()[|UpCycle()| - 1 - i]
  {
  }

  /** Counting up and down moves one step at a time, also from the end of a
      round to the start of the next (1, then 0), and turns only at 0 and 10:
      each of 0 and 10 is shown once a round, every other digit twice. */
  lemma UpDownSteps()
    ensures |UpDownCycle()| == 2 * (MAX_DIGIT - MIN_DIGIT)
    ensures forall i | 0 <= i < |UpDownCycle()| - 1 ::
              UpDownCycle()[i + 1] == UpDownCycle()[i] + 1 || UpDownCycle()[i + 1] + 1 == UpDownCycle()[i]
    ensures UpDownCycle()[0] == MIN_DIGIT && UpDownCycle()[|UpDownCycle()| - 1] == MIN_DIGIT + 1
    ensures forall i | 0 <= i < |UpDownCycle()| :: MIN_DIGIT <= UpDownCycle()[i] <= MAX_DIGIT
    ensures forall i | 0 <= i < |UpDownCycle()| :: UpDownCycle()[i] == MIN_DIGIT <==> i == 0
    ensures forall i | 0 <= i < |UpDownCycle()| :: UpDownCycle()[i] == MAX_DIGIT <==> i == MAX_DIGIT - MIN_DIGIT
  {
    RiseFallSteps(MIN_DIGIT, MAX_DIGIT);
  }

  /** A rise from `lo` to `hi - 1` followed by a fall from `hi` to `lo + 1`. */
  lemma RiseFallSteps(lo: nat, hi: nat)
    requires lo < hi
    ensures var c := Ascending(lo, hi - 1) + Descending(lo + 1, hi);
            && |c| == 2 * (hi - lo)
            && (forall i | 0 <= i < |c| - 1 :: c[i + 1] == c[i] + 1 || c[i + 1] + 1 == c[i])
            && c[0] == lo && c[|c| - 1] == lo + 1
            && (forall i | 0 <= i < |c| :: lo <= c[i] <= hi)
            && (forall i | 0 <= i < |c| :: c[i] == lo <==> i == 0)
            && (forall i | 0 <= i < |c| :: c[i] == hi <==> i == hi - lo)
  {
    var rise, fall := Ascending(lo, hi - 1), Descending(lo + 1, hi);
    var c := rise + fall;
    var n := hi - lo;
    forall i | 0 <= i < |c|
      ensures lo <= c[i] <= hi
      ensures c[i] == lo <==> i == 0
      ensures c[i] == hi <==> i == n
    {
      if i < n {
        assert c[i] == rise[i];
      } else {
        assert c[i] == fall[i - n];
      }
    }
    forall i | 0 <= i < |c| - 1
      ensures c[i + 1] == c[i] + 1 || c[i + 1] + 1 == c[i]
    {
      if i + 1 < n {
        assert c[i] == rise[i] && c[i + 1] == rise[i + 1];
      } else if i + 1 == n {
        assert c[i] == rise[i] && c[i + 1] == fall[0];
      } else {
        assert c[i] == fall[i - n] && c[i + 1] == fall[i + 1 - n];
      }
    }
    assert c[|c| - 1] == fall[n - 1];
  }
}
