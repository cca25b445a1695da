/**
 * Output lines of a GPIO character device, as the seven-segment drivers
 * use them: resolving a board GPIO number to a chip and line offset,
 * requesting a line as an output, and setting its value.
 *
 * A display owns its lines as a map from GPIO number to `Line`. A write
 * either succeeds and changes exactly one line, or fails and changes
 * nothing; the driver stops at the first failing write.
 */
module Gpio {

  /** Logical level of an output line. */
  datatype Value = Inactive | Active

  datatype Error =
    | UnsupportedPin(pin: nat)   // no chip band contains the GPIO number
    | RequestRefused(pin: nat)   // the chip did not hand out the line
    | NotInitialized(pin: nat)   // the display owns no line for the GPIO number
    | WriteFailed(pin: nat)      // setting the value of an owned line failed

  datatype Result<T> = Ok(value: T) | Err(error: Error)

  datatype Outcome = Pass | Fail(error: Error)

  datatype Option<T> = None | Some(value: T)

  /** Where a GPIO number lives: the chip device and the line offset on it. */
  datatype Location = Location(chip: string, offset: nat)

  /** An owned, requested output line: its offset on the chip and its current value. */
  datatype Line = Line(offset: nat, value: Value)

  /** One `set_value` call on the line of a GPIO number. */
  datatype Write = Write(pin: nat, value: Value)

  /** The effect of a sequence of writes: the lines afterwards, the writes
      that took effect, and whether all of them did. */
  datatype Run = Run(lines: map<nat, Line>, applied: seq<Write>, outcome: Outcome)

  /** `prev` followed by `next`, a run from where `prev` left the lines;
      nothing follows a run that failed. */
  function Then(prev: Run, next: Run): Run
  {
    if prev.outcome.Fail? then prev
    else Run(next.lines, prev.applied + next.applied, next.outcome)
  }

  const FIRST_PIN: nat := 512
  const LINES_PER_CHIP: nat := 32
  const CHIP_COUNT: nat := 4

  /** Device path of the chip with the given index. */
  function ChipPath(index: nat): string
    requires index < 10
  {
    "/dev/gpiochip" + [('0' as int + index) as char]
  }

  /** The pin resolver: four bands of 32 GPIO numbers from 512, one per chip. */
  function ChipOffset(pin: nat): (r: Result<Location>)
    ensures r.Ok? <==> FIRST_PIN <= pin < FIRST_PIN + CHIP_COUNT * LINES_PER_CHIP
    ensures r.Ok? ==> r.value.offset == (pin - FIRST_PIN) % LINES_PER_CHIP < LINES_PER_CHIP
    ensures r.Err? ==> r.error == UnsupportedPin(pin)
  {
    if 512 <= pin <= 543 then Ok(Location("/dev/gpiochip0", pin - 512))
    else if 544 <= pin <= 575 then Ok(Location("/dev/gpiochip1", pin - 544))
    else if 576 <= pin <= 607 then Ok(Location("/dev/gpiochip2", pin - 576))
    else if 608 <= pin <= 639 then Ok(Location("/dev/gpiochip3", pin - 608))
    else Err(UnsupportedPin(pin))
  }

  /** The chip of a resolved GPIO number is the one whose band holds it. */
  lemma ChipOffsetChip(pin: nat)
    requires ChipOffset(pin).Ok?
    ensures ChipOffset(pin).value.chip == ChipPath((pin - FIRST_PIN) / LINES_PER_CHIP)
  {
  }

  /** Writes of one value to each of the given pins, in order. */
  function Writes(pins: seq<nat>, v: Value): (ws: seq<Write>)
    ensures |ws| == |pins|
    ensures forall i | 0 <= i < |pins| :: ws[i] == Write(pins[i], v)
  {
    seq(|pins|, i requires 0 <= i < |pins| => Write(pins[i], v))
  }

  /** True when none of the writes is to `pin`. */
  predicate Untouched(ws: seq<Write>, pin: nat)
  {
    forall i | 0 <= i < |ws| :: ws[i].pin != pin
  }

  /** True when no pin is written twice. */
  predicate DistinctPins(ws: seq<Write>)
  {
    forall i, j | 0 <= i < j < |ws| :: ws[i].pin != ws[j].pin
  }

  /** A write is rejected when the display owns no line for its pin
      or when setting that line fails. */
  predicate Rejects(lines: map<nat, Line>, failing: set<nat>, w: Write)
  {
    w.pin !in lines || w.pin in failing
  }

  function Rejection(lines: map<nat, Line>, w: Write): Error
  {
    if w.pin !in lines then NotInitialized(w.pin) else WriteFailed(w.pin)
  }

  /** The lines after every write to an owned pin has taken effect, in order. */
  function Apply(lines: map<nat, Line>, ws: seq<Write>): (r: map<nat, Line>)
    ensures r.Keys == lines.Keys
    ensures forall p | p in lines :: r[p].offset == lines[p].offset
    decreases |ws|
  {
    if ws == [] then lines
    else
      var prev := Apply(lines, ws[..|ws| - 1]);
      var w := ws[|ws| - 1];
      if w.pin in prev then prev[w.pin := prev[w.pin].(value := w.value)] else prev
  }

  /** Issuing the writes one by one, stopping at the first rejected one
      and reporting its error, as a chain of `?`-propagated calls does. */
  function Perform(lines: map<nat, Line>, failing: set<nat>, ws: seq<Write>): (run: Run)
    decreases |ws|
  {
    if ws == [] then Run(lines, [], Pass)
    else
      var prev := Perform(lines, failing, ws[..|ws| - 1]);
      var w := ws[|ws| - 1];
      if prev.outcome.Fail? then prev
      else if Rejects(prev.lines, failing, w) then Run(prev.lines, prev.applied, Fail(Rejection(prev.lines, w)))
      else
        assert (prev.applied + [w])[..|prev.applied|] == prev.applied;
        Run(prev.lines[w.pin := prev.lines[w.pin].(value := w.value)], prev.applied + [w], Pass)
  }

  /** The writes that took effect are a prefix of those issued, all of them
      exactly when the run passed. */
  lemma {:induction false} PerformPrefix(lines: map<nat, Line>, failing: set<nat>, ws: seq<Write>)
    ensures var run := Perform(lines, failing, ws);
            run.applied <= ws && (run.outcome.Pass? <==> run.applied == ws)
    decreases |ws|
  {
    if ws != [] {
      PerformPrefix(lines, failing, ws[..|ws| - 1]);
    }
  }

  /** The lines after a run are those of applying the writes that took effect. */
  lemma {:induction false} PerformApplies(lines: map<nat, Line>, failing: set<nat>, ws: seq<Write>)
    ensures Perform(lines, failing, ws).lines == Apply(lines, Perform(lines, failing, ws).applied)
    decreases |ws|
  {
    if ws != [] {
      PerformApplies(lines, failing, ws[..|ws| - 1]);
      var prev := Perform(lines, failing, ws[..|ws| - 1]);
      var w := ws[|ws| - 1];
      assert (prev.applied + [w])[..|prev.applied|] == prev.applied;
    }
  }

  /** Performing writes never adds or removes a line. */
  lemma {:induction false} PerformKeys(lines: map<nat, Line>, failing: set<nat>, ws: seq<Write>)
    ensures Perform(lines, failing, ws).lines.Keys == lines.Keys
    decreases |ws|
  {
    if ws != [] {
      PerformKeys(lines, failing, ws[..|ws| - 1]);
    }
  }

  /** The writes that took effect were all accepted; when the run failed,
      the next write was rejected and its error is the run's error. */
  lemma {:induction false} PerformStopsAtRejection(lines: map<nat, Line>, failing: set<nat>, ws: seq<Write>)
    ensures var run := Perform(lines, failing, ws);
            && (forall i | 0 <= i < |run.applied| :: !Rejects(lines, failing, run.applied[i]))
            && (run.outcome.Fail? ==>
                  && |run.applied| < |ws|
                  && Rejects(lines, failing, ws[|run.applied|])
                  && run.outcome.error == Rejection(lines, ws[|run.applied|]))
    decreases |ws|
  {
    if ws != [] {
      PerformPrefix(lines, failing, ws[..|ws| - 1]);
      PerformKeys(lines, failing, ws[..|ws| - 1]);
      PerformStopsAtRejection(lines, failing, ws[..|ws| - 1]);
      var prev := Perform(lines, failing, ws[..|ws| - 1]);
      if prev.outcome.Fail? {
        assert ws[|prev.applied|] == ws[..|ws| - 1][|prev.applied|];
      }
    }
  }

  /** All writes take effect exactly when none of them is rejected. */
  lemma PerformPassesIff(lines: map<nat, Line>, failing: set<nat>, ws: seq<Write>)
    ensures Perform(lines, failing, ws).outcome.Pass? <==> forall w | w in ws :: !Rejects(lines, failing, w)
  {
    PerformPrefix(lines, failing, ws);
    PerformStopsAtRejection(lines, failing, ws);
    var run := Perform(lines, failing, ws);
    if run.outcome.Fail? {
      assert ws[|run.applied|] in ws;
    }
  }

  /** A line no write touches keeps its value. */
  lemma {:induction false} ApplyUntouched(lines: map<nat, Line>, ws: seq<Write>, p: nat)
    requires p in lines && Untouched(ws, p)
    ensures Apply(lines, ws)[p] == lines[p]
    decreases |ws|
  {
    if ws != [] {
      ApplyUntouched(lines, ws[..|ws| - 1], p);
    }
  }

  /** A line the planned writes do not touch is the same after performing them,
      whether or not all of them took effect. */
  lemma PerformUntouched(lines: map<nat, Line>, failing: set<nat>, ws: seq<Write>, p: nat)
    requires p in lines && Untouched(ws, p)
    ensures p in Perform(lines, failing, ws).lines && Perform(lines, failing, ws).lines[p] == lines[p]
  {
    PerformKeys(lines, failing, ws);
    var run := Perform(lines, failing, ws);
    PerformPrefix(lines, failing, ws);
    PerformApplies(lines, failing, ws);
    assert forall i | 0 <= i < |run.applied| :: run.applied[i] == ws[i];
    ApplyUntouched(lines, run.applied, p);
  }

  /** When a run passes, every written pin was owned and the lines are
      those of applying all the writes. */
  lemma PerformPassOwned(lines: map<nat, Line>, failing: set<nat>, ws: seq<Write>)
    requires Perform(lines, failing, ws).outcome.Pass?
    ensures forall i | 0 <= i < |ws| :: ws[i].pin in lines && ws[i].pin !in failing
    ensures Perform(lines, failing, ws).lines == Apply(lines, ws)
  {
    PerformPrefix(lines, failing, ws);
    PerformStopsAtRejection(lines, failing, ws);
    PerformApplies(lines, failing, ws);
  }

  /** Issuing one write: rejected, or applied to its line. `applied` holds
      the write when it took effect. */
  function Step(lines: map<nat, Line>, failing: set<nat>, w: Write): Run
  {
    if Rejects(lines, failing, w) then Run(lines, [], Fail(Rejection(lines, w)))
    else Run(lines[w.pin := lines[w.pin].(value := w.value)], [w], Pass)
  }

  /** A run that has passed so far continues with one `Step`. */
  lemma PerformNext(lines: map<nat, Line>, failing: set<nat>, ws: seq<Write>, i: nat)
    requires i < |ws|
    requires Perform(lines, failing, ws[..i]).outcome.Pass?
    ensures var prev := Perform(lines, failing, ws[..i]);
            var st := Step(prev.lines, failing, ws[i]);
            Perform(lines, failing, ws[..i + 1]) == Run(st.lines, prev.applied + st.applied, st.outcome)
  {
    assert ws[..i + 1][..i] == ws[..i];
  }

  lemma SplitAt<T>(s: seq<T>, k: nat)
    requires k <= |s|
    ensures s[..k] + s[k..] == s
  {
  }

  lemma Associate<T>(a: seq<T>, b: seq<T>, c: seq<T>)
    ensures a + b + c == a + (b + c)
  {
  }

  /** Chaining runs is associative. */
  lemma ThenAssociates(a: Run, b: Run, c: Run)
    ensures Then(Then(a, b), c) == Then(a, Then(b, c))
  {
    Associate(a.applied, b.applied, c.applied);
  }

  /** One step of a loop that chains runs: from a passing run that has
      applied `done`, the next run either fails, ending the whole chain, or
      passes, and the chain carries on from where it left the lines. */
  lemma ThenStep(current: map<nat, Line>, done: seq<Write>, next: Run, rest: Run)
    ensures var whole := Then(Run(current, done, Pass), Then(next, rest));
            && (next.outcome.Fail? ==> whole == Run(next.lines, done + next.applied, next.outcome))
            && (next.outcome.Pass? ==> whole == Then(Run(next.lines, done + next.applied, Pass), rest))
  {
    Associate(done, next.applied, rest.applied);
  }

  /** A run that failed after `i + 1` writes is the whole run. */
  lemma PerformAbort(lines: map<nat, Line>, failing: set<nat>, ws: seq<Write>, i: nat)
    requires i < |ws|
    requires Perform(lines, failing, ws[..i + 1]).outcome.Fail?
    ensures Perform(lines, failing, ws) == Perform(lines, failing, ws[..i + 1])
  {
    SplitAt(ws, i + 1);
    PerformStuck(lines, failing, ws[..i + 1], ws[i + 1..]);
  }

  /** One iteration of a loop that issues `ws` in order: from a passing run
      of the first `i` writes, the next `Step` either extends it or ends the
      whole run with its error. */
  lemma Advance(lines: map<nat, Line>, failing: set<nat>, ws: seq<Write>, i: nat, current: map<nat, Line>, done: seq<Write>)
    requires i < |ws|
    requires Perform(lines, failing, ws[..i]) == Run(current, done, Pass)
    ensures var st := Step(current, failing, ws[i]);
            && (st.outcome.Pass? ==> Perform(lines, failing, ws[..i + 1]) == Run(st.lines, done + [ws[i]], Pass))
            && (st.outcome.Fail? ==> Perform(lines, failing, ws) == Run(current, done, st.outcome))
  {
    PerformNext(lines, failing, ws, i);
    if Step(current, failing, ws[i]).outcome.Fail? {
      PerformAbort(lines, failing, ws, i);
    }
  }

  /** A single write performed is one `Step`. */
  lemma PerformSingle(lines: map<nat, Line>, failing: set<nat>, w: Write)
    ensures Perform(lines, failing, [w]) == Step(lines, failing, w)
  {
    assert [w][..0] == [];
  }

  /** Writes applied one sequence after another compose. */
  lemma {:induction false} ApplyAppend(lines: map<nat, Line>, a: seq<Write>, b: seq<Write>)
    ensures Apply(lines, a + b) == Apply(Apply(lines, a), b)
    decreases |b|
  {
    if b == [] {
      assert a + b == a;
    } else {
      assert (a + b)[..|a + b| - 1] == a + b[..|b| - 1];
      ApplyAppend(lines, a, b[..|b| - 1]);
    }
  }

  /** The value a pin holds after the writes: the last one written to it,
      or `current` when none is. */
  function LastValue(ws: seq<Write>, pin: nat, current: Value): Value
    decreases |ws|
  {
    if ws == [] then current
    else if ws[|ws| - 1].pin == pin then ws[|ws| - 1].value
    else LastValue(ws[..|ws| - 1], pin, current)
  }

  lemma {:induction false} ApplyAt(lines: map<nat, Line>, ws: seq<Write>, p: nat)
    requires p in lines
    ensures Apply(lines, ws)[p] == Line(lines[p].offset, LastValue(ws, p, lines[p].value))
    decreases |ws|
  {
    if ws != [] {
      ApplyAt(lines, ws[..|ws| - 1], p);
    }
  }

  lemma {:induction false} LastValueTwice(ws: seq<Write>, p: nat, current: Value)
    ensures LastValue(ws, p, LastValue(ws, p, current)) == LastValue(ws, p, current)
    decreases |ws|
  {
    if ws != [] && ws[|ws| - 1].pin != p {
      LastValueTwice(ws[..|ws| - 1], p, current);
    }
  }

  /** Issuing the same writes a second time changes no line. */
  lemma ApplyTwice(lines: map<nat, Line>, ws: seq<Write>)
    ensures Apply(Apply(lines, ws), ws) == Apply(lines, ws)
  {
    var once := Apply(lines, ws);
    forall p | p in lines ensures Apply(once, ws)[p] == once[p] {
      ApplyAt(lines, ws, p);
      ApplyAt(once, ws, p);
      LastValueTwice(ws, p, lines[p].value);
    }
  }

  /** When a run passes, repeating it from where it left the lines passes
      again and leaves every line as it was. */
  lemma PerformTwice(lines: map<nat, Line>, failing: set<nat>, ws: seq<Write>)
    requires Perform(lines, failing, ws).outcome.Pass?
    ensures var once := Perform(lines, failing, ws).lines;
            Perform(once, failing, ws) == Run(once, ws, Pass)
  {
    var once := Perform(lines, failing, ws).lines;
    PerformPrefix(once, failing, ws);
    PerformPassOwned(lines, failing, ws);
    PerformPassesIff(once, failing, ws);
    PerformPassOwned(once, failing, ws);
    ApplyTwice(lines, ws);
  }

  /** Performing two sequences of writes is performing the first and, if all
      of it took effect, then the second from where the first left the lines. */
  lemma {:induction false} PerformAppend(lines: map<nat, Line>, failing: set<nat>, a: seq<Write>, b: seq<Write>)
    ensures Perform(lines, failing, a + b) ==
              var ra := Perform(lines, failing, a);
              if ra.outcome.Fail? then ra
              else
                var rb := Perform(ra.lines, failing, b);
                Run(rb.lines, ra.applied + rb.applied, rb.outcome)
    decreases |b|
  {
    if b == [] {
      assert a + b == a;
    } else {
      assert (a + b)[..|a + b| - 1] == a + b[..|b| - 1];
      PerformAppend(lines, failing, a, b[..|b| - 1]);
      var ra := Perform(lines, failing, a);
      if ra.outcome.Pass? {
        var rb' := Perform(ra.lines, failing, b[..|b| - 1]);
        assert ra.applied + rb'.applied + [b[|b| - 1]] == ra.applied + (rb'.applied + [b[|b| - 1]]);
      }
    }
  }

  /** Performing `a + b` is the run of `a` followed by the run of `b` from
      where `a` left the lines. */
  lemma PerformThen(lines: map<nat, Line>, failing: set<nat>, a: seq<Write>, b: seq<Write>)
    ensures Perform(lines, failing, a + b)
              == Then(Perform(lines, failing, a), Perform(Perform(lines, failing, a).lines, failing, b))
  {
    PerformAppend(lines, failing, a, b);
  }

  /** Once a write has failed, later writes are never issued. */
  lemma PerformStuck(lines: map<nat, Line>, failing: set<nat>, a: seq<Write>, b: seq<Write>)
    requires Perform(lines, failing, a).outcome.Fail?
    ensures Perform(lines, failing, a + b) == Perform(lines, failing, a)
  {
    PerformAppend(lines, failing, a, b);
  }

  /** When no pin is written twice, every owned pin that is written ends
      with the value written to it. */
  lemma {:induction false} ApplyDistinct(lines: map<nat, Line>, ws: seq<Write>, i: nat)
    requires DistinctPins(ws)
    requires i < |ws| && ws[i].pin in lines
    ensures Apply(lines, ws)[ws[i].pin].value == ws[i].value
    decreases |ws|
  {
    var init := ws[..|ws| - 1];
    if i < |ws| - 1 {
      ApplyDistinct(lines, init, i);
      assert init[i] == ws[i];
    }
  }

  /** Writing one value to a list of distinct pins: the owned ones among
      them hold that value, every other line keeps its value. */
  lemma ApplyWrites(lines: map<nat, Line>, pins: seq<nat>, v: Value, p: nat)
    requires forall i, j | 0 <= i < j < |pins| :: pins[i] != pins[j]
    requires p in lines
    ensures Apply(lines, Writes(pins, v))[p].value == if p in pins then v else lines[p].value
  {
    var ws := Writes(pins, v);
    if p in pins {
      var i :| 0 <= i < |pins| && pins[i] == p;
      ApplyDistinct(lines, ws, i);
    } else {
      ApplyUntouched(lines, ws, p);
    }
  }
  /** A line can be requested when its GPIO number resolves and the chip hands it out. */
  predicate Unavailable(pin: nat, refused: set<nat>)
  {
    ChipOffset(pin).Err? || pin in refused
  }

  function RequestError(pin: nat): Error
  {
    if ChipOffset(pin).Err? then UnsupportedPin(pin) else RequestRefused(pin)
  }

  /** `lines` with one requested line added for each given GPIO number that resolves. */
  function Requested(lines: map<nat, Line>, pins: seq<nat>, initial: Value): map<nat, Line>
  {
    lines + map p | p in pins && ChipOffset(p).Ok? :: Line(ChipOffset(p).value.offset, initial)
  }

  /** What `Requested` holds at one GPIO number. */
  lemma RequestedAt(lines: map<nat, Line>, pins: seq<nat>, initial: Value, p: nat)
    ensures p in Requested(lines, pins, initial) <==> p in lines || (p in pins && ChipOffset(p).Ok?)
    ensures p in pins && ChipOffset(p).Ok? ==> Requested(lines, pins, initial)[p] == Line(ChipOffset(p).value.offset, initial)
    ensures p !in pins && p in lines ==> Requested(lines, pins, initial)[p] == lines[p]
  {
  }

  lemma RequestedStep(lines: map<nat, Line>, pins: seq<nat>, pin: nat, initial: Value)
    requires ChipOffset(pin).Ok?
    ensures Requested(lines, pins + [pin], initial)
            == Requested(lines, pins, initial)[pin := Line(ChipOffset(pin).value.offset, initial)]
  {
    var l := Requested(lines, pins + [pin], initial);
    var r := Requested(lines, pins, initial)[pin := Line(ChipOffset(pin).value.offset, initial)];
    assert l.Keys == r.Keys;
    forall p | p in l ensures l[p] == r[p] {
    }
  }

  /** `pins[k]` is the first of `pins` that is refused. */
  predicate FirstRefused(pins: seq<nat>, refused: set<nat>, k: nat)
  {
    k < |pins| && pins[k] in refused && forall j | 0 <= j < k :: pins[j] !in refused
  }

  /** A failed request of GPIO numbers that all resolve names the first
      refused one. */
  lemma FirstRefusal(pins: seq<nat>, refused: set<nat>, e: Error) returns (k: nat)
    requires forall q | q in pins :: ChipOffset(q).Ok?
    requires exists k | 0 <= k < |pins| ::
               && Unavailable(pins[k], refused)
               && (forall j | 0 <= j < k :: !Unavailable(pins[j], refused))
               && e == RequestError(pins[k])
    ensures FirstRefused(pins, refused, k) && e == RequestRefused(pins[k])
  {
    k :| 0 <= k < |pins| && Unavailable(pins[k], refused)
         && (forall j | 0 <= j < k :: !Unavailable(pins[j], refused))
         && e == RequestError(pins[k]);
    forall j | 0 <= j < k ensures pins[j] !in refused {
      assert !Unavailable(pins[j], refused);
    }
  }

  /** The first refusal in a list is the first in any longer request that
      starts with it. */
  lemma FirstRefusedBefore(first: seq<nat>, rest: seq<nat>, refused: set<nat>, k: nat)
    requires FirstRefused(first, refused, k)
    ensures FirstRefused(first + rest, refused, k) && (first + rest)[k] == first[k]
  {
    forall j | 0 <= j < k ensures (first + rest)[j] !in refused {
      assert (first + rest)[j] == first[j];
    }
  }

  /** After a list nobody refuses, the first refusal of the rest is the
      first of the whole request. */
  lemma FirstRefusedAfter(first: seq<nat>, rest: seq<nat>, refused: set<nat>, k: nat)
    requires forall p | p in first :: p !in refused
    requires FirstRefused(rest, refused, k)
    ensures FirstRefused(first + rest, refused, |first| + k) && (first + rest)[|first| + k] == rest[k]
  {
    forall j | 0 <= j < |first| + k ensures (first + rest)[j] !in refused {
      if j < |first| {
        assert (first + rest)[j] == first[j];
      } else {
        assert (first + rest)[j] == rest[j - |first|];
      }
    }
  }

  /** The request loop of a display constructor: resolve each GPIO number,
      request its line as an output at `initial`, and record it under the
      GPIO number; the first pin that does not resolve or is refused aborts. */
  method RequestLines(lines: map<nat, Line>, pins: seq<nat>, initial: Value, refused: set<nat>)
    returns (r: Result<map<nat, Line>>)
    ensures r.Ok? <==> forall p | p in pins :: !Unavailable(p, refused)
    ensures r.Ok? ==> r.value == Requested(lines, pins, initial)
    ensures r.Err? ==>
              exists k | 0 <= k < |pins| ::
                && Unavailable(pins[k], refused)
                && (forall j | 0 <= j < k :: !Unavailable(pins[j], refused))
                && r.error == RequestError(pins[k])
  {
    var m := lines;
    var i := 0;
    while i < |pins|
      invariant 0 <= i <= |pins|
      invariant forall j | 0 <= j < i :: !Unavailable(pins[j], refused)
      invariant m == Requested(lines, pins[..i], initial)
    {
      var pin := pins[i];
      var loc := ChipOffset(pin);
      if loc.Err? || pin in refused {
        r := if loc.Err? then Err(loc.error) else Err(RequestRefused(pin));
        assert Unavailable(pins[i], refused) && r.error == RequestError(pins[i]);
        return;
      }
      RequestedStep(lines, pins[..i], pin, initial);
      m := m[pin := Line(loc.value.offset, initial)];
      assert pins[..i + 1] == pins[..i] + [pin];
      i := i + 1;
    }
    assert pins[..i] == pins;
    return Ok(m);
  }
}
