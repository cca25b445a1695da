/**
 * The command line of the counter program: `<program> <direction> <delay>`.
 *
 * The delay is parsed as a `u64` before the display is acquired, clamped to
 * the default when it is too large, and the direction picks the counting
 * mode. The usage text is not modelled, but the `args[0]` it formats is:
 * with no arguments at all the program panics. The counting modes never
 * return unless a call fails, so a run in which none failed ends
 * `StillCounting`. When a mode fails, or the direction is unknown, the
 * display goes out of scope and its `Drop` issues `clear_all`.
 */
module CounterMain {
  import opened Gpio
  import opened Decimal
  import opened CounterSevenSegment
  import opened Counting

  const MAX_DELAY_MS: nat := 9999
  const DEFAULT_DELAY_MS: nat := 1000
  const U64_LIMIT: nat := 0x1_0000_0000_0000_0000

  datatype Mode = Up | Down | UpDown | Random

  datatype ExitError =
    | BadDelay(text: string)   // the delay is not a `u64`
    | Hardware(error: Error)   // acquiring or driving the display failed

  datatype Exit =
    | Finished
    | Failed(reason: ExitError)
    | StillCounting(mode: Mode, delay: nat)
    | Panicked   // an argument the program indexes is missing

  /** `str::parse::<u64>`: an optional `+`, then one or more ASCII digits
      whose value fits 64 bits; no `-`, no blanks. */
  function ParseU64(s: string): (r: Option<nat>)
    ensures r.Some? ==> r.value < U64_LIMIT
    ensures r.Some? ==> |s| >= 1 && (IsDigit(s[0]) || s[0] == '+')
  {
    var digits := if |s| > 1 && s[0] == '+' then s[1..] else s;
    if digits == [] || !AllDigits(digits) then None
    else if NumberOf(digits) >= U64_LIMIT then None
    else Some(NumberOf(digits))
  }

  /** The direction argument. */
  function ModeOf(direction: string): Option<Mode>
  {
    if direction == "up" then Some(Up)
    else if direction == "down" then Some(Down)
    else if direction == "updown" then Some(UpDown)
    else if direction == "random" then Some(Random)
    else None
  }

  function ModeName(mode: Mode): string
  {
    match mode
    case Up => "up"
    case Down => "down"
    case UpDown => "updown"
    case Random => "random"
  }

  /** The delay after the clamp: a value above the maximum is replaced by
      the default. */
  function ClampDelay(requested: nat): nat
  {
    if requested > MAX_DELAY_MS then DEFAULT_DELAY_MS else requested
  }

  /** The run of a mode on the display: whole rounds for the three counting
      modes, the draws for `random`. */
  function ModeRun(lines: map<nat, Line>, failing: set<nat>, mode: Mode, rounds: nat, draws: seq<nat>): Run
  {
    match mode
    case Up => RoundsRun(lines, failing, UpCycle(), rounds)
    case Down => RoundsRun(lines, failing, DownCycle(), rounds)
    case UpDown => RoundsRun(lines, failing, UpDownCycle(), rounds)
    case Random => CountRun(lines, failing, draws)
  }

  /** `main`: `rounds` stands for how long the counting mode runs and
      `draws` for the random numbers it is given. `lines` is what the
      display's lines hold when the model stops: none when no display was
      acquired, where counting stands while it goes on, and otherwise what
      the display's `Drop` leaves when `main` returns. */
  method Launch(args: seq<string>, refused: set<nat>, failing: set<nat>, rounds: nat, draws: seq<nat>)
    returns (exit: Exit, lines: map<nat, Line>)
    requires forall k | 0 <= k < |draws| :: draws[k] < MAX_DIGIT
    ensures |args| == 0 ==> exit == Panicked && lines == map[]
    ensures |args| != 0 && |args| != 3 ==> exit == Finished && lines == map[]
    ensures |args| == 3 && ParseU64(args[2]).None? ==> exit == Failed(BadDelay(args[2])) && lines == map[]
    ensures |args| == 3 && ParseU64(args[2]).Some? && (exists p | p in SEGMENT_PINS :: p in refused) ==>
              && lines == map[]
              && exists k: nat :: FirstRefused(PINS, refused, k) && exit == Failed(Hardware(RequestRefused(PINS[k])))
    ensures |args| == 3 && ParseU64(args[2]).Some? && (forall p | p in SEGMENT_PINS :: p !in refused) ==>
              match ModeOf(args[1])
              case None => exit == Finished && lines == Perform(InitialLines(), failing, ClearPlan()).lines
              case Some(mode) =>
                var run := ModeRun(InitialLines(), failing, mode, rounds, draws);
                if run.outcome.Pass? then exit == StillCounting(mode, ClampDelay(ParseU64(args[2]).value)) && lines == run.lines
                else exit == Failed(Hardware(run.outcome.error)) && lines == Perform(run.lines, failing, ClearPlan()).lines
  {
    lines := map[];
    if |args| == 0 {
      // The usage text formats `args[0]`.
      return Panicked, lines;
    }
    if |args| != 3 {
      return Finished, lines;
    }
    var parsed := ParseU64(args[2]);
    if parsed.None? {
      return Failed(BadDelay(args[2])), lines;
    }
    var delay := parsed.value;
    var counter := Counter.New(refused, failing);
    if counter.Err? {
      return Failed(Hardware(counter.error)), lines;
    }
    if delay > MAX_DELAY_MS {
      delay := DEFAULT_DELAY_MS;
    }
    var display := counter.value.display;
    var mode := ModeOf(args[1]);
    if mode.None? {
      display.Drop();
      return Finished, display.lines;
    }
    var r := RunMode(counter.value, mode.value, rounds, draws);
    if r.Pass? {
      exit := StillCounting(mode.value, delay);
    } else {
      display.Drop();
      exit := Failed(Hardware(r.error));
    }
    lines := display.lines;
  }

  /** The `count_*` call `main` makes for a direction. */
  method RunMode(counter: Counter, mode: Mode, rounds: nat, draws: seq<nat>) returns (r: Outcome)
    requires forall k | 0 <= k < |draws| :: draws[k] < MAX_DIGIT
    modifies counter.display
    ensures counter.display.Reached(ModeRun(old(counter.display.lines), counter.display.failing, mode, rounds, draws), r)
  {
    match mode
    case Up => r := counter.CountUp(rounds);
    case Down => r := counter.CountDown(rounds);
    case UpDown => r := counter.CountUpDown(rounds);
    case Random => r := counter.CountRandom(draws);
  }

  // Properties of the argument parsing.

  /** Every `u64` reads back from its decimal text, with or without a `+`. */
  lemma ParseShow(n: nat)
    requires n < U64_LIMIT
    ensures ParseU64(Show(n)) == Some(n)
    ensures ParseU64("+" + Show(n)) == Some(n)
  {
    NumberOfShow(n);
    assert ("+" + Show(n))[1..] == Show(n);
  }

  /** A minus sign is never accepted, nor is a lone plus. */
  lemma ParseRejectsSigns(s: string)
    ensures ParseU64("-" + s).None?
    ensures ParseU64("+").None?
  {
  }

  /** Values too wide for 64 bits are refused rather than wrapped. */
  lemma ParseRejectsOverflow(n: nat)
    requires n >= U64_LIMIT
    ensures ParseU64(Show(n)).None?
  {
    NumberOfShow(n);
  }

  /** The four direction names are the only ones accepted, each naming its
      own mode. */
  lemma ModeNames(direction: string, mode: Mode)
    ensures ModeOf(direction) == Some(mode) <==> direction == ModeName(mode)
  {
  }

  /** The clamped delay never exceeds the maximum, keeps every delay up to
      it, and clamping twice changes nothing. */
  lemma ClampBounds(requested: nat)
    ensures ClampDelay(requested) <= MAX_DELAY_MS
    ensures requested <= MAX_DELAY_MS ==> ClampDelay(requested) == requested
    ensures ClampDelay(ClampDelay(requested)) == ClampDelay(requested)
  {
  }
}
