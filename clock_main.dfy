/**
 * The command line of the clock program: `<program> -f <12h|24h>`.
 *
 * The usage text is not modelled, but the `args[0]` it formats is: with
 * no arguments at all the program panics. The clock runs until a call to
 * the display fails; over a finite series of readings, a run in which none
 * failed ends `StillRunning`. When the clock fails, the display goes out of
 * scope and its `Drop` issues `clear_all`.
 */
module ClockMain {
  import opened Gpio
  import opened MuxSevenSegment
  import opened Clock

  datatype ExitError =
    | InvalidFormat(value: string)   // `-f` with a value other than 12h or 24h
    | UnknownOption(option: string)  // a first argument other than `-f`
    | Hardware(error: Error)         // acquiring or driving the display failed

  datatype Exit =
    | Finished
    | Failed(reason: ExitError)
    | StillRunning(format: ClockFormat)
    | Panicked   // the usage text formats a missing `args[0]`

  /** The value of `-f`. */
  function ParseFormat(value: string): Option<ClockFormat>
  {
    if value == "12h" then Some(TwelveHour)
    else if value == "24h" then Some(TwentyFourHour)
    else None
  }

  function FormatName(format: ClockFormat): string
  {
    match format
    case TwelveHour => "12h"
    case TwentyFourHour => "24h"
  }

  /** Too few arguments, or a request for help. */
  predicate WantsHelp(args: seq<string>)
  {
    |args| < 3 || args[1] == "-h" || args[1] == "--help"
  }

  /** `main`: `clocks` stands for the wall-clock readings of the sweeps the
      clock gets through. `lines` is what the display's lines hold when the
      model stops: none when no display was acquired, where the sweeps stand
      while the clock goes on, and otherwise what the display's `Drop`
      leaves when `main` returns. */
  method Launch(args: seq<string>, refused: set<nat>, failing: set<nat>, clocks: seq<int>)
    returns (exit: Exit, lines: map<nat, Line>)
    ensures |args| == 0 ==> exit == Panicked && lines == map[]
    ensures |args| != 0 && WantsHelp(args) ==> exit == Finished && lines == map[]
    ensures !WantsHelp(args) && |args| > 3 ==> exit == Finished && lines == map[]
    ensures !WantsHelp(args) && |args| == 3 && args[1] != "-f" ==> exit == Failed(UnknownOption(args[1])) && lines == map[]
    ensures !WantsHelp(args) && |args| == 3 && args[1] == "-f" && ParseFormat(args[2]).None? ==>
              exit == Failed(InvalidFormat(args[2])) && lines == map[]
    ensures !WantsHelp(args) && |args| == 3 && args[1] == "-f" && ParseFormat(args[2]).Some? &&
            (exists p | p in AllPins() :: p in refused) ==>
              && lines == map[]
              && exists k: nat :: FirstRefused(RequestOrder(), refused, k) && exit == Failed(Hardware(RequestRefused(RequestOrder()[k])))
    ensures !WantsHelp(args) && |args| == 3 && args[1] == "-f" && ParseFormat(args[2]).Some? &&
            (forall p | p in AllPins() :: p !in refused) ==>
              var run := SweepsRun(InitialLines(), failing, ParseFormat(args[2]).value, clocks);
              if run.outcome.Pass? then exit == StillRunning(ParseFormat(args[2]).value) && lines == run.lines
              else exit == Failed(Hardware(run.outcome.error)) && lines == Perform(run.lines, failing, ClearPlan()).lines
  {
    lines := map[];
    if |args| == 0 {
      return Panicked, lines;
    }
    if |args| < 3 || args[1] == "-h" || args[1] == "--help" {
      return Finished, lines;
    }
    if |args| == 3 {
      if args[1] == "-f" {
        var format := ParseFormat(args[2]);
        if format.None? {
          return Failed(InvalidFormat(args[2])), lines;
        }
        var clock := DigitalClock.New(format.value, refused, failing);
        if clock.Err? {
          return Failed(Hardware(clock.error)), lines;
        }
        var display := clock.value.display;
        var r := clock.value.RunSweeps(clocks);
        if r.Pass? {
          exit := StillRunning(format.value);
        } else {
          display.Drop();
          exit := Failed(Hardware(r.error));
        }
        return exit, display.lines;
      } else {
        return Failed(UnknownOption(args[1])), lines;
      }
    }
    exit := Finished;
  }

  /** "12h" and "24h" are the only format values accepted, each naming its
      own format. */
  lemma FormatNames(value: string, format: ClockFormat)
    ensures ParseFormat(value) == Some(format) <==> value == FormatName(format)
  {
  }
}
