/**
 * The user LED program: `<program> trigger <name>` or
 * `<program> brightness <0|1>` writes the value to the sysfs attribute of
 * user LED 3; `help` and `info` write nothing.
 *
 * The sysfs tree is a map from path to file content. Opening a path for
 * writing fails when no file is there (the program does not create one) or
 * when the path is listed as unwritable; a write replaces the attribute's
 * content, as a sysfs store does. File content is kept as characters: every
 * value written is ASCII, so its bytes and its characters coincide.
 */
module UserLed {
  import opened Decimal

  const USR_LED_NUMBER: nat := 3
  const LEDS_DIR: string := "/sys/class/leds"

  /** The trigger names the program accepts. */
  const TRIGGERS: seq<string> := ["heartbeat", "timer", "none", "oneshot", "default-on"]

  datatype LedError =
    | InvalidTrigger        // the trigger is not one of `TRIGGERS`
    | InvalidBrightness     // the brightness is neither "0" nor "1"
    | InvalidOption         // the control option is not recognised
    | OpenFailed(path: string)

  datatype Status =
    | Done
    | Refused(error: LedError)
    | Panicked   // an argument the program indexes is missing

  /** `PathBuf::push`: an absolute `part` replaces the path, a relative one
      is appended after a separator. */
  function Push(base: string, part: string): (path: string)
    ensures |part| > 0 && part[0] != '/' && |base| > 0 && base[|base| - 1] != '/' ==> path == base + "/" + part
    ensures |part| > 0 && part[0] == '/' ==> path == part
  {
    if |part| > 0 && part[0] == '/' then part
    else if |base| == 0 || base[|base| - 1] == '/' then base + part
    else base + "/" + part
  }

  /** The sysfs attribute `attribute` of user LED `led`. */
  function LedPath(led: nat, attribute: string): string
  {
    LEDS_DIR + "/beaglebone:green:usr" + Show(led) + "/" + attribute
  }

  class Sysfs {
    /** The files present and their content. */
    var files: map<string, string>
    /** Paths whose opening or writing fails. */
    const unwritable: set<string>

    constructor (files: map<string, string>, unwritable: set<string>)
      ensures this.files == files && this.unwritable == unwritable
    {
      this.files := files;
      this.unwritable := unwritable;
    }

    predicate Writable(path: string)
      reads this
    {
      path in files && path !in unwritable
    }

    /** The state change of writing `content` to `path`, with status `r`. */
    twostate predicate Wrote(path: string, content: string, r: Status)
      reads this
    {
      if old(Writable(path)) then r == Done && files == old(files)[path := content]
      else r == Refused(OpenFailed(path)) && files == old(files)
    }
  }

  /** Build the attribute path of LED `led` the way the program does: start
      at the LED class directory and push the LED's attribute onto it. */
  method AttributePath(led: nat, attribute: string) returns (path: string)
    ensures path == LedPath(led, attribute)
  {
    path := LEDS_DIR;
    path := Push(path, "beaglebone:green:usr" + Show(led) + "/" + attribute);
  }

  /** `write_trigger_values`: write the trigger name to LED `led`. */
  method WriteTriggerValues(fs: Sysfs, led: nat, v: string) returns (r: Status)
    modifies fs
    ensures fs.Wrote(LedPath(led, "trigger"), v, r)
  {
    var path := AttributePath(led, "trigger");
    if path !in fs.files || path in fs.unwritable {
      return Refused(OpenFailed(path));
    }
    fs.files := fs.files[path := v];
    r := Done;
  }

  /** `write_brightness_values`: write the single byte `b'0' + v`; a `u8`
      sum, so `v` may be at most 207. */
  method WriteBrightnessValues(fs: Sysfs, led: nat, v: nat) returns (r: Status)
    requires v <= 255 - ('0' as nat)
    modifies fs
    ensures fs.Wrote(LedPath(led, "brightness"), [(('0' as nat) + v) as char], r)
  {
    var path := AttributePath(led, "brightness");
    if path !in fs.files || path in fs.unwritable {
      return Refused(OpenFailed(path));
    }
    var byte := (('0' as nat) + v) as char;
    fs.files := fs.files[path := [byte]];
    r := Done;
  }

  /** `process_trigger_value`: only the listed trigger names are written. */
  method ProcessTriggerValue(fs: Sysfs, v: string) returns (r: Status)
    modifies fs
    ensures v in TRIGGERS ==> fs.Wrote(LedPath(USR_LED_NUMBER, "trigger"), v, r)
    ensures v !in TRIGGERS ==> r == Refused(InvalidTrigger) && fs.files == old(fs.files)
  {
    if v == "heartbeat" || v == "timer" || v == "none" || v == "oneshot" || v == "default-on" {
      r := WriteTriggerValues(fs, USR_LED_NUMBER, v);
    } else {
      r := Refused(InvalidTrigger);
    }
  }

  /** `process_brightness_value`: "0" and "1" are parsed and written back
      as the same single character; anything else is refused. */
  method ProcessBrightnessValue(fs: Sysfs, v: string) returns (r: Status)
    modifies fs
    ensures v == "0" || v == "1" ==> fs.Wrote(LedPath(USR_LED_NUMBER, "brightness"), v, r)
    ensures v != "0" && v != "1" ==> r == Refused(InvalidBrightness) && fs.files == old(fs.files)
  {
    if v == "0" || v == "1" {
      var level := DigitValue(v[0]);
      r := WriteBrightnessValues(fs, USR_LED_NUMBER, level);
      assert [(('0' as nat) + level) as char] == v;
    } else {
      r := Refused(InvalidBrightness);
    }
  }

  /** `main`. With other than three arguments the source prints its usage,
      formatting `args[0]`, and carries on, indexing `args[1]` and, for
      `trigger` and `brightness`, `args[2]`; a missing one panics. */
  method Dispatch(fs: Sysfs, args: seq<string>) returns (r: Status)
    modifies fs
    ensures |args| < 2 ==> r == Panicked && fs.files == old(fs.files)
    ensures |args| == 2 && (args[1] == "trigger" || args[1] == "brightness") ==>
              r == Panicked && fs.files == old(fs.files)
    ensures |args| >= 3 && args[1] == "trigger" ==> (
              if args[2] in TRIGGERS then fs.Wrote(LedPath(USR_LED_NUMBER, "trigger"), args[2], r)
              else r == Refused(InvalidTrigger) && fs.files == old(fs.files))
    ensures |args| >= 3 && args[1] == "brightness" ==> (
              if args[2] == "0" || args[2] == "1" then fs.Wrote(LedPath(USR_LED_NUMBER, "brightness"), args[2], r)
              else r == Refused(InvalidBrightness) && fs.files == old(fs.files))
    ensures |args| >= 2 && (args[1] == "help" || args[1] == "info") ==> r == Done && fs.files == old(fs.files)
    ensures |args| >= 2 && args[1] !in ["trigger", "brightness", "help", "info"] ==>
              r == Refused(InvalidOption) && fs.files == old(fs.files)
  {
    if |args| < 2 {
      return Panicked;
    }
    if args[1] == "trigger" {
      if |args| < 3 {
        return Panicked;
      }
      r := ProcessTriggerValue(fs, args[2]);
    } else if args[1] == "brightness" {
      if |args| < 3 {
        return Panicked;
      }
      r := ProcessBrightnessValue(fs, args[2]);
    } else if args[1] == "help" || args[1] == "info" {
      r := Done;
    } else if args[1] == "info" {
      // The second `info` arm can never be taken: the arm before it
      // already matches "info".
      assert false;
    } else {
      r := Refused(InvalidOption);
    }
  }

  // Properties of the paths and values written.

  /** The program writes to the attributes of `beaglebone:green:usr3`. */
  lemma UserLedPath(attribute: string)
    ensures LedPath(USR_LED_NUMBER, attribute) == "/sys/class/leds/beaglebone:green:usr3/" + attribute
  {
    assert Show(USR_LED_NUMBER) == "3";
    assert LEDS_DIR + "/beaglebone:green:usr" + "3" + "/" == "/sys/class/leds/beaglebone:green:usr3/";
  }

  /** Different LEDs, or different attributes of one LED, are different
      files. */
  lemma LedPathsDistinct(led1: nat, attribute1: string, led2: nat, attribute2: string)
    requires LedPath(led1, attribute1) == LedPath(led2, attribute2)
    requires forall i | 0 <= i < |attribute1| :: attribute1[i] != '/'
    requires forall i | 0 <= i < |attribute2| :: attribute2[i] != '/'
    ensures led1 == led2 && attribute1 == attribute2
  {
    var prefix := LEDS_DIR + "/beaglebone:green:usr";
    var tail1 := Show(led1) + "/" + attribute1;
    var tail2 := Show(led2) + "/" + attribute2;
    assert LedPath(led1, attribute1) == prefix + tail1;
    assert LedPath(led2, attribute2) == prefix + tail2;
    assert tail1 == LedPath(led1, attribute1)[|prefix|..];
    assert tail2 == LedPath(led2, attribute2)[|prefix|..];
    var n1, n2 := |Show(led1)|, |Show(led2)|;
    assert tail1[n1] == '/' && tail2[n2] == '/';
    assert Show(led1) == tail1[..n1] == tail2[..n2] == Show(led2);
    ShowInjective(led1, led2);
    assert attribute1 == tail1[n1 + 1..] == tail2[n2 + 1..] == attribute2;
  }
}
