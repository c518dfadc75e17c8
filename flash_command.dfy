/**
 * `EspToolThread.run`: the esptool argument vector built from the settings.
 * The call into esptool itself is commented out in the source, so what `run`
 * does is build the list, print it and print it joined by spaces; the joining
 * raises `TypeError` when an element is not a `str` (the printing is not modelled).
 */
module FlashCommand {
  import opened Wrappers
  import opened PyValues
  import opened ConfigFile

  /** The `TypeError` that `" ".join(argv)` raises on an element that is not a `str`. */
  datatype RunError = JoinTypeError

  const ERASE_ALL: PyVal := PyStr("--erase-all")

  /** The thirteen elements `run` always builds, in order. */
  function BaseArgs(s: Settings): (a: seq<PyVal>)
    ensures |a| == 13
    ensures a[1] == s.port && a[10] == s.mode && a[12] == s.firmwarePath
    ensures forall k :: 0 <= k < 13 && k != 1 && k != 10 && k != 12 ==> a[k].PyStr?
  {
    [PyStr("--port"), s.port, PyStr("--baud"), PyStr(Str(s.baud)),
     PyStr("--after"), PyStr("hard_reset"), PyStr("write_flash"),
     PyStr("--flash_size"), PyStr("detect"), PyStr("--flash_mode"), s.mode,
     PyStr("0x00000"), s.firmwarePath]
  }

  /** The list `run` builds as written: `--erase-all` follows whenever `erase_flash` is truthy. */
  function Argv(s: Settings): (a: seq<PyVal>)
    ensures |a| == 13 || |a| == 14
    ensures a[..13] == BaseArgs(s)
  {
    BaseArgs(s) + (if Truthy(s.eraseFlash) then [ERASE_ALL] else [])
  }

  predicate AllStrings(argv: seq<PyVal>) {
    forall k :: 0 <= k < |argv| ==> argv[k].PyStr?
  }

  /** The texts of a list of `str` values. */
  function Texts(argv: seq<PyVal>): (t: seq<string>)
    requires AllStrings(argv)
    ensures |t| == |argv| && forall k :: 0 <= k < |t| ==> argv[k] == PyStr(t[k])
  {
    if argv == [] then [] else [argv[0].s] + Texts(argv[1..])
  }

  /** What `run` ends in: the argument texts, or the `TypeError` of the join. */
  function RunOutcome(s: Settings): (r: Result<seq<string>, RunError>)
    ensures r.Success? ==> |r.value| == |Argv(s)| && forall k :: 0 <= k < |r.value| ==> Argv(s)[k] == PyStr(r.value[k])
    ensures r.Failure? ==> exists k :: 0 <= k < |Argv(s)| && !Argv(s)[k].PyStr?
  {
    var argv := Argv(s);
    if AllStrings(argv) then Success(Texts(argv)) else Failure(JoinTypeError)
  }

  /** The worker thread; it holds the panel's own settings object, not a copy. */
  class EspToolThread {
    const config: FlashConfig

    constructor (config: FlashConfig)
      ensures this.config == config
    {
      this.config := config;
    }

    /** `run()`: the list is built with one literal, one `extend` and a conditional `append`. */
    method Run() returns (r: Result<seq<string>, RunError>)
      ensures r == RunOutcome(config.Snapshot())
      ensures r.Success? ==> |r.value| == 13 || |r.value| == 14
    {
      var argv := [PyStr("--port"), config.port];
      argv := argv + [PyStr("--baud"), PyStr(Str(config.baud)),
                      PyStr("--after"), PyStr("hard_reset"), PyStr("write_flash"),
                      PyStr("--flash_size"), PyStr("detect"),
                      PyStr("--flash_mode"), config.mode,
                      PyStr("0x00000"), config.firmwarePath];
      if Truthy(config.eraseFlash) {
        argv := argv + [ERASE_ALL];
      }
      assert argv == Argv(config.Snapshot());
      if AllStrings(argv) {
        r := Success(Texts(argv));
      } else {
        r := Failure(JoinTypeError);
      }
    }
  }

  /**
   * With a `str` port, mode and firmware path, `run` yields exactly
   * `--port P --baud B --after hard_reset write_flash --flash_size detect
   * --flash_mode M 0x00000 F`, then `--erase-all` iff `erase_flash` is truthy.
   */
  lemma RunArguments(s: Settings, port: string, mode: string, path: string)
    requires s.port == PyStr(port) && s.mode == PyStr(mode) && s.firmwarePath == PyStr(path)
    ensures RunOutcome(s) == Success(["--port", port, "--baud", Str(s.baud), "--after", "hard_reset",
                                      "write_flash", "--flash_size", "detect", "--flash_mode", mode,
                                      "0x00000", path] + (if Truthy(s.eraseFlash) then ["--erase-all"] else []))
  {
    var expected := ["--port", port, "--baud", Str(s.baud), "--after", "hard_reset",
                     "write_flash", "--flash_size", "detect", "--flash_mode", mode,
                     "0x00000", path] + (if Truthy(s.eraseFlash) then ["--erase-all"] else []);
    assert Argv(s) == Wrap(expected);
    TextsOfWrap(expected);
  }

  /** The `str` values of a list of texts. */
  function Wrap(t: seq<string>): (argv: seq<PyVal>)
    ensures |argv| == |t| && forall k :: 0 <= k < |t| ==> argv[k] == PyStr(t[k])
  {
    seq(|t|, k requires 0 <= k < |t| => PyStr(t[k]))
  }

  lemma TextsOfWrap(t: seq<string>)
    ensures AllStrings(Wrap(t)) && Texts(Wrap(t)) == t
  {
  }

  /** `run` raises in the join exactly when the port, the mode or the firmware path is not a `str`. */
  lemma RunFailsIffNotStrings(s: Settings)
    ensures RunOutcome(s).Failure? <==> !(s.port.PyStr? && s.mode.PyStr? && s.firmwarePath.PyStr?)
  {
    var argv := Argv(s);
    if !s.port.PyStr? {
      assert !argv[1].PyStr?;
    } else if !s.mode.PyStr? {
      assert !argv[10].PyStr?;
    } else if !s.firmwarePath.PyStr? {
      assert !argv[12].PyStr?;
    }
  }

  /** The default firmware path `None` makes `run` raise. */
  lemma RunWithoutFirmwareFails(s: Settings)
    requires s.firmwarePath == PyNone
    ensures RunOutcome(s) == Failure(JoinTypeError)
  {
    RunFailsIffNotStrings(s);
  }

  /** `--erase-all` is added, as the last element, exactly when `erase_flash` is truthy; it never stands elsewhere. */
  lemma EraseFlagPosition(s: Settings)
    ensures Argv(s)[..13] == BaseArgs(s)
    ensures |Argv(s)| == 14 <==> Truthy(s.eraseFlash)
    ensures |Argv(s)| == 13 || Argv(s)[13] == ERASE_ALL
  {
  }

  /**
   * As written, the erase choice `No` is a non-empty, hence truthy, string, so
   * `--erase-all` is appended even when the operator chose not to erase.
   */
  lemma EraseNoStillErases(s: Settings)
    requires s.eraseFlash == PyStr("No")
    ensures |Argv(s)| == 14 && Argv(s)[13] == ERASE_ALL
  {
  }

  /** With the erase field holding one of the radio-box labels, the vector always has 14 elements. */
  lemma RadioEraseAlwaysFourteen(s: Settings)
    requires s.eraseFlash == PyStr("No") || s.eraseFlash == PyStr("Yes")
    ensures |Argv(s)| == 14
  {
  }

  /** The evidently intended vector: `--erase-all` only when the operator chose `Yes`. */
  function CorrectedArgv(s: Settings): (a: seq<PyVal>)
    ensures |a| >= 13 && a[..13] == BaseArgs(s)
    ensures |a| == 14 <==> s.eraseFlash == PyStr("Yes")
  {
    BaseArgs(s) + (if s.eraseFlash == PyStr("Yes") then [ERASE_ALL] else [])
  }

  /** The corrected vector erases exactly on `Yes`, and agrees with the code as written there. */
  lemma CorrectedEraseIffYes(s: Settings)
    ensures |CorrectedArgv(s)| == 14 <==> s.eraseFlash == PyStr("Yes")
    ensures ERASE_ALL in CorrectedArgv(s) <==> s.eraseFlash == PyStr("Yes") || ERASE_ALL in BaseArgs(s)
    ensures s.eraseFlash == PyStr("Yes") ==> CorrectedArgv(s) == Argv(s)
  {
  }

  /** The worked example: port COM3, baud 115200, mode dio, erase, firmware /tmp/app.bin. */
  lemma ExampleInvocation()
    ensures RunOutcome(Settings(PyStr("115200"), PyStr("COM3"), PyStr("/tmp/app.bin"), PyStr("dio"), PyStr("Yes")))
            == Success(["--port", "COM3", "--baud", "115200", "--after", "hard_reset", "write_flash",
                        "--flash_size", "detect", "--flash_mode", "dio", "0x00000", "/tmp/app.bin", "--erase-all"])
  {
    var s := Settings(PyStr("115200"), PyStr("COM3"), PyStr("/tmp/app.bin"), PyStr("dio"), PyStr("Yes"));
    assert Truthy(s.eraseFlash) by {
      assert |"Yes"| == 3;
    }
    RunArguments(s, "COM3", "dio", "/tmp/app.bin");
    var base := ["--port", "COM3", "--baud", "115200", "--after", "hard_reset", "write_flash",
                 "--flash_size", "detect", "--flash_mode", "dio", "0x00000", "/tmp/app.bin"];
    assert Str(s.baud) == "115200";
    assert base + ["--erase-all"] == ["--port", "COM3", "--baud", "115200", "--after", "hard_reset", "write_flash",
                                      "--flash_size", "detect", "--flash_mode", "dio", "0x00000", "/tmp/app.bin", "--erase-all"];
  }

  /** The default integer baud is rendered by `str()` as `921600`. */
  lemma DefaultBaudText()
    ensures Str(Defaults().baud) == "921600"
  {
    assert NatToDecimal(9) == "9";
    assert NatToDecimal(92) == "92";
    assert NatToDecimal(921) == "921";
    assert NatToDecimal(9216) == "9216";
    assert NatToDecimal(92160) == "92160";
    assert NatToDecimal(921600) == "921600";
  }
}
