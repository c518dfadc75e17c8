/**
 * The handlers of the main panel (`MyPanel`) and of the settings tab
 * (`SettingsTab`) that decide what runs: the precondition checks before a MAC
 * read or an upload, the firmware-path clean-up, the port choice, and the
 * radio-box lookups. Widgets themselves are not modelled: a message box, a MAC
 * read and a started worker are recorded, in order, as `Effect`s.
 */
module Panels {
  import opened Wrappers
  import opened PyValues
  import opened PyText
  import opened ConfigFile
  import opened MacAddress
  import opened FlashCommand
  import opened SerialPorts

  /** Something a handler makes happen outside the panel. */
  datatype Effect =
    | Alert(message: string, caption: string)             // `wx.MessageBox`
    | MacRead(port: PyVal)                                // `esptool_read_mac(port)` talked to the device
    | WorkerStarted(outcome: Result<seq<string>, RunError>) // an `EspToolThread` was started; what its `run` ends in

  /** An exception that escapes a handler. */
  datatype HandlerError =
    | ChipError(error: Espflasher)  // raised by `esptool_read_mac`
    | ConcatTypeError              // `str + None` in the progress print of `on_upload`

  /** What one handler call makes happen, and the exception it ends in, if any. */
  datatype Reaction = Reaction(effects: seq<Effect>, raised: Option<HandlerError>)

  const NO_PORT: Effect := Alert("No Port Selected !", "Select Port")
  const NO_FILE: Effect := Alert("No file is selected !", "Select Firmware")

  function ReadMacRaised(reply: ChipReply): Option<HandlerError> {
    match ReadMac(reply)
    case Success(_) => None
    case Failure(e) => Some(ChipError(e))
  }

  /** `on_read_mac`: without a port only the message box; otherwise the device is read. */
  function ReadMacReaction(s: Settings, reply: ChipReply): (r: Reaction)
    ensures |r.effects| == 1
    ensures r.effects[0] == NO_PORT <==> s.port == PyNone
    ensures s.port != PyNone ==> r.effects == [MacRead(s.port)]
    ensures r.raised.None? <==> s.port == PyNone || reply.MacBytes?
  {
    if s.port == PyNone then Reaction([NO_PORT], None)
    else Reaction([MacRead(s.port)], ReadMacRaised(reply))
  }

  /**
   * `on_upload` as written: no port, then a firmware path equal to `""`, are
   * reported; a `None` path passes that check and makes the print on the next
   * line raise; otherwise the MAC is read, and only if that succeeds is the
   * worker started.
   */
  function UploadReaction(s: Settings, reply: ChipReply): (r: Reaction)
    ensures |r.effects| <= 2
    ensures r.raised.Some? ==> forall k :: 0 <= k < |r.effects| ==> !r.effects[k].WorkerStarted?
  {
    if s.port == PyNone then Reaction([NO_PORT], None)
    else if s.firmwarePath == PyStr("") then Reaction([NO_FILE], None)
    else if !(s.port.PyStr? && s.firmwarePath.PyStr?) then Reaction([], Some(ConcatTypeError))
    else
      var read := ReadMacReaction(s, reply);
      if read.raised.Some? then read
      else Reaction(read.effects + [WorkerStarted(RunOutcome(s))], None)
  }

  /** Without a port, `on_upload` only reports it: the firmware is not checked, no MAC is read, no worker starts. */
  lemma UploadWithoutPort(s: Settings, reply: ChipReply)
    requires s.port == PyNone
    ensures UploadReaction(s, reply) == Reaction([NO_PORT], None)
  {
  }

  /** With a port set, a firmware path of exactly `""` is reported and nothing runs. */
  lemma UploadWithEmptyPath(s: Settings, reply: ChipReply)
    requires s.port != PyNone && s.firmwarePath == PyStr("")
    ensures UploadReaction(s, reply) == Reaction([NO_FILE], None)
  {
  }

  /**
   * When both checks pass, the MAC is read first; the worker starts after it,
   * exactly when the read succeeds, and with the vector `run` builds from the settings.
   */
  lemma UploadReadsMacFirst(s: Settings, reply: ChipReply, port: string, path: string)
    requires s.port == PyStr(port) && s.firmwarePath == PyStr(path) && path != ""
    ensures var r := UploadReaction(s, reply);
            |r.effects| >= 1 && r.effects[0] == MacRead(s.port)
            && (r.raised.None? <==> reply.MacBytes?)
            && (reply.MacBytes? ==> r.effects == [MacRead(s.port), WorkerStarted(RunOutcome(s))])
            && (!reply.MacBytes? ==> r.effects == [MacRead(s.port)])
  {
  }

  /** For every input, a worker is only ever started right after a MAC read, and at most once. */
  lemma WorkerFollowsMacRead(s: Settings, reply: ChipReply)
    ensures var e := UploadReaction(s, reply).effects;
            forall i :: 0 <= i < |e| && e[i].WorkerStarted? ==> i == 1 && e[0] == MacRead(s.port)
  {
  }

  /**
   * As written, the default firmware path `None` is not caught by the `== ""`
   * check: the handler raises `TypeError` instead of reporting the missing file.
   */
  lemma UploadWithoutFileRaises(s: Settings, reply: ChipReply)
    requires s.port.PyStr? && s.firmwarePath == PyNone
    ensures UploadReaction(s, reply) == Reaction([], Some(ConcatTypeError))
  {
  }

  /** The evidently intended `on_upload`: a `None` path is reported like an empty one. */
  function CorrectedUploadReaction(s: Settings, reply: ChipReply): (r: Reaction)
    ensures |r.effects| <= 2
    ensures forall k :: 0 <= k < |r.effects| && r.effects[k].WorkerStarted? ==> s.firmwarePath.PyStr? && Truthy(s.firmwarePath)
    ensures r.raised.Some? ==> forall k :: 0 <= k < |r.effects| ==> !r.effects[k].WorkerStarted?
  {
    if s.port == PyNone then Reaction([NO_PORT], None)
    else if s.firmwarePath == PyStr("") || s.firmwarePath == PyNone then Reaction([NO_FILE], None)
    else UploadReaction(s, reply)
  }

  /** The corrected handler reports any missing file and starts a worker only for a non-empty path. */
  lemma CorrectedUploadNeedsFile(s: Settings, reply: ChipReply)
    ensures s.port != PyNone && (s.firmwarePath == PyNone || s.firmwarePath == PyStr("")) ==>
              CorrectedUploadReaction(s, reply) == Reaction([NO_FILE], None)
    ensures var e := CorrectedUploadReaction(s, reply).effects;
            (exists i :: 0 <= i < |e| && e[i].WorkerStarted?) ==>
              s.firmwarePath.PyStr? && s.firmwarePath != PyStr("") && s.port.PyStr?
    ensures s.port.PyStr? && s.firmwarePath.PyStr? ==> CorrectedUploadReaction(s, reply) == UploadReaction(s, reply)
  {
  }

  /** The main tab. `filename` and `macAddress` are class attributes of `MyPanel` in the source. */
  class MyPanel {
    const config: FlashConfig
    var choices: seq<string>   // the items of the port `wx.Choice`
    var macText: string        // the value of the read-only MAC text control
    var filename: string
    var macAddress: string
    var effects: seq<Effect>

    /** The panel over the settings `FlashConfig.load()` returned and the ports the OS lists. */
    constructor (config: FlashConfig, comports: seq<PortInfo>)
      ensures this.config == config && choices == Devices(Sort(comports))
      ensures macText == "MAC address" && filename == "" && macAddress == "" && effects == []
    {
      var ports := GetSerialPorts(comports);
      this.config := config;
      choices := ports;
      macText := "MAC address";
      filename := "";
      macAddress := "";
      effects := [];
    }

    /** `on_read_mac`. */
    method OnReadMac(reply: ChipReply) returns (raised: Option<HandlerError>)
      modifies this
      ensures var r := ReadMacReaction(config.Snapshot(), reply);
              effects == old(effects) + r.effects && raised == r.raised
      ensures choices == old(choices) && filename == old(filename)
      ensures config.port == PyNone ==> macText == old(macText) && macAddress == old(macAddress)
      ensures config.port != PyNone ==>
                match ReadMac(reply)
                case Success(mac) => macText == mac && macAddress == mac
                case Failure(_) => macText == "" && macAddress == old(macAddress)
    {
      if config.port == PyNone {
        effects := effects + [NO_PORT];
        raised := None;
      } else {
        macText := "";
        effects := effects + [MacRead(config.port)];
        var mac := ReadMac(reply);
        if mac.Failure? {
          return Some(ChipError(mac.error));
        }
        macText := mac.value;
        macAddress := mac.value;
        raised := None;
      }
    }

    /** `on_upload`. The worker's `run` is taken to run to its end when it is started. */
    method OnUpload(reply: ChipReply) returns (raised: Option<HandlerError>)
      modifies this
      ensures var r := UploadReaction(config.Snapshot(), reply);
              effects == old(effects) + r.effects && raised == r.raised
      ensures choices == old(choices) && filename == old(filename)
      ensures var e := UploadReaction(config.Snapshot(), reply).effects;
              if e != [] && e[0].MacRead? then
                match ReadMac(reply)
                case Success(mac) => macText == mac && macAddress == mac
                case Failure(_) => macText == "" && macAddress == old(macAddress)
              else macText == old(macText) && macAddress == old(macAddress)
    {
      if config.port == PyNone {
        effects := effects + [NO_PORT];
        return None;
      } else if config.firmwarePath == PyStr("") {
        effects := effects + [NO_FILE];
        return None;
      }
      if !(config.port.PyStr? && config.firmwarePath.PyStr?) {
        return Some(ConcatTypeError);
      }
      ghost var before := |effects|;
      raised := OnReadMac(reply);
      assert effects[before] == MacRead(config.port);
      if raised.Some? {
        return;
      }
      var worker := new EspToolThread(config);
      var outcome := worker.Run();
      effects := effects + [WorkerStarted(outcome)];
    }

    /** `on_pick_file`: every `'` removed from the chosen path; the file name is its basename. */
    method OnPickFile(path: string)
      modifies this`filename, config`firmwarePath
      ensures config.firmwarePath == PyStr(RemoveAll(path, '\''))
      ensures filename == Basename(RemoveAll(path, '\''))
    {
      var cleaned := RemoveAll(path, '\'');
      var name := Basename(cleaned);
      config.firmwarePath := PyStr(cleaned);
      filename := name;
    }

    /** `on_select_port`: the port becomes the chosen entry of the list. */
    method OnSelectPort(selection: nat)
      requires selection < |choices|
      modifies config
      ensures config.port == PyStr(choices[selection])
      ensures config.baud == old(config.baud) && config.firmwarePath == old(config.firmwarePath)
      ensures config.mode == old(config.mode) && config.eraseFlash == old(config.eraseFlash)
    {
      config.port := PyStr(choices[selection]);
    }

    /** `on_reload`: the port list is queried again. */
    method OnReload(comports: seq<PortInfo>)
      modifies this
      ensures choices == Devices(Sort(comports))
      ensures macText == old(macText) && filename == old(filename)
      ensures macAddress == old(macAddress) && effects == old(effects)
    {
      choices := GetSerialPorts(comports);
    }
  }

  /** The `ValueError` that `list.index` raises for a value the list lacks. */
  datatype ValueError = ValueError

  const BAUD_RATES: seq<PyVal> :=
    [PyStr("9600"), PyStr("57600"), PyStr("74880"), PyStr("115200"), PyStr("230400"), PyStr("460800"), PyStr("921600")]
  const MODES: seq<PyVal> := [PyStr("qio"), PyStr("dio"), PyStr("dout")]
  const ERASE_CHOICES: seq<PyVal> := [PyStr("No"), PyStr("Yes")]

  /** `xs.index(v)`: the first position holding `v`, or `ValueError`. */
  function IndexOf(xs: seq<PyVal>, v: PyVal): (r: Result<nat, ValueError>)
    ensures r.Success? <==> v in xs
    ensures r.Success? ==> r.value < |xs| && xs[r.value] == v
    ensures r.Success? ==> forall j :: 0 <= j < r.value ==> xs[j] != v
  {
    if xs == [] then Failure(ValueError)
    else if xs[0] == v then Success(0)
    else match IndexOf(xs[1..], v)
      case Failure(e) => Failure(e)
      case Success(i) => Success(i + 1)
  }

  /** The selected positions of the baud, mode and erase radio boxes. */
  datatype Selection = Selection(baud: nat, mode: nat, erase: nat)

  /** The lookups `SettingsTab.__init__` makes, as written: the raw field values in the label lists. */
  function Selections(s: Settings): (r: Result<Selection, ValueError>)
    ensures r.Success? ==> && r.value.baud < |BAUD_RATES| && BAUD_RATES[r.value.baud] == s.baud
                           && r.value.mode < |MODES| && MODES[r.value.mode] == s.mode
                           && r.value.erase < |ERASE_CHOICES| && ERASE_CHOICES[r.value.erase] == s.eraseFlash
    ensures r.Failure? ==> s.baud !in BAUD_RATES || s.mode !in MODES || s.eraseFlash !in ERASE_CHOICES
  {
    match IndexOf(BAUD_RATES, s.baud)
    case Failure(e) => Failure(e)
    case Success(b) =>
      match IndexOf(MODES, s.mode)
      case Failure(e) => Failure(e)
      case Success(m) =>
        match IndexOf(ERASE_CHOICES, s.eraseFlash)
        case Failure(e) => Failure(e)
        case Success(x) => Success(Selection(b, m, x))
  }

  /** The field values the radio boxes can set: one of their labels each. */
  predicate RadioValues(s: Settings) {
    s.baud in BAUD_RATES && s.mode in MODES && s.eraseFlash in ERASE_CHOICES
  }

  /** The lookups succeed exactly for settings whose values are radio labels, and find their positions. */
  lemma SelectionsIffRadioValues(s: Settings)
    ensures Selections(s).Success? <==> RadioValues(s)
    ensures Selections(s).Success? ==>
              var sel := Selections(s).value;
              BAUD_RATES[sel.baud] == s.baud && MODES[sel.mode] == s.mode && ERASE_CHOICES[sel.erase] == s.eraseFlash
  {
  }

  /**
   * As written, a fresh config (baud the int 921600) has no place among the
   * string labels, so building the settings tab raises `ValueError`.
   */
  lemma FreshSettingsTabFails()
    ensures Selections(Defaults()) == Failure(ValueError)
  {
    assert PyInt(921600) !in BAUD_RATES;
  }

  /** Any int baud, as a config saved before the baud was ever chosen holds, fails the same way. */
  lemma IntBaudFails(s: Settings)
    requires s.baud.PyInt?
    ensures Selections(s) == Failure(ValueError)
  {
    assert s.baud !in BAUD_RATES;
    var r := IndexOf(BAUD_RATES, s.baud);
    assert r.Failure? && r.error == ValueError;
  }

  /** The evidently intended lookups: the baud is looked up by its text, `str(baud)`. */
  function CorrectedSelections(s: Settings): (r: Result<Selection, ValueError>)
    ensures r.Success? ==> r.value.baud < |BAUD_RATES| && BAUD_RATES[r.value.baud] == PyStr(Str(s.baud))
    ensures s.baud.PyInt? ==> (r.Success? ==> ParseInt(BAUD_RATES[r.value.baud].s) == Some(s.baud.i))
  {
    Selections(s.(baud := PyStr(Str(s.baud))))
  }

  /** The corrected lookups place a fresh config at 921600, dio, No, and agree with the original on string bauds. */
  lemma CorrectedSelectionsOfDefaults()
    ensures CorrectedSelections(Defaults()) == Success(Selection(6, 1, 0))
  {
    var d := Defaults().(baud := PyStr(Str(Defaults().baud)));
    DefaultBaudText();
    assert d.baud == PyStr("921600") == BAUD_RATES[6];
    var b := IndexOf(BAUD_RATES, d.baud);
    assert b == Success(6) by {
      assert b.Success? && BAUD_RATES[b.value] == d.baud;
      assert forall j :: 0 <= j < 6 ==> BAUD_RATES[j] != d.baud;
    }
    var m := IndexOf(MODES, d.mode);
    assert m == Success(1) by {
      assert MODES[0] != d.mode && MODES[1] == d.mode;
    }
    assert IndexOf(ERASE_CHOICES, d.eraseFlash) == Success(0);
  }

  lemma CorrectedSelectionsAgree(s: Settings)
    requires s.baud.PyStr?
    ensures CorrectedSelections(s) == Selections(s)
  {
    assert s.(baud := PyStr(Str(s.baud))) == s;
  }

  /** The settings tab; it loads its own `FlashConfig`, separate from the main panel's. */
  class SettingsTab {
    const config: FlashConfig
    var selection: Selection

    /** `SettingsTab.__init__` after `FlashConfig.load()`: the three lookups, or the `ValueError` they raise. */
    static method Open(config: FlashConfig) returns (r: Result<SettingsTab, ValueError>)
      ensures r.Success? <==> Selections(config.Snapshot()).Success?
      ensures r.Success? ==> fresh(r.value) && r.value.config == config
      ensures r.Success? ==> r.value.selection == Selections(config.Snapshot()).value
    {
      var sel := Selections(config.Snapshot());
      if sel.Failure? {
        return Failure(sel.error);
      }
      var tab := new SettingsTab.Init(config, sel.value);
      return Success(tab);
    }

    constructor Init(config: FlashConfig, selection: Selection)
      ensures this.config == config && this.selection == selection
    {
      this.config := config;
      this.selection := selection;
    }

    /** `on_baud_rate`: the baud becomes the chosen label, a string. */
    method OnBaudRate(choice: nat)
      requires choice < |BAUD_RATES|
      modifies config
      ensures config.Snapshot() == old(config.Snapshot()).(baud := BAUD_RATES[choice])
    {
      config.baud := BAUD_RATES[choice];
    }

    /** `on_mode`. */
    method OnMode(choice: nat)
      requires choice < |MODES|
      modifies config
      ensures config.Snapshot() == old(config.Snapshot()).(mode := MODES[choice])
    {
      config.mode := MODES[choice];
    }

    /** `on_erase`: the erase field becomes the label `No` or `Yes`. */
    method OnErase(choice: nat)
      requires choice < |ERASE_CHOICES|
      modifies config
      ensures config.Snapshot() == old(config.Snapshot()).(eraseFlash := ERASE_CHOICES[choice])
    {
      config.eraseFlash := ERASE_CHOICES[choice];
    }

    /** `on_save`: the new contents of the config file. */
    method OnSave() returns (file: Option<Record>)
      ensures file == Some(SaveRecord(config.Snapshot()))
      ensures LoadSettings(file) == Success(config.Snapshot().(firmwarePath := PyNone))
    {
      file := config.Save();
    }
  }

  /**
   * Once all three radio boxes have been used, the settings tab opens again on
   * the saved file, and `run` always appends `--erase-all`.
   */
  lemma RadioValuesPersist(s: Settings)
    requires RadioValues(s)
    ensures LoadSettings(Some(SaveRecord(s))).Success?
    ensures Selections(LoadSettings(Some(SaveRecord(s))).value).Success?
    ensures |Argv(s)| == 14
  {
    SaveLoadRoundTrip(s);
    SelectionsIffRadioValues(s);
    SelectionsIffRadioValues(s.(firmwarePath := PyNone));
    RadioEraseAlwaysFourteen(s);
  }
}
