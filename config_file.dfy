/**
 * The flasher's settings (`FlashConfig`): defaults, `load` from and `save` to
 * a JSON object in the per-user config file. The file is `None` when it does
 * not exist and `Some(record)` when it holds a JSON object.
 */
module ConfigFile {
  import opened Wrappers
  import opened PyValues

  /** A JSON object as `json.load` returns it: member name to value. */
  type Record = map<string, PyVal>

  /** The five fields of a `FlashConfig` object. */
  datatype Settings = Settings(baud: PyVal, port: PyVal, firmwarePath: PyVal, mode: PyVal, eraseFlash: PyVal)

  /** The `KeyError` that `data[key]` raises for a member the file lacks. */
  datatype LoadError = MissingKey(key: string)

  /** The members `load` reads, in the order it reads them. */
  const LOADED_KEYS: seq<string> := ["port", "baud", "mode", "erase"]

  /** The members `save` writes. */
  const SAVED_KEYS: set<string> := {"baud", "port", "mode", "erase"}

  /** A fresh `FlashConfig()`. */
  function Defaults(): (d: Settings)
    ensures !Truthy(d.port) && !Truthy(d.firmwarePath)
    ensures d.baud.PyInt? && Truthy(d.eraseFlash)
  {
    Settings(PyInt(921600), PyNone, PyNone, PyStr("dio"), PyStr("No"))
  }

  /** What `FlashConfig.load` returns for the given config file. */
  function LoadSettings(file: Option<Record>): (r: Result<Settings, LoadError>)
    ensures file.None? ==> r == Success(Defaults())
    ensures r.Failure? ==> file.Some? && r.error.key in LOADED_KEYS && r.error.key !in file.value
    ensures r.Success? ==> r.value.firmwarePath == PyNone
  {
    match file
    case None => Success(Defaults())
    case Some(data) =>
      if "port" !in data then Failure(MissingKey("port"))
      else if "baud" !in data then Failure(MissingKey("baud"))
      else if "mode" !in data then Failure(MissingKey("mode"))
      else if "erase" !in data then Failure(MissingKey("erase"))
      else Success(Defaults().(port := data["port"], baud := data["baud"],
                               mode := data["mode"], eraseFlash := data["erase"]))
  }

  /** The JSON object `FlashConfig.save` writes: exactly four members, the firmware path not among them. */
  function SaveRecord(s: Settings): (r: Record)
    ensures r.Keys == SAVED_KEYS
    ensures r["baud"] == s.baud && r["port"] == s.port
    ensures r["mode"] == s.mode && r["erase"] == s.eraseFlash
  {
    map["baud" := s.baud, "port" := s.port, "mode" := s.mode, "erase" := s.eraseFlash]
  }

  /** Without a config file, `load` gives exactly the defaults. */
  lemma LoadWithoutFile()
    ensures LoadSettings(None) == Success(Defaults())
  {
  }

  /**
   * `load` fails exactly when one of the four members is missing, and the
   * `KeyError` names the first missing one in reading order.
   */
  lemma {:induction false} LoadFailsIffMissing(data: Record)
    ensures LoadSettings(Some(data)).Failure? <==> exists k :: k in LOADED_KEYS && k !in data
    ensures LoadSettings(Some(data)).Failure? ==>
              exists i :: 0 <= i < |LOADED_KEYS| && LoadSettings(Some(data)).error == MissingKey(LOADED_KEYS[i])
                && LOADED_KEYS[i] !in data && forall j :: 0 <= j < i ==> LOADED_KEYS[j] in data
  {
    var r := LoadSettings(Some(data));
    if r.Failure? {
      var i := if "port" !in data then 0 else if "baud" !in data then 1 else if "mode" !in data then 2 else 3;
      assert LOADED_KEYS[i] !in data && r.error == MissingKey(LOADED_KEYS[i]);
    } else {
      forall k | k in LOADED_KEYS
        ensures k in data
      {
        assert k == LOADED_KEYS[0] || k == LOADED_KEYS[1] || k == LOADED_KEYS[2] || k == LOADED_KEYS[3];
      }
    }
  }

  /** A successful `load` takes port, baud, mode and erase from the file and leaves the firmware path `None`. */
  lemma LoadTakesFileMembers(data: Record)
    requires LoadSettings(Some(data)).Success?
    ensures var s := LoadSettings(Some(data)).value;
            s.port == data["port"] && s.baud == data["baud"] && s.mode == data["mode"]
            && s.eraseFlash == data["erase"] && s.firmwarePath == PyNone
  {
  }

  /** `save` then `load` restores port, baud, mode and erase; the firmware path comes back `None`. */
  lemma SaveLoadRoundTrip(s: Settings)
    ensures LoadSettings(Some(SaveRecord(s))) == Success(s.(firmwarePath := PyNone))
  {
  }

  /** Saving what was loaded writes back exactly the four members that were read. */
  lemma LoadSaveRoundTrip(data: Record)
    requires LoadSettings(Some(data)).Success?
    ensures SaveRecord(LoadSettings(Some(data)).value) == map k | k in SAVED_KEYS :: data[k]
  {
  }

  /** The settings object; the handlers assign its fields in place. */
  class FlashConfig {
    var baud: PyVal
    var port: PyVal
    var firmwarePath: PyVal
    var mode: PyVal
    var eraseFlash: PyVal

    /** The current values of the five fields. */
    function Snapshot(): Settings
      reads this
    {
      Settings(baud, port, firmwarePath, mode, eraseFlash)
    }

    /** `FlashConfig()`: baud 921600, no port, no firmware, mode `dio`, erase `No`. */
    constructor ()
      ensures baud == PyInt(921600) && port == PyNone && firmwarePath == PyNone
      ensures mode == PyStr("dio") && eraseFlash == PyStr("No")
      ensures Snapshot() == Defaults()
    {
      baud := PyInt(921600);
      port := PyNone;
      firmwarePath := PyNone;
      mode := PyStr("dio");
      eraseFlash := PyStr("No");
    }

    /** `FlashConfig.load()`: a default object, then the four members assigned one after another. */
    static method Load(file: Option<Record>) returns (r: Result<FlashConfig, LoadError>)
      ensures r.Success? <==> LoadSettings(file).Success?
      ensures r.Success? ==> fresh(r.value) && r.value.Snapshot() == LoadSettings(file).value
      ensures r.Failure? ==> r.error == LoadSettings(file).error
    {
      var conf := new FlashConfig();
      if file.Some? {
        var data := file.value;
        if "port" !in data {
          return Failure(MissingKey("port"));
        }
        conf.port := data["port"];
        if "baud" !in data {
          return Failure(MissingKey("baud"));
        }
        conf.baud := data["baud"];
        if "mode" !in data {
          return Failure(MissingKey("mode"));
        }
        conf.mode := data["mode"];
        if "erase" !in data {
          return Failure(MissingKey("erase"));
        }
        conf.eraseFlash := data["erase"];
      }
      return Success(conf);
    }

    /** `save()`: the new contents of the config file, whatever it held before. */
    method Save() returns (file: Option<Record>)
      ensures file == Some(SaveRecord(Snapshot()))
      ensures LoadSettings(file) == Success(Snapshot().(firmwarePath := PyNone))
    {
      var data := map["baud" := baud, "port" := port, "mode" := mode, "erase" := eraseFlash];
      file := Some(data);
      SaveLoadRoundTrip(Snapshot());
    }
  }
}
