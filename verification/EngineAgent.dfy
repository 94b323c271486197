/** server/ttsd_engine_agent.c: the current engine, updated step by step. */
module EngineAgentModule {
  import opened Types
  import opened ConfigFile
  import opened VoiceSelection
  import opened AgentSpec

  class EngineAgent {
    const config: ConfigStore
    var init: bool
    var isSet: bool
    var isLoaded: bool
    var needNetwork: bool
    var engineUuid: string
    var engineName: string
    var enginePath: string
    var defaultLang: string
    var defaultKind: int
    var defaultSpeed: int
    var lib: EngineLib
    var engineList: seq<EngineInfo>

    ghost function Current(): Option<EngineInfo>
      reads this
    {
      if isSet then Some(EngineInfo(engineUuid, engineName, enginePath, needNetwork)) else None
    }

    ghost function State(): Agent
      reads this, config
    {
      Agent(init, Current(), isLoaded, Voice(defaultLang, defaultKind), defaultSpeed, lib, engineList, config.Value())
    }

    /** The defaults are read from the settings, which must have been loaded. */
    constructor (config: ConfigStore)
      requires config.engineId.Some? && config.language.Some?
      ensures this.config == config && State().init && State().cur.None? && Inv(State())
    {
      this.config := config;
      init, isSet, isLoaded, needNetwork := true, false, false, false;
      engineUuid, engineName, enginePath := "", "", "";
      defaultLang := config.language.GetOr("");
      defaultKind := config.vcType;
      defaultSpeed := config.speed;
      lib := EngineLib([], {});
      engineList := [];
    }

    method FindEngine(id: string) returns (r: int)
      ensures r == FirstEngine(engineList, id)
    {
      var i := 0;
      while i < |engineList|
        invariant 0 <= i <= |engineList|
        invariant forall k | 0 <= k < i :: !(id <= engineList[k].uuid)
      {
        if id <= engineList[i].uuid {
          return i;
        }
        i := i + 1;
      }
      return -1;
    }

    method CheckEngineId(id: string) returns (r: bool)
      ensures r == IdListed(engineList, id)
    {
      var i := 0;
      while i < |engineList|
        invariant 0 <= i <= |engineList|
        invariant forall k | 0 <= k < i :: !(engineList[k].uuid <= id)
      {
        if engineList[i].uuid <= id {
          return true;
        }
        i := i + 1;
      }
      return false;
    }

    method SetCurrentEngine(id: string) returns (ok: bool)
      modifies this
      ensures (State(), ok) == SetCurrent(old(State()), id)
      ensures old(isSet) ==> isSet
    {
      hide FirstEngine;
      var i := FindEngine(id);
      if i == -1 {
        return false;
      }
      var info := engineList[i];
      if isSet {
        if Head(engineUuid, |id|) == Head(info.uuid, |id|) {
          return true;
        }
      }
      engineUuid, engineName, enginePath := info.uuid, info.name, info.path;
      isLoaded := false;
      isSet := true;
      needNetwork := info.useNetwork;
      return true;
    }

    method InitializeCurrentEngine(scan: seq<EngineInfo>) returns (ok: bool)
      requires config.engineId.Some?
      modifies this, config
      ensures (State(), ok) == InitCurrent(old(State()), scan)
    {
      if !init {
        return false;
      }
      engineList := scan;
      if |engineList| == 0 {
        return false;
      }
      var id := config.engineId.GetOr("");
      var fromConfig := CheckEngineId(id);
      if !fromConfig {
        id := engineList[0].uuid;
      }
      ok := SetCurrentEngine(id);
      if !ok {
        return false;
      }
      if !fromConfig {
        config.SetDefaultEngine(id);
      }
      return true;
    }

    /** `opened`: the library once opened, linked and initialized; None when one of these fails. */
    method LoadCurrentEngine(library: Option<EngineLib>) returns (ok: bool)
      modifies this, config
      ensures (State(), ok) == Load(old(State()), library) && isSet == old(isSet)
    {
      if !init || !isSet {
        return false;
      }
      if isLoaded {
        return true;
      }
      if library.None? {
        return false;
      }
      lib := library.value;
      var setVoice := Voice(defaultLang, defaultKind) in lib.valid;
      if !setVoice {
        if |lib.voices| == 0 {
          return false;
        }
        var voice := lib.voices[0];
        if voice !in lib.valid {
          return false;
        }
        config.SetDefaultVoice(voice.language, voice.kind);
        defaultLang := voice.language;
        defaultKind := voice.kind;
      }
      isLoaded := true;
      return true;
    }

    method UnloadCurrentEngine() returns (ok: bool)
      modifies this
      ensures (State(), ok) == Unload(old(State())) && isSet == old(isSet)
    {
      if !init || !isSet {
        return false;
      }
      isLoaded := false;
      return true;
    }

    method EngineNeedsNetwork() returns (r: bool)
      ensures r == NeedNetwork(State())
    {
      if !init || !isLoaded {
        return true;
      }
      return isSet && needNetwork;
    }

    method IsSame(id: string) returns (r: bool)
      ensures r == IsSameEngine(State(), id)
    {
      if !init || !isLoaded {
        return false;
      }
      return isSet && id <= engineUuid;
    }

    method SelectValid(lang: string, kind: int) returns (r: Option<Voice>)
      ensures r == SelectVoice(State(), lang, kind)
    {
      r := SelectValidVoice(lib.voices, Voice(defaultLang, defaultKind), lang, kind);
    }

    /** The call made to the engine, if one is made; `accepts` is the engine's answer. */
    method StartSynthesis(sd: SpeakData, accepts: bool) returns (call: Option<(Voice, int)>)
      ensures call == if accepts then StartCall(State(), sd) else None
    {
      if !init || !isLoaded {
        return None;
      }
      var voice := SelectValid(sd.lang, sd.kind);
      if voice.None? {
        return None;
      }
      var speed := if sd.speed == 0 then defaultSpeed else sd.speed;
      return if accepts then Some((voice.value, speed)) else None;
    }

    method SettingSetEngine(id: string, library: Option<EngineLib>) returns (err: Error)
      requires isSet
      modifies this, config
      ensures isSet && (State(), err) == SetEngine(old(State()), id, library)
    {
      hide SetCurrent, Load, Unload;
      if !init {
        return OperationFailed;
      }
      if id <= engineUuid {
        return NoError;
      }
      var tmpUuid := engineUuid;
      ghost var s0 := State();
      var _ := UnloadCurrentEngine();
      ghost var s1 := State();
      var ok := SetCurrentEngine(id);
      ghost var s2 := State();
      assert (s2, ok) == SetCurrent(Unload(s0).0, id);
      if !ok {
        var _ := SetCurrentEngine(tmpUuid);
        var _ := LoadCurrentEngine(library);
        assert State() == Load(SetCurrent(s2, tmpUuid).0, library).0;
        return OperationFailed;
      }
      ok := LoadCurrentEngine(library);
      assert (State(), ok) == Load(s2, library);
      if !ok {
        return OperationFailed;
      }
      config.SetDefaultEngine(id);
      return NoError;
    }

    method SettingSetDefaultVoice(v: Voice) returns (err: Error)
      modifies this, config
      ensures (State(), err) == SetDefaultVoice(old(State()), v)
    {
      if !init || !isLoaded {
        return OperationFailed;
      }
      if v !in lib.valid {
        return InvalidVoice;
      }
      defaultLang := v.language;
      defaultKind := v.kind;
      config.SetDefaultVoice(v.language, v.kind);
      return NoError;
    }

    method SettingSetDefaultSpeed(speed: int) returns (err: Error)
      modifies this, config
      ensures (State(), err) == SetDefaultSpeed(old(State()), speed)
    {
      if !init || !isLoaded {
        return OperationFailed;
      }
      defaultSpeed := speed;
      config.SetDefaultSpeed(speed);
      return NoError;
    }
  }
}
