/**
 What server/ttsd_engine_agent.c computes on its record of the current engine, the
 engine list and the stored settings, and the laws its switching and loading obey.
 */
module AgentSpec {
  import opened Types
  import opened ConfigSpec
  import opened VoiceSelection

  datatype EngineInfo = EngineInfo(uuid: string, name: string, path: string, useNetwork: bool)

  /** A loaded engine: the voices it lists and the voices it calls valid. */
  datatype EngineLib = EngineLib(voices: seq<Voice>, valid: set<Voice>)

  datatype Agent = Agent(
    init: bool,
    cur: Option<EngineInfo>,   // None until an engine is set
    loaded: bool,
    dflt: Voice,
    speed: int,
    lib: EngineLib,            // the function table of the engine loaded last
    engines: seq<EngineInfo>,
    config: Config)

  /** strncmp(x, y, n) == 0 */
  predicate StrNEq(x: string, y: string, n: nat) {
    Head(x, n) == Head(y, n)
  }

  function Head(x: string, n: nat): string {
    if n <= |x| then x[..n] else x
  }

  lemma StrNEqPrefix(x: string, p: string)
    ensures StrNEq(x, p, |p|) <==> p <= x
  {
  }

  /** Index of the first engine whose uuid starts with `id`, or -1. */
  function FirstEngine(engines: seq<EngineInfo>, id: string): (r: int)
    ensures -1 <= r < |engines|
    ensures 0 <= r ==> id <= engines[r].uuid && forall k | 0 <= k < r :: !(id <= engines[k].uuid)
    ensures r == -1 ==> forall k | 0 <= k < |engines| :: !(id <= engines[k].uuid)
  {
    if engines == [] then -1
    else if id <= engines[0].uuid then 0
    else
      var r := FirstEngine(engines[1..], id);
      if r == -1 then -1 else r + 1
  }

  /** The id check of start-up compares the other way round: some listed uuid is a prefix of the id. */
  predicate IdListed(engines: seq<EngineInfo>, id: string) {
    exists k | 0 <= k < |engines| :: engines[k].uuid <= id
  }

  function SetCurrent(a: Agent, id: string): (Agent, bool) {
    var i := FirstEngine(a.engines, id);
    if i == -1 then (a, false)
    else if a.cur.Some? && StrNEq(a.cur.value.uuid, a.engines[i].uuid, |id|) then (a, true)
    else (a.(cur := Some(a.engines[i]), loaded := false), true)
  }

  /** Start-up: the engine named in the settings, or else the first of the list. */
  function InitCurrent(a: Agent, scan: seq<EngineInfo>): (Agent, bool) {
    if !a.init then (a, false) else
    var a1 := a.(engines := scan);
    if scan == [] then (a1, false) else
    var stored := a.config.engineId.GetOr("");
    var id := if IdListed(scan, stored) then stored else scan[0].uuid;
    var (a2, ok) := SetCurrent(a1, id);
    if ok && !IdListed(scan, stored) then (a2.(config := a2.config.(engineId := Some(id))), true) else (a2, ok)
  }

  /** `lib` is what opening and initializing the engine's library yields; None when that fails. */
  function Load(a: Agent, lib: Option<EngineLib>): (Agent, bool) {
    if !a.init || a.cur.None? then (a, false)
    else if a.loaded then (a, true)
    else match lib
      case None => (a, false)
      case Some(l) =>
        var b := a.(lib := l);
        if a.dflt in l.valid then (b.(loaded := true), true)
        else if l.voices == [] || l.voices[0] !in l.valid then (b, false)
        else
          var v := l.voices[0];
          (b.(loaded := true, dflt := v, config := b.config.(language := Some(v.language), kind := v.kind)), true)
  }

  /** Whether loading would succeed. */
  predicate Loadable(a: Agent, lib: Option<EngineLib>) {
    lib.Some? && (a.dflt in lib.value.valid || (lib.value.voices != [] && lib.value.voices[0] in lib.value.valid))
  }

  function Unload(a: Agent): (Agent, bool) {
    if !a.init || a.cur.None? then (a, false) else (a.(loaded := false), true)
  }

  /** Asked of an agent without a loaded engine, the error code it returns reads as "yes". */
  predicate NeedNetwork(a: Agent) {
    !a.init || !a.loaded || (a.cur.Some? && a.cur.value.useNetwork)
  }

  predicate IsSameEngine(a: Agent, id: string) {
    a.init && a.loaded && a.cur.Some? && id <= a.cur.value.uuid
  }

  function SelectVoice(a: Agent, lang: string, kind: int): Option<Voice> {
    Select(a.lib.voices, a.dflt, lang, kind)
  }

  /** The voice and speed the engine is asked to speak with, if it is asked at all. */
  function StartCall(a: Agent, sd: SpeakData): Option<(Voice, int)> {
    if !a.init || !a.loaded then None else
    match SelectVoice(a, sd.lang, sd.kind)
    case None => None
    case Some(v) => Some((v, if sd.speed == 0 then a.speed else sd.speed))
  }

  function SetEngine(a: Agent, id: string, lib: Option<EngineLib>): (Agent, Error)
    requires a.cur.Some?
  {
    if !a.init then (a, OperationFailed)
    else if id <= a.cur.value.uuid then (a, NoError)
    else
      var (a1, ok) := SetCurrent(Unload(a).0, id);
      if !ok then (Load(SetCurrent(a1, a.cur.value.uuid).0, lib).0, OperationFailed)
      else
        var (a2, loaded) := Load(a1, lib);
        if !loaded then (a2, OperationFailed)
        else (a2.(config := a2.config.(engineId := Some(id))), NoError)
  }

  function SetDefaultVoice(a: Agent, v: Voice): (Agent, Error) {
    if !a.init || !a.loaded then (a, OperationFailed)
    else if v !in a.lib.valid then (a, InvalidVoice)
    else (a.(dflt := v, config := a.config.(language := Some(v.language), kind := v.kind)), NoError)
  }

  function SetDefaultSpeed(a: Agent, speed: int): (Agent, Error) {
    if !a.init || !a.loaded then (a, OperationFailed)
    else (a.(speed := speed, config := a.config.(speed := speed)), NoError)
  }

  // ----- what every operation keeps

  /** The agent's defaults are the stored ones, and a loaded engine is set and accepts its default voice. */
  predicate Inv(a: Agent) {
    && a.config.engineId.Some?
    && a.config.language == Some(a.dflt.language) && a.config.kind == a.dflt.kind && a.config.speed == a.speed
    && (a.loaded ==> a.init && a.cur.Some? && a.dflt in a.lib.valid)
  }

  lemma InitKeepsInv(a: Agent, scan: seq<EngineInfo>)
    requires Inv(a)
    ensures Inv(InitCurrent(a, scan).0)
    ensures InitCurrent(a, scan).1 ==> InitCurrent(a, scan).0.cur.Some?
  {
    hide SetCurrent;
    if a.init && scan != [] {
      var a1 := a.(engines := scan);
      var stored := a.config.engineId.GetOr("");
      SetCurrentKeepsInv(a1, if IdListed(scan, stored) then stored else scan[0].uuid);
    }
  }

  /** Loading fails exactly when the library does or has no valid voice to offer. */
  lemma LoadKeepsInv(a: Agent, lib: Option<EngineLib>)
    requires Inv(a)
    ensures Inv(Load(a, lib).0)
    ensures Load(a, lib).1 <==> a.init && a.cur.Some? && (a.loaded || Loadable(a, lib))
    ensures Load(a, lib).0.loaded <==> a.loaded || Load(a, lib).1
    ensures Load(a, lib).0.cur == a.cur && Load(a, lib).0.init == a.init
  {
  }

  lemma SetCurrentKeepsInv(a: Agent, id: string)
    requires Inv(a)
    ensures Inv(SetCurrent(a, id).0)
    ensures a.cur.Some? || SetCurrent(a, id).1 ==> SetCurrent(a, id).0.cur.Some?
  {
  }

  lemma SetEngineKeepsInv(a: Agent, id: string, lib: Option<EngineLib>)
    requires Inv(a) && a.cur.Some?
    ensures Inv(SetEngine(a, id, lib).0) && SetEngine(a, id, lib).0.cur.Some?
  {
    if a.init && !(id <= a.cur.value.uuid) {
      var a1 := Unload(a).0;
      SetCurrentKeepsInv(a1, id);
      var (a2, ok) := SetCurrent(a1, id);
      if ok {
        LoadKeepsInv(a2, lib);
      } else {
        SetCurrentKeepsInv(a2, a.cur.value.uuid);
        LoadKeepsInv(SetCurrent(a2, a.cur.value.uuid).0, lib);
      }
    }
  }

  lemma SettingsKeepInv(a: Agent, v: Voice, speed: int)
    requires Inv(a)
    ensures Inv(Unload(a).0) && !Unload(a).0.loaded
    ensures Inv(SetDefaultVoice(a, v).0) && Inv(SetDefaultSpeed(a, speed).0)
  {
  }

  // ----- what every operation does

  /**
   Start-up.  If some listed uuid is a prefix of the stored id, the first engine whose uuid
   starts with it becomes current, if there is one, and the settings stay.  Otherwise the
   first listed engine becomes current and its uuid is stored.
   */
  lemma InitOutcomes(a: Agent, scan: seq<EngineInfo>)
    requires Inv(a) && a.init && a.cur.None?
    ensures var (b, ok) := InitCurrent(a, scan);
            var stored := a.config.engineId.value;
            && b.engines == scan && !b.loaded && b.dflt == a.dflt && b.speed == a.speed && b.lib == a.lib && b.init
            && b.config == a.config.(engineId := b.config.engineId)
            && (scan == [] ==> !ok)
            && (!ok ==> b.cur == None && b.config == a.config)
            && (scan != [] ==>
                  if exists k | 0 <= k < |scan| :: scan[k].uuid <= stored then
                    && b.config == a.config
                    && (ok <==> exists k | 0 <= k < |scan| :: stored <= scan[k].uuid)
                    && (ok ==> exists k: nat | k < |scan| :: b.cur == Some(scan[k]) && stored <= scan[k].uuid
                                 && forall j | 0 <= j < k :: !(stored <= scan[j].uuid))
                  else
                    ok && b.cur == Some(scan[0]) && b.config.engineId == Some(scan[0].uuid))
  {
    if scan != [] {
      var stored := a.config.engineId.value;
      assert scan[0].uuid <= scan[0].uuid;
      var i := FirstEngine(scan, stored);
      if i != -1 { assert scan[i] == scan[i]; }
      assert FirstEngine(scan, scan[0].uuid) == 0;
    }
  }

  lemma InitKeepsDefaults(a: Agent, scan: seq<EngineInfo>)
    ensures var b := InitCurrent(a, scan).0;
            b.dflt == a.dflt && b.config == a.config.(engineId := b.config.engineId) && (b.loaded ==> a.loaded)
  {
    hide IdListed, StrNEq, FirstEngine;
  }

  /**
   A load.  The default voice stays if the engine calls it valid; otherwise the engine's
   first listed voice, which must be valid, becomes the default and is stored.  Nothing
   else of the settings changes, and nothing of them at all when the load fails or the
   engine is loaded already.  An engine that offers no valid voice is not loaded, but its
   voices are the ones asked from then on.
   */
  lemma LoadOutcomes(a: Agent, lib: Option<EngineLib>)
    ensures var (b, ok) := Load(a, lib);
            && b.init == a.init && b.cur == a.cur && b.engines == a.engines && b.speed == a.speed
            && (!ok || a.loaded ==> b.dflt == a.dflt && b.config == a.config && b.loaded == a.loaded)
            && (a.loaded ==> b == a)
            && b.lib == (if a.init && a.cur.Some? && !a.loaded && lib.Some? then lib.value else a.lib)
            && (ok && !a.loaded ==>
                  && lib.Some? && b.loaded && b.lib == lib.value
                  && if a.dflt in lib.value.valid then b.dflt == a.dflt && b.config == a.config
                     else FallsBack(a, b, lib.value))
  {
  }

  /** The first listed voice is the default now, in memory and in the settings. */
  predicate FallsBack(a: Agent, b: Agent, l: EngineLib) {
    && l.voices != [] && l.voices[0] in l.valid && b.dflt == l.voices[0]
    && b.config == a.config.(engineId := b.config.engineId, language := Some(l.voices[0].language), kind := l.voices[0].kind)
  }

  /** Unloading and the settings of defaults, and what they refuse. */
  lemma SettingOutcomes(a: Agent, v: Voice, speed: int)
    requires Inv(a)
    ensures var (b, ok) := Unload(a);
            (ok <==> a.init && a.cur.Some?) && (ok ==> b == a.(loaded := false)) && (!ok ==> b == a)
    ensures var (b, err) := SetDefaultVoice(a, v);
            && (err == OperationFailed <==> !a.loaded) && (err == InvalidVoice <==> a.loaded && v !in a.lib.valid)
            && (err != NoError ==> b == a && (err == OperationFailed || err == InvalidVoice))
            && (err == NoError ==> b.dflt == v && b.config.language == Some(v.language) && b.config.kind == v.kind
                                   && b == a.(dflt := b.dflt, config := b.config)
                                   && b.config.engineId == a.config.engineId && b.config.speed == a.config.speed)
    ensures var (b, err) := SetDefaultSpeed(a, speed);
            && err == (if a.loaded then NoError else OperationFailed)
            && (err != NoError ==> b == a)
            && (err == NoError ==> b.speed == speed && b.config.speed == speed
                                   && b == a.(speed := b.speed, config := b.config.(speed := speed))
                                   && b.config == a.config.(speed := speed))
  {
  }

  /** A loaded engine says itself whether it needs the network; without one the answer is yes. */
  lemma NetworkExactly(a: Agent)
    requires Inv(a)
    ensures NeedNetwork(a) <==> (a.loaded ==> a.cur.value.useNetwork)
  {
  }

  /** An id names the loaded engine if its uuid starts with it. */
  lemma SameExactly(a: Agent, id: string)
    requires Inv(a)
    ensures IsSameEngine(a, id) <==> a.loaded && |id| <= |a.cur.value.uuid| && a.cur.value.uuid[..|id|] == id
  {
  }

  /**
   The search for an engine.  An unknown id changes nothing.  The first engine whose uuid
   starts with the id becomes current and has to be loaded, unless the current one agrees with
   it on as many characters as the id has.
   */
  lemma SetCurrentOutcomes(a: Agent, id: string)
    ensures var (b, ok) := SetCurrent(a, id);
            && (ok <==> exists k | 0 <= k < |a.engines| :: id <= a.engines[k].uuid)
            && b == a.(cur := b.cur, loaded := b.loaded)
            && (b == a || (ok && !(a.cur.Some? && id <= a.cur.value.uuid) && !b.loaded
                           && exists k: nat | k < |a.engines| :: b.cur == Some(a.engines[k]) && id <= a.engines[k].uuid
                                && forall j | 0 <= j < k :: !(id <= a.engines[j].uuid)))
            && (ok && !(a.cur.Some? && id <= a.cur.value.uuid) ==> b.cur.Some? && id <= b.cur.value.uuid && !b.loaded)
  {
    var i := FirstEngine(a.engines, id);
    if i != -1 {
      assert a.engines[i] == a.engines[i];
      assert Head(a.engines[i].uuid, |id|) == id;
      if a.cur.Some? { StrNEqPrefix(a.cur.value.uuid, id); }
    }
  }

  /** A switch to the engine that is current changes nothing, loaded or not; before init it fails. */
  lemma SwitchIdle(a: Agent, id: string, lib: Option<EngineLib>)
    requires a.cur.Some? && (!a.init || id <= a.cur.value.uuid)
    ensures SetEngine(a, id, lib) == (a, if a.init then NoError else OperationFailed)
  {
  }

  /**
   An engine switch, outcome by outcome.  Unknown id: the current engine and the
   stored id are untouched and the old engine is loaded again if it still loads.
   Success: the current engine is the first listed one whose uuid starts with the
   id, it is loaded, and the id is stored.  Load failure: the id stored is the old one.
   */
  lemma SwitchOutcomes(a: Agent, id: string, lib: Option<EngineLib>)
    requires Inv(a) && a.init && a.cur.Some? && !(id <= a.cur.value.uuid)
    ensures var (b, err) := SetEngine(a, id, lib); var i := FirstEngine(a.engines, id);
            && err == (if i != -1 && Loadable(a, lib) then NoError else OperationFailed)
            && b.engines == a.engines && b.speed == a.speed
            && (i == -1 ==> b.cur == a.cur && b.config.engineId == a.config.engineId && (b.loaded <==> Loadable(a, lib)))
            && (i == -1 && lib == Some(a.lib) && a.loaded ==> b == a)
            && (i != -1 ==> b.cur == Some(a.engines[i]) && (b.loaded <==> Loadable(a, lib)))
            && (i != -1 && b.loaded ==> b.config.engineId == Some(id))
            && (!b.loaded ==> b.config == a.config && b.dflt == a.dflt)
            && (b.loaded ==>
                  && b.lib == lib.value
                  && if a.dflt in b.lib.valid then b.dflt == a.dflt && b.config == a.config.(engineId := b.config.engineId)
                     else FallsBack(a, b, b.lib))
  {
    var was := a.cur.value;
    var a1 := Unload(a).0;
    var i := FirstEngine(a.engines, id);
    if i != -1 {
      StrNEqPrefix(was.uuid, id);
      assert Head(a.engines[i].uuid, |id|) == id == Head(id, |id|);
      assert !StrNEq(was.uuid, a.engines[i].uuid, |id|);
    } else {
      var j := FirstEngine(a.engines, was.uuid);
      if j != -1 {
        assert Head(a.engines[j].uuid, |was.uuid|) == was.uuid == Head(was.uuid, |was.uuid|);
      }
      assert SetCurrent(a1, was.uuid).0 == a1;
    }
  }

  /**
   Does a switch survive a restart of the daemon?  Exactly when some listed uuid is
   a prefix of the id that was stored, or the chosen engine is the first of the list:
   start-up checks the stored id against the list in the other direction.
   */
  lemma SwitchSurvivesRestart(a: Agent, reborn: Agent, id: string)
    requires a.cur.Some? && FirstEngine(a.engines, id) != -1 && a.cur.value == a.engines[FirstEngine(a.engines, id)]
    requires reborn.init && reborn.cur.None? && reborn.config.engineId == Some(id)
    ensures InitCurrent(reborn, a.engines).0.cur == a.cur <==>
            IdListed(a.engines, id) || a.engines[0] == a.cur.value
  {
    var f := reborn.(engines := a.engines);
    if !IdListed(a.engines, id) {
      assert FirstEngine(a.engines, a.engines[0].uuid) == 0;
    }
  }

  /** In particular a full uuid survives; an abbreviated one can be forgotten. */
  lemma FullUuidSurvivesRestart(engines: seq<EngineInfo>, i: nat)
    requires i < |engines|
    ensures IdListed(engines, engines[i].uuid)
  {
    assert engines[i].uuid <= engines[i].uuid;
  }

  lemma AbbreviatedUuidIsForgotten(reborn: Agent)
    requires reborn.init && reborn.cur.None? && reborn.config.engineId == Some("B")
    ensures var a, b := EngineInfo("A1", "", "", false), EngineInfo("B1", "", "", false);
            FirstEngine([a, b], "B") == 1 && InitCurrent(reborn, [a, b]).0.cur == Some(a)
  {
    var a, b := EngineInfo("A1", "", "", false), EngineInfo("B1", "", "", false);
    var engines := [a, b];
    assert a.uuid[0] == 'A' && "B"[0] == 'B';
    assert |a.uuid| == 2 && |b.uuid| == 2 && |"B"| == 1;
    assert "B" <= b.uuid;
    assert FirstEngine(engines, "A1") == 0;
  }
}
