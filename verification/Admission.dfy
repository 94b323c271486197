/**
 Admission soundness: a text that was admitted to a queue can be spoken when its turn
 comes, however often the default voice is changed in between, and no text waits across
 a change of the engine.
 */
module Admission {
  import opened Types
  import opened Tables
  import opened DataSpec
  import opened VoiceSelection
  import opened DaemonSpec
  import opened DaemonInv
  import opened Scheduling
  import opened Watermark
  import opened UtteranceIds
  import A = AgentSpec
  import P = PlayerSpec

  /** The engine calls exactly its listed voices valid. */
  predicate Agrees(lib: A.EngineLib) {
    lib.valid == set v | v in lib.voices
  }

  /** A voice can be selected for the text, now and under every other default. */
  predicate Speakable(a: A.Agent, sd: SpeakData) {
    A.SelectVoice(a, sd.lang, sd.kind).Some? && Durable(a.lib.voices, sd.lang, sd.kind)
  }

  predicate AllSpeakable(a: A.Agent, texts: seq<SpeakData>) {
    forall sd | sd in texts :: Speakable(a, sd)
  }

  ghost predicate AdmissionInv(d: Daemon) {
    && Inv(d) && OwnerInv(d) && Agrees(d.agent.lib)
    && forall u :: AllSpeakable(d.agent, Texts(d.apps, u))
  }

  /** What is asked of the environment in one step. */
  predicate Coherent(d: Daemon, e: Event, env: Env) {
    && (env.lib.Some? ==> Agrees(env.lib.value))
    && (e.EvAdd? && Admits(d, e.uid, e.speak) ==> Durable(d.agent.lib.voices, e.speak.lang, e.speak.kind))
  }

  // ----- what a step does to the engine's voices

  /** The voices and the default voice are unchanged. */
  predicate SameVoices(a: A.Agent, b: A.Agent) {
    b.lib == a.lib && b.dflt == a.dflt
  }

  /** Either the voices stay, or another listed voice became the default, or nobody has a text. */
  ghost predicate VoicesMove(d: Daemon, r: Daemon) {
    || SameVoices(d.agent, r.agent)
    || (r.agent.lib == d.agent.lib && d.agent.dflt in d.agent.lib.valid && r.agent.dflt in d.agent.lib.valid)
    || (forall u :: Texts(r.apps, u) == [])
  }

  lemma LoadAgrees(a: A.Agent, lib: Option<A.EngineLib>)
    requires Agrees(a.lib) && (lib.Some? ==> Agrees(lib.value))
    ensures Agrees(A.Load(a, lib).0.lib)
  {
    hide Agrees;
  }

  lemma InitVoices(d: Daemon, pid: int, uid: int, env: Env)
    requires Inv(d) && Agrees(d.agent.lib) && (env.lib.Some? ==> Agrees(env.lib.value))
    ensures forall r | r == InitClient(d, pid, uid, env).0 || r == InitSetting(d, pid, env).0 ::
              Agrees(r.agent.lib) && VoicesMove(d, r)
  {
    hide Core, Agrees, A.Load;
    var d1 := EnsureEngine(d, env);
    assert SameVoices(d.agent, d1.agent) by { InitSameVoices(d.agent, env.scan); }
    LoadAgrees(d1.agent, env.lib);
    if ClientCount(d1) == 0 {
      assert d.apps == [];
      AppendTexts(uid, pid);
    }
  }

  lemma InitSameVoices(a: A.Agent, scan: seq<A.EngineInfo>)
    ensures SameVoices(a, A.InitCurrent(a, scan).0)
  {
  }

  lemma AppendTexts(uid: int, pid: int)
    ensures forall u :: Texts([], u) == [] && Texts(Append([], uid, NewRec(pid)), u) == []
  {
  }

  lemma ChangeVoices(d: Daemon, pid: int, id: string, env: Env)
    requires Inv(d) && OwnerInv(d) && Agrees(d.agent.lib) && (env.lib.Some? ==> Agrees(env.lib.value))
    requires pid in d.settings ==> d.agent.cur.Some?
    ensures var r := ChangeEngine(d, pid, id, env).0; Agrees(r.agent.lib) && VoicesMove(d, r)
  {
    hide Core, Agrees, A.SetEngine, Quieted, A.IsSameEngine;
    if pid in d.settings && !A.IsSameEngine(d.agent, id) {
      EngineChangeEmpties(d, pid, id, env);
      QuietedKeeps(d, env);
      SetEngineAgrees(d.agent, id, env.lib);
    }
  }

  lemma SetEngineAgrees(a: A.Agent, id: string, lib: Option<A.EngineLib>)
    requires a.cur.Some? && Agrees(a.lib) && (lib.Some? ==> Agrees(lib.value))
    ensures Agrees(A.SetEngine(a, id, lib).0.lib)
  {
    hide Agrees, A.Load;
    var a1 := A.Unload(a).0;
    var a2 := A.SetCurrent(a1, id).0;
    var a3 := A.SetCurrent(a2, a.cur.value.uuid).0;
    assert a2.lib == a.lib && a3.lib == a.lib;
    LoadAgrees(a2, lib);
    LoadAgrees(a3, lib);
  }

  /** An engine change that is carried out leaves no text and no job of anybody behind. */
  lemma EngineChangeEmpties(d: Daemon, pid: int, id: string, env: Env)
    requires Inv(d) && OwnerInv(d) && pid in d.settings && d.agent.cur.Some? && !A.IsSameEngine(d.agent, id)
    ensures var r := ChangeEngine(d, pid, id, env).0; r.job.None? && forall u :: Texts(r.apps, u) == []
  {
    hide Core, Quieted, A.SetEngine;
    QuietedMoves(d, env, 0);
    forall u ensures Texts(Quieted(d, env).apps, u) == [] {
      QuietedMoves(d, env, u);
    }
  }

  lemma SettingVoices(d: Daemon, pid: int, v: Voice, speed: int)
    requires Inv(d)
    ensures forall r | r == ChangeVoice(d, pid, v).0 || r == ChangeSpeed(d, pid, speed).0 ::
              r.agent.lib == d.agent.lib && VoicesMove(d, r)
  {
  }

  /** Nobody else touches the engine's voices. */
  lemma OtherVoices(d: Daemon, e: Event, env: Env)
    requires Enabled(d, e)
    requires !e.EvInit? && !e.EvInitSetting? && !e.EvChangeEngine? && !e.EvChangeVoice? && !e.EvChangeSpeed?
    ensures SameVoices(d.agent, Step(d, e, env).0.agent)
  {
    hide FinalizeClient, FinalizeSetting, AddQueue, PlayClient, StopClient, PauseClient, Tick, Emit, StreamBegins, StreamEnds,
      StreamFails, NextSound, SendInterrupt;
    match e
    case EvFinalize(uid) => LeaveVoices(d, uid, 0, env);
    case EvAdd(uid, sd) => TextVoices(d, uid, sd, env);
    case EvPlay(uid) => TextVoices(d, uid, SpeakData(0, "", "", 0, 0), env);
    case EvPause(uid) => QuietVoices(d, uid, SoundData(0, Fail, []));
    case EvTick => TickVoices(d, env);
    case EvInterrupt(uid) => QuietVoices(d, uid, SoundData(0, Fail, []));
    case EvFinalizeSetting(pid) => LeaveVoices(d, 0, pid, env);
    case EvBegin(uid, c) => QuietVoices(d, uid, c);
    case EvEnd(uid, c) => QuietVoices(d, uid, c);
    case EvError(uid, c) => QuietVoices(d, uid, c);
    case EvNextSound(uid) => QuietVoices(d, uid, SoundData(0, Fail, []));
    case _ =>
  }

  lemma LeaveVoices(d: Daemon, uid: int, pid: int, env: Env)
    ensures SameVoices(d.agent, FinalizeClient(d, uid, env).0.agent)
    ensures SameVoices(d.agent, FinalizeSetting(d, pid, env).0.agent)
  {
    hide StopClient, ClearClient, UnloadJob;
  }

  lemma TextVoices(d: Daemon, uid: int, sd: SpeakData, env: Env)
    ensures AddQueue(d, uid, sd, env).0.agent == d.agent && PlayClient(d, uid, env).0.agent == d.agent
  {
    hide StartSynthesis, A.SelectVoice, PauseCurrent, PlayOn, AddText, WithState, MaySetState;
    PauseCurrentAgent(d, uid);
    var t := PauseCurrent(d, uid);
    if Has(d.apps, uid) {
      PlayOnAgent(t.(apps := WithState(t.apps, uid, Playing)), uid, StateOf(d.apps, uid).value, env);
    }
  }

  lemma PauseCurrentAgent(d: Daemon, uid: int)
    ensures PauseCurrent(d, uid).agent == d.agent
  {
    hide P.Pause, CurrentPlaying;
  }

  lemma PlayOnAgent(d: Daemon, uid: int, st: AppState, env: Env)
    ensures PlayOn(d, uid, st, env).0.agent == d.agent
  {
    hide StartSynthesis, P.Resume;
  }

  lemma TickVoices(d: Daemon, env: Env)
    requires d.timers > 0
    ensures Tick(d, env).agent == d.agent
  {
    hide NextSynthesis;
  }

  lemma QuietVoices(d: Daemon, uid: int, c: SoundData)
    ensures PauseClient(d, uid).0.agent == d.agent && SendInterrupt(d, uid).agent == d.agent
    ensures StreamBegins(d, uid, c).agent == d.agent && StreamEnds(d, uid, c).agent == d.agent
    ensures StreamFails(d, uid, c).agent == d.agent && NextSound(d, uid).agent == d.agent
  {
    hide P.Pause, P.OnBegin, P.OnEnd, P.OnError, P.NextPlay;
  }

  lemma StepVoices(d: Daemon, e: Event, env: Env)
    requires AdmissionInv(d) && Enabled(d, e) && Coherent(d, e, env)
    ensures Agrees(Step(d, e, env).0.agent.lib) && VoicesMove(d, Step(d, e, env).0)
  {
    hide Core, Agrees, InitClient, InitSetting, ChangeEngine, ChangeVoice, ChangeSpeed, SameVoices, AllSpeakable,
      FinalizeClient, AddQueue, PlayClient, StopClient, PauseClient, Tick, FinalizeSetting, StreamBegins, StreamEnds, NextSound, Emit;
    match e
    case EvInit(pid, uid) => InitVoices(d, pid, uid, env);
    case EvInitSetting(pid) => InitVoices(d, pid, 0, env);
    case EvChangeEngine(pid, id) => ChangeVoices(d, pid, id, env);
    case EvChangeVoice(pid, v) => SettingVoices(d, pid, v, 0);
    case EvChangeSpeed(pid, s) => SettingVoices(d, pid, Voice("", 0), s);
    case _ => VoicesStay(d, e, env);
  }

  lemma VoicesStay(d: Daemon, e: Event, env: Env)
    requires Enabled(d, e) && Agrees(d.agent.lib)
    requires !e.EvInit? && !e.EvInitSetting? && !e.EvChangeEngine? && !e.EvChangeVoice? && !e.EvChangeSpeed?
    ensures var r := Step(d, e, env).0; Agrees(r.agent.lib) && VoicesMove(d, r)
  {
    hide Step, Agrees;
    OtherVoices(d, e, env);
  }

  // ----- the law

  /**
   Being durable is no more than what is needed: a waiting text that is not can be made
   unspeakable by changing the default voice to some listed one.
   */
  lemma UndurableIsLost(a: A.Agent, sd: SpeakData)
    requires A.Inv(a) && a.loaded && Agrees(a.lib) && A.SelectVoice(a, sd.lang, sd.kind).Some?
    ensures !Durable(a.lib.voices, sd.lang, sd.kind) <==>
            exists v | v in a.lib.voices :: A.SetDefaultVoice(a, v).1 == NoError
                                            && A.SelectVoice(A.SetDefaultVoice(a, v).0, sd.lang, sd.kind).None?
  {
    hide Select, Durable;
    DurableExactly(a.lib.voices, a.dflt, sd.lang, sd.kind);
    forall v | v in a.lib.voices
      ensures A.SetDefaultVoice(a, v).1 == NoError
              && A.SelectVoice(A.SetDefaultVoice(a, v).0, sd.lang, sd.kind) == Select(a.lib.voices, v, sd.lang, sd.kind)
    {}
    if !Durable(a.lib.voices, sd.lang, sd.kind) {
      var v :| v in a.lib.voices && Select(a.lib.voices, v, sd.lang, sd.kind).None?;
      assert A.SelectVoice(A.SetDefaultVoice(a, v).0, sd.lang, sd.kind).None?;
    }
  }

  /** Changing the default among valid voices keeps every speakable text speakable. */
  lemma DefaultKeepsSpeakable(a: A.Agent, b: A.Agent, sd: SpeakData)
    requires Speakable(a, sd) && Agrees(a.lib)
    requires b.lib == a.lib && (b.dflt == a.dflt || (a.dflt in a.lib.valid && b.dflt in a.lib.valid))
    ensures Speakable(b, sd)
  {
    hide Select, Durable;
    if b.dflt != a.dflt {
      DurableExactly(a.lib.voices, a.dflt, sd.lang, sd.kind);
    }
  }

  /** The texts after a step were there before, or have just been admitted. */
  lemma StepTexts(d: Daemon, e: Event, env: Env, u: int)
    requires Inv(d) && OwnerInv(d) && Enabled(d, e)
    ensures forall sd | sd in Texts(Step(d, e, env).0.apps, u) ::
              sd in Texts(d.apps, u) || (e.EvAdd? && e.uid == u && sd == e.speak && Admits(d, u, sd))
  {
    hide Core, Step, OwnerInv, Admits;
    StepMoves(d, e, env, u);
    var b := RowOf(Step(d, e, env).0, u);
    var a := if e.EvAdd? && e.uid == u && Admits(d, u, e.speak) then Pushed(RowOf(d, u), e.speak) else RowOf(d, u);
    forall sd | sd in b.texts ensures sd in a.texts {}
  }

  lemma StepAdmits(d: Daemon, e: Event, env: Env)
    requires AdmissionInv(d) && Enabled(d, e) && Coherent(d, e, env)
    ensures AdmissionInv(Step(d, e, env).0)
  {
    hide Core, Step, OwnerInv, Agrees, Speakable;
    StepKeepsInv(d, e, env);
    StepOwner(d, e, env);
    StepVoices(d, e, env);
    var r := Step(d, e, env).0;
    forall u, sd | sd in Texts(r.apps, u) ensures Speakable(r.agent, sd) {
      StepTexts(d, e, env, u);
      assert Speakable(d.agent, sd) by {
        if sd in Texts(d.apps, u) { assert AllSpeakable(d.agent, Texts(d.apps, u)); } else { AdmittedSpeaks(d, u, sd); }
      }
      DefaultKeepsSpeakable(d.agent, r.agent, sd);
    }
  }

  lemma AdmittedSpeaks(d: Daemon, u: int, sd: SpeakData)
    requires Admits(d, u, sd) && Durable(d.agent.lib.voices, sd.lang, sd.kind)
    ensures Speakable(d.agent, sd)
  {
  }

  ghost predicate CoherentRun(d: Daemon, es: seq<(Event, Env)>) {
    es == [] ||
    (CoherentRun(d, es[..|es| - 1]) &&
     var m := Run(d, es[..|es| - 1]); Enabled(m, Last(es).0) ==> Coherent(m, Last(es).0, Last(es).1))
  }

  lemma {:induction false} RunAdmits(agent: A.Agent, scan: seq<A.EngineInfo>, es: seq<(Event, Env)>)
    requires A.Inv(agent) && agent.init && agent.cur.None? && Agrees(agent.lib)
    requires CoherentRun(Boot(agent, scan), es)
    ensures AdmissionInv(Run(Boot(agent, scan), es))
  {
    hide AdmissionInv, Step;
    if es == [] {
      BootAdmits(agent, scan);
    } else {
      RunAdmits(agent, scan, es[..|es| - 1]);
      var m := Run(Boot(agent, scan), es[..|es| - 1]);
      var (e, env) := Last(es);
      if Enabled(m, e) {
        StepAdmits(m, e, env);
      }
    }
  }

  lemma BootAdmits(agent: A.Agent, scan: seq<A.EngineInfo>)
    requires A.Inv(agent) && agent.init && agent.cur.None? && Agrees(agent.lib)
    ensures AdmissionInv(Boot(agent, scan))
  {
    hide Core, Agrees;
    BootInv(agent, scan);
    InitSameVoices(agent, scan);
  }

  /**
   In every run with engines that call exactly their listed voices valid and in which every
   admitted request is a durable one, whatever is waiting in any queue can be spoken: while
   an engine is loaded, a voice and a speed are found for it, so only the engine itself can
   refuse to start it.
   */
  lemma {:induction false} AdmittedTextsAreSpeakable(agent: A.Agent, scan: seq<A.EngineInfo>, es: seq<(Event, Env)>)
    requires A.Inv(agent) && agent.init && agent.cur.None? && Agrees(agent.lib)
    requires CoherentRun(Boot(agent, scan), es)
    ensures var d := Run(Boot(agent, scan), es);
            && (forall u, sd | sd in Texts(d.apps, u) :: A.SelectVoice(d.agent, sd.lang, sd.kind).Some?)
            && (d.agent.loaded ==> forall u, env | FailsToStart(d, u, env) :: !env.accepts)
  {
    hide Core, OwnerInv, Agrees, A.SelectVoice;
    RunAdmits(agent, scan, es);
    var d := Run(Boot(agent, scan), es);
    CoreHasAgent(d);
    forall u, sd | sd in Texts(d.apps, u) ensures A.SelectVoice(d.agent, sd.lang, sd.kind).Some? {
      assert AllSpeakable(d.agent, Texts(d.apps, u));
      assert Speakable(d.agent, sd);
    }
  }
}
