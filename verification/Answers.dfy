/** What the daemon answers to each request, exactly when, and what it has done then. */
module Answers {
  import opened Types
  import opened Tables
  import opened DataSpec
  import opened VoiceSelection
  import opened DaemonSpec
  import opened DaemonInv
  import opened Scheduling
  import opened Watermark
  import opened Calls
  import A = AgentSpec
  import P = PlayerSpec

  /** The network is down, and no engine is loaded that does without it. */
  predicate OutOfReach(d: Daemon, env: Env) {
    !env.network && (d.agent.loaded && d.agent.cur.Some? ==> d.agent.cur.value.useNetwork)
  }

  lemma ReachExactly(d: Daemon, env: Env)
    requires Inv(d)
    ensures Unreachable(d, env) <==> OutOfReach(d, env)
  {
    A.NetworkExactly(d.agent);
  }

  /** With these texts queued a start would be tried for the first, and fail. */
  predicate FailsOn(d: Daemon, texts: seq<SpeakData>, env: Env) {
    !d.synthesizing && texts != [] && !Takes(d.agent, texts[0], env)
  }

  lemma FailsExactly(d: Daemon, uid: int, env: Env)
    ensures FailsToStart(d, uid, env) <==> FailsOn(d, Texts(d.apps, uid), env)
  {
    hide A.StartCall, Servable;
    if Texts(d.apps, uid) != [] { StartCallIs(d.agent, Texts(d.apps, uid)[0], uid); }
  }

  // ----- add

  /**
   An add: an unknown client, or a text that no voice can speak, is refused and changes
   nothing.  Any other text is accepted, and only a playing client hears that it was not
   started, because the engine is out of reach or does not take the oldest text.
   */
  lemma AddOutcome(d: Daemon, uid: int, sd: SpeakData, env: Env)
    requires Inv(d)
    ensures var (r, err) := AddQueue(d, uid, sd, env);
            var known, served := StateOf(d.apps, uid).Some?, Servable(d.agent.lib.voices, d.agent.dflt, sd.lang, sd.kind);
            && (err == InvalidParameter <==> !known) && (err == InvalidVoice <==> known && !served)
            && (!known || !served ==> r == d)
            && (known && served ==>
                  && d.log + [Accepted(uid, sd)] <= r.log
                  && err == if StateOf(d.apps, uid) == Some(Playing)
                               && (OutOfReach(d, env) || FailsOn(d, Texts(d.apps, uid) + [sd], env))
                            then OperationFailed else NoError)
  {
    hide Core, Servable, Select, StartSynthesis, AddText, FailsToStart, FailsOn;
    SelectServes(d.agent.lib.voices, d.agent.dflt, sd.lang, sd.kind);
    ReachExactly(d, env);
    if StateOf(d.apps, uid).Some? {
      AddTextEffect(d.apps, uid, sd);
      var d1 := Enqueue(d, uid, sd);
      StartAnswer(d1, uid, true, env);
      FailsExactly(d1, uid, env);
      SameFails(d, d1, Texts(d.apps, uid) + [sd], env);
    }
  }

  lemma SameFails(d: Daemon, m: Daemon, texts: seq<SpeakData>, env: Env)
    requires m.synthesizing == d.synthesizing && m.agent == d.agent
    ensures FailsOn(m, texts, env) <==> FailsOn(d, texts, env)
  {
  }

  lemma StartAnswer(d: Daemon, uid: int, adding: bool, env: Env)
    ensures var (r, err) := StartSynthesis(d, uid, adding, env);
            err == (if FailsToStart(d, uid, env) then OperationFailed else NoError) && d.log <= r.log
  {
    hide A.StartCall, DropText, FailClient;
    if Texts(d.apps, uid) != [] { FailGrows(Hand(d, uid, env).0, uid, HeadId(d, uid)); }
  }

  lemma FailGrows(d: Daemon, uid: int, uttId: int)
    ensures d.log <= FailClient(d, uid, uttId).log
  {
    hide P.Stop, Clear;
  }

  // ----- play, stop, pause

  /** A play is refused for an unknown client and out of reach; it fails when its start does. */
  lemma PlayAnswer(d: Daemon, uid: int, env: Env)
    requires Inv(d)
    ensures var (r, err) := PlayClient(d, uid, env);
            match StateOf(d.apps, uid)
            case None => err == InvalidParameter && r == d
            case Some(Playing) => err == NoError && r == d
            case Some(_) =>
              if OutOfReach(d, env) then err == OutOfNetwork && r == d
              else
                && StateOf(r.apps, uid) == Some(Playing)
                && err == if FailsOn(d, Texts(d.apps, uid), env) then OperationFailed else NoError
  {
    hide Core, PlayClient, PlayOn, TakeOver, FailsToStart, FailsOn;
    ReachExactly(d, env);
    PlayIs(d, uid, env);
    PlayKeeps(d, uid, env);
    if !MayPlay(d, uid, env) {
      PlayRefusals(d, uid, env);
    } else {
      var t := TakeOver(d, uid);
      TakeOverQueues(d, uid, uid);
      NoneCreated(d);
      PlayOnAnswer(t, uid, StateOf(d.apps, uid).value, env);
      FailsExactly(t, uid, env);
      SameFails(d, t, Texts(d.apps, uid), env);
    }
  }

  lemma PlayRefusals(d: Daemon, uid: int, env: Env)
    requires !MayPlay(d, uid, env)
    ensures PlayClient(d, uid, env) == (d, if StateOf(d.apps, uid).None? then InvalidParameter
                                           else if StateOf(d.apps, uid) == Some(Playing) then NoError else OutOfNetwork)
  {
  }

  lemma PlayOnAnswer(t: Daemon, uid: int, st: AppState, env: Env)
    requires st == Ready || st == Paused
    ensures PlayOn(t, uid, st, env).1 == if FailsToStart(t, uid, env) then OperationFailed else NoError
  {
    hide StartSynthesis, P.Resume;
    StartAnswer(t, uid, false, env);
    StartAnswer(t.(players := P.Resume(t.players, uid)), uid, false, env);
  }

  /** A stop is refused for an unknown client only. */
  lemma StopAnswer(d: Daemon, uid: int)
    requires Inv(d)
    ensures var (r, err) := StopClient(d, uid);
            if StateOf(d.apps, uid).None? then err == InvalidParameter && r == d
            else err == NoError && StateOf(r.apps, uid) == Some(Ready)
  {
    hide Core, StopClient;
    StopKeeps(d, uid);
    StopRefuses(d, uid);
    NoneCreated(d);
    if StateOf(d.apps, uid).Some? {
      match StateOf(d.apps, uid).value
      case Created => case Ready => case Playing => case Paused =>
    }
  }

  lemma StopRefuses(d: Daemon, uid: int)
    ensures StopClient(d, uid).1 == (if StateOf(d.apps, uid).None? then InvalidParameter else NoError)
    ensures StateOf(d.apps, uid).None? ==> StopClient(d, uid).0 == d
  {
  }

  /** A pause is refused for a client that is unknown or not playing, and fails for one without a player. */
  lemma PauseAnswer(d: Daemon, uid: int)
    ensures var (r, err) := PauseClient(d, uid);
            match StateOf(d.apps, uid)
            case None => err == InvalidParameter && r == d
            case Some(Playing) =>
              if Has(d.players.list, uid) then err == NoError && StateOf(r.apps, uid) == Some(Paused)
              else err == OperationFailed && r == d
            case Some(_) => err == InvalidState && r == d
  {
  }

  // ----- registration

  /** The agent once an engine was looked for, and whether there is one. */
  predicate EngineFound(d: Daemon, env: Env, a: A.Agent, found: bool) {
    if d.isEngine then a == d.agent && found else (a, found) == A.InitCurrent(d.agent, env.scan)
  }

  /** The agent after the first registration, which loads the engine; later ones leave it alone. */
  predicate LoadedFor(d: Daemon, env: Env, a: A.Agent, b: A.Agent, ok: bool) {
    if d.apps == [] && d.settings == [] then (b, ok) == A.Load(a, env.lib) else b == a && ok
  }

  /**
   A client registers: refused when there is no engine, when it is known, or when the engine
   does not load for the first client.  Otherwise it is ready with empty queues; an error
   then means that it has no player.  Nobody else is touched.
   */
  lemma InitAnswer(d: Daemon, pid: int, uid: int, env: Env, a: A.Agent, found: bool, b: A.Agent, ok: bool)
    requires Inv(d) && EngineFound(d, env, a, found) && LoadedFor(d, env, a, b, ok)
    ensures var (r, err) := InitClient(d, pid, uid, env);
            && r == d.(apps := r.apps, players := r.players, agent := r.agent, isEngine := found)
            && if !found then err == EngineNotFound && r == d.(agent := a, isEngine := false)
               else if StateOf(d.apps, uid).Some? then err == InvalidParameter && r == d.(agent := a, isEngine := true)
               else if !ok then err == OperationFailed && r == d.(agent := b, isEngine := true)
               else
                 && r.agent == b && err == (if env.made then NoError else OperationFailed)
                 && Get(r.apps, uid) == Some(AppRec(pid, 0, Ready, [], []))
                 && (forall u | u != uid :: Get(r.apps, u) == Get(d.apps, u) && Get(r.players.list, u) == Get(d.players.list, u))
                 && Get(r.players.list, uid) == (if env.made then Some(P.PlayerRec(-1, Finish, P.MediaNull, None)) else None)
                 && r.players.playing == d.players.playing && r.players.due == d.players.due
  {
    hide Core, A.InitCurrent, A.Load, Append;
    NoPlayer(d, uid);
  }

  lemma NoPlayer(d: Daemon, uid: int)
    requires Inv(d)
    ensures StateOf(d.apps, uid).None? ==> Get(d.players.list, uid).None?
    ensures !d.isEngine ==> d.apps == [] && d.settings == []
  {
  }

  /** The same for a setting process. */
  lemma InitSettingAnswer(d: Daemon, pid: int, env: Env, a: A.Agent, found: bool, b: A.Agent, ok: bool)
    requires Inv(d) && EngineFound(d, env, a, found) && LoadedFor(d, env, a, b, ok)
    ensures var (r, err) := InitSetting(d, pid, env);
            if !found then err == EngineNotFound && r == d.(agent := a, isEngine := false)
            else if pid in d.settings then err == InvalidParameter && r == d.(agent := a, isEngine := true)
            else if !ok then err == OperationFailed && r == d.(agent := b, isEngine := true)
            else err == NoError && r == d.(agent := b, isEngine := true, settings := d.settings + [pid])
  {
    hide Core, A.InitCurrent, A.Load;
    NoPlayer(d, 0);
  }

  /** The engine is loaded, and the default voice is the one of before if the engine calls it valid, or else its first. */
  predicate LoadedFrom(a: A.Agent, b: A.Agent, env: Env) {
    && env.lib == Some(b.lib) && b.loaded
    && if a.dflt in b.lib.valid then b.dflt == a.dflt && b.config == a.config.(engineId := b.config.engineId)
       else A.FallsBack(a, b, b.lib)
  }

  /** The first to register, client or setting process, has the engine loaded, with the fallback if need be. */
  lemma FirstLoads(d: Daemon, pid: int, uid: int, env: Env)
    requires Inv(d) && d.apps == [] && d.settings == []
    ensures var (r, err) := InitClient(d, pid, uid, env); err == NoError ==> LoadedFrom(d.agent, r.agent, env)
    ensures var (r, err) := InitSetting(d, pid, env); err == NoError ==> LoadedFrom(d.agent, r.agent, env)
  {
    hide A.Load, A.InitCurrent, Append, P.Create;
    var a := EnsureEngine(d, env).agent;
    EnsureOnly(d, env);
    A.LoadOutcomes(a, env.lib);
  }

  lemma EnsureOnly(d: Daemon, env: Env)
    requires Inv(d) && d.apps == [] && d.settings == []
    ensures var a := EnsureEngine(d, env).agent;
            !a.loaded && a.dflt == d.agent.dflt && a.config == d.agent.config.(engineId := a.config.engineId)
  {
    hide A.InitCurrent;
    A.InitKeepsDefaults(d.agent, env.scan);
    NobodyLoaded(d);
  }

  lemma NobodyLoaded(d: Daemon)
    requires Inv(d) && d.apps == [] && d.settings == []
    ensures !d.agent.loaded
  {
  }

  /** A setting process that is known leaves; the last one to leave unloads the engine, and nothing else changes. */
  lemma FinalizeSettingAnswer(d: Daemon, pid: int, env: Env)
    requires Inv(d) && OwnerInv(d)
    ensures var (r, err) := FinalizeSetting(d, pid, env);
            && err == (if pid in d.settings then NoError else InvalidParameter)
            && (pid !in d.settings ==> r == d)
            && (pid in d.settings ==>
                  && |r.settings| == |d.settings| - 1 && multiset(r.settings) == multiset(d.settings) - multiset{pid}
                  && r == d.(settings := r.settings, agent := r.agent)
                  && r.agent == d.agent.(loaded := r.agent.loaded)
                  && (r.agent.loaded <==> d.agent.loaded && (d.apps != [] || r.settings != [])))
  {
    hide Core;
    if pid in d.settings {
      WithoutOne(d.settings, pid);
      CoreHasAgent(d);
      AgentSet(d);
    }
  }

  lemma AgentSet(d: Daemon)
    requires Inv(d)
    ensures (d.agent.loaded ==> d.agent.init && d.agent.cur.Some?)
  {
  }

  lemma {:induction false} WithoutOne(s: seq<int>, x: int)
    requires x in s
    ensures |Without(s, x)| == |s| - 1 && multiset(Without(s, x)) == multiset(s) - multiset{x}
  {
    if s[0] == x {
      assert s == [s[0]] + s[1..];
    } else {
      WithoutOne(s[1..], x);
      assert s == [s[0]] + s[1..];
    }
  }

  /** An unknown client does not leave. */
  lemma FinalizeAnswer(d: Daemon, uid: int, env: Env)
    ensures var (r, err) := FinalizeClient(d, uid, env);
            err == (if StateOf(d.apps, uid).Some? then NoError else InvalidParameter) && (err != NoError ==> r == d)
  {
    hide Leave, UnloadIfIdle;
  }

  // ----- settings

  /** Only a registered setting process changes settings; the agent does what it is asked, and nothing else changes. */
  lemma SettingAnswer(d: Daemon, pid: int, v: Voice, speed: int, id: string, env: Env)
    requires Inv(d) && (pid in d.settings ==> d.agent.cur.Some?)
    ensures pid !in d.settings ==>
              && ChangeVoice(d, pid, v) == (d, InvalidParameter) && ChangeSpeed(d, pid, speed) == (d, InvalidParameter)
              && ChangeEngine(d, pid, id, env) == (d, InvalidParameter)
    ensures pid in d.settings ==>
              && ChangeVoice(d, pid, v) == (d.(agent := A.SetDefaultVoice(d.agent, v).0), A.SetDefaultVoice(d.agent, v).1)
              && ChangeSpeed(d, pid, speed) == (d.(agent := A.SetDefaultSpeed(d.agent, speed).0), A.SetDefaultSpeed(d.agent, speed).1)
    ensures pid in d.settings ==>
              var (r, err) := ChangeEngine(d, pid, id, env);
              if A.IsSameEngine(d.agent, id) then r == d && err == NoError
              else (r.agent, err) == A.SetEngine(d.agent, id, env.lib)
                   && r.settings == d.settings && r.timers == d.timers && r.interrupts == d.interrupts
  {
    hide Core, ResetFrom, A.SetEngine, A.SetDefaultVoice, A.SetDefaultSpeed, P.AllStop, A.IsSameEngine;
  }
}
