/**
 What every step of the daemon keeps, and exactly which steps break the scheduling
 promises: one playing client, one engine job, no lost wake-up.
 */
module DaemonInv {
  import opened Types
  import opened Tables
  import opened DataSpec
  import opened DaemonSpec
  import A = AgentSpec
  import P = PlayerSpec

  /** The tables are sound, at most one client plays, and the engine's lifecycle follows the clients. */
  ghost predicate Core(apps: Apps, settings: seq<int>, agent: A.Agent, players: P.Players, isEngine: bool) {
    && Unique(apps) && Unique(players.list)
    && (forall u | StateOf(apps, u).Some? :: u > 0)
    && AtMostOnePlaying(apps) && (forall u :: StateOf(apps, u) != Some(Created))
    && (forall u | Has(players.list, u) :: StateOf(apps, u).Some?)
    && (players.playing.Some? ==> Has(players.list, players.playing.value))
    && A.Inv(agent) && agent.init
    && (isEngine ==> agent.cur.Some?) && (!isEngine ==> apps == [] && settings == [])
    && (agent.loaded ==> |apps| + |settings| > 0)
  }

  ghost predicate Inv(d: Daemon) {
    Core(d.apps, d.settings, d.agent, d.players, d.isEngine)
  }

  // ----- Inv, operation by operation

  /** Nobody is ever in the state a handle has before it is connected. */
  lemma NoneCreated(d: Daemon)
    requires Inv(d)
    ensures forall u :: StateOf(d.apps, u) != Some(Created)
  {
  }

  lemma SameStatesKeep(d: Daemon, apps: Apps)
    requires Inv(d) && SameStates(d.apps, apps)
    ensures Inv(d.(apps := apps))
  {
  }

  lemma WithStateKeeps(d: Daemon, uid: int, st: AppState)
    requires Inv(d) && MaySetState(d.apps, uid, st) && st != Created
    ensures Inv(d.(apps := WithState(d.apps, uid, st)))
  {
    SetStateKeepsOnePlaying(d.apps, uid, st);
  }

  lemma EmitKeeps(d: Daemon, ev: ResultEvent, pcm: seq<int>)
    requires Inv(d) && d.job.Some?
    ensures Inv(Emit(d, ev, pcm)) && SameStates(d.apps, Emit(d, ev, pcm).apps)
  {
    SameStatesKeep(d, Emit(d, ev, pcm).apps);
  }

  lemma SamePlayersKeep(d: Daemon, ps: P.Players)
    requires Inv(d) && P.SamePlayers(d.players, ps)
    ensures Inv(d.(players := ps))
  {
  }

  /** The states after a stop. */
  ghost predicate StoppedStates(d: Daemon, r: Daemon, uid: int) {
    && |r.apps| == |d.apps|
    && forall u :: StateOf(r.apps, u) ==
         if u == uid && (StateOf(d.apps, u) == Some(Playing) || StateOf(d.apps, u) == Some(Paused)) then Some(Ready)
         else StateOf(d.apps, u)
  }

  lemma StopKeeps(d: Daemon, uid: int)
    requires Inv(d)
    ensures Inv(StopClient(d, uid).0) && StoppedStates(d, StopClient(d, uid).0, uid)
  {
    hide Core, ClearClient, StopSynthesis, P.Stop;
    var d1 := ClearClient(d, uid);
    SameStatesKeep(d, d1.apps);
    if StateOf(d.apps, uid) == Some(Playing) || StateOf(d.apps, uid) == Some(Paused) {
      WithStateKeeps(d1, uid, Ready);
      var d2 := d1.(apps := WithState(d1.apps, uid, Ready));
      P.StopKeepsPlayers(d2.players, uid);
      SamePlayersKeep(d2, P.Stop(d2.players, uid));
      var d3 := d2.(players := P.Stop(d2.players, uid));
      var d4 := StopSynthesis(d3);
      SameStatesKeep(d3, d4.apps);
      assert StopClient(d, uid).0 == d4;
    }
  }

  lemma HandKeeps(d: Daemon, uid: int, env: Env)
    requires Inv(d) && Texts(d.apps, uid) != []
    ensures Inv(Hand(d, uid, env).0)
  {
    SameStatesKeep(d, Hand(d, uid, env).0.apps);
  }

  lemma FailKeeps(d: Daemon, uid: int, uttId: int)
    requires Inv(d)
    ensures Inv(FailClient(d, uid, uttId)) && StoppedStates(d, FailClient(d, uid, uttId), uid)
  {
    hide Core, StopClient;
    StopKeeps(Log(d, [ErrorSent(uid, uttId)]), uid);
  }

  /** What happens to the client whose text failed to start. */
  lemma StartKeeps(d: Daemon, uid: int, adding: bool, env: Env)
    requires Inv(d)
    ensures var (r, err) := StartSynthesis(d, uid, adding, env);
            Inv(r) && if err != NoError && adding then StoppedStates(d, r, uid) else SameStates(d.apps, r.apps)
  {
    hide Core, Hand, FailClient;
    if !d.synthesizing && Texts(d.apps, uid) != [] {
      HandKeeps(d, uid, env);
      FailKeeps(Hand(d, uid, env).0, uid, HeadId(d, uid));
    }
  }

  lemma PullKeeps(d: Daemon, uid: int, p: P.Pull)
    requires Inv(d) && P.SamePlayers(d.players, p.ps) && SameStates(d.apps, p.apps)
    ensures Inv(WithPull(d, uid, p))
  {
    SameStatesKeep(d, p.apps);
    SamePlayersKeep(d.(apps := p.apps), p.ps);
  }

  lemma TickKeeps(d: Daemon, env: Env)
    requires Inv(d) && d.timers > 0
    ensures Inv(Tick(d, env))
  {
    hide Core, Hand, FailClient, WithPull, P.Play;
    var uid := CurrentPlaying(d.apps);
    if uid >= 0 && !d.synthesizing {
      var d1 := d;
      if Texts(d.apps, uid) != [] {
        HandKeeps(d, uid, env);
        var (h, ok) := Hand(d, uid, env);
        FailKeeps(h, uid, HeadId(d, uid));
        d1 := if ok then h else FailClient(h, uid, HeadId(d, uid));
      }
      P.PullsKeepPlayers(d1.players, d1.apps, uid);
      PullKeeps(d1, uid, P.Play(d1.players, d1.apps, uid));
    }
  }

  lemma EnsureKeeps(d: Daemon, env: Env)
    requires Inv(d)
    ensures Inv(EnsureEngine(d, env))
  {
    if !d.isEngine {
      A.InitKeepsInv(d.agent, env.scan);
    }
  }

  /** Loading for the first client or setting client. */
  lemma LoadKeeps(d: Daemon, env: Env)
    requires Inv(d) && d.isEngine
    ensures var a := A.Load(d.agent, env.lib).0;
            A.Inv(a) && a.init && a.cur.Some? && (!A.Load(d.agent, env.lib).1 ==> a.loaded == d.agent.loaded)
  {
    A.LoadKeepsInv(d.agent, env.lib);
  }

  lemma InitClientKeeps(d: Daemon, pid: int, uid: int, env: Env)
    requires Inv(d) && uid > 0
    ensures Inv(InitClient(d, pid, uid, env).0)
  {
    var d1 := EnsureEngine(d, env);
    EnsureKeeps(d, env);
    if d1.isEngine && !Has(d1.apps, uid) {
      LoadKeeps(d1, env);
      var (a, loaded) := if ClientCount(d1) == 0 then A.Load(d1.agent, env.lib) else (d1.agent, true);
      var d2 := d1.(agent := a);
      if loaded {
        AppendKeeps(d2, uid, NewRec(pid), P.Create(d2.players, uid, env.made).0);
      } else {
        assert Inv(d2);
      }
    }
  }

  lemma AppendKeeps(d: Daemon, uid: int, rec: AppRec, ps: P.Players)
    requires Inv(d.(agent := d.agent.(loaded := false))) && d.isEngine && A.Inv(d.agent)
    requires uid > 0 && !Has(d.apps, uid) && rec.state == Ready
    requires ps == d.players || ps == P.Create(d.players, uid, true).0
    ensures Inv(d.(apps := Append(d.apps, uid, rec), players := ps))
  {
    assert forall u :: StateOf(Append(d.apps, uid, rec), u) == if u == uid then Some(Ready) else StateOf(d.apps, u);
  }

  lemma UnloadKeeps(d: Daemon, env: Env)
    requires Inv(d.(agent := d.agent.(loaded := false))) && A.Inv(d.agent)
    ensures Inv(UnloadIfIdle(d, env))
  {
    if ClientCount(d) == 0 {
      var d1 := UnloadJob(d, env.cancels);
      A.SettingsKeepInv(d1.agent, d1.agent.dflt, 0);
      assert d1.apps == [];
    }
  }

  lemma LeaveKeeps(d: Daemon, uid: int)
    requires Inv(d)
    ensures var r := Leave(d, uid); Inv(r.(agent := r.agent.(loaded := false))) && r.agent == d.agent
    ensures forall u :: StateOf(Leave(d, uid).apps, u) == if u == uid then None else StateOf(d.apps, u)
  {
    hide Core, StopClient;
    StopKeeps(d, uid);
    var d1 := StopClient(d, uid).0;
    SameStatesKeep(d1, Clear(d1.apps, uid));
    var c := d1.(apps := Clear(d1.apps, uid), agent := d1.agent.(loaded := false));
    UnloadedKeeps(d1.(apps := Clear(d1.apps, uid)));
    DeleteKeeps(c, uid);
    CoreHasAgent(c);
    DeleteStates(c.apps, uid);
    var r := Leave(d, uid);
    assert r.apps == Delete(c.apps, uid) && r.players == P.Destroy(c.players, uid);
  }

  lemma UnloadedKeeps(d: Daemon)
    requires Inv(d)
    ensures Inv(d.(agent := d.agent.(loaded := false)))
  {
  }

  lemma DeleteStates(apps: Apps, uid: int)
    requires Unique(apps)
    ensures forall u :: StateOf(Delete(apps, uid), u) == if u == uid then None else StateOf(apps, u)
  {
    GetDelete(apps, uid);
  }

  lemma FinalizeKeeps(d: Daemon, uid: int, env: Env)
    requires Inv(d)
    ensures Inv(FinalizeClient(d, uid, env).0)
  {
    hide Core;
    if Has(d.apps, uid) {
      LeaveKeeps(d, uid);
      assert A.Inv(d.agent) by { CoreHasAgent(d); }
      UnloadKeeps(Leave(d, uid), env);
    }
  }

  lemma CoreHasAgent(d: Daemon)
    requires Inv(d)
    ensures A.Inv(d.agent) && d.agent.init && Unique(d.apps)
  {
  }

  lemma DestroyKeeps(d: Daemon, uid: int)
    requires Inv(d)
    ensures Inv(d.(players := P.Destroy(d.players, uid))) && !Has(P.Destroy(d.players, uid).list, uid)
  {
    GetDelete(d.players.list, uid);
  }

  lemma DeleteKeeps(d: Daemon, uid: int)
    requires Inv(d) && !d.agent.loaded
    ensures Inv(d.(apps := Delete(d.apps, uid), players := P.Destroy(d.players, uid)))
  {
    DestroyKeeps(d, uid);
    var d1 := d.(players := P.Destroy(d.players, uid));
    var apps := Delete(d.apps, uid);
    assert Unique(apps) by { GetDelete(d.apps, uid); }
    DeleteStates(d.apps, uid);
    assert Inv(d1.(apps := apps));
  }

  lemma AddKeeps(d: Daemon, uid: int, sd: SpeakData, env: Env)
    requires Inv(d)
    ensures Inv(AddQueue(d, uid, sd, env).0)
  {
    hide StartSynthesis, A.SelectVoice, Core;
    var d1 := Enqueue(d, uid, sd);
    SameStatesKeep(d, d1.apps);
    StartKeeps(d1, uid, true, env);
  }

  lemma InterruptKeeps(d: Daemon)
    requires Inv(d) && FirstPlaying(d.apps) != -1
    ensures var r := Interrupt(d, CurrentPlaying(d.apps)); Inv(r) && FirstPlaying(r.apps) == -1 && |r.apps| == |d.apps|
    ensures forall u :: StateOf(Interrupt(d, CurrentPlaying(d.apps)).apps, u) ==
              if u == CurrentPlaying(d.apps) then Some(Paused) else StateOf(d.apps, u)
  {
    var cur := CurrentPlaying(d.apps);
    CurrentIsPlaying(d.apps);
    WithStateKeeps(d, cur, Paused);
    var d1 := d.(apps := WithState(d.apps, cur, Paused));
    P.PauseKeepsPlayers(d1.players, cur);
    SamePlayersKeep(d1, P.Pause(d1.players, cur).0);
    CurrentIsPlaying(d1.apps);
  }

  /** The states after a play that passes its checks. */
  ghost predicate PlayedStates(apps: Apps, r: Apps, uid: int) {
    && |r| == |apps|
    && forall u :: StateOf(r, u) ==
         if u == uid then Some(Playing)
         else if StateOf(apps, u) == Some(Playing) then Some(Paused) else StateOf(apps, u)
  }

  /** The first half of play: whoever played is paused, and the requester is the playing client. */
  function TakeOver(d: Daemon, uid: int): Daemon {
    var d1 := PauseCurrent(d, uid);
    d1.(apps := WithState(d1.apps, uid, Playing))
  }

  lemma TakeOverKeeps(d: Daemon, uid: int)
    requires Inv(d) && StateOf(d.apps, uid).Some? && StateOf(d.apps, uid) != Some(Playing)
    ensures Inv(TakeOver(d, uid)) && PlayedStates(d.apps, TakeOver(d, uid).apps, uid)
    ensures MaySetState(PauseCurrent(d, uid).apps, uid, Playing)
  {
    CurrentIsPlaying(d.apps);
    if FirstPlaying(d.apps) != -1 {
      InterruptKeeps(d);
    }
    WithStateKeeps(PauseCurrent(d, uid), uid, Playing);
  }

  lemma PlayOnKeeps(d: Daemon, uid: int, st: AppState, env: Env)
    requires Inv(d)
    ensures Inv(PlayOn(d, uid, st, env).0) && SameStates(d.apps, PlayOn(d, uid, st, env).0.apps)
  {
    hide Core, StartSynthesis, P.Resume, P.Pause;
    P.PauseKeepsPlayers(d.players, uid);
    SamePlayersKeep(d, P.Resume(d.players, uid));
    var d1 := if st == Paused then d.(players := P.Resume(d.players, uid)) else d;
    StartKeeps(d1, uid, false, env);
  }

  /** Whether play gets past its checks. */
  predicate MayPlay(d: Daemon, uid: int, env: Env) {
    StateOf(d.apps, uid).Some? && StateOf(d.apps, uid) != Some(Playing) && !Unreachable(d, env)
  }

  lemma PlayIs(d: Daemon, uid: int, env: Env)
    requires Inv(d)
    ensures if MayPlay(d, uid, env) then PlayClient(d, uid, env) == PlayOn(TakeOver(d, uid), uid, StateOf(d.apps, uid).value, env)
            else PlayClient(d, uid, env).0 == d
  {
    if MayPlay(d, uid, env) {
      TakeOverKeeps(d, uid);
    }
  }

  /**
   A play that passes its checks makes the requester the only playing client, turns
   the client that was playing into a paused one, and changes no other state.
   */
  lemma PlayKeeps(d: Daemon, uid: int, env: Env)
    requires Inv(d)
    ensures Inv(PlayClient(d, uid, env).0)
    ensures MayPlay(d, uid, env) ==> PlayedStates(d.apps, PlayClient(d, uid, env).0.apps, uid)
  {
    PlayIs(d, uid, env);
    if MayPlay(d, uid, env) {
      TakeOverKeeps(d, uid);
      PlayOnKeeps(TakeOver(d, uid), uid, StateOf(d.apps, uid).value, env);
    }
  }

  lemma PauseKeeps(d: Daemon, uid: int)
    requires Inv(d)
    ensures Inv(PauseClient(d, uid).0)
  {
    hide Core, P.Pause;
    P.PauseKeepsPlayers(d.players, uid);
    var d1 := d.(players := P.Pause(d.players, uid).0);
    SamePlayersKeep(d, d1.players);
    if IsPlaying(d.apps, uid) {
      WithStateKeeps(d1, uid, Paused);
    }
  }

  lemma ResetOneKeeps(d: Daemon, i: nat)
    requires Inv(d) && i < |d.apps|
    ensures var r := ResetClient(d, d.apps[i].uid);
            Inv(r) && |r.apps| == |d.apps| && (forall u :: Find(r.apps, u) == Find(d.apps, u))
            && forall u :: StateOf(r.apps, u) == if Find(d.apps, u) == i then Some(Ready) else StateOf(d.apps, u)
  {
    var uid := d.apps[i].uid;
    FindIs(d.apps, i);
    var d1 := ClearClient(d, uid);
    SameStatesKeep(d, d1.apps);
    WithStateKeeps(d1, uid, Ready);
    FindSet(d.apps, uid, Drained(Get(d.apps, uid).value));
    FindSet(d1.apps, uid, Get(d1.apps, uid).value.(state := Ready));
  }

  /** After the walk every client is ready. */
  lemma {:induction false} ResetKeeps(d: Daemon, i: nat)
    requires Inv(d)
    ensures Inv(ResetFrom(d, i))
    ensures forall u :: StateOf(ResetFrom(d, i).apps, u) == if Find(d.apps, u) >= i then Some(Ready) else StateOf(d.apps, u)
    decreases |d.apps| - i
  {
    hide Core, ResetClient, StateOf;
    if i < |d.apps| {
      ResetOneKeeps(d, i);
      ResetKeeps(ResetClient(d, d.apps[i].uid), i + 1);
    }
  }

  lemma AllStopKeeps(d: Daemon)
    requires Inv(d)
    ensures Inv(d.(players := P.AllStop(d.players, d.apps)))
  {
    assert forall k | 0 <= k < |d.players.list| :: StateOf(d.apps, d.players.list[k].uid).Some? by {
      forall k | 0 <= k < |d.players.list| ensures StateOf(d.apps, d.players.list[k].uid).Some? {
        FindIs(d.players.list, k);
        assert Has(d.players.list, d.players.list[k].uid);
      }
    }
    StopEachKeepsUids(d.players.list, d.apps);
    SameUids(d.players.list, P.StopEach(d.players.list, d.apps));
  }

  lemma {:induction false} StopEachKeepsUids(list: seq<Entry<P.PlayerRec>>, apps: Apps)
    requires forall k | 0 <= k < |list| :: StateOf(apps, list[k].uid).Some?
    ensures var r := P.StopEach(list, apps); |r| == |list| && forall k | 0 <= k < |list| :: r[k].uid == list[k].uid
  {
    if list != [] {
      assert StateOf(apps, list[0].uid).Some?;
      StopEachKeepsUids(list[1..], apps);
    }
  }

  lemma QuietedKeeps(d: Daemon, env: Env)
    requires Inv(d)
    ensures Inv(Quieted(d, env)) && Quieted(d, env).agent == d.agent
    ensures forall u :: StateOf(Quieted(d, env).apps, u) == if StateOf(d.apps, u).Some? then Some(Ready) else None
  {
    hide Core;
    AllStopKeeps(d);
    var d1 := d.(players := P.AllStop(d.players, d.apps));
    ResetKeeps(d1, 0);
    SameStatesKeep(ResetFrom(d1, 0), Quieted(d, env).apps);
  }

  lemma ChangeEngineKeeps(d: Daemon, pid: int, id: string, env: Env)
    requires Inv(d) && (pid in d.settings ==> d.agent.cur.Some?)
    ensures Inv(ChangeEngine(d, pid, id, env).0)
  {
    if pid in d.settings && !A.IsSameEngine(d.agent, id) {
      QuietedKeeps(d, env);
      var q := Quieted(d, env);
      A.SetEngineKeepsInv(q.agent, id, env.lib);
      SetEngineKeepsInit(q.agent, id, env.lib);
      AgentKeeps(q, A.SetEngine(q.agent, id, env.lib).0);
    }
  }

  lemma SetEngineKeepsInit(a: A.Agent, id: string, lib: Option<A.EngineLib>)
    requires a.cur.Some?
    ensures A.SetEngine(a, id, lib).0.init == a.init
  {
    hide A.SetCurrent, A.Load;
    var a1 := A.Unload(a).0;
    var a2 := A.SetCurrent(a1, id).0;
    var a3 := A.SetCurrent(a2, a.cur.value.uuid).0;
    SameInit(a1, id, lib);
    SameInit(a2, a.cur.value.uuid, lib);
    SameInit(a3, id, lib);
  }

  lemma SameInit(a: A.Agent, id: string, lib: Option<A.EngineLib>)
    ensures A.SetCurrent(a, id).0.init == a.init && A.Load(a, lib).0.init == a.init
  {
    hide A.FirstEngine;
  }

  lemma AgentKeeps(d: Daemon, a: A.Agent)
    requires Inv(d) && A.Inv(a) && a.init && a.cur.Some? && ClientCount(d) > 0
    ensures Inv(d.(agent := a))
  {
  }

  lemma SettingsKeep(d: Daemon, pid: int, v: Voice, speed: int, env: Env)
    requires Inv(d)
    ensures Inv(InitSetting(d, pid, env).0) && Inv(FinalizeSetting(d, pid, env).0)
    ensures Inv(ChangeVoice(d, pid, v).0) && Inv(ChangeSpeed(d, pid, speed).0)
  {
    InitSettingKeeps(d, pid, env);
    if pid in d.settings {
      A.SettingsKeepInv(d.agent, v, speed);
      UnloadKeeps(d.(settings := Without(d.settings, pid)), env);
    }
  }

  lemma InitSettingKeeps(d: Daemon, pid: int, env: Env)
    requires Inv(d)
    ensures Inv(InitSetting(d, pid, env).0)
  {
    hide EnsureEngine, A.Load, Unique;
    var d1 := EnsureEngine(d, env);
    EnsureKeeps(d, env);
    if d1.isEngine && pid !in d1.settings {
      LoadKeeps(d1, env);
    }
  }

  lemma CallbackKeeps(d: Daemon, uid: int, c: SoundData)
    requires Inv(d)
    ensures Inv(StreamBegins(d, uid, c)) && Inv(StreamEnds(d, uid, c)) && Inv(NextSound(d, uid))
    ensures Inv(StreamFails(d, uid, c))
  {
    hide Core;
    P.CallbacksKeepPlayers(d.players, uid, c, StateOf(d.apps, uid));
    SamePlayersKeep(d, P.OnBegin(d.players, uid, c, StateOf(d.apps, uid)).0);
    SamePlayersKeep(d, P.OnEnd(d.players, uid, c).0);
    SamePlayersKeep(d, P.OnError(d.players, uid));
    P.PullsKeepPlayers(d.players, d.apps, uid);
    PullKeeps(d, uid, P.NextPlay(d.players, d.apps, uid));
  }

  // ----- all steps, all runs

  lemma SendKeeps(d: Daemon, uid: int)
    requires Inv(d)
    ensures Inv(SendInterrupt(d, uid))
  {
    hide Core;
  }

  lemma StepKeepsInv(d: Daemon, e: Event, env: Env)
    requires Inv(d) && Enabled(d, e)
    ensures Inv(Step(d, e, env).0)
  {
    hide Core, InitClient, FinalizeClient, AddQueue, PlayClient, StopClient, PauseClient, Tick, InitSetting, FinalizeSetting,
      ChangeEngine, ChangeVoice, ChangeSpeed, StreamBegins, StreamEnds, StreamFails, NextSound, Emit, SendInterrupt, Inv;
    match e
    case EvInit(pid, uid) => InitClientKeeps(d, pid, uid, env);
    case EvFinalize(uid) => FinalizeKeeps(d, uid, env);
    case EvAdd(uid, sd) => AddKeeps(d, uid, sd, env);
    case EvPlay(uid) => PlayKeeps(d, uid, env);
    case EvStop(uid) => StopKeeps(d, uid);
    case EvPause(uid) => PauseKeeps(d, uid);
    case EvTick => TickKeeps(d, env);
    case EvResult(ev, pcm) => EmitKeeps(d, ev, pcm);
    case EvInterrupt(uid) => SendKeeps(d, uid);
    case EvInitSetting(pid) => SettingsKeep(d, pid, Voice("", 0), 0, env);
    case EvFinalizeSetting(pid) => SettingsKeep(d, pid, Voice("", 0), 0, env);
    case EvChangeEngine(pid, id) => ChangeEngineKeeps(d, pid, id, env);
    case EvChangeVoice(pid, v) => SettingsKeep(d, pid, v, 0, env);
    case EvChangeSpeed(pid, s) => SettingsKeep(d, pid, Voice("", 0), s, env);
    case EvBegin(uid, c) => CallbackKeeps(d, uid, c);
    case EvEnd(uid, c) => CallbackKeeps(d, uid, c);
    case EvError(uid, c) => CallbackKeeps(d, uid, c);
    case EvNextSound(uid) => CallbackKeeps(d, uid, SoundData(0, Fail, []));
  }

  lemma BootInv(agent: A.Agent, scan: seq<A.EngineInfo>)
    requires A.Inv(agent) && agent.init && agent.cur.None?
    ensures Inv(Boot(agent, scan))
  {
    A.InitKeepsInv(agent, scan);
  }

  /** A registered setting process implies that an engine is set, so a change of engine is never undefined. */
  lemma ChangeAlwaysDefined(d: Daemon, pid: int, id: string)
    requires Inv(d)
    ensures Enabled(d, EvChangeEngine(pid, id))
  {
  }

  /**
   In every reachable state: uids are unique; at most one client is playing; every
   player belongs to a client and the current player is a listed one; the agent's
   defaults are the stored ones; a loaded engine accepts its default voice; and the
   engine is loaded only while a client or a setting client is registered.
   */
  lemma {:induction false} ReachableInv(agent: A.Agent, scan: seq<A.EngineInfo>, es: seq<(Event, Env)>)
    requires A.Inv(agent) && agent.init && agent.cur.None?
    ensures Inv(Run(Boot(agent, scan), es))
  {
    if es == [] {
      BootInv(agent, scan);
    } else {
      ReachableInv(agent, scan, es[..|es| - 1]);
      var d1 := Run(Boot(agent, scan), es[..|es| - 1]);
      var (e, env) := Last(es);
      if Enabled(d1, e) {
        StepKeepsInv(d1, e, env);
      }
    }
  }
}
