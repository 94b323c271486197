/**
 server/ttsd_server.cpp: the request handlers, timers and callbacks over the client
 table, the engine agent and the players.  Every method is proved to do what the state
 machine of DaemonSpec does in one step.
 */
module ServerModule {
  import opened Types
  import opened Tables
  import opened DataSpec
  import opened Data
  import opened EngineAgentModule
  import opened PlayerModule
  import opened DaemonSpec
  import A = AgentSpec
  import P = PlayerSpec

  class Server {
    const data: DataStore
    const agent: EngineAgent
    const player: Player
    var isEngine: bool
    var isSynthesizing: bool
    var isNextSynthesis: bool
    // what the engine, the main loop and the message bus hold on the daemon's behalf
    var timers: nat
    var job: Option<Job>
    var interrupts: multiset<int>
    var outbox: multiset<(int, AppState)>
    ghost var log: seq<Act>

    ghost predicate Valid()
      reads this, data
    {
      player.data == data && data.Valid()
    }

    ghost function State(): Daemon
      reads this, data, agent, agent.config, player
    {
      Daemon(data.apps, data.settings, agent.State(), player.State(), isEngine, isSynthesizing, isNextSynthesis,
             timers, job, interrupts, outbox, log)
    }

    /** Start-up over an engine agent that has read the settings. */
    constructor (agent: EngineAgent, scan: seq<A.EngineInfo>)
      requires agent.config.engineId.Some?
      modifies agent, agent.config
      ensures this.agent == agent && fresh(data) && fresh(player)
      ensures Valid() && State() == Boot(old(agent.State()), scan)
    {
      var store := new DataStore();
      var players := new Player(store);
      var ok := agent.InitializeCurrentEngine(scan);
      data, player, this.agent := store, players, agent;
      isEngine, isSynthesizing, isNextSynthesis := ok, false, false;
      timers, job, interrupts, outbox, log := 0, None, multiset{}, multiset{}, [];
    }

    // ----- engine results

    method QueueSound(uid: int, c: SoundData)
      requires Valid()
      modifies this, data
      ensures Valid()
      ensures var d := old(State());
              State() == if Has(d.apps, uid) then Log(d, [ChunkIn(uid, c)]).(apps := DataSpec.AddSound(d.apps, uid, c)) else d
    {
      hide DataSpec.AddSound;
      if !Has(data.apps, uid) { AddSoundNobody(data.apps, uid, c); }
      var err := data.AddSoundData(uid, c);
      if err == NoError {
        log := log + [ChunkIn(uid, c)];
      }
    }

    method ResultCallback(ev: ResultEvent, uid: int, uttId: int, pcm: seq<int>)
      requires Valid()
      modifies this, data
      ensures Valid() && State() == OnResult(old(State()), ev, uid, uttId, pcm)
    {
      hide UttIdValid, AddSound;
      if ev == Start || ev == Continue || ev == Finish {
        var valid := data.IsUttIdValid(uid, uttId);
        if !valid {
          log := log + [Refused(uid, uttId)];
          return;
        }
        if !agent.init || !agent.isLoaded {
          return;
        }
        QueueSound(uid, SoundData(uttId, ev, pcm));
        if ev == Finish {
          isSynthesizing := false;
          isNextSynthesis := true;
        }
      } else {
        isSynthesizing := false;
        isNextSynthesis := true;
      }
    }

    /** The engine reports on the job it was given. */
    method EngineReports(ev: ResultEvent, pcm: seq<int>)
      requires Valid() && job.Some?
      modifies this, data
      ensures Valid() && State() == Emit(old(State()), ev, pcm)
    {
      hide OnResult;
      var j := job.value;
      ResultCallback(ev, j.uid, j.speak.uttId, pcm);
      if ev == Finish || ev == Fail || ev == Cancel {
        log := log + [Ended(j.uid, j.speak.uttId, ev)];
        job := None;
      } else {
        job := Some(j.(streaming := true));
      }
    }

    method CancelSynthesis()
      requires Valid()
      modifies this, data
      ensures Valid() && State() == CancelJob(old(State()))
    {
      hide Emit;
      if !agent.init || !agent.isLoaded {
        return;
      }
      if job.Some? {
        EngineReports(Cancel, []);
      }
    }

    /** What unloading the engine does to its job. */
    method EndJob(cancels: bool)
      requires Valid()
      modifies this, data
      ensures Valid() && State() == UnloadJob(old(State()), cancels)
    {
      hide Emit;
      if agent.init && agent.isSet && agent.isLoaded && job.Some? {
        if cancels {
          EngineReports(Cancel, []);
        } else {
          log := log + [Ended(job.value.uid, job.value.speak.uttId, Cancel)];
          job := None;
        }
      }
    }

    method UnloadIfUnused(env: Env)
      requires Valid()
      modifies this, data, agent
      ensures Valid() && State() == UnloadIfIdle(old(State()), env)
    {
      hide UnloadJob;
      var count := data.ClientCount();
      if count == 0 {
        EndJob(env.cancels);
        var _ := agent.UnloadCurrentEngine();
      }
    }

    // ----- synthesis

    /** Take the client's oldest text, if there is one, and start the engine on it. */
    method HandText(uid: int, env: Env) returns (empty: bool, ok: bool, uttId: int)
      requires Valid()
      modifies this, data
      ensures Valid() && empty == (Texts(old(data.apps), uid) == [])
      ensures !empty ==> uttId == HeadId(old(State()), uid)
      ensures if empty then State() == old(State()) else (State(), ok) == Hand(old(State()), uid, env)
    {
      hide A.SelectVoice, DropText;
      empty, ok, uttId := true, true, 0;
      var text := data.GetSpeakData(uid);
      if text.None? {
        return;
      }
      empty, uttId := false, text.value.uttId;
      isSynthesizing := true;
      var call := agent.StartSynthesis(text.value, env.accepts);
      if call.None? {
        isSynthesizing := false;
        log := log + [StartFailed(uid, text.value)];
        ok := false;
      } else {
        log := log + [Handed(uid, text.value, call.value.0, call.value.1)];
        job := Some(Job(uid, text.value, false));
      }
    }

    /** The error message, the stop, and the message that the client is ready. */
    method StopAndTell(uid: int, uttId: int)
      requires Valid()
      modifies this, data, player
      ensures Valid() && State() == FailClient(old(State()), uid, uttId)
    {
      hide StopClient;
      log := log + [ErrorSent(uid, uttId)];
      var _ := StopRequest(uid);
      outbox := outbox + multiset{(uid, Ready)};
    }

    method StartText(uid: int, adding: bool, env: Env) returns (err: Error)
      requires Valid()
      modifies this, data, player
      ensures Valid() && (State(), err) == StartSynthesis(old(State()), uid, adding, env)
    {
      hide Hand, FailClient;
      if isSynthesizing {
        return NoError;
      }
      var empty, ok, uttId := HandText(uid, env);
      if empty || ok {
        return NoError;
      }
      if adding {
        StopAndTell(uid, uttId);
      }
      return OperationFailed;
    }

    method NextText(env: Env)
      requires Valid()
      modifies this, data, player
      ensures Valid() && State() == NextSynthesis(old(State()), env)
    {
      hide Hand, FailClient, P.Play;
      var current := data.GetCurrentPlaying();
      if current < 0 || isSynthesizing {
        return;
      }
      var empty, ok, uttId := HandText(current, env);
      if !empty && !ok {
        StopAndTell(current, uttId);
      }
      PlaySound(current);
    }

    /** Ask the player to take the next chunk. */
    method PlaySound(uid: int)
      requires Valid()
      modifies this, data, player
      ensures Valid() && State() == WithPull(old(State()), uid, P.Play(old(player.State()), old(data.apps), uid))
    {
      hide P.Play;
      var taken := player.PlaySound(uid);
      log := log + match taken case None => [] case Some(c) => [Pulled(uid, c)];
    }

    /** The polling timer; false when it should not be called again. */
    method StartNextSynthesis(env: Env) returns (again: bool)
      requires Valid() && timers > 0
      modifies this, data, player
      ensures Valid() && State() == Tick(old(State()), env) && again == (CurrentPlaying(old(data.apps)) >= 0)
    {
      hide NextSynthesis;
      var uid := data.GetCurrentPlaying();
      if uid < 0 {
        timers := timers - 1;
        return false;
      }
      if isNextSynthesis {
        NextText(env);
        isNextSynthesis := false;
      }
      return true;
    }

    // ----- requests of clients

    method FindEngine(env: Env)
      requires Valid() && agent.config.engineId.Some?
      modifies this, agent, agent.config
      ensures Valid() && State() == EnsureEngine(old(State()), env)
    {
      hide A.InitCurrent;
      if !isEngine {
        isEngine := agent.InitializeCurrentEngine(env.scan);
      }
    }

    method Initialize(pid: int, uid: int, env: Env) returns (err: Error)
      requires Valid() && agent.config.engineId.Some?
      modifies this, data, agent, agent.config, player
      ensures Valid() && (State(), err) == InitClient(old(State()), pid, uid, env)
    {
      hide EnsureEngine, A.Load, P.Create;
      FindEngine(env);
      if !isEngine {
        return EngineNotFound;
      }
      var index := Search(data.apps, uid);
      if index != -1 {
        return InvalidParameter;
      }
      var count := data.ClientCount();
      if count == 0 {
        var loaded := agent.LoadCurrentEngine(env.lib);
        if !loaded {
          return OperationFailed;
        }
      }
      var _ := data.NewClient(pid, uid);
      var ok := player.CreateInstance(uid, env.made);
      return if ok then NoError else OperationFailed;
    }

    method Finalize(uid: int, env: Env) returns (err: Error)
      requires Valid()
      modifies this, data, agent, player
      ensures Valid() && (State(), err) == FinalizeClient(old(State()), uid, env)
    {
      hide UnloadIfIdle, StopClient, P.Destroy, Delete, Clear;
      var st := data.GetClientState(uid);
      if st.None? {
        return InvalidParameter;
      }
      var _ := StopRequest(uid);
      var _ := player.DestroyInstance(uid);
      ghost var d1 := State();
      assert d1 == StopClient(old(State()), uid).0.(players := P.Destroy(StopClient(old(State()), uid).0.players, uid));
      var deleted := data.DeleteClient(uid);
      if deleted == NoError {
        log := log + [Cleared(uid)];
      } else {
        EraseNobody(d1.apps, uid);
      }
      assert State() == Leave(old(State()), uid);
      UnloadIfUnused(env);
      return NoError;
    }

    method AddText(uid: int, sd: SpeakData, env: Env) returns (err: Error)
      requires Valid()
      modifies this, data, player
      ensures Valid() && (State(), err) == AddQueue(old(State()), uid, sd, env)
    {
      hide StartSynthesis, A.SelectVoice;
      var st := data.GetClientState(uid);
      if st.None? {
        return InvalidParameter;
      }
      var voice := agent.SelectValid(sd.lang, sd.kind);
      if voice.None? {
        return InvalidVoice;
      }
      var _ := data.AddSpeakData(uid, sd);
      log := log + [Accepted(uid, sd)];
      if st == Some(Playing) {
        var needed := agent.EngineNeedsNetwork();
        if needed && !env.network {
          return OperationFailed;
        }
        err := StartText(uid, true, env);
        return;
      }
      return NoError;
    }

    method SendInterruptMessage(uid: int)
      requires Valid()
      modifies this
      ensures Valid() && State() == SendInterrupt(old(State()), uid)
    {
      var st := data.GetClientState(uid);
      if st.Some? {
        outbox := outbox + multiset{(uid, Paused)};
      }
      interrupts := interrupts - multiset{uid};
    }

    method Play(uid: int, env: Env) returns (err: Error)
      requires Valid()
      modifies this, data, player
      ensures Valid() && (State(), err) == PlayClient(old(State()), uid, env)
    {
      hide PlayOn, PauseCurrent, WithState, MaySetState;
      var st := data.GetClientState(uid);
      if st.None? {
        return InvalidParameter;
      }
      if st == Some(Playing) {
        return NoError;
      }
      var needed := agent.EngineNeedsNetwork();
      if needed && !env.network {
        return OutOfNetwork;
      }
      InterruptCurrent(uid);
      var changed := data.SetClientState(uid, Playing);
      if changed != NoError {
        return OperationFailed;
      }
      err := PlayInternal(uid, st.value, env);
    }

    method InterruptCurrent(uid: int)
      requires Valid()
      modifies this, data, player
      ensures Valid() && State() == PauseCurrent(old(State()), uid)
    {
      hide P.Pause, WithState;
      var current := data.GetCurrentPlaying();
      if uid != current && current != -1 {
        var _ := player.PausePlayer(current);
        var _ := data.SetClientState(current, Paused);
        interrupts := interrupts + multiset{current};
      }
    }

    method PlayInternal(uid: int, st: AppState, env: Env) returns (err: Error)
      requires Valid()
      modifies this, data, player
      ensures Valid() && (State(), err) == PlayOn(old(State()), uid, st, env)
    {
      hide StartSynthesis, P.Resume;
      err := NoError;
      if st == Paused {
        var _ := player.ResumePlayer(uid);
        err := StartText(uid, false, env);
      } else if st == Ready {
        err := StartText(uid, false, env);
      }
      if err != NoError {
        return OperationFailed;
      }
      timers := timers + 1;
    }

    method StopRequest(uid: int) returns (err: Error)
      requires Valid()
      modifies this, data, player
      ensures Valid() && (State(), err) == StopClient(old(State()), uid)
    {
      hide P.Stop, StopSynthesis, Clear, WithState;
      var st := data.GetClientState(uid);
      if st.None? {
        return InvalidParameter;
      }
      var _ := data.ClearData(uid);
      log := log + [Cleared(uid)];
      if st == Some(Playing) || st == Some(Paused) {
        var _ := data.SetClientState(uid, Ready);
        var _ := player.StopPlayer(uid);
        StopEngine();
      }
      return NoError;
    }

    method StopEngine()
      requires Valid()
      modifies this, data
      ensures Valid() && State() == StopSynthesis(old(State()))
    {
      hide CancelJob;
      if isSynthesizing {
        CancelSynthesis();
        isSynthesizing := false;
      }
    }

    method Pause(uid: int) returns (err: Error)
      requires Valid()
      modifies this, data, player
      ensures Valid() && (State(), err) == PauseClient(old(State()), uid)
    {
      hide P.Pause;
      var st := data.GetClientState(uid);
      if st.None? {
        return InvalidParameter;
      }
      if st != Some(Playing) {
        return InvalidState;
      }
      var ok := player.PausePlayer(uid);
      if !ok {
        return OperationFailed;
      }
      var _ := data.SetClientState(uid, Paused);
      return NoError;
    }

    // ----- requests of settings

    method SettingInitialize(pid: int, env: Env) returns (err: Error)
      requires Valid() && agent.config.engineId.Some?
      modifies this, data, agent, agent.config
      ensures Valid() && (State(), err) == InitSetting(old(State()), pid, env)
    {
      hide EnsureEngine, A.Load;
      FindEngine(env);
      if !isEngine {
        return EngineNotFound;
      }
      var index := data.SettingIndex(pid);
      if index != -1 {
        return InvalidParameter;
      }
      var count := data.ClientCount();
      if count == 0 {
        var loaded := agent.LoadCurrentEngine(env.lib);
        if !loaded {
          return OperationFailed;
        }
      }
      var _ := data.SettingAdd(pid);
      return NoError;
    }

    method SettingFinalize(pid: int, env: Env) returns (err: Error)
      requires Valid()
      modifies this, data, agent
      ensures Valid() && (State(), err) == FinalizeSetting(old(State()), pid, env)
    {
      hide UnloadIfIdle;
      var index := data.SettingIndex(pid);
      if index == -1 {
        return InvalidParameter;
      }
      var _ := data.SettingDelete(pid);
      UnloadIfUnused(env);
      return NoError;
    }

    method ResetOne(uid: int)
      requires Valid() && Has(data.apps, uid)
      modifies this, data
      ensures Valid() && State() == ResetClient(old(State()), uid)
    {
      hide Clear;
      var _ := data.ClearData(uid);
      log := log + [Cleared(uid)];
      var _ := data.SetClientState(uid, Ready);
      outbox := outbox + multiset{(uid, Ready)};
    }

    /** The walk over the clients; the number of clients is read once, before it. */
    method ResetAll()
      requires Valid()
      modifies this, data
      ensures Valid() && State() == ResetFrom(old(State()), 0)
    {
      hide ResetClient;
      var size := |data.apps|;
      var i := 0;
      while i < size
        invariant Valid() && 0 <= i <= size == |data.apps|
        invariant ResetFrom(State(), i) == ResetFrom(old(State()), 0)
      {
        ResetOne(data.apps[i].uid);
        i := i + 1;
      }
    }

    method SetCurrentEngine(pid: int, id: string, env: Env) returns (err: Error)
      requires Valid() && (pid in data.settings ==> agent.isSet)
      modifies this, data, agent, agent.config, player
      ensures Valid() && (State(), err) == ChangeEngine(old(State()), pid, id, env)
    {
      hide ResetFrom, UnloadJob, P.AllStop, A.SetEngine, A.IsSameEngine;
      var index := data.SettingIndex(pid);
      if index == -1 {
        return InvalidParameter;
      }
      var same := agent.IsSame(id);
      if same {
        return NoError;
      }
      player.AllStopPlayers();
      ResetAll();
      EndJob(env.cancels);
      err := agent.SettingSetEngine(id, env.lib);
    }

    method SetDefaultVoice(pid: int, v: Voice) returns (err: Error)
      requires Valid()
      modifies agent, agent.config
      ensures Valid() && (State(), err) == ChangeVoice(old(State()), pid, v)
    {
      var index := data.SettingIndex(pid);
      if index == -1 {
        return InvalidParameter;
      }
      err := agent.SettingSetDefaultVoice(v);
    }

    method SetDefaultSpeed(pid: int, speed: int) returns (err: Error)
      requires Valid()
      modifies agent, agent.config
      ensures Valid() && (State(), err) == ChangeSpeed(old(State()), pid, speed)
    {
      var index := data.SettingIndex(pid);
      if index == -1 {
        return InvalidParameter;
      }
      err := agent.SettingSetDefaultSpeed(speed);
    }
  }
}
