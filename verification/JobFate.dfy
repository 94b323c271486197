/** What ends the engine's job: its own end, and requests of whoever they are. */
module JobFate {
  import opened Types
  import opened Tables
  import opened DataSpec
  import opened DaemonSpec
  import opened DaemonInv
  import opened Scheduling
  import opened Watermark
  import A = AgentSpec
  import P = PlayerSpec

  /** The events that end the job, whoever owns it. */
  predicate EndsTheJob(d: Daemon, e: Event) {
    match e
    case EvResult(ev, _) => EndsJob(ev)
    case EvStop(uid) => Active(d.apps, uid)
    case EvFinalize(uid) => Active(d.apps, uid)
    case EvChangeEngine(pid, id) => pid in d.settings && !A.IsSameEngine(d.agent, id)
    case _ => false
  }

  /** The engine still works on the same text of the same client. */
  predicate SameJob(d: Daemon, r: Daemon) {
    d.job.Some? && r.job.Some? && r.job.value.uid == d.job.value.uid && r.job.value.speak == d.job.value.speak
  }

  lemma StopFate(d: Daemon, uid: int)
    requires OwnerInv(d) && d.job.Some?
    ensures StopClient(d, uid).0.job == (if Active(d.apps, uid) then None else d.job)
  {
    hide StopSynthesis, Clear;
    var d1 := ClearClient(d, uid);
    StopEnds(d1.(apps := WithState(d1.apps, uid, Ready), players := P.Stop(d1.players, uid)), uid);
  }

  lemma LeaveFate(d: Daemon, uid: int, env: Env)
    requires Inv(d) && OwnerInv(d) && d.job.Some?
    ensures var r := FinalizeClient(d, uid, env).0; r.job == if Active(d.apps, uid) then None else d.job
  {
    hide Core, Leave, UnloadIfIdle;
    StopFate(d, uid);
    LeaveMoves(d, uid, uid);
    LeaveJob(d, uid);
    IdleFate(Leave(d, uid), env);
  }

  lemma LeaveJob(d: Daemon, uid: int)
    ensures Leave(d, uid).job == StopClient(d, uid).0.job
  {
    hide StopClient, ClearClient;
  }

  /** Whoever has a job is registered, so the engine is not unloaded under it. */
  lemma IdleFate(d: Daemon, env: Env)
    requires OwnerInv(d)
    ensures UnloadIfIdle(d, env).job == d.job
  {
    if ClientCount(d) == 0 {
      assert d.apps == [] && d.job.None?;
    }
  }

  /** With the flag up nothing is started. */
  lemma BusyStarts(d: Daemon, uid: int, adding: bool, env: Env)
    requires d.synthesizing
    ensures StartSynthesis(d, uid, adding, env).0 == d && NextSynthesis(d, env) == d
  {
    hide Hand, FailClient, WithPull, CurrentPlaying;
  }

  lemma AddFate(d: Daemon, uid: int, sd: SpeakData, env: Env)
    requires d.synthesizing
    ensures AddQueue(d, uid, sd, env).0.job == d.job
  {
    hide A.SelectVoice, AddText, StartSynthesis;
    BusyStarts(Enqueue(d, uid, sd), uid, true, env);
  }

  lemma PlayFate(d: Daemon, uid: int, env: Env)
    requires Inv(d) && d.synthesizing
    ensures PlayClient(d, uid, env).0.job == d.job
  {
    hide Core, PlayClient, PlayOn, TakeOver;
    PlayIs(d, uid, env);
    TakeOverQueues(d, uid, uid);
    if MayPlay(d, uid, env) {
      PlayOnFate(TakeOver(d, uid), uid, StateOf(d.apps, uid).value, env);
    }
  }

  lemma PlayOnFate(d: Daemon, uid: int, st: AppState, env: Env)
    requires d.synthesizing
    ensures PlayOn(d, uid, st, env).0.job == d.job
  {
    hide P.Resume, StartSynthesis;
    BusyStarts(d, uid, false, env);
    BusyStarts(d.(players := P.Resume(d.players, uid)), uid, false, env);
  }

  lemma InitFate(d: Daemon, pid: int, uid: int, env: Env)
    ensures InitClient(d, pid, uid, env).0.job == d.job && InitSetting(d, pid, env).0.job == d.job
  {
    hide EnsureEngine, A.Load, Append;
  }

  lemma ResultFate(d: Daemon, ev: ResultEvent, pcm: seq<int>)
    requires d.job.Some?
    ensures Emit(d, ev, pcm).job.None? <==> EndsJob(ev)
    ensures !EndsJob(ev) ==> SameJob(d, Emit(d, ev, pcm))
  {
    hide OnResult;
  }

  lemma ChangeFate(d: Daemon, pid: int, id: string, env: Env)
    requires Inv(d) && OwnerInv(d) && (pid in d.settings ==> d.agent.cur.Some?)
    ensures var r := ChangeEngine(d, pid, id, env).0;
            r.job == if pid in d.settings && !A.IsSameEngine(d.agent, id) then None else d.job
  {
    hide Core, Quieted, A.SetEngine, A.IsSameEngine;
    if pid in d.settings && !A.IsSameEngine(d.agent, id) {
      QuietedMoves(d, env, 0);
    }
  }

  /**
   A job ends exactly by its own FINISH, FAIL or CANCEL, by the stop or the departure of
   any playing or paused client, owner or not, and by an engine change that is carried out;
   any other step leaves the engine at the same text of the same client.
   */
  lemma {:induction false} StepFate(d: Daemon, e: Event, env: Env)
    requires Inv(d) && OwnerInv(d) && Enabled(d, e) && d.job.Some?
    ensures Step(d, e, env).0.job.None? <==> EndsTheJob(d, e)
    ensures !EndsTheJob(d, e) ==> SameJob(d, Step(d, e, env).0)
  {
    hide Core, InitClient, FinalizeClient, AddQueue, PlayClient, StopClient, P.Pause, NextSynthesis, InitSetting, UnloadIfIdle,
      ChangeEngine, Emit, P.OnBegin, P.OnEnd, P.OnError, P.NextPlay, Active, OnResult, WithState;
    match e
    case EvInit(pid, uid) => InitFate(d, pid, uid, env);
    case EvFinalize(uid) => LeaveFate(d, uid, env);
    case EvAdd(uid, sd) => AddFate(d, uid, sd, env);
    case EvPlay(uid) => PlayFate(d, uid, env);
    case EvStop(uid) => StopFate(d, uid);
    case EvTick => BusyStarts(d, 0, false, env);
    case EvResult(ev, pcm) => ResultFate(d, ev, pcm);
    case EvInitSetting(pid) => InitFate(d, pid, 0, env);
    case EvFinalizeSetting(pid) => IdleFate(d.(settings := Without(d.settings, pid)), env);
    case EvChangeEngine(pid, id) => ChangeFate(d, pid, id, env);
    case _ =>
  }

  /** In particular these are the requests by which one client ends the job of another. */
  lemma {:induction false} JobsOfOthers(d: Daemon, e: Event, env: Env, owner: int, other: int)
    requires Inv(d) && OwnerInv(d) && Enabled(d, e) && d.job.Some? && d.job.value.uid == owner && other != owner
    requires e == EvStop(other) || e == EvFinalize(other) || e == EvPause(other) || e == EvPlay(other)
             || (e.EvAdd? && e.uid == other) || (e.EvInit? && e.uid == other)
    ensures Step(d, e, env).0.job.None? <==> (e == EvStop(other) || e == EvFinalize(other)) && Active(d.apps, other)
  {
    hide Core, Step;
    StepFate(d, e, env);
  }
}
