/**
 What a wedge costs: with the flag up and no job behind it the engine is never started
 again, by anybody, until a playing or paused client stops or leaves.
 */
module Wedged {
  import opened Types
  import opened Tables
  import opened DataSpec
  import opened DaemonSpec
  import opened DaemonInv
  import opened Scheduling
  import A = AgentSpec
  import P = PlayerSpec

  /** The flag is up and the engine has no job. */
  predicate Stuck(d: Daemon) {
    d.synthesizing && d.job.None?
  }

  /** A playing or paused client stops or leaves. */
  predicate Unsticks(d: Daemon, e: Event) {
    (e.EvStop? || e.EvFinalize?) && Active(d.apps, e.uid)
  }

  lemma StuckStop(d: Daemon, uid: int)
    requires Stuck(d)
    ensures StopClient(d, uid).0.job.None? && (StopClient(d, uid).0.synthesizing <==> !Active(d.apps, uid))
  {
    hide Clear;
  }

  lemma StuckLeave(d: Daemon, uid: int, pid: int, env: Env)
    requires Stuck(d)
    ensures var r := FinalizeClient(d, uid, env).0; r.job.None? && (r.synthesizing <==> !Active(d.apps, uid))
    ensures Stuck(FinalizeSetting(d, pid, env).0)
  {
    hide StopClient, ClearClient;
    StuckStop(d, uid);
  }

  lemma StuckStart(d: Daemon, uid: int, adding: bool, env: Env)
    requires Stuck(d)
    ensures StartSynthesis(d, uid, adding, env) == (d, NoError) && NextSynthesis(d, env) == d
  {
    hide Hand, FailClient, WithPull, CurrentPlaying;
  }

  lemma StuckAdd(d: Daemon, uid: int, sd: SpeakData, env: Env)
    requires Stuck(d)
    ensures Stuck(AddQueue(d, uid, sd, env).0)
  {
    hide A.SelectVoice, AddText, StartSynthesis;
    StuckStart(Enqueue(d, uid, sd), uid, true, env);
  }

  lemma StuckPlay(d: Daemon, uid: int, env: Env)
    requires Stuck(d)
    ensures Stuck(PlayClient(d, uid, env).0)
  {
    hide PlayOn, PauseCurrent, WithState, MaySetState;
    StuckPause(d, uid);
    if Has(d.apps, uid) {
      var d1 := PauseCurrent(d, uid);
      StuckPlayOn(d1.(apps := WithState(d1.apps, uid, Playing)), uid, StateOf(d.apps, uid).value, env);
    }
  }

  lemma StuckPlayOn(d: Daemon, uid: int, st: AppState, env: Env)
    requires Stuck(d)
    ensures Stuck(PlayOn(d, uid, st, env).0)
  {
    hide P.Resume, StartSynthesis;
    StuckStart(d, uid, false, env);
    StuckStart(d.(players := P.Resume(d.players, uid)), uid, false, env);
  }

  lemma StuckPause(d: Daemon, uid: int)
    requires Stuck(d)
    ensures Stuck(PauseCurrent(d, uid)) && Stuck(PauseClient(d, uid).0)
  {
    hide P.Pause;
  }

  lemma StuckChange(d: Daemon, pid: int, id: string, env: Env)
    requires Stuck(d) && (pid in d.settings ==> d.agent.cur.Some?)
    ensures Stuck(ChangeEngine(d, pid, id, env).0)
  {
    hide ResetFrom, A.SetEngine, A.IsSameEngine, P.AllStop;
  }

  /** Every step keeps the daemon stuck exactly when it is not a stop or a departure of an active client. */
  lemma StepStuck(d: Daemon, e: Event, env: Env)
    requires Stuck(d) && Enabled(d, e)
    ensures Stuck(Step(d, e, env).0) <==> !Unsticks(d, e)
    ensures Step(d, e, env).0.job.None?
  {
    hide InitClient, FinalizeClient, AddQueue, PlayClient, StopClient, PauseClient, FinalizeSetting, ChangeEngine, NextSynthesis,
      EnsureEngine, A.Load, P.OnBegin, P.OnEnd, P.NextPlay, Active;
    match e
    case EvInit(pid, uid) => StuckInit(d, pid, uid, env);
    case EvFinalize(uid) => StuckLeave(d, uid, 0, env);
    case EvAdd(uid, sd) => StuckAdd(d, uid, sd, env);
    case EvPlay(uid) => StuckPlay(d, uid, env);
    case EvStop(uid) => StuckStop(d, uid);
    case EvPause(uid) => StuckPause(d, uid);
    case EvTick => StuckStart(d, 0, false, env);
    case EvFinalizeSetting(pid) => StuckLeave(d, 0, pid, env);
    case EvChangeEngine(pid, id) => StuckChange(d, pid, id, env);
    case _ =>
  }

  lemma StuckInit(d: Daemon, pid: int, uid: int, env: Env)
    requires Stuck(d)
    ensures Stuck(InitClient(d, pid, uid, env).0)
  {
    hide EnsureEngine, A.Load;
  }

  /** No step of the run unsticks the daemon. */
  predicate NobodyUnsticks(d: Daemon, es: seq<(Event, Env)>) {
    es == [] ||
    (NobodyUnsticks(d, es[..|es| - 1]) &&
     var m := Run(d, es[..|es| - 1]); Enabled(m, Last(es).0) ==> !Unsticks(m, Last(es).0))
  }

  /** Over any such run no text reaches the engine, however many are added, played or timed. */
  lemma {:induction false} StaysStuck(d: Daemon, es: seq<(Event, Env)>)
    requires Stuck(d) && NobodyUnsticks(d, es)
    ensures Stuck(Run(d, es))
  {
    hide Stuck, Step;
    if es != [] {
      StaysStuck(d, es[..|es| - 1]);
      var m := Run(d, es[..|es| - 1]);
      var (e, env) := Last(es);
      if Enabled(m, e) {
        StepStuck(m, e, env);
      }
    }
  }

  /** A wedge makes the daemon stuck, whichever of its two causes it has. */
  lemma WedgeSticks(d: Daemon, e: Event, env: Env)
    requires Inv(d) && JobInv(d) && Enabled(d, e) && Wedges(d, e, env)
    ensures Stuck(Step(d, e, env).0)
  {
    hide Core, Busy, SingleJob, Quieted, A.SetEngine, A.IsSameEngine;
    match e
    case EvResult(ev, pcm) => ResultEffect(d, ev, d.job.value.uid, d.job.value.speak.uttId, pcm);
    case EvChangeEngine(pid, id) => QuietedSchedules(d, env);
    case _ =>
  }
}
