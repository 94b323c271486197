/**
 The engine is given one job at a time: no text is handed to it, nor offered in vain,
 while it works on another one.  This holds in every run, wedged or stranded ones included.
 */
module EngineJob {
  import opened Types
  import opened Tables
  import opened DataSpec
  import opened DaemonSpec
  import opened DaemonInv
  import opened Scheduling
  import opened Watermark
  import opened UtteranceIds
  import A = AgentSpec
  import P = PlayerSpec

  /** The history has no start during a job, and it says exactly whether there is a job now. */
  predicate OneJob(d: Daemon) {
    SingleJob(d.log) && (Busy(d.log) <==> d.job.Some?)
  }

  /** Acts that neither start nor end a job. */
  predicate Neutral(x: Act) {
    !IsStart(x) && !x.Ended?
  }

  lemma NeutralOne(d: Daemon, x: Act, r: Daemon)
    requires OneJob(d) && Neutral(x) && r.log == d.log + [x] && r.job == d.job
    ensures OneJob(r)
  {
    BusyAppend(d.log, x);
  }

  lemma EndOne(d: Daemon, x: Act, r: Daemon)
    requires SingleJob(d.log) && x.Ended? && r.log == d.log + [x] && r.job.None?
    ensures OneJob(r)
  {
    BusyAppend(d.log, x);
  }

  lemma EmitOne(d: Daemon, ev: ResultEvent, pcm: seq<int>)
    requires OneJob(d) && OwnerInv(d) && d.job.Some?
    ensures OneJob(Emit(d, ev, pcm))
  {
    hide OnResult, Busy, SingleJob;
    var j := d.job.value;
    ResultEffect(d, ev, j.uid, j.speak.uttId, pcm);
    if EndsJob(ev) {
      EndOne(OnResult(d, ev, j.uid, j.speak.uttId, pcm), Ended(j.uid, j.speak.uttId, ev), Emit(d, ev, pcm));
    }
  }

  lemma CancelOne(d: Daemon)
    requires OneJob(d) && d.job.Some?
    ensures OneJob(Emit(d, Cancel, [])) && OneJob(Log(d, [Ended(d.job.value.uid, d.job.value.speak.uttId, Cancel)]).(job := None))
  {
    hide Busy, SingleJob;
    var x := Ended(d.job.value.uid, d.job.value.speak.uttId, Cancel);
    EndOne(d, x, Emit(d, Cancel, []));
    EndOne(d, x, Log(d, [x]).(job := None));
  }

  lemma StopOne(d: Daemon, uid: int)
    requires OneJob(d)
    ensures OneJob(StopClient(d, uid).0)
  {
    hide Busy, SingleJob, Emit, Clear, P.Stop, WithState;
    var d1 := ClearClient(d, uid);
    if StateOf(d.apps, uid).Some? {
      NeutralOne(d, Cleared(uid), d1);
      var d2 := d1.(apps := WithState(d1.apps, uid, Ready), players := P.Stop(d1.players, uid));
      if d2.job.Some? {
        CancelOne(d2);
      }
    }
  }

  lemma FailOne(d: Daemon, uid: int, uttId: int)
    requires OneJob(d)
    ensures OneJob(FailClient(d, uid, uttId))
  {
    hide Busy, SingleJob, StopClient;
    NeutralOne(d, ErrorSent(uid, uttId), Log(d, [ErrorSent(uid, uttId)]));
    StopOne(Log(d, [ErrorSent(uid, uttId)]), uid);
  }

  /** The one operation that starts; it is called with the flag down, when there is no job. */
  lemma HandOne(d: Daemon, uid: int, env: Env)
    requires OneJob(d) && OwnerInv(d) && !d.synthesizing && Texts(d.apps, uid) != []
    ensures OneJob(Hand(d, uid, env).0)
  {
    hide Busy, SingleJob, A.SelectVoice, DropText;
    var sd := Texts(d.apps, uid)[0];
    BusyAppend(d.log, StartFailed(uid, sd));
    var call := A.StartCall(d.agent, sd);
    if call.Some? {
      BusyAppend(d.log, Handed(uid, sd, call.value.0, call.value.1));
    }
  }

  lemma StartOne(d: Daemon, uid: int, adding: bool, env: Env)
    requires OneJob(d) && OwnerInv(d)
    ensures OneJob(StartSynthesis(d, uid, adding, env).0)
  {
    hide OneJob, Hand, FailClient;
    if !d.synthesizing && Texts(d.apps, uid) != [] {
      HandOne(d, uid, env);
      if !Hand(d, uid, env).1 {
        FailOne(Hand(d, uid, env).0, uid, HeadId(d, uid));
      }
    }
  }

  lemma PullOne(d: Daemon, uid: int, p: P.Pull)
    requires OneJob(d)
    ensures OneJob(WithPull(d, uid, p))
  {
    match p.taken
    case None => assert d.log + [] == d.log;
    case Some(c) => NeutralOne(d, Pulled(uid, c), WithPull(d, uid, p));
  }

  lemma TickOne(d: Daemon, env: Env)
    requires OneJob(d) && OwnerInv(d) && d.timers > 0
    ensures OneJob(Tick(d, env))
  {
    hide Busy, SingleJob, NextSynthesis;
    if CurrentPlaying(d.apps) >= 0 && d.next {
      NextOne(d, env);
    }
  }

  lemma NextOne(d: Daemon, env: Env)
    requires OneJob(d) && OwnerInv(d)
    ensures OneJob(NextSynthesis(d, env))
  {
    hide OneJob, Hand, FailClient, WithPull, P.Play;
    var uid := CurrentPlaying(d.apps);
    if uid >= 0 && !d.synthesizing {
      var d1 := d;
      if Texts(d.apps, uid) != [] {
        HandOne(d, uid, env);
        var (h, ok) := Hand(d, uid, env);
        FailOne(h, uid, HeadId(d, uid));
        d1 := if ok then h else FailClient(h, uid, HeadId(d, uid));
      }
      PullOne(d1, uid, P.Play(d1.players, d1.apps, uid));
    }
  }

  lemma AddOne(d: Daemon, uid: int, sd: SpeakData, env: Env)
    requires OneJob(d) && OwnerInv(d)
    ensures OneJob(AddQueue(d, uid, sd, env).0)
  {
    hide Busy, SingleJob, StartSynthesis, A.SelectVoice, AddText;
    NeutralOne(d, Accepted(uid, sd), Enqueue(d, uid, sd));
    StartOne(Enqueue(d, uid, sd), uid, true, env);
  }

  lemma PlayOne(d: Daemon, uid: int, env: Env)
    requires Inv(d) && OneJob(d) && OwnerInv(d)
    ensures OneJob(PlayClient(d, uid, env).0)
  {
    hide Core, Busy, SingleJob, PlayClient, PlayOn, TakeOver;
    PlayIs(d, uid, env);
    if MayPlay(d, uid, env) {
      var t := TakeOver(d, uid);
      TakeOverMoves(d, uid, uid);
      TakeOverLog(d, uid);
      PlayOnOne(t, uid, StateOf(d.apps, uid).value, env);
    }
  }

  lemma TakeOverLog(d: Daemon, uid: int)
    ensures TakeOver(d, uid).log == d.log && TakeOver(d, uid).job == d.job
  {
  }

  lemma PlayOnOne(t: Daemon, uid: int, st: AppState, env: Env)
    requires OneJob(t) && OwnerInv(t)
    ensures OneJob(PlayOn(t, uid, st, env).0)
  {
    hide Busy, SingleJob, StartSynthesis, P.Resume;
    StartOne(if st == Paused then t.(players := P.Resume(t.players, uid)) else t, uid, false, env);
  }

  lemma UnloadOne(d: Daemon, cancels: bool)
    requires OneJob(d)
    ensures OneJob(UnloadJob(d, cancels))
  {
    hide OneJob, Emit;
    if d.job.Some? {
      CancelOne(d);
    }
  }

  lemma LeaveOne(d: Daemon, uid: int, pid: int, env: Env)
    requires OneJob(d)
    ensures OneJob(FinalizeClient(d, uid, env).0) && OneJob(FinalizeSetting(d, pid, env).0)
  {
    hide OneJob, Leave, UnloadIfIdle;
    EraseOne(d, uid);
    IdleOne(Leave(d, uid), env);
    var d1 := d.(settings := Without(d.settings, pid));
    assert OneJob(d1) by { SameOne(d, d1); }
    IdleOne(d1, env);
  }

  lemma SameOne(d: Daemon, r: Daemon)
    requires OneJob(d) && r.log == d.log && r.job == d.job
    ensures OneJob(r)
  {
  }

  lemma EraseOne(d: Daemon, uid: int)
    requires OneJob(d)
    ensures OneJob(Leave(d, uid))
  {
    hide Busy, SingleJob, StopClient, Clear, Delete, P.Destroy;
    StopOne(d, uid);
    var d1 := StopClient(d, uid).0.(players := P.Destroy(StopClient(d, uid).0.players, uid));
    if Has(d1.apps, uid) {
      NeutralOne(d1, Cleared(uid), ClearClient(d1, uid));
    }
  }

  lemma IdleOne(d: Daemon, env: Env)
    requires OneJob(d)
    ensures OneJob(UnloadIfIdle(d, env))
  {
    hide Busy, SingleJob, UnloadJob;
    UnloadOne(d, env.cancels);
  }

  lemma InitOne(d: Daemon, pid: int, uid: int, env: Env)
    requires OneJob(d)
    ensures OneJob(InitClient(d, pid, uid, env).0) && OneJob(InitSetting(d, pid, env).0)
  {
    hide OneJob, EnsureEngine, A.Load, Append;
    SameOne(d, InitClient(d, pid, uid, env).0);
    SameOne(d, InitSetting(d, pid, env).0);
  }

  lemma {:induction false} WalkOne(d: Daemon, i: nat)
    requires OneJob(d)
    ensures OneJob(ResetFrom(d, i))
    decreases |d.apps| - i
  {
    hide OneJob, ResetClient;
    if i < |d.apps| {
      ResetOne(d, d.apps[i].uid);
      WalkOne(ResetClient(d, d.apps[i].uid), i + 1);
    }
  }

  lemma ResetOne(d: Daemon, uid: int)
    requires OneJob(d)
    ensures OneJob(ResetClient(d, uid))
  {
    hide Busy, SingleJob, Clear, WithState;
    NeutralOne(d, Cleared(uid), Log(d, [Cleared(uid)]));
  }

  lemma ChangeOne(d: Daemon, pid: int, id: string, env: Env)
    requires OneJob(d) && (pid in d.settings ==> d.agent.cur.Some?)
    ensures OneJob(ChangeEngine(d, pid, id, env).0)
  {
    hide Busy, SingleJob, ResetFrom, UnloadJob, P.AllStop, A.SetEngine, A.IsSameEngine;
    var d1 := d.(players := P.AllStop(d.players, d.apps));
    WalkOne(d1, 0);
    UnloadOne(ResetFrom(d1, 0), env.cancels);
  }

  lemma StreamOne(d: Daemon, uid: int, c: SoundData)
    requires OneJob(d)
    ensures OneJob(StreamBegins(d, uid, c)) && OneJob(StreamEnds(d, uid, c)) && OneJob(StreamFails(d, uid, c))
  {
    hide Busy, SingleJob, P.OnBegin, P.OnEnd, P.OnError;
    NoteOne(d, Began(uid, c), P.OnBegin(d.players, uid, c, StateOf(d.apps, uid)));
    NoteOne(d, Over(uid, c), P.OnEnd(d.players, uid, c));
    NeutralOne(d, ErrorSent(uid, c.uttId), StreamFails(d, uid, c));
  }

  lemma NoteOne(d: Daemon, x: Act, r: (P.Players, Option<P.Note>))
    requires OneJob(d) && Neutral(x)
    ensures OneJob(WithNote(d, x, r))
  {
    var d1 := Log(d, [x]);
    NeutralOne(d, x, d1);
    match r.1
    case None =>
    case Some(n) =>
      assert d.log + [x, Noted(n)] == d1.log + [Noted(n)];
      NeutralOne(d1, Noted(n), WithNote(d, x, r));
  }

  // ----- all steps, all runs

  lemma StepOne(d: Daemon, e: Event, env: Env)
    requires Inv(d) && OneJob(d) && OwnerInv(d) && Enabled(d, e)
    ensures OneJob(Step(d, e, env).0)
  {
    hide Core, Busy, SingleJob, FinalizeClient, AddQueue, PlayClient, StopClient, P.Pause, Tick, FinalizeSetting,
      ChangeEngine, StreamBegins, StreamEnds, StreamFails, P.NextPlay, WithPull, Emit, InitClient, InitSetting;
    match e
    case EvInit(pid, uid) => InitOne(d, pid, uid, env);
    case EvInitSetting(pid) => InitOne(d, pid, 0, env);
    case EvFinalize(uid) => LeaveOne(d, uid, 0, env);
    case EvAdd(uid, sd) => AddOne(d, uid, sd, env);
    case EvPlay(uid) => PlayOne(d, uid, env);
    case EvStop(uid) => StopOne(d, uid);
    case EvTick => TickOne(d, env);
    case EvResult(ev, pcm) => EmitOne(d, ev, pcm);
    case EvFinalizeSetting(pid) => LeaveOne(d, 0, pid, env);
    case EvChangeEngine(pid, id) => ChangeOne(d, pid, id, env);
    case EvBegin(uid, c) => StreamOne(d, uid, c);
    case EvEnd(uid, c) => StreamOne(d, uid, c);
    case EvError(uid, c) => StreamOne(d, uid, c);
    case EvNextSound(uid) => PullOne(d, uid, P.NextPlay(d.players, d.apps, uid));
    case _ =>
  }

  /**
   In every run, without any hypothesis on it: a start is never attempted while a job is
   outstanding, and the history tells whether one is.
   */
  lemma {:induction false} RunSingleJob(agent: A.Agent, scan: seq<A.EngineInfo>, es: seq<(Event, Env)>)
    requires A.Inv(agent) && agent.init && agent.cur.None?
    ensures var d := Run(Boot(agent, scan), es); SingleJob(d.log) && (Busy(d.log) <==> d.job.Some?)
  {
    hide Step;
    if es != [] {
      var front := es[..|es| - 1];
      RunSingleJob(agent, scan, front);
      ReachableInv(agent, scan, front);
      RunOwner(agent, scan, front);
      var d1 := Run(Boot(agent, scan), front);
      var (e, env) := Last(es);
      if Enabled(d1, e) {
        StepOne(d1, e, env);
      }
    }
  }
}
