/**
 What the daemon asks of the engine, and what it tells clients about texts it could not
 start: for every step exactly which, when, with which voice and at which speed.
 */
module Calls {
  import opened Types
  import opened Tables
  import opened DataSpec
  import opened VoiceSelection
  import opened DaemonSpec
  import opened Subsequences
  import opened DaemonInv
  import opened Scheduling
  import opened Watermark
  import A = AgentSpec
  import P = PlayerSpec

  predicate IsTalk(x: Act) {
    x.Handed? || x.StartFailed? || x.ErrorSent?
  }

  /** The starts, successful or not, and the errors sent. */
  function Talk(log: seq<Act>): seq<Act> {
    if log == [] then [] else Talk(Front(log)) + if IsTalk(Last(log)) then [Last(log)] else []
  }

  lemma TalkAppend(log: seq<Act>, x: Act)
    ensures Talk(log + [x]) == Talk(log) + if IsTalk(x) then [x] else []
  {
    assert Front(log + [x]) == log;
  }

  lemma QuietAppend(log: seq<Act>, x: Act)
    requires !IsTalk(x)
    ensures Talk(log + [x]) == Talk(log)
  {
    TalkAppend(log, x);
    assert Talk(log) + [] == Talk(log);
  }

  // ----- what is due

  /** A loaded engine has a voice for the text, and takes it. */
  predicate Takes(a: A.Agent, sd: SpeakData, env: Env) {
    a.init && a.loaded && Servable(a.lib.voices, a.dflt, sd.lang, sd.kind) && env.accepts
  }

  /** The call made for a text: the voice selected for its language and type, and its speed unless that is 0. */
  predicate CallFor(a: A.Agent, u: int, sd: SpeakData, x: Act) {
    && x.Handed? && x.uid == u && x.speak == sd
    && Select(a.lib.voices, a.dflt, sd.lang, sd.kind) == Some(x.voice)
    && (sd.speed != 0 ==> x.speed == sd.speed) && (sd.speed == 0 ==> x.speed == a.speed)
  }

  /** What a start on behalf of a client comes to; `told`: a failure is reported to it. */
  predicate StartDue(d: Daemon, u: int, told: bool, env: Env, xs: seq<Act>) {
    var q := Texts(d.apps, u);
    if d.synthesizing || q == [] then xs == []
    else if Takes(d.agent, q[0], env) then |xs| == 1 && CallFor(d.agent, u, q[0], xs[0])
    else xs == [StartFailed(u, q[0])] + if told then [ErrorSent(u, q[0].uttId)] else []
  }

  /** Starts and errors of a step. */
  predicate Due(d: Daemon, e: Event, env: Env, xs: seq<Act>) {
    match e
    case EvAdd(u, sd) =>
      if Admits(d, u, sd) && StateOf(d.apps, u) == Some(Playing) && !Unreachable(d, env) then
        StartDue(d.(apps := AddText(d.apps, u, sd)), u, true, env, xs)
      else xs == []
    case EvPlay(u) => if MayPlay(d, u, env) then StartDue(d, u, false, env, xs) else xs == []
    case EvTick => if d.next && CurrentPlaying(d.apps) >= 0 then StartDue(d, CurrentPlaying(d.apps), true, env, xs) else xs == []
    case EvError(u, c) => xs == [ErrorSent(u, c.uttId)]
    case _ => xs == []
  }

  // ----- operations that neither start nor complain

  ghost predicate Quiet(d: Daemon, r: Daemon) {
    Talk(r.log) == Talk(d.log)
  }

  lemma EmitQuiet(d: Daemon, ev: ResultEvent, pcm: seq<int>)
    requires d.job.Some?
    ensures Quiet(d, Emit(d, ev, pcm))
  {
    hide AddSound, UttIdValid, Talk;
    var j := d.job.value;
    var m := OnResult(d, ev, j.uid, j.speak.uttId, pcm);
    QuietAppend(d.log, Refused(j.uid, j.speak.uttId));
    QuietAppend(d.log, ChunkIn(j.uid, SoundData(j.speak.uttId, ev, pcm)));
    QuietAppend(m.log, Ended(j.uid, j.speak.uttId, ev));
  }

  lemma StopQuiet(d: Daemon, uid: int)
    ensures Quiet(d, StopClient(d, uid).0)
  {
    hide Emit, Clear, P.Stop, WithState, Talk;
    QuietAppend(d.log, Cleared(uid));
    var d1 := ClearClient(d, uid);
    var d2 := d1.(apps := WithState(d1.apps, uid, Ready), players := P.Stop(d1.players, uid));
    if d2.job.Some? { EmitQuiet(d2, Cancel, []); }
  }

  lemma UnloadQuiet(d: Daemon, cancels: bool)
    ensures Quiet(d, UnloadJob(d, cancels))
  {
    hide Emit, Talk;
    if d.job.Some? {
      EmitQuiet(d, Cancel, []);
      QuietAppend(d.log, Ended(d.job.value.uid, d.job.value.speak.uttId, Cancel));
    }
  }

  lemma PullQuiet(d: Daemon, uid: int, p: P.Pull)
    ensures Quiet(d, WithPull(d, uid, p))
  {
    hide Talk;
    match p.taken
    case None => assert d.log + [] == d.log;
    case Some(c) => QuietAppend(d.log, Pulled(uid, c));
  }

  lemma LeaveQuiet(d: Daemon, uid: int, pid: int, env: Env)
    ensures Quiet(d, FinalizeClient(d, uid, env).0) && Quiet(d, FinalizeSetting(d, pid, env).0)
  {
    hide StopClient, Clear, Delete, P.Destroy, UnloadJob, Talk;
    var d1 := StopClient(d, uid).0;
    StopQuiet(d, uid);
    QuietAppend(d1.log, Cleared(uid));
    UnloadQuiet(Leave(d, uid), env.cancels);
    UnloadQuiet(d.(settings := Without(d.settings, pid)), env.cancels);
  }

  lemma {:induction false} WalkQuiet(d: Daemon, i: nat)
    ensures Quiet(d, ResetFrom(d, i))
    decreases |d.apps| - i
  {
    hide ResetClient, Talk;
    if i < |d.apps| {
      ResetQuiet(d, d.apps[i].uid);
      WalkQuiet(ResetClient(d, d.apps[i].uid), i + 1);
    }
  }

  lemma ResetQuiet(d: Daemon, uid: int)
    ensures Quiet(d, ResetClient(d, uid))
  {
    hide Clear, WithState, Talk;
    QuietAppend(d.log, Cleared(uid));
  }

  lemma ChangeQuiet(d: Daemon, pid: int, id: string, env: Env)
    requires pid in d.settings ==> d.agent.cur.Some?
    ensures Quiet(d, ChangeEngine(d, pid, id, env).0)
  {
    hide ResetFrom, UnloadJob, P.AllStop, A.SetEngine, A.IsSameEngine, Talk;
    var d1 := d.(players := P.AllStop(d.players, d.apps));
    WalkQuiet(d1, 0);
    UnloadQuiet(ResetFrom(d1, 0), env.cancels);
  }

  lemma NoteQuiet(d: Daemon, x: Act, n: (P.Players, Option<P.Note>))
    requires !IsTalk(x)
    ensures Quiet(d, WithNote(d, x, n))
  {
    hide Talk;
    QuietAppend(d.log, x);
    if n.1.Some? {
      assert d.log + [x, Noted(n.1.value)] == d.log + [x] + [Noted(n.1.value)];
      QuietAppend(d.log + [x], Noted(n.1.value));
    }
  }

  lemma InitQuiet(d: Daemon, pid: int, uid: int, env: Env)
    ensures Quiet(d, InitClient(d, pid, uid, env).0) && Quiet(d, InitSetting(d, pid, env).0)
  {
    hide EnsureEngine, A.Load, Append, P.Create;
  }

  // ----- starts

  lemma StartCallIs(a: A.Agent, sd: SpeakData, u: int)
    ensures A.StartCall(a, sd).Some? <==> a.init && a.loaded && Servable(a.lib.voices, a.dflt, sd.lang, sd.kind)
    ensures A.StartCall(a, sd).Some? ==> var c := A.StartCall(a, sd).value; CallFor(a, u, sd, Handed(u, sd, c.0, c.1))
  {
    hide Select, Servable;
    SelectServes(a.lib.voices, a.dflt, sd.lang, sd.kind);
  }

  /** The act that a start adds. */
  lemma HandTalks(d: Daemon, uid: int, env: Env)
    requires Texts(d.apps, uid) != []
    ensures var (r, ok) := Hand(d, uid, env);
            var sd, n := Texts(d.apps, uid)[0], |Talk(d.log)|;
            && (ok <==> Takes(d.agent, sd, env)) && |Talk(r.log)| == n + 1 && Talk(r.log)[..n] == Talk(d.log)
            && if ok then CallFor(d.agent, uid, sd, Talk(r.log)[n]) else Talk(r.log)[n] == StartFailed(uid, sd)
  {
    hide A.StartCall, DropText, Talk, Servable, Select;
    var sd := Texts(d.apps, uid)[0];
    var r := Hand(d, uid, env).0;
    StartCallIs(d.agent, sd, uid);
    assert r.log == d.log + [Last(r.log)];
    TalkAppend(d.log, Last(r.log));
  }

  lemma FailTalks(d: Daemon, uid: int, uttId: int)
    ensures Talk(FailClient(d, uid, uttId).log) == Talk(d.log) + [ErrorSent(uid, uttId)]
  {
    hide StopClient, Talk;
    TalkAppend(d.log, ErrorSent(uid, uttId));
    StopQuiet(Log(d, [ErrorSent(uid, uttId)]), uid);
  }

  /** A step from `d` to `r` talks as is due. */
  ghost predicate Talks(d: Daemon, r: Daemon, xs: seq<Act>) {
    Talk(r.log) == Talk(d.log) + xs
  }

  lemma StartTalks(d: Daemon, uid: int, adding: bool, env: Env) returns (xs: seq<Act>)
    ensures StartDue(d, uid, adding, env, xs) && Talks(d, StartSynthesis(d, uid, adding, env).0, xs)
  {
    hide Hand, FailClient, Talk, Takes, CallFor;
    if d.synthesizing || Texts(d.apps, uid) == [] {
      xs := [];
    } else {
      var (h, ok) := Hand(d, uid, env);
      HandTalks(d, uid, env);
      FailTalks(h, uid, HeadId(d, uid));
      xs := [Talk(h.log)[|Talk(d.log)|]] + if ok || !adding then [] else [ErrorSent(uid, HeadId(d, uid))];
    }
  }

  lemma NextTalks(d: Daemon, env: Env) returns (xs: seq<Act>)
    requires CurrentPlaying(d.apps) >= 0
    ensures StartDue(d, CurrentPlaying(d.apps), true, env, xs) && Talks(d, NextSynthesis(d, env), xs)
  {
    hide Hand, FailClient, WithPull, P.Play, Talk, Takes, CallFor;
    var uid := CurrentPlaying(d.apps);
    xs := [];
    if !d.synthesizing {
      var d1 := d;
      if Texts(d.apps, uid) != [] {
        var (h, ok) := Hand(d, uid, env);
        HandTalks(d, uid, env);
        FailTalks(h, uid, HeadId(d, uid));
        d1 := if ok then h else FailClient(h, uid, HeadId(d, uid));
        xs := [Talk(h.log)[|Talk(d.log)|]] + if ok then [] else [ErrorSent(uid, HeadId(d, uid))];
      }
      PullQuiet(d1, uid, P.Play(d1.players, d1.apps, uid));
    }
  }

  lemma AddTalks(d: Daemon, uid: int, sd: SpeakData, env: Env) returns (xs: seq<Act>)
    ensures Due(d, EvAdd(uid, sd), env, xs) && Talks(d, AddQueue(d, uid, sd, env).0, xs)
  {
    hide StartSynthesis, A.SelectVoice, AddText, Talk, StartDue;
    xs := [];
    if Admits(d, uid, sd) {
      var d1 := Enqueue(d, uid, sd);
      QuietAppend(d.log, Accepted(uid, sd));
      if StateOf(d.apps, uid) == Some(Playing) && !Unreachable(d, env) {
        xs := StartTalks(d1, uid, true, env);
        SameDue(d1, d.(apps := AddText(d.apps, uid, sd)), uid, true, env, xs);
      }
    }
  }

  /** Only the queue, the flag and the agent matter. */
  lemma SameDue(d: Daemon, m: Daemon, u: int, told: bool, env: Env, xs: seq<Act>)
    requires Texts(m.apps, u) == Texts(d.apps, u) && m.synthesizing == d.synthesizing && m.agent == d.agent
    requires StartDue(d, u, told, env, xs)
    ensures StartDue(m, u, told, env, xs)
  {
    hide Servable, CallFor;
  }

  lemma PlayTalks(d: Daemon, uid: int, env: Env) returns (xs: seq<Act>)
    requires Inv(d)
    ensures Due(d, EvPlay(uid), env, xs) && Talks(d, PlayClient(d, uid, env).0, xs)
  {
    hide Core, PlayClient, PlayOn, TakeOver, Talk, StartDue;
    PlayIs(d, uid, env);
    xs := [];
    if MayPlay(d, uid, env) {
      TakeOverQueues(d, uid, uid);
      TakeOverLog(d, uid);
      NoneCreated(d);
      xs := PlayOnTalks(TakeOver(d, uid), uid, StateOf(d.apps, uid).value, env);
      SameDue(TakeOver(d, uid), d, uid, false, env, xs);
    }
  }

  lemma TakeOverLog(d: Daemon, uid: int)
    ensures TakeOver(d, uid).log == d.log
  {
  }

  lemma PlayOnTalks(t: Daemon, uid: int, st: AppState, env: Env) returns (xs: seq<Act>)
    requires st == Ready || st == Paused
    ensures StartDue(t, uid, false, env, xs) && Talks(t, PlayOn(t, uid, st, env).0, xs)
  {
    hide StartSynthesis, P.Resume, Talk, StartDue;
    var t1 := if st == Paused then t.(players := P.Resume(t.players, uid)) else t;
    xs := StartTalks(t1, uid, false, env);
    SameDue(t1, t, uid, false, env, xs);
  }

  lemma TickTalks(d: Daemon, env: Env) returns (xs: seq<Act>)
    requires d.timers > 0
    ensures Due(d, EvTick, env, xs) && Talks(d, Tick(d, env), xs)
  {
    hide NextSynthesis, Talk, StartDue;
    xs := [];
    if CurrentPlaying(d.apps) >= 0 && d.next {
      xs := NextTalks(d, env);
    }
  }

  // ----- all steps, all runs

  /**
   Every step starts texts and reports failures exactly as is due: at most one text, the
   oldest of the client that plays, in the voice and at the speed it asked for.
   */
  lemma {:induction false} StepTalks(d: Daemon, e: Event, env: Env) returns (xs: seq<Act>)
    requires Inv(d) && Enabled(d, e)
    ensures Due(d, e, env, xs) && Talk(Step(d, e, env).0.log) == Talk(d.log) + xs
  {
    hide Core, Talk, StartDue, InitClient, FinalizeClient, AddQueue, PlayClient, StopClient, P.Pause, Tick, Emit,
      InitSetting, FinalizeSetting, ChangeEngine, P.OnBegin, P.OnEnd, WithNote, P.OnError, P.NextPlay, WithPull;
    xs := [];
    assert Talk(d.log) + [] == Talk(d.log);
    match e
    case EvInit(pid, uid) => InitQuiet(d, pid, uid, env);
    case EvFinalize(uid) => LeaveQuiet(d, uid, 0, env);
    case EvAdd(uid, sd) => xs := AddTalks(d, uid, sd, env);
    case EvPlay(uid) => xs := PlayTalks(d, uid, env);
    case EvStop(uid) => StopQuiet(d, uid);
    case EvPause(uid) =>
    case EvTick => xs := TickTalks(d, env);
    case EvResult(ev, pcm) => EmitQuiet(d, ev, pcm);
    case EvInterrupt(uid) =>
    case EvInitSetting(pid) => InitQuiet(d, pid, 0, env);
    case EvFinalizeSetting(pid) => LeaveQuiet(d, 0, pid, env);
    case EvChangeEngine(pid, id) => ChangeQuiet(d, pid, id, env);
    case EvChangeVoice(pid, v) =>
    case EvChangeSpeed(pid, s) =>
    case EvBegin(uid, c) => NoteQuiet(d, Began(uid, c), P.OnBegin(d.players, uid, c, StateOf(d.apps, uid)));
    case EvEnd(uid, c) => NoteQuiet(d, Over(uid, c), P.OnEnd(d.players, uid, c));
    case EvError(uid, c) =>
      xs := [ErrorSent(uid, c.uttId)];
      TalkAppend(d.log, ErrorSent(uid, c.uttId));
    case EvNextSound(uid) => PullQuiet(d, uid, P.NextPlay(d.players, d.apps, uid));
  }

  /** In every run: whatever the engine was ever asked, it was asked by the agent of that moment as the text wanted. */
  lemma {:induction false} RunAsks(agent: A.Agent, scan: seq<A.EngineInfo>, es: seq<(Event, Env)>, x: Act)
    requires A.Inv(agent) && agent.init && agent.cur.None? && x.Handed?
    requires x in Talk(Run(Boot(agent, scan), es).log)
    ensures exists n: nat :: n < |es| && CallFor(Run(Boot(agent, scan), es[..n]).agent, x.uid, x.speak, x)
  {
    hide Step, CallFor, Talk, Takes, Boot;
    if es == [] {
      BootIsSilent(agent, scan);
    } else {
      var b, last := Boot(agent, scan), |es| - 1;
      var m, r := Run(b, es[..last]), Run(b, es);
      ReachableInv(agent, scan, es[..last]);
      var (e, env) := Last(es);
      if x in Talk(m.log) {
        RunAsks(agent, scan, es[..last], x);
        var n: nat :| n < last && CallFor(Run(b, es[..last][..n]).agent, x.uid, x.speak, x);
        assert es[..last][..n] == es[..n];
      } else if Enabled(m, e) {
        var xs := StepTalks(m, e, env);
        assert x in xs;
        DueIsAsked(m, e, env, xs, x);
        assert last < |es| && CallFor(Run(b, es[..last]).agent, x.uid, x.speak, x);
      }
    }
  }

  lemma BootIsSilent(agent: A.Agent, scan: seq<A.EngineInfo>)
    ensures Talk(Boot(agent, scan).log) == []
  {
  }

  lemma DueIsAsked(d: Daemon, e: Event, env: Env, xs: seq<Act>, x: Act)
    requires Due(d, e, env, xs) && x in xs && x.Handed?
    ensures CallFor(d.agent, x.uid, x.speak, x)
  {
    hide CurrentPlaying, AddText, Takes, Select, Unreachable, Admits;
  }

  /**
   When a playing client has text and the engine is idle, the next tick asks the engine for
   its oldest text, in the voice selected for it and at its speed.
   */
  lemma NextTickAsks(d: Daemon, uid: int, env: Env)
    requires Inv(d) && JobInv(d) && WakeInv(d)
    requires StateOf(d.apps, uid) == Some(Playing) && Texts(d.apps, uid) != [] && d.job.None?
    requires Takes(d.agent, Texts(d.apps, uid)[0], env)
    ensures Enabled(d, EvTick)
    ensures var r, n := Step(d, EvTick, env).0, |Talk(d.log)|;
            && |Talk(r.log)| == n + 1 && Talk(r.log)[..n] == Talk(d.log)
            && CallFor(d.agent, uid, Texts(d.apps, uid)[0], Talk(r.log)[n])
            && r.job == Some(Job(uid, Texts(d.apps, uid)[0], false))
            && Texts(r.apps, uid) == Texts(d.apps, uid)[1..]
  {
    hide Core, Talk, CallFor, A.StartCall, P.Play, DropText, Step, Servable;
    StartCallIs(d.agent, Texts(d.apps, uid)[0], uid);
    NextTickStartsOldestText(d, uid, env);
    CurrentPlays(d);
    var xs := StepTalks(d, EvTick, env);
  }
}
