/**
 The synthesis scheduler's promises over every interleaving: one engine job at a
 time, owned by a playing or paused client, and no lost wake-up.
 */
module Scheduling {
  import opened Types
  import opened Tables
  import opened DataSpec
  import opened DaemonSpec
  import opened DaemonInv
  import A = AgentSpec
  import P = PlayerSpec

  // ----- the engine as the history shows it

  predicate IsStart(x: Act) {
    x.Handed? || x.StartFailed?
  }

  /** A text was handed over and its job has not ended. */
  predicate Busy(log: seq<Act>) {
    log != [] && (Last(log).Handed? || (!Last(log).Ended? && Busy(log[..|log| - 1])))
  }

  /** The engine is never asked to start while it is busy. */
  predicate SingleJob(log: seq<Act>) {
    log == [] || (SingleJob(log[..|log| - 1]) && (IsStart(Last(log)) ==> !Busy(log[..|log| - 1])))
  }

  lemma BusyAppend(log: seq<Act>, x: Act)
    ensures Busy(log + [x]) == (x.Handed? || (!x.Ended? && Busy(log)))
    ensures SingleJob(log + [x]) == (SingleJob(log) && (IsStart(x) ==> !Busy(log)))
  {
    assert (log + [x])[..|log|] == log;
  }

  // ----- the invariants

  predicate Active(apps: Apps, uid: int) {
    StateOf(apps, uid) == Some(Playing) || StateOf(apps, uid) == Some(Paused)
  }

  predicate OwnerOk(d: Daemon) {
    d.job.Some? ==> d.agent.init && d.agent.loaded && Active(d.apps, d.job.value.uid)
  }

  /** The flag says exactly whether the engine has a job, and the job's owner is playing or paused. */
  predicate JobInv(d: Daemon) {
    && (d.synthesizing <==> d.job.Some?) && OwnerOk(d)
    && SingleJob(d.log) && (Busy(d.log) <==> d.job.Some?)
  }

  /**
   If the playing client has queued text, the engine is at work or the flag is up
   that makes the timer start it; and while a client is playing a timer is alive.
   */
  ghost predicate WakeInv(d: Daemon) {
    && (forall u | StateOf(d.apps, u) == Some(Playing) && Texts(d.apps, u) != [] :: d.synthesizing || d.next)
    && (forall u | StateOf(d.apps, u) == Some(Playing) :: d.timers > 0)
  }

  /** A step that keeps the single-job promise, and the wake-up promise if that held before. */
  ghost predicate Schedules(d: Daemon, r: Daemon) {
    JobInv(r) && (WakeInv(d) ==> WakeInv(r))
  }

  // ----- steps that do not start anything

  /** No client starts playing, no queue becomes non-empty, no reason to wake up is lost. */
  ghost predicate Calmer(d: Daemon, r: Daemon) {
    && (forall u | StateOf(r.apps, u) == Some(Playing) :: StateOf(d.apps, u) == Some(Playing))
    && (forall u | StateOf(r.apps, u) == Some(Playing) && Texts(r.apps, u) != [] :: Texts(d.apps, u) != [])
    && (d.synthesizing || d.next ==> r.synthesizing || r.next)
    && r.timers == d.timers
  }

  lemma CalmerKeeps(d: Daemon, r: Daemon)
    requires Calmer(d, r)
    ensures WakeInv(d) ==> WakeInv(r)
  {
  }

  lemma CalmerChain(a: Daemon, b: Daemon, c: Daemon)
    requires Calmer(a, b) && Calmer(b, c)
    ensures Calmer(a, c)
  {
  }

  lemma ClearCalm(d: Daemon, uid: int)
    ensures Calmer(d, ClearClient(d, uid)) && (JobInv(d) ==> JobInv(ClearClient(d, uid)))
  {
    ClearEffect(d.apps, uid);
    BusyAppend(d.log, Cleared(uid));
  }

  /** What a result does to the queues, the flags and the engine as the history shows it. */
  lemma ResultEffect(d: Daemon, ev: ResultEvent, uid: int, uttId: int, pcm: seq<int>)
    requires d.agent.init && d.agent.loaded
    ensures var r := OnResult(d, ev, uid, uttId, pcm);
            && (forall u :: Texts(r.apps, u) == Texts(d.apps, u) && Mark(r.apps, u) == Mark(d.apps, u))
            && Busy(r.log) == Busy(d.log) && SingleJob(r.log) == SingleJob(d.log)
            && if EndsJob(ev) && !(ev == Finish && !UttIdValid(d.apps, uid, uttId)) then !r.synthesizing && r.next
               else r.synthesizing == d.synthesizing && r.next == d.next
  {
    hide Busy, SingleJob, AddSound;
    var c := SoundData(uttId, ev, pcm);
    if Has(d.apps, uid) { AddSoundEffect(d.apps, uid, c); }
    BusyAppend(d.log, Refused(uid, uttId));
    BusyAppend(d.log, ChunkIn(uid, c));
  }

  /** A report on the job keeps the promises unless it is a FINISH whose id is refused. */
  lemma EmitJob(d: Daemon, ev: ResultEvent, pcm: seq<int>)
    requires JobInv(d) && d.job.Some?
    ensures var j := d.job.value; var r := Emit(d, ev, pcm);
            JobInv(r) <==> !(ev == Finish && !UttIdValid(d.apps, j.uid, j.speak.uttId))
    ensures JobInv(Emit(d, ev, pcm)) ==> Calmer(d, Emit(d, ev, pcm)) && (EndsJob(ev) ==> Emit(d, ev, pcm).next)
  {
    hide Busy, SingleJob, OnResult, UttIdValid;
    var j := d.job.value;
    var d1 := OnResult(d, ev, j.uid, j.speak.uttId, pcm);
    ResultEffect(d, ev, j.uid, j.speak.uttId, pcm);
    BusyAppend(d1.log, Ended(j.uid, j.speak.uttId, ev));
  }

  lemma StopSynthesisJob(d: Daemon)
    requires (d.synthesizing <==> d.job.Some?) && SingleJob(d.log) && (Busy(d.log) <==> d.job.Some?)
    requires d.job.Some? ==> d.agent.init && d.agent.loaded
    ensures JobInv(StopSynthesis(d)) && Calmer(d, StopSynthesis(d))
    ensures !StopSynthesis(d).synthesizing
  {
    if d.job.Some? {
      var j := d.job.value;
      BusyAppend(d.log, Ended(j.uid, j.speak.uttId, Cancel));
    }
  }

  lemma ReadyCalm(d: Daemon, uid: int)
    ensures Calmer(d, d.(apps := WithState(d.apps, uid, Ready), players := P.Stop(d.players, uid)))
  {
  }

  lemma StopJob(d: Daemon, uid: int)
    requires JobInv(d)
    ensures JobInv(StopClient(d, uid).0) && Calmer(d, StopClient(d, uid).0)
    ensures !d.synthesizing ==> !StopClient(d, uid).0.synthesizing && StopClient(d, uid).0.job.None?
  {
    hide Busy, SingleJob;
    var d1 := ClearClient(d, uid);
    ClearCalm(d, uid);
    if Active(d.apps, uid) {
      ReadyCalm(d1, uid);
      var d2 := d1.(apps := WithState(d1.apps, uid, Ready), players := P.Stop(d1.players, uid));
      StopSynthesisJob(d2);
      var d3 := StopSynthesis(d2);
      CalmerChain(d, d1, d2);
      CalmerChain(d, d2, d3);
      assert StopClient(d, uid).0 == d3;
    } else {
      assert StopClient(d, uid).0 == d1;
    }
  }

  /** Handing a text to an idle engine. */
  lemma HandJob(d: Daemon, uid: int, env: Env)
    requires JobInv(d) && !d.synthesizing && StateOf(d.apps, uid) == Some(Playing) && Texts(d.apps, uid) != []
    ensures var (r, ok) := Hand(d, uid, env);
            && JobInv(r) && (ok <==> r.synthesizing) && r.next == d.next && r.timers == d.timers
            && Texts(r.apps, uid) == Texts(d.apps, uid)[1..]
            && (forall u | u != uid :: Texts(r.apps, u) == Texts(d.apps, u))
            && (ok <==> A.StartCall(d.agent, Texts(d.apps, uid)[0]).Some? && env.accepts)
            && (ok ==> r.job == Some(Job(uid, Texts(d.apps, uid)[0], false)))
  {
    var sd := Texts(d.apps, uid)[0];
    DropTextEffect(d.apps, uid);
    BusyAppend(d.log, StartFailed(uid, sd));
    var call := A.StartCall(d.agent, sd);
    if call.Some? {
      BusyAppend(d.log, Handed(uid, sd, call.value.0, call.value.1));
    }
  }

  /** A failed start ends with the client stopped: nobody it could have kept waiting plays any more. */
  lemma FailJob(d: Daemon, uid: int, uttId: int)
    requires Inv(d) && JobInv(d) && !d.synthesizing && StateOf(d.apps, uid) == Some(Playing)
    ensures var r := FailClient(d, uid, uttId);
            && JobInv(r) && r.timers == d.timers && !r.synthesizing
            && forall u :: StateOf(r.apps, u) != Some(Playing)
  {
    hide Core, Busy, SingleJob, StopClient;
    var e := Log(d, [ErrorSent(uid, uttId)]);
    BusyAppend(d.log, ErrorSent(uid, uttId));
    StopJob(e, uid);
    FailKeeps(d, uid, uttId);
    CurrentPlays(d);
    forall u ensures StateOf(FailClient(d, uid, uttId).apps, u) != Some(Playing) {
      assert StateOf(d.apps, u) == Some(Playing) ==> u == uid;
    }
  }

  /** A start on behalf of the playing client. */
  lemma StartJob(d: Daemon, uid: int, adding: bool, env: Env)
    requires Inv(d) && JobInv(d) && StateOf(d.apps, uid) == Some(Playing)
    ensures var (r, err) := StartSynthesis(d, uid, adding, env);
            && JobInv(r) && r.timers == d.timers
            && (err == NoError ==> r.synthesizing || (Texts(r.apps, uid) == [] && r.apps == d.apps))
            && (err != NoError && adding ==> forall u :: StateOf(r.apps, u) != Some(Playing))
            && (err != NoError && !adding ==> !r.synthesizing && r.next == d.next && Texts(r.apps, uid) == Texts(d.apps, uid)[1..])
            && (err != NoError <==> FailsToStart(d, uid, env))
  {
    hide Core, A.StartCall;
    if !d.synthesizing && Texts(d.apps, uid) != [] {
      HandJob(d, uid, env);
      HandKeeps(d, uid, env);
      var (h, ok) := Hand(d, uid, env);
      if !ok {
        FailJob(h, uid, HeadId(d, uid));
      }
    }
  }

  /** The engine is idle, there is a text, and the engine will not take it. */
  predicate FailsToStart(d: Daemon, uid: int, env: Env) {
    !d.synthesizing && Texts(d.apps, uid) != [] && !(A.StartCall(d.agent, Texts(d.apps, uid)[0]).Some? && env.accepts)
  }

  lemma PullCalm(d: Daemon, uid: int, p: P.Pull)
    requires p == P.Play(d.players, d.apps, uid) || p == P.NextPlay(d.players, d.apps, uid)
    ensures Calmer(d, WithPull(d, uid, p)) && (JobInv(d) ==> JobInv(WithPull(d, uid, p)))
  {
    P.PullsKeepPlayers(d.players, d.apps, uid);
    PullTexts(d.players, d.apps, uid);
    if p.taken.Some? {
      BusyAppend(d.log, Pulled(uid, p.taken.value));
    } else {
      assert d.log + [] == d.log;
    }
  }

  lemma PullTexts(ps: P.Players, apps: Apps, uid: int)
    ensures forall u :: Texts(P.Play(ps, apps, uid).apps, u) == Texts(apps, u)
    ensures forall u :: Texts(P.NextPlay(ps, apps, uid).apps, u) == Texts(apps, u)
  {
    hide P.Play, P.NextPlay;
    P.PullTakes(ps, apps, uid);
    var p, q := P.Play(ps, apps, uid), P.NextPlay(ps, apps, uid);
    if Sounds(apps, uid) != [] {
      DropSoundEffect(apps, uid);
    }
  }

  // ----- the steps, and exactly which of them break a promise

  lemma TickSchedules(d: Daemon, env: Env)
    requires Inv(d) && JobInv(d) && d.timers > 0
    ensures Schedules(d, Tick(d, env))
  {
    hide Core, Busy, SingleJob, NextSynthesis;
    CurrentPlays(d);
    if CurrentPlaying(d.apps) >= 0 && d.next {
      NextSchedules(d, env);
    }
  }

  /** After it the engine is at work or no playing client has text: the flag is not needed any more. */
  lemma NextSchedules(d: Daemon, env: Env)
    requires Inv(d) && JobInv(d)
    ensures var r := NextSynthesis(d, env);
            && JobInv(r) && r.timers == d.timers
            && forall u | StateOf(r.apps, u) == Some(Playing) && Texts(r.apps, u) != [] :: r.synthesizing
  {
    hide Core, Busy, SingleJob, Hand, FailClient, WithPull, P.Play, A.StartCall;
    var uid := CurrentPlaying(d.apps);
    CurrentPlays(d);
    if uid >= 0 && !d.synthesizing {
      var d1 := d;
      if Texts(d.apps, uid) != [] {
        var (h, ok) := Hand(d, uid, env);
        HandJob(d, uid, env);
        HandKeeps(d, uid, env);
        d1 := if ok then h else FailClient(h, uid, HeadId(d, uid));
        if !ok {
          FailJob(h, uid, HeadId(d, uid));
        }
      }
      assert forall u | StateOf(d1.apps, u) == Some(Playing) && Texts(d1.apps, u) != [] :: d1.synthesizing;
      PullJob(d1, uid, P.Play(d1.players, d1.apps, uid));
    }
  }

  lemma PullJob(d: Daemon, uid: int, p: P.Pull)
    requires p == P.Play(d.players, d.apps, uid) && JobInv(d)
    ensures var r := WithPull(d, uid, p);
            && JobInv(r) && r.timers == d.timers && r.synthesizing == d.synthesizing && r.next == d.next
            && forall u :: StateOf(r.apps, u) == StateOf(d.apps, u) && Texts(r.apps, u) == Texts(d.apps, u)
  {
    hide P.Play, Busy, SingleJob;
    PullCalm(d, uid, p);
    P.PullsKeepPlayers(d.players, d.apps, uid);
    PullTexts(d.players, d.apps, uid);
  }

  lemma CurrentPlays(d: Daemon)
    requires Inv(d)
    ensures CurrentPlaying(d.apps) >= 0 ==> StateOf(d.apps, CurrentPlaying(d.apps)) == Some(Playing)
    ensures forall u | StateOf(d.apps, u) == Some(Playing) :: u == CurrentPlaying(d.apps) && u > 0
    ensures forall u :: StateOf(d.apps, u) != Some(Created)
  {
    CurrentIsPlaying(d.apps);
  }

  /** The text stays in the queue of the playing client with nothing left to start it. */
  predicate AddStrands(d: Daemon, uid: int, sd: SpeakData, env: Env) {
    && StateOf(d.apps, uid) == Some(Playing) && A.SelectVoice(d.agent, sd.lang, sd.kind).Some?
    && Unreachable(d, env) && !d.synthesizing && !d.next
  }

  lemma AddSchedules(d: Daemon, uid: int, sd: SpeakData, env: Env)
    requires Inv(d) && JobInv(d)
    ensures JobInv(AddQueue(d, uid, sd, env).0)
    ensures WakeInv(d) ==> (WakeInv(AddQueue(d, uid, sd, env).0) <==> !AddStrands(d, uid, sd, env))
  {
    hide Core, A.SelectVoice, A.StartCall, StartSynthesis;
    if StateOf(d.apps, uid).Some? && A.SelectVoice(d.agent, sd.lang, sd.kind).Some? {
      var d1 := Enqueue(d, uid, sd);
      AddTextEffect(d.apps, uid, sd);
      BusyAppend(d.log, Accepted(uid, sd));
      assert JobInv(d1);
      if StateOf(d.apps, uid) != Some(Playing) {
        assert Calmer(d, d1);
      } else if Unreachable(d, env) {
        assert Texts(d1.apps, uid) != [];
      } else {
        SameStatesKeep(d, d1.apps);
        CurrentPlays(d1);
        StartJob(d1, uid, true, env);
      }
    }
  }

  lemma TakeOverJob(d: Daemon, uid: int)
    requires Inv(d) && JobInv(d) && StateOf(d.apps, uid).Some? && StateOf(d.apps, uid) != Some(Playing)
    ensures JobInv(TakeOver(d, uid))
    ensures TakeOver(d, uid).timers == d.timers && TakeOver(d, uid).next == d.next
    ensures TakeOver(d, uid).synthesizing == d.synthesizing && TakeOver(d, uid).agent == d.agent
    ensures Texts(TakeOver(d, uid).apps, uid) == Texts(d.apps, uid)
  {
    hide Core;
    TakeOverKeeps(d, uid);
  }

  /** The client is left playing although its text did not start, with no timer, or with text and no flag. */
  predicate PlayStrands(d: Daemon, uid: int, env: Env) {
    && MayPlay(d, uid, env) && FailsToStart(d, uid, env)
    && (d.timers == 0 || (|Texts(d.apps, uid)| > 1 && !d.next))
  }

  lemma PlaySchedules(d: Daemon, uid: int, env: Env)
    requires Inv(d) && JobInv(d)
    ensures JobInv(PlayClient(d, uid, env).0)
    ensures WakeInv(d) ==> (WakeInv(PlayClient(d, uid, env).0) <==> !PlayStrands(d, uid, env))
  {
    hide Core, A.StartCall, TakeOver;
    PlayIs(d, uid, env);
    if MayPlay(d, uid, env) {
      var st, t := StateOf(d.apps, uid).value, TakeOver(d, uid);
      TakeOverKeeps(d, uid);
      TakeOverJob(d, uid);
      CurrentPlays(d);
      PlayOnSchedules(t, uid, st, env);
    }
  }

  lemma PlayOnSchedules(t: Daemon, uid: int, st: AppState, env: Env)
    requires Inv(t) && JobInv(t) && StateOf(t.apps, uid) == Some(Playing) && (st == Ready || st == Paused)
    ensures var r := PlayOn(t, uid, st, env).0;
            JobInv(r) && (WakeInv(r) <==> !(FailsToStart(t, uid, env) && (t.timers == 0 || (|Texts(t.apps, uid)| > 1 && !t.next))))
  {
    hide Core, A.StartCall, StartSynthesis;
    var t1 := if st == Paused then t.(players := P.Resume(t.players, uid)) else t;
    P.PauseKeepsPlayers(t.players, uid);
    SamePlayersKeep(t, P.Resume(t.players, uid));
    StartJob(t1, uid, false, env);
    StartKeeps(t1, uid, false, env);
    var r := PlayOn(t, uid, st, env).0;
    CurrentPlays(r);
    assert StateOf(r.apps, uid) == Some(Playing);
  }

  /** The engine's work is over but the flag stays up. */
  predicate Wedges(d: Daemon, e: Event, env: Env) {
    match e
    case EvResult(ev, _) =>
      ev == Finish && d.job.Some? && !UttIdValid(d.apps, d.job.value.uid, d.job.value.speak.uttId)
    case EvChangeEngine(pid, id) =>
      pid in d.settings && !A.IsSameEngine(d.agent, id) && d.job.Some? && !env.cancels
    case _ => false
  }

  /** A client is left playing that nothing will wake. */
  predicate Strands(d: Daemon, e: Event, env: Env) {
    match e
    case EvAdd(uid, sd) => AddStrands(d, uid, sd, env)
    case EvPlay(uid) => PlayStrands(d, uid, env)
    case _ => false
  }

  /** Players, timers that tell clients and messages play no part. */
  lemma KeepsFlags(d: Daemon, r: Daemon)
    requires JobInv(d) && r == d.(players := r.players, interrupts := r.interrupts, outbox := r.outbox)
    ensures Schedules(d, r)
  {
  }

  lemma LeaveSchedules(d: Daemon, uid: int, env: Env)
    requires Inv(d) && JobInv(d)
    ensures Schedules(d, FinalizeClient(d, uid, env).0)
  {
    hide Core, UnloadIfIdle, Leave;
    if Has(d.apps, uid) {
      LeaveJob(d, uid);
      IdleUnloads(Leave(d, uid), env);
    }
  }

  lemma LeaveJob(d: Daemon, uid: int)
    requires Inv(d) && JobInv(d) && Has(d.apps, uid)
    ensures Schedules(d, Leave(d, uid))
  {
    hide Core, Busy, SingleJob, StopClient, ClearClient, WakeInv, Delete;
    var d1 := StopClient(d, uid).0;
    StopJob(d, uid);
    StopKeeps(d, uid);
    CoreHasAgent(d1);
    CalmerKeeps(d, d1);
    var d2 := d1.(players := P.Destroy(d1.players, uid));
    KeepsFlags(d1, d2);
    var d3 := ClearClient(d2, uid);
    ClearCalm(d2, uid);
    CalmerKeeps(d2, d3);
    EraseJob(d3, uid);
  }

  lemma EraseJob(d: Daemon, uid: int)
    requires Unique(d.apps) && JobInv(d) && !Active(d.apps, uid)
    ensures Schedules(d, d.(apps := Delete(d.apps, uid)))
  {
    GetDelete(d.apps, uid);
    var r := Delete(d.apps, uid);
    assert forall u :: StateOf(r, u) == if u == uid then None else StateOf(d.apps, u);
    assert forall u | u != uid :: Texts(r, u) == Texts(d.apps, u);
  }

  /** Without clients there is no job, so unloading the engine interrupts nothing. */
  lemma IdleUnloads(d: Daemon, env: Env)
    requires JobInv(d)
    ensures Schedules(d, UnloadIfIdle(d, env))
  {
    if ClientCount(d) == 0 {
      assert d.apps == [];
      assert d.job.None?;
    }
  }

  lemma EnsureJob(d: Daemon, env: Env)
    requires Inv(d) && JobInv(d)
    ensures Schedules(d, EnsureEngine(d, env))
  {
    if !d.isEngine {
      assert d.apps == [];
      assert d.job.None?;
    }
  }

  /** A loaded engine stays loaded, and a new client is ready with empty queues. */
  lemma RegisterJob(d: Daemon, a: A.Agent, apps: Apps, players: P.Players, settings: seq<int>)
    requires JobInv(d)
    requires d.agent.init && d.agent.loaded ==> a.init && a.loaded
    requires apps == d.apps || exists uid, pid | !Has(d.apps, uid) :: apps == Append(d.apps, uid, NewRec(pid))
    ensures var r := d.(agent := a, apps := apps, players := players, settings := settings); Schedules(d, r)
  {
    forall u ensures StateOf(apps, u) == StateOf(d.apps, u) || StateOf(apps, u) == Some(Ready) {}
    forall u | StateOf(d.apps, u).Some? ensures Texts(apps, u) == Texts(d.apps, u) && StateOf(apps, u) == StateOf(d.apps, u) {}
  }

  lemma InitSchedules(d: Daemon, pid: int, uid: int, env: Env)
    requires Inv(d) && JobInv(d)
    ensures Schedules(d, InitClient(d, pid, uid, env).0)
    ensures Schedules(d, InitSetting(d, pid, env).0)
  {
    hide JobInv, WakeInv, Core;
    EnsureKeeps(d, env);
    EnsureJob(d, env);
    var d1 := EnsureEngine(d, env);
    CoreHasAgent(d1);
    A.LoadKeepsInv(d1.agent, env.lib);
    var a := if ClientCount(d1) == 0 then A.Load(d1.agent, env.lib).0 else d1.agent;
    RegisterJob(d1, a, d1.apps, d1.players, d1.settings);
    RegisterJob(d1, a, d1.apps, d1.players, d1.settings + [pid]);
    if !Has(d1.apps, uid) {
      RegisterJob(d1, a, Append(d1.apps, uid, NewRec(pid)), P.Create(d1.players, uid, env.made).0, d1.settings);
    }
  }

  /** JobInv without the owner's state, which an engine change resets before the job is cancelled. */
  predicate FlagInv(d: Daemon) {
    && (d.synthesizing <==> d.job.Some?) && (d.job.Some? ==> d.agent.init && d.agent.loaded)
    && SingleJob(d.log) && (Busy(d.log) <==> d.job.Some?)
  }

  lemma ResetOneFlags(d: Daemon, uid: int)
    requires FlagInv(d)
    ensures FlagInv(ResetClient(d, uid))
  {
    BusyAppend(d.log, Cleared(uid));
  }

  lemma {:induction false} ResetFlags(d: Daemon, i: nat)
    requires FlagInv(d)
    ensures FlagInv(ResetFrom(d, i))
    decreases |d.apps| - i
  {
    hide FlagInv, ResetClient;
    if i < |d.apps| {
      ResetOneFlags(d, d.apps[i].uid);
      ResetFlags(ResetClient(d, d.apps[i].uid), i + 1);
    }
  }

  lemma UnloadFlags(d: Daemon, cancels: bool)
    requires FlagInv(d) && d.agent.init && d.agent.cur.Some?
    ensures var r := UnloadJob(d, cancels);
            && r.job.None? && SingleJob(r.log) && !Busy(r.log)
            && (r.synthesizing <==> d.job.Some? && !cancels)
  {
    if d.job.Some? {
      var j := d.job.value;
      BusyAppend(d.log, Ended(j.uid, j.speak.uttId, Cancel));
    }
  }

  lemma QuietedSchedules(d: Daemon, env: Env)
    requires Inv(d) && JobInv(d) && d.agent.cur.Some?
    ensures var r := Quieted(d, env);
            && WakeInv(r) && r.job.None? && SingleJob(r.log) && !Busy(r.log)
            && (r.synthesizing <==> d.job.Some? && !env.cancels)
  {
    hide Core, Busy, SingleJob, UnloadJob, ResetFrom, P.AllStop, WakeInv, Active;
    QuietedKeeps(d, env);
    CoreHasAgent(d);
    var d1 := d.(players := P.AllStop(d.players, d.apps));
    ResetFlags(d1, 0);
    UnloadFlags(ResetFrom(d1, 0), env.cancels);
    NobodyPlays(Quieted(d, env));
  }

  lemma NobodyPlays(d: Daemon)
    requires forall u :: StateOf(d.apps, u) != Some(Playing)
    ensures WakeInv(d)
  {
  }

  lemma ChangeSchedules(d: Daemon, pid: int, id: string, env: Env)
    requires Inv(d) && JobInv(d) && (pid in d.settings ==> d.agent.cur.Some?)
    ensures var r := ChangeEngine(d, pid, id, env).0;
            (WakeInv(d) ==> WakeInv(r)) && (JobInv(r) <==> !Wedges(d, EvChangeEngine(pid, id), env))
  {
    hide Core, Quieted, Busy, SingleJob;
    if pid in d.settings && !A.IsSameEngine(d.agent, id) {
      QuietedSchedules(d, env);
    }
  }

  lemma PauseSchedules(d: Daemon, uid: int)
    requires JobInv(d)
    ensures Schedules(d, PauseClient(d, uid).0)
  {
    hide Busy, SingleJob, P.Pause;
    var r := PauseClient(d, uid).0;
    assert r == d.(players := r.players, apps := r.apps);
    assert r.apps == d.apps || (StateOf(d.apps, uid) == Some(Playing) && r.apps == WithState(d.apps, uid, Paused));
  }

  lemma SettingSchedules(d: Daemon, pid: int, env: Env)
    requires JobInv(d)
    ensures Schedules(d, FinalizeSetting(d, pid, env).0)
  {
    hide UnloadIfIdle;
    IdleUnloads(d.(settings := Without(d.settings, pid)), env);
  }

  lemma DefaultsSchedule(d: Daemon, pid: int, v: Voice, speed: int)
    requires JobInv(d)
    ensures Schedules(d, ChangeVoice(d, pid, v).0)
    ensures Schedules(d, ChangeSpeed(d, pid, speed).0)
  {
    hide JobInv, WakeInv;
    RegisterJob(d, A.SetDefaultVoice(d.agent, v).0, d.apps, d.players, d.settings);
    RegisterJob(d, A.SetDefaultSpeed(d.agent, speed).0, d.apps, d.players, d.settings);
  }

  lemma CallbackSchedules(d: Daemon, uid: int, c: SoundData)
    requires JobInv(d)
    ensures Schedules(d, StreamBegins(d, uid, c))
    ensures Schedules(d, StreamEnds(d, uid, c))
    ensures Schedules(d, NextSound(d, uid)) && Schedules(d, StreamFails(d, uid, c))
  {
    NoteLog(d, Began(uid, c), P.OnBegin(d.players, uid, c, StateOf(d.apps, uid)));
    NoteLog(d, Over(uid, c), P.OnEnd(d.players, uid, c));
    NoteLog(d, ErrorSent(uid, c.uttId), (P.OnError(d.players, uid), None));
    PullCalm(d, uid, P.NextPlay(d.players, d.apps, uid));
  }

  lemma NoteLog(d: Daemon, x: Act, r: (P.Players, Option<P.Note>))
    requires JobInv(d) && (x.Began? || x.Over? || x.ErrorSent?)
    ensures Schedules(d, WithNote(d, x, r)) && Schedules(d, Log(d, [x]).(players := r.0))
  {
    BusyAppend(d.log, x);
    match r.1
    case None =>
    case Some(n) =>
      BusyAppend(d.log + [x], Noted(n));
      assert d.log + [x, Noted(n)] == d.log + [x] + [Noted(n)];
  }

  // ----- all steps, all runs

  /**
   Every step keeps the single-job promise exactly when it does not wedge the engine,
   and then, if no wake-up was lost before, loses none exactly when it does not strand a client.
   */
  lemma {:induction false} StepSchedules(d: Daemon, e: Event, env: Env)
    requires Inv(d) && JobInv(d) && Enabled(d, e)
    ensures JobInv(Step(d, e, env).0) <==> !Wedges(d, e, env)
    ensures WakeInv(d) && !Wedges(d, e, env) ==> (WakeInv(Step(d, e, env).0) <==> !Strands(d, e, env))
  {
    hide Core, WakeInv, JobInv, Emit, AddStrands, PlayStrands, P.OnError,
      InitClient, FinalizeClient, AddQueue, PlayClient, StopClient, PauseClient, Tick, InitSetting, FinalizeSetting, ChangeEngine,
      ChangeVoice, ChangeSpeed, StreamBegins, StreamEnds, NextSound;
    var c := SoundData(0, Fail, []);
    match e
    case EvInit(pid, uid) => InitSchedules(d, pid, uid, env);
    case EvFinalize(uid) => LeaveSchedules(d, uid, env);
    case EvAdd(uid, sd) => AddSchedules(d, uid, sd, env);
    case EvPlay(uid) => PlaySchedules(d, uid, env);
    case EvStop(uid) => StopJob(d, uid); CalmerKeeps(d, StopClient(d, uid).0);
    case EvPause(uid) => PauseSchedules(d, uid);
    case EvTick => TickSchedules(d, env);
    case EvResult(ev, pcm) =>
      EmitJob(d, ev, pcm);
      if !Wedges(d, e, env) { CalmerKeeps(d, Emit(d, ev, pcm)); }
    case EvInterrupt(uid) => KeepsFlags(d, SendInterrupt(d, uid));
    case EvInitSetting(pid) => InitSchedules(d, pid, 0, env);
    case EvFinalizeSetting(pid) => SettingSchedules(d, pid, env);
    case EvChangeEngine(pid, id) => ChangeSchedules(d, pid, id, env);
    case EvChangeVoice(pid, v) => DefaultsSchedule(d, pid, v, 0);
    case EvChangeSpeed(pid, s) => DefaultsSchedule(d, pid, Voice("", 0), s);
    case EvBegin(uid, s) => CallbackSchedules(d, uid, s);
    case EvEnd(uid, s) => CallbackSchedules(d, uid, s);
    case EvError(uid, s) => CallbackSchedules(d, uid, s);
    case EvNextSound(uid) => CallbackSchedules(d, uid, c);
  }

  /** No step of the run wedges the engine. */
  predicate NoWedge(d: Daemon, es: seq<(Event, Env)>) {
    es == [] ||
    (NoWedge(d, es[..|es| - 1]) &&
     var d1 := Run(d, es[..|es| - 1]); Enabled(d1, Last(es).0) ==> !Wedges(d1, Last(es).0, Last(es).1))
  }

  /**
   Over every run, of any length and interleaving, in which nothing wedges the engine:
   the flag says exactly whether the engine has a job, and the job's owner is playing or paused.
   */
  lemma {:induction false} RunJobInv(agent: A.Agent, scan: seq<A.EngineInfo>, es: seq<(Event, Env)>)
    requires A.Inv(agent) && agent.init && agent.cur.None? && NoWedge(Boot(agent, scan), es)
    ensures JobInv(Run(Boot(agent, scan), es))
  {
    if es != [] {
      var front := es[..|es| - 1];
      RunJobInv(agent, scan, front);
      ReachableInv(agent, scan, front);
      var d1 := Run(Boot(agent, scan), front);
      var (e, env) := Last(es);
      if Enabled(d1, e) {
        StepSchedules(d1, e, env);
      }
    }
  }

  /** No step of the run wedges the engine or strands a client. */
  predicate Smooth(d: Daemon, es: seq<(Event, Env)>) {
    es == [] ||
    (Smooth(d, es[..|es| - 1]) &&
     var d1 := Run(d, es[..|es| - 1]); var (e, env) := Last(es);
     Enabled(d1, e) ==> !Wedges(d1, e, env) && !Strands(d1, e, env))
  }

  /** Over every run without a wedging or stranding step no wake-up is lost. */
  lemma {:induction false} RunSchedules(agent: A.Agent, scan: seq<A.EngineInfo>, es: seq<(Event, Env)>)
    requires A.Inv(agent) && agent.init && agent.cur.None? && Smooth(Boot(agent, scan), es)
    ensures var d := Run(Boot(agent, scan), es); JobInv(d) && WakeInv(d)
  {
    if es != [] {
      var front := es[..|es| - 1];
      RunSchedules(agent, scan, front);
      ReachableInv(agent, scan, front);
      var d1 := Run(Boot(agent, scan), front);
      var (e, env) := Last(es);
      if Enabled(d1, e) {
        StepSchedules(d1, e, env);
      }
    }
  }

  /**
   What the wake-up promise is for: when a client is playing, has text and the engine
   is idle, then a timer is alive, and if the engine accepts texts the next tick that
   finds the flag up hands it the oldest one.
   */
  lemma NextTickStartsOldestText(d: Daemon, uid: int, env: Env)
    requires Inv(d) && JobInv(d) && WakeInv(d)
    requires StateOf(d.apps, uid) == Some(Playing) && Texts(d.apps, uid) != [] && d.job.None?
    requires A.StartCall(d.agent, Texts(d.apps, uid)[0]).Some? && env.accepts
    ensures Enabled(d, EvTick)
    ensures Step(d, EvTick, env).0.job == Some(Job(uid, Texts(d.apps, uid)[0], false))
    ensures Texts(Step(d, EvTick, env).0.apps, uid) == Texts(d.apps, uid)[1..]
  {
    hide Core, A.StartCall, P.Play, DropText;
    CurrentPlays(d);
    HandJob(d, uid, env);
    var h := Hand(d, uid, env).0;
    PullTexts(h.players, h.apps, uid);
  }
}
