/**
 The watermark exactly: what every step makes of one client's mark, and so which steps end
 the refusal of stale work and which let a live text be refused.
 */
module Marks {
  import opened Types
  import opened Tables
  import opened DataSpec
  import opened DaemonSpec
  import opened DaemonInv
  import opened Scheduling
  import opened Watermark
  import opened UtteranceIds
  import A = AgentSpec
  import P = PlayerSpec

  // ----- what a step does to the mark

  /** The add is accepted for a playing client, and the start it causes fails. */
  predicate AddFails(d: Daemon, u: int, sd: SpeakData, env: Env) {
    && Admits(d, u, sd) && StateOf(d.apps, u) == Some(Playing) && !Unreachable(d, env)
    && FailsToStart(Enqueue(d, u, sd), u, env)
  }

  /** The tick takes the client's oldest text, and the start fails. */
  predicate TickFails(d: Daemon, u: int, env: Env) {
    d.next && StateOf(d.apps, u) == Some(Playing) && FailsToStart(d, u, env)
  }

  /** The waiting texts that the step throws away by clearing the client's queue. */
  function Cut(d: Daemon, e: Event, env: Env, u: int): seq<SpeakData> {
    var q := Texts(d.apps, u);
    match e
    case EvStop(uid) => if uid == u then q else []
    case EvAdd(uid, sd) => if uid == u && AddFails(d, u, sd, env) then (q + [sd])[1..] else []
    case EvTick => if TickFails(d, u, env) then q[1..] else []
    case EvChangeEngine(pid, id) => if pid in d.settings && !A.IsSameEngine(d.agent, id) then q else []
    case _ => []
  }

  /** The client's own text with id 1 enters its queue. */
  predicate Wraps(d: Daemon, e: Event, u: int) {
    e.EvAdd? && e.uid == u && e.speak.uttId == 1 && Admits(d, u, e.speak)
  }

  /** The mark that clearing `cut` leaves. */
  function MarkOver(cut: seq<SpeakData>, mark: int): int {
    if cut != [] && Last(cut).uttId != -1 then Last(cut).uttId else mark
  }

  function MarkAfter(d: Daemon, e: Event, env: Env, u: int): int {
    MarkOver(Cut(d, e, env, u), if Wraps(d, e, u) then 0 else Mark(d.apps, u))
  }

  lemma StopMark(d: Daemon, uid: int, u: int)
    ensures var r := StopClient(d, uid).0;
            MarkOf(r.apps, u) == if u == uid && StateOf(d.apps, u).Some? then Some(MarkOver(Texts(d.apps, u), Mark(d.apps, u)))
                                 else MarkOf(d.apps, u)
  {
    hide StopSynthesis, Clear, P.Stop;
    var d1 := ClearClient(d, uid);
    ClearEffect(d.apps, uid);
    SynthesisMark(d1.(apps := WithState(d1.apps, uid, Ready), players := P.Stop(d1.players, uid)), u);
  }

  lemma SynthesisMark(d: Daemon, u: int)
    ensures MarkOf(StopSynthesis(d).apps, u) == MarkOf(d.apps, u)
  {
  }

  lemma HandMark(d: Daemon, uid: int, env: Env, u: int)
    requires Texts(d.apps, uid) != []
    ensures var (r, ok) := Hand(d, uid, env);
            && MarkOf(r.apps, u) == MarkOf(d.apps, u)
            && Texts(r.apps, u) == (if u == uid then Texts(d.apps, u)[1..] else Texts(d.apps, u))
            && (ok <==> A.StartCall(d.agent, Texts(d.apps, uid)[0]).Some? && env.accepts)
  {
    hide A.StartCall, DropText;
    DropTextEffect(d.apps, uid);
  }

  lemma FailMark(d: Daemon, uid: int, uttId: int, u: int)
    ensures var r := FailClient(d, uid, uttId);
            MarkOf(r.apps, u) == if u == uid && StateOf(d.apps, u).Some? then Some(MarkOver(Texts(d.apps, u), Mark(d.apps, u)))
                                 else MarkOf(d.apps, u)
  {
    hide StopClient, MarkOver;
    StopMark(Log(d, [ErrorSent(uid, uttId)]), uid, u);
  }

  lemma StartMark(d: Daemon, uid: int, adding: bool, env: Env, u: int)
    requires StateOf(d.apps, uid).Some?
    ensures var r := StartSynthesis(d, uid, adding, env).0;
            MarkOf(r.apps, u) == if u == uid && adding && FailsToStart(d, uid, env)
                                 then Some(MarkOver(Texts(d.apps, u)[1..], Mark(d.apps, u))) else MarkOf(d.apps, u)
  {
    hide Hand, FailClient, MarkOver, A.StartCall;
    if !d.synthesizing && Texts(d.apps, uid) != [] {
      HandMark(d, uid, env, u);
      FailMark(Hand(d, uid, env).0, uid, HeadId(d, uid), u);
    }
  }

  lemma PullMark(d: Daemon, uid: int, p: P.Pull, u: int)
    requires p == P.Play(d.players, d.apps, uid) || p == P.NextPlay(d.players, d.apps, uid)
    ensures MarkOf(WithPull(d, uid, p).apps, u) == MarkOf(d.apps, u)
  {
    hide P.Play, P.NextPlay, DropSound;
    P.PullTakes(d.players, d.apps, uid);
    if p.taken.Some? { DropSoundEffect(d.apps, uid); }
  }

  lemma AddMark(d: Daemon, uid: int, sd: SpeakData, env: Env, u: int)
    requires StateOf(d.apps, u).Some?
    ensures MarkOf(AddQueue(d, uid, sd, env).0.apps, u) == Some(MarkAfter(d, EvAdd(uid, sd), env, u))
  {
    hide StartSynthesis, A.SelectVoice, AddText, FailsToStart;
    if Admits(d, uid, sd) {
      AddTextEffect(d.apps, uid, sd);
      StartMark(Enqueue(d, uid, sd), uid, true, env, u);
    }
  }

  lemma TickMark(d: Daemon, env: Env, u: int)
    requires Inv(d) && d.timers > 0 && StateOf(d.apps, u).Some?
    ensures MarkOf(Tick(d, env).apps, u) == Some(MarkAfter(d, EvTick, env, u))
  {
    hide Core, NextSynthesis, FailsToStart;
    CurrentPlays(d);
    if CurrentPlaying(d.apps) >= 0 && d.next { NextMark(d, env, u); }
  }

  lemma NextMark(d: Daemon, env: Env, u: int)
    requires Inv(d) && CurrentPlaying(d.apps) >= 0 && d.next
    ensures MarkOf(NextSynthesis(d, env).apps, u) ==
            if TickFails(d, u, env) then Some(MarkOver(Texts(d.apps, u)[1..], Mark(d.apps, u))) else MarkOf(d.apps, u)
  {
    hide Core, Hand, FailClient, WithPull, P.Play, MarkOver, A.StartCall;
    var uid := CurrentPlaying(d.apps);
    CurrentPlays(d);
    if !d.synthesizing {
      var d1 := d;
      if Texts(d.apps, uid) != [] {
        var (h, ok) := Hand(d, uid, env);
        HandMark(d, uid, env, u);
        FailMark(h, uid, HeadId(d, uid), u);
        d1 := if ok then h else FailClient(h, uid, HeadId(d, uid));
      }
      PullMark(d1, uid, P.Play(d1.players, d1.apps, uid), u);
    }
  }

  lemma PlayMark(d: Daemon, uid: int, env: Env, u: int)
    requires Inv(d)
    ensures MarkOf(PlayClient(d, uid, env).0.apps, u) == MarkOf(d.apps, u)
  {
    hide Core, PlayClient, PlayOn, TakeOver, MarkOf;
    PlayIs(d, uid, env);
    if MayPlay(d, uid, env) {
      TakeOverMark(d, uid, u);
      PlayOnMark(TakeOver(d, uid), uid, StateOf(d.apps, uid).value, env, u);
    }
  }

  lemma TakeOverMark(d: Daemon, uid: int, u: int)
    requires Inv(d) && StateOf(d.apps, uid).Some? && StateOf(d.apps, uid) != Some(Playing)
    ensures var t := TakeOver(d, uid); MarkOf(t.apps, u) == MarkOf(d.apps, u) && StateOf(t.apps, uid) == Some(Playing)
  {
    hide Core, TakeOver;
    TakeOverKeeps(d, uid);
    TakeOverQueues(d, uid, u);
  }

  lemma PlayOnMark(t: Daemon, uid: int, st: AppState, env: Env, u: int)
    requires StateOf(t.apps, uid).Some?
    ensures MarkOf(PlayOn(t, uid, st, env).0.apps, u) == MarkOf(t.apps, u)
  {
    hide StartSynthesis, P.Resume, MarkOf;
    StartMark(t, uid, false, env, u);
    StartMark(t.(players := P.Resume(t.players, uid)), uid, false, env, u);
  }

  lemma LeaveMark(d: Daemon, uid: int, env: Env, u: int)
    requires Inv(d)
    ensures var r := FinalizeClient(d, uid, env).0; MarkOf(r.apps, u) == if u == uid then None else MarkOf(d.apps, u)
  {
    hide Core, StopClient, Clear, Delete, UnloadJob;
    if Has(d.apps, uid) {
      var d1 := StopClient(d, uid).0;
      StopMark(d, uid, u);
      StopKeeps(d, uid);
      CoreHasAgent(d1);
      var d2 := d1.(players := P.Destroy(d1.players, uid));
      StopMark(d, uid, uid);
      assert Has(d2.apps, uid);
      EraseEffect(d2.apps, uid);
      IdleMark(Leave(d, uid), env, u);
    }
  }

  lemma IdleMark(d: Daemon, env: Env, u: int)
    ensures MarkOf(UnloadIfIdle(d, env).apps, u) == MarkOf(d.apps, u)
  {
  }

  lemma InitMark(d: Daemon, pid: int, uid: int, env: Env, u: int)
    requires StateOf(d.apps, u).Some?
    ensures MarkOf(InitClient(d, pid, uid, env).0.apps, u) == MarkOf(d.apps, u)
    ensures MarkOf(InitSetting(d, pid, env).0.apps, u) == MarkOf(d.apps, u)
  {
    hide EnsureEngine, A.Load;
  }

  lemma ChangeMark(d: Daemon, pid: int, id: string, env: Env, u: int)
    requires Inv(d) && StateOf(d.apps, u).Some? && (pid in d.settings ==> d.agent.cur.Some?)
    ensures MarkOf(ChangeEngine(d, pid, id, env).0.apps, u) == Some(MarkAfter(d, EvChangeEngine(pid, id), env, u))
  {
    hide Core, P.AllStop, ResetFrom, UnloadJob, A.SetEngine, A.IsSameEngine;
    if pid in d.settings && !A.IsSameEngine(d.agent, id) {
      var d1 := d.(players := P.AllStop(d.players, d.apps));
      AllStopKeeps(d);
      WalkEmpties(d1, 0, u);
      QuietedKeeps(d, env);
      CancelMark(ResetFrom(d1, 0), env.cancels, u);
    }
  }

  lemma CancelMark(d: Daemon, cancels: bool, u: int)
    ensures Mark(UnloadJob(d, cancels).apps, u) == Mark(d.apps, u)
  {
  }

  lemma PauseMark(d: Daemon, uid: int, u: int)
    ensures MarkOf(PauseClient(d, uid).0.apps, u) == MarkOf(d.apps, u)
  {
    hide P.Pause;
  }

  lemma ResultMark(d: Daemon, ev: ResultEvent, pcm: seq<int>, u: int)
    requires d.job.Some?
    ensures MarkOf(Emit(d, ev, pcm).apps, u) == MarkOf(d.apps, u)
  {
    hide UttIdValid;
  }

  lemma MarkIs(apps: Apps, u: int)
    requires StateOf(apps, u).Some?
    ensures MarkOf(apps, u) == Some(Mark(apps, u))
  {
  }

  lemma DefaultsMark(d: Daemon, pid: int, v: Voice, speed: int, u: int)
    ensures MarkOf(ChangeVoice(d, pid, v).0.apps, u) == MarkOf(d.apps, u)
    ensures MarkOf(ChangeSpeed(d, pid, speed).0.apps, u) == MarkOf(d.apps, u)
  {
  }

  lemma StreamMark(d: Daemon, uid: int, c: SoundData, u: int)
    ensures MarkOf(StreamBegins(d, uid, c).apps, u) == MarkOf(d.apps, u)
    ensures MarkOf(StreamEnds(d, uid, c).apps, u) == MarkOf(d.apps, u)
    ensures MarkOf(StreamFails(d, uid, c).apps, u) == MarkOf(d.apps, u)
  {
  }

  /** A registered client's mark after any step; it is gone exactly when the client leaves. */
  lemma {:induction false} StepMark(d: Daemon, e: Event, env: Env, u: int)
    requires Inv(d) && Enabled(d, e) && StateOf(d.apps, u).Some?
    ensures MarkOf(Step(d, e, env).0.apps, u) == if e == EvFinalize(u) then None else Some(MarkAfter(d, e, env, u))
  {
    hide Core, InitClient, FinalizeClient, AddQueue, PlayClient, StopClient, PauseClient, Tick, InitSetting, UnloadIfIdle,
      ChangeEngine, Emit, StreamBegins, StreamEnds, StreamFails, P.NextPlay, WithPull, AddFails, TickFails, ChangeVoice, ChangeSpeed,
      MarkOf, Mark, StateOf, Texts, Admits;
    MarkIs(d.apps, u);
    match e
    case EvInit(pid, uid) => InitMark(d, pid, uid, env, u);
    case EvFinalize(uid) => LeaveMark(d, uid, env, u);
    case EvAdd(uid, sd) => AddMark(d, uid, sd, env, u);
    case EvPlay(uid) => PlayMark(d, uid, env, u);
    case EvStop(uid) => StopMark(d, uid, u);
    case EvPause(uid) => PauseMark(d, uid, u);
    case EvTick => TickMark(d, env, u);
    case EvResult(ev, pcm) => ResultMark(d, ev, pcm, u);
    case EvInitSetting(pid) => InitMark(d, pid, 0, env, u);
    case EvFinalizeSetting(pid) => IdleMark(d.(settings := Without(d.settings, pid)), env, u);
    case EvChangeEngine(pid, id) => ChangeMark(d, pid, id, env, u);
    case EvChangeVoice(pid, v) => DefaultsMark(d, pid, v, 0, u);
    case EvChangeSpeed(pid, s) => DefaultsMark(d, pid, Voice("", 0), s, u);
    case EvBegin(uid, c) => StreamMark(d, uid, c, u);
    case EvEnd(uid, c) => StreamMark(d, uid, c, u);
    case EvError(uid, c) => StreamMark(d, uid, c, u);
    case EvNextSound(uid) => PullMark(d, uid, P.NextPlay(d.players, d.apps, uid), u);
    case _ =>
  }

  // ----- the refusal of stale work

  /** The daemon refuses everything the client made with this id. */
  predicate Refuses(d: Daemon, u: int, id: int) {
    StateOf(d.apps, u).Some? && id < Mark(d.apps, u)
  }

  lemma RefusesIs(d: Daemon, u: int, id: int, ev: ResultEvent, pcm: seq<int>)
    requires IsSound(ev)
    ensures Refuses(d, u, id) <==> !UttIdValid(d.apps, u, id)
    ensures Refuses(d, u, id) ==> OnResult(d, ev, u, id, pcm) == Log(d, [Refused(u, id)])
  {
  }

  /**
   The steps that end the refusal: the client leaves; its queue is cleared and the last
   text thrown away has an id no higher; or its id 1 is accepted and not cleared again.
   */
  predicate Revives(d: Daemon, e: Event, env: Env, u: int, id: int) {
    var cut := Cut(d, e, env, u);
    || e == EvFinalize(u)
    || (if cut != [] && Last(cut).uttId != -1 then Last(cut).uttId <= id else Wraps(d, e, u) && 0 <= id)
  }

  lemma StepRefuses(d: Daemon, e: Event, env: Env, u: int, id: int)
    requires Inv(d) && Enabled(d, e) && Refuses(d, u, id)
    ensures Refuses(Step(d, e, env).0, u, id) <==> !Revives(d, e, env, u, id)
  {
    hide Core, Step, Cut, Wraps;
    StepMark(d, e, env, u);
  }

  /** Refused after each event of the run. */
  predicate RefusedThroughout(d: Daemon, es: seq<(Event, Env)>, u: int, id: int) {
    Refuses(Run(d, es), u, id) && (es == [] || RefusedThroughout(d, es[..|es| - 1], u, id))
  }

  /** No event of the run ends the refusal. */
  predicate Unrevived(d: Daemon, es: seq<(Event, Env)>, u: int, id: int) {
    es == [] ||
    (Unrevived(d, es[..|es| - 1], u, id) &&
     var m := Run(d, es[..|es| - 1]); Enabled(m, Last(es).0) ==> !Revives(m, Last(es).0, Last(es).1, u, id))
  }

  /** Over any run stale work is refused from its beginning to its end exactly when no step revives it. */
  lemma {:induction false} RunRefuses(d: Daemon, es: seq<(Event, Env)>, u: int, id: int)
    requires Inv(d) && Refuses(d, u, id)
    ensures Inv(Run(d, es)) && (RefusedThroughout(d, es, u, id) <==> Unrevived(d, es, u, id))
  {
    hide Core, Step, Refuses, Revives;
    if es != [] {
      var front := es[..|es| - 1];
      RunRefuses(d, front, u, id);
      var m := Run(d, front);
      var (e, env) := Last(es);
      if Enabled(m, e) {
        StepKeepsInv(m, e, env);
        if Unrevived(d, front, u, id) {
          RefusedAtEnd(d, front, u, id);
          StepRefuses(m, e, env, u, id);
        }
      }
    }
  }

  lemma RefusedAtEnd(d: Daemon, es: seq<(Event, Env)>, u: int, id: int)
    requires RefusedThroughout(d, es, u, id)
    ensures Refuses(Run(d, es), u, id)
  {
  }

  // ----- the acceptance of live work

  /** The mark is above the text's id already; or the text lifts the mark, and something alive is below 0. */
  predicate Overtaken(a: Row, sd: SpeakData) {
    if sd.uttId == 1 then (exists x | x in a.texts :: x.uttId < 0) || (a.job.Some? && a.job.value.uttId < 0)
    else sd.uttId < a.mark.GetOr(0)
  }

  lemma PushedPasses(a: Row, sd: SpeakData)
    requires LivePasses(a)
    ensures LivePasses(Pushed(a, sd)) <==> !Overtaken(a, sd)
  {
    var b := Pushed(a, sd);
    assert sd in b.texts;
    assert forall x | x in a.texts :: x in b.texts;
  }

  lemma MovedPasses(a: Row, b: Row)
    requires LivePasses(a) && Leads(a, b)
    ensures LivePasses(b)
  {
    forall x | x in b.texts ensures Passes(b, x) {
      assert x in a.texts && Passes(a, x);
    }
  }

  /** Everything alive stays so, or all of it is cleared. */
  lemma AddedPasses(d: Daemon, u: int, sd: SpeakData, env: Env)
    requires Inv(d) && OwnerInv(d) && Admits(d, u, sd)
    ensures var r := RowOf(AddQueue(d, u, sd, env).0, u);
            LivePasses(r) <==> AddFails(d, u, sd, env) || LivePasses(Pushed(RowOf(d, u), sd))
  {
    hide Core, StartSynthesis, A.SelectVoice, AddText, FailsToStart, LivePasses;
    assert RowOf(Enqueue(d, u, sd), u) == Pushed(RowOf(d, u), sd) by { AddTextEffect(d.apps, u, sd); }
    AddTextEffect(d.apps, u, sd);
    if StateOf(d.apps, u) == Some(Playing) {
      StartPasses(Enqueue(d, u, sd), u, env);
    }
  }

  lemma StartPasses(d: Daemon, u: int, env: Env)
    requires OwnerInv(d) && StateOf(d.apps, u) == Some(Playing)
    ensures var r := RowOf(StartSynthesis(d, u, true, env).0, u);
            LivePasses(r) <==> FailsToStart(d, u, env) || LivePasses(RowOf(d, u))
  {
    hide A.StartCall, FailClient, DropText;
    if !d.synthesizing && Texts(d.apps, u) != [] {
      DropTextEffect(d.apps, u);
      var (h, ok) := Hand(d, u, env);
      assert ok <==> !FailsToStart(d, u, env);
      if ok {
        var q := Texts(d.apps, u);
        assert RowOf(h, u) == Row(q[1..], MarkOf(d.apps, u), Some(q[0]));
        HeadTakenPasses(RowOf(d, u));
      } else {
        FailEmpties(h, u, HeadId(d, u));
      }
    }
  }

  lemma HeadTakenPasses(a: Row)
    requires a.texts != [] && a.job == None
    ensures LivePasses(Row(a.texts[1..], a.mark, Some(a.texts[0]))) <==> LivePasses(a)
  {
    var b := Row(a.texts[1..], a.mark, Some(a.texts[0]));
    assert forall x | x in a.texts :: x == b.job.value || x in b.texts;
    assert forall x | x in b.texts :: x in a.texts;
    assert forall x :: Passes(a, x) <==> Passes(b, x);
    if LivePasses(b) {
      forall x | x in a.texts ensures Passes(a, x) {}
    }
    if LivePasses(a) {
      assert Passes(a, a.texts[0]);
      forall x | x in b.texts ensures Passes(b, x) {}
    }
  }

  lemma FailEmpties(d: Daemon, u: int, uttId: int)
    requires OwnerInv(d) && StateOf(d.apps, u).Some?
    ensures var r := RowOf(FailClient(d, u, uttId), u); r.texts == [] && r.job == None
  {
    hide StopSynthesis, Clear, P.Stop;
    ClearEffect(d.apps, u);
    var d1 := ClearClient(Log(d, [ErrorSent(u, uttId)]), u);
    StopEnds(d1.(apps := WithState(d1.apps, u, Ready), players := P.Stop(d1.players, u)), u);
  }

  /**
   A step lets a live text of the client be refused exactly when it is the client's own
   accepted add of a text that is overtaken, unless a failed start clears it again.
   */
  lemma {:induction false} StepPasses(d: Daemon, e: Event, env: Env, u: int)
    requires Inv(d) && OwnerInv(d) && Enabled(d, e) && LivePasses(RowOf(d, u))
    ensures LivePasses(RowOf(Step(d, e, env).0, u)) <==>
            !(e.EvAdd? && e.uid == u && Admits(d, u, e.speak) && Overtaken(RowOf(d, u), e.speak) && !AddFails(d, u, e.speak, env))
  {
    hide Core, Step, RowOf, Leads, LivePasses, Overtaken, Admits, AddFails, OwnerInv;
    StepMoves(d, e, env, u);
    var r := RowOf(Step(d, e, env).0, u);
    if e.EvAdd? && e.uid == u && Admits(d, u, e.speak) {
      AddedPasses(d, u, e.speak, env);
      PushedPasses(RowOf(d, u), e.speak);
      AddIsStep(d, u, e.speak, env);
    } else if Leads(RowOf(d, u), r) {
      MovedPasses(RowOf(d, u), r);
    } else {
      NewcomerPasses();
    }
  }

  lemma AddIsStep(d: Daemon, u: int, sd: SpeakData, env: Env)
    ensures Step(d, EvAdd(u, sd), env).0 == AddQueue(d, u, sd, env).0
  {
    hide AddQueue;
  }

  lemma NewcomerPasses()
    ensures LivePasses(Newcomer)
  {
  }
}
