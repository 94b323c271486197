/**
 The other half of mutual exclusion: does a handle know that the daemon has it playing?
 Every move keeps this knowledge exactly when it is none of two: the delivery of the last
 pending message while the daemon has the client playing, and a play whose start fails.
 */
module Agreement {
  import opened Types
  import opened DataSpec
  import opened DaemonSpec
  import opened DaemonInv
  import opened Scheduling
  import opened Notices
  import opened ClientSpec
  import opened SystemSpec
  import opened SystemScheduling
  import opened Exclusion
  import A = AgentSpec
  import P = PlayerSpec

  // ----- nobody starts playing but by its own request

  predicate StartsNot(d: Daemon, r: Daemon, u: int) {
    StateOf(r.apps, u) == Some(Playing) ==> StateOf(d.apps, u) == Some(Playing)
  }

  lemma NextStartsNobody(d: Daemon, env: Env, u: int)
    requires Inv(d)
    ensures StartsNot(d, NextSynthesis(d, env), u)
  {
    hide Core, Hand, FailClient, P.Play;
    var uid := CurrentPlaying(d.apps);
    if uid >= 0 && !d.synthesizing {
      var d1 := d;
      if Texts(d.apps, uid) != [] {
        var (h, ok) := Hand(d, uid, env);
        HandKeeps(d, uid, env);
        FailKeeps(h, uid, HeadId(d, uid));
        d1 := if ok then h else FailClient(h, uid, HeadId(d, uid));
      }
      P.PullsKeepPlayers(d1.players, d1.apps, uid);
    }
  }

  lemma AddStartsNobody(d: Daemon, uid: int, sd: SpeakData, env: Env, u: int)
    requires Inv(d)
    ensures StartsNot(d, AddQueue(d, uid, sd, env).0, u)
  {
    hide Core, StartSynthesis, A.SelectVoice;
    var d1 := Enqueue(d, uid, sd);
    SameStatesKeep(d, d1.apps);
    StartKeeps(d1, uid, true, env);
  }

  lemma LeaveStartsNobody(d: Daemon, uid: int, pid: int, env: Env, u: int)
    requires Inv(d)
    ensures StartsNot(d, FinalizeClient(d, uid, env).0, u) && StartsNot(d, FinalizeSetting(d, pid, env).0, u)
  {
    hide Core, Leave, UnloadJob;
    LeaveKeeps(d, uid);
  }

  lemma InitStartsNobody(d: Daemon, pid: int, uid: int, env: Env, u: int)
    ensures StartsNot(d, InitClient(d, pid, uid, env).0, u) && StartsNot(d, InitSetting(d, pid, env).0, u)
  {
    hide EnsureEngine, A.Load, P.Create;
  }

  lemma ChangeStartsNobody(d: Daemon, pid: int, id: string, env: Env, u: int)
    requires Inv(d) && (pid in d.settings ==> d.agent.cur.Some?)
    ensures StartsNot(d, ChangeEngine(d, pid, id, env).0, u)
  {
    hide Core, Quieted, A.SetEngine, A.IsSameEngine;
    QuietedKeeps(d, env);
  }

  lemma NextSoundStartsNobody(d: Daemon, uid: int, u: int)
    ensures StartsNot(d, NextSound(d, uid), u)
  {
    hide P.NextPlay;
    P.PullsKeepPlayers(d.players, d.apps, uid);
  }

  lemma PauseStartsNobody(d: Daemon, uid: int, u: int)
    ensures StartsNot(d, PauseClient(d, uid).0, u)
  {
    hide P.Pause;
  }

  lemma StreamStartsNobody(d: Daemon, uid: int, c: SoundData, u: int)
    ensures StartsNot(d, StreamBegins(d, uid, c), u) && StartsNot(d, StreamEnds(d, uid, c), u)
    ensures StartsNot(d, StreamFails(d, uid, c), u)
  {
    hide P.OnBegin, P.OnEnd, P.OnError;
  }

  /** A client starts to play at its own request only. */
  lemma OnlyPlayStarts(d: Daemon, e: Event, env: Env, u: int)
    requires Inv(d) && Enabled(d, e) && e != EvPlay(u)
    ensures StartsNot(d, Step(d, e, env).0, u)
  {
    hide Core, InitClient, FinalizeClient, AddQueue, PlayClient, StopClient, NextSynthesis, InitSetting, FinalizeSetting,
      ChangeEngine, NextSound, Emit, PauseClient, StreamBegins, StreamEnds, StreamFails, StateOf;
    match e
    case EvInit(pid, uid) => InitStartsNobody(d, pid, uid, env, u);
    case EvFinalize(uid) => LeaveStartsNobody(d, uid, 0, env, u);
    case EvAdd(uid, sd) => AddStartsNobody(d, uid, sd, env, u);
    case EvPlay(uid) => PlayKeeps(d, uid, env); PlayIs(d, uid, env);
    case EvStop(uid) => StopKeeps(d, uid);
    case EvTick => NextStartsNobody(d, env, u);
    case EvInitSetting(pid) => InitStartsNobody(d, pid, 0, env, u);
    case EvFinalizeSetting(pid) => LeaveStartsNobody(d, 0, pid, env, u);
    case EvChangeEngine(pid, id) => ChangeStartsNobody(d, pid, id, env, u);
    case EvNextSound(uid) => NextSoundStartsNobody(d, uid, u);
    case EvPause(uid) => PauseStartsNobody(d, uid, u);
    case EvBegin(uid, c) => StreamStartsNobody(d, uid, c, u);
    case EvEnd(uid, c) => StreamStartsNobody(d, uid, c, u);
    case EvError(uid, c) => StreamStartsNobody(d, uid, c, u);
    case _ =>
  }

  // ----- a handle that is not connected does not play

  /** No handle, a handle that was never or is no more connected, or one that is just leaving. */
  predicate Away(s: System, u: int) {
    u !in s.handles || s.handles[u].local.state == Created
    || (s.handles[u].answer.Some? && (s.handles[u].answer.value.0 == Unprepare || s.handles[u].answer.value.0 == Destroy))
  }

  predicate Dormant(s: System, u: int) {
    Away(s, u) ==> StateOf(s.daemon.apps, u) != Some(Playing)
  }

  /** What the handle believes once its answer, if one is on its way, has come. */
  function Belief(h: Handle): AppState {
    match h.answer
    case None => h.local.state
    case Some((call, err)) => Answered(h.local, call, err).state
  }

  /** If the daemon has the client playing and nothing is pending for it, its handle believes so. */
  predicate Agreed(s: System, u: int) {
    StateOf(s.daemon.apps, u) == Some(Playing) && !Noticed(s.daemon, u) ==> u in s.handles && Belief(s.handles[u]) == Playing
  }

  /** The message is the last thing pending for the client. */
  predicate LastNotice(d: Daemon, u: int, st: AppState) {
    u !in d.interrupts && d.outbox[(u, st)] == 1 && (u, if st == Paused then Ready else Paused) !in d.outbox
  }

  /**
   The two moves after which a client plays without its handle's knowledge; both can be
   told before they are made.
   */
  predicate Misleads(s: System, m: Move, env: Env, u: int) {
    var d := s.daemon;
    match m
    case Deliver(v, st) => v == u && StateOf(d.apps, u) == Some(Playing) && LastNotice(d, u, st)
    case Ask(v, _, call, _) =>
      v == u && call == ClientSpec.Play && MayPlay(d, u, env) && FailsToStart(d, u, env) && !Noticed(d, u)
    case _ => false
  }

  // ----- the moves

  lemma FinalizedIsGone(d: Daemon, uid: int, env: Env)
    requires Inv(d)
    ensures StateOf(FinalizeClient(d, uid, env).0.apps, uid).None?
  {
    hide Core, Leave, UnloadJob;
    LeaveKeeps(d, uid);
  }

  /** What a play answers, and what it leaves pending for the client itself. */
  lemma PlayOutcome(d: Daemon, uid: int, env: Env)
    requires Inv(d)
    ensures var (r, err) := PlayClient(d, uid, env);
            if MayPlay(d, uid, env) then
              && StateOf(r.apps, uid) == Some(Playing) && (Noticed(r, uid) <==> Noticed(d, uid))
              && (err != NoError <==> FailsToStart(d, uid, env))
            else r == d && (err == NoError <==> StateOf(d.apps, uid) == Some(Playing))
  {
    hide Core, PlayOn, TakeOver, A.StartCall;
    PlayIs(d, uid, env);
    PlayKeeps(d, uid, env);
    NoneCreated(d);
    if MayPlay(d, uid, env) {
      TakeOverPends(d, uid);
      PlayOnAnswers(TakeOver(d, uid), uid, StateOf(d.apps, uid).value, env);
    }
  }

  lemma TakeOverPends(d: Daemon, uid: int)
    requires Inv(d) && StateOf(d.apps, uid).Some? && StateOf(d.apps, uid) != Some(Playing)
    ensures var t := TakeOver(d, uid);
            && (Noticed(t, uid) <==> Noticed(d, uid)) && t.synthesizing == d.synthesizing && t.agent == d.agent
            && Texts(t.apps, uid) == Texts(d.apps, uid)
  {
    hide Core, P.Pause;
    CurrentIsPlaying(d.apps) by { CoreHasAgent(d); }
  }

  lemma PlayOnAnswers(t: Daemon, uid: int, st: AppState, env: Env)
    requires st == Ready || st == Paused
    ensures var (r, err) := PlayOn(t, uid, st, env);
            (Noticed(r, uid) <==> Noticed(t, uid)) && (err != NoError <==> FailsToStart(t, uid, env))
  {
    hide A.StartCall, P.Resume;
  }

  /** Moves that leave the daemon's states and the pending messages alone, or add to the latter. */
  lemma OthersAgree(s: System, m: Move, env: Env, u: int)
    requires AllGrounded(s) && CanMove(s, m) && Agreed(s, u) && Dormant(s, u)
    requires match EventOf(s, m) case Some(e) => e != EvPlay(u) && !GivesUp(e, u) case None => !m.Deliver?
    requires u in s.handles ==> u in Moved(s, m, env).handles && Belief(Moved(s, m, env).handles[u]) == Belief(s.handles[u])
    ensures Agreed(Moved(s, m, env), u)
  {
    hide Core, Step, Moved, Noticed, Polite, CanMove, EventOf, Grounded;
    MoveIsEvent(s, m, env);
    if EventOf(s, m).Some? {
      var e := EventOf(s, m).value;
      OnlyPlayStarts(s.daemon, e, env, u);
      StepTells(s.daemon, e, env, u);
    } else {
      QuietMoveSends(s, m, env);
    }
  }

  lemma QuietMoveSends(s: System, m: Move, env: Env)
    requires CanMove(s, m) && !m.Deliver? && EventOf(s, m).None?
    ensures Moved(s, m, env).daemon == s.daemon
  {
  }

  lemma AskerAgrees(s: System, u: int, pid: int, call: Call, speak: SpeakData, env: Env)
    requires AllGrounded(s) && CanMove(s, Ask(u, pid, call, speak)) && Agreed(s, u) && Dormant(s, u)
    ensures Agreed(AskStep(s, u, pid, call, speak, env), u) <==> !Misleads(s, Ask(u, pid, call, speak), env, u)
  {
    hide Core, Noticed, Polite, Grounded, MayPlay, FailsToStart, PlayClient, StopClient, PauseClient, FinalizeClient, InitClient,
      AddQueue;
    var d, m := s.daemon, Ask(u, pid, call, speak);
    match call
    case Play => PlayOutcome(d, u, env);
    case Stop => StopKeeps(d, u);
    case Pause => PauseAnswers(d, u); PauseLeaves(d, u); PendsSame(d, PauseClient(d, u).0, u);
    case AddText => OthersAgree(s, m, env, u);
    case Unprepare => FinalizedIsGone(d, u, env);
    case Destroy => FinalizedIsGone(d, u, env);
    case Connect =>
      if InitClient(d, pid, u, env).1 == NoError {
        NewcomerIsReady(d, pid, u, env);
      } else {
        OthersAgree(s, m, env, u);
      }
  }

  lemma PauseLeaves(d: Daemon, uid: int)
    ensures PauseClient(d, uid).1 == NoError ==> StateOf(PauseClient(d, uid).0.apps, uid) != Some(Playing)
  {
    hide P.Pause;
  }

  lemma PendsSame(d: Daemon, r: Daemon, u: int)
    ensures r.interrupts == d.interrupts && r.outbox == d.outbox ==> (Noticed(r, u) <==> Noticed(d, u))
  {
  }

  lemma NewcomerIsReady(d: Daemon, pid: int, uid: int, env: Env)
    requires InitClient(d, pid, uid, env).1 == NoError
    ensures StateOf(InitClient(d, pid, uid, env).0.apps, uid) == Some(Ready)
  {
    hide EnsureEngine, A.Load, P.Create;
  }

  lemma DeliveryAgrees(s: System, v: int, st: AppState, env: Env, u: int)
    requires AllGrounded(s) && CanMove(s, Deliver(v, st)) && Agreed(s, u) && Dormant(s, u)
    ensures Agreed(DeliverStep(s, v, st), u) <==> !Misleads(s, Deliver(v, st), env, u)
  {
    hide Core, Grounded;
    assert (v, st).1 == Ready || st == Paused;
  }

  /** Every move keeps a handle's knowledge that it is playing exactly when it does not mislead it. */
  lemma {:induction false} MoveAgrees(s: System, m: Move, env: Env, u: int)
    requires AllGrounded(s) && CanMove(s, m) && Agreed(s, u) && Dormant(s, u)
    ensures Agreed(Moved(s, m, env), u) <==> !Misleads(s, m, env, u)
  {
    hide Core, AllGrounded, Step, AskStep, DeliverStep, Noticed, FailsToStart, MayPlay, GivesUp;
    match m
    case Ask(v, pid, call, speak) =>
      if v == u { AskerAgrees(s, u, pid, call, speak, env); } else { OtherAsks(s, m, env, u); }
    case Deliver(v, st) => DeliveryAgrees(s, v, st, env, u);
    case Internal(e) => InternalAgrees(s, e, env, u);
    case _ => QuietMoveSends(s, m, env);
  }

  lemma OtherAsks(s: System, m: Move, env: Env, u: int)
    requires AllGrounded(s) && CanMove(s, m) && Agreed(s, u) && Dormant(s, u) && m.Ask? && m.uid != u
    ensures Agreed(Moved(s, m, env), u)
  {
    hide Core, Step, Agreed, Dormant, AllGrounded;
    OthersAgree(s, m, env, u);
  }

  lemma InternalAgrees(s: System, e: Event, env: Env, u: int)
    requires AllGrounded(s) && CanMove(s, Internal(e)) && Agreed(s, u) && Dormant(s, u)
    ensures Agreed(Moved(s, Internal(e), env), u)
  {
    hide Core, Step, Agreed, Dormant, AllGrounded;
    OthersAgree(s, Internal(e), env, u);
  }

  lemma MoveDormant(s: System, m: Move, env: Env, u: int)
    requires AllGrounded(s) && CanMove(s, m) && Dormant(s, u)
    ensures Dormant(Moved(s, m, env), u)
  {
    hide Core, Step, Grounded, Noticed, AskStep;
    match m
    case Ask(v, pid, call, speak) => AskDormant(s, v, pid, call, speak, env, u);
    case Internal(e) => OnlyPlayStarts(s.daemon, e, env, u);
    case Deliver(v, st) => assert (v, st).1 == Ready || st == Paused;
    case _ =>
  }

  lemma AskDormant(s: System, v: int, pid: int, call: Call, speak: SpeakData, env: Env, u: int)
    requires Inv(s.daemon) && CanMove(s, Ask(v, pid, call, speak)) && Dormant(s, u)
    ensures Dormant(AskStep(s, v, pid, call, speak, env), u)
  {
    hide Core, Step, Noticed;
    var e := Wire(v, pid, call, speak, Sent(s.handles[v].local, call).uttId);
    if e != EvPlay(u) { OnlyPlayStarts(s.daemon, e, env, u); }
    if v == u && (call == Unprepare || call == Destroy) { GoneStep(s.daemon, u, env); }
  }

  lemma GoneStep(d: Daemon, u: int, env: Env)
    requires Inv(d)
    ensures StateOf(Step(d, EvFinalize(u), env).0.apps, u).None?
  {
    hide Core, FinalizeClient;
    FinalizedIsGone(d, u, env);
  }

  // ----- all runs

  /** No move of the run misleads client `u`. */
  predicate Unmisled(s: System, ms: seq<(Move, Env)>, u: int) {
    ms == [] ||
    (Unmisled(s, ms[..|ms| - 1], u) &&
     var t := After(s, ms[..|ms| - 1]); CanMove(t, Last(ms).0) ==> !Misleads(t, Last(ms).0, Last(ms).1, u))
  }

  lemma {:induction false} AlwaysAgreed(agent: A.Agent, scan: seq<A.EngineInfo>, ms: seq<(Move, Env)>, u: int)
    requires A.Inv(agent) && agent.init && agent.cur.None? && Unmisled(Launch(agent, scan), ms, u)
    ensures var s := After(Launch(agent, scan), ms); Agreed(s, u) && Dormant(s, u)
  {
    hide AllGrounded, Moved, Agreed, Dormant, Misleads;
    if ms == [] {
      LaunchAgrees(agent, scan, u);
    } else {
      var front := ms[..|ms| - 1];
      AlwaysAgreed(agent, scan, front, u);
      AlwaysGrounded(agent, scan, front);
      var t := After(Launch(agent, scan), front);
      var (m, env) := Last(ms);
      if CanMove(t, m) {
        MoveAgrees(t, m, env, u);
        MoveDormant(t, m, env, u);
      }
    }
  }

  lemma LaunchAgrees(agent: A.Agent, scan: seq<A.EngineInfo>, u: int)
    ensures Agreed(Launch(agent, scan), u) && Dormant(Launch(agent, scan), u)
  {
  }

  /**
   With mutual exclusion this makes the two sides say the same: over every run that does
   not mislead client `u`, whenever no answer and no message is on its way for it, the
   handle is locally playing if and only if the daemon has the client playing.
   */
  lemma {:induction false} BothSidesAgree(agent: A.Agent, scan: seq<A.EngineInfo>, ms: seq<(Move, Env)>, u: int)
    requires A.Inv(agent) && agent.init && agent.cur.None? && Unmisled(Launch(agent, scan), ms, u)
    ensures var s := After(Launch(agent, scan), ms);
            Free(s, u) && !Noticed(s.daemon, u) ==>
              (s.handles[u].local.state == Playing <==> StateOf(s.daemon.apps, u) == Some(Playing))
  {
    hide Core, Noticed, Polite;
    AlwaysAgreed(agent, scan, ms, u);
    AlwaysGrounded(agent, scan, ms);
    var s := After(Launch(agent, scan), ms);
    if u in s.handles { assert Grounded(s.daemon, u, s.handles[u]); }
  }
}
