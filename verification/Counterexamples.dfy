/**
 Where the code as written falls short, from every state of the stated kind: a refused
 id 1 costs later utterances, and a stale message misleads a client.
 */
module Counterexamples {
  import opened Types
  import opened DataSpec
  import opened DaemonSpec
  import opened DaemonInv
  import opened Scheduling
  import opened Watermark
  import opened Notices
  import opened ClientSpec
  import opened SystemSpec
  import opened Exclusion
  import opened LiveWork
  import A = AgentSpec
  import P = PlayerSpec

  // ----- a refused id 1

  /** One call, served and answered. */
  function Called(s: System, uid: int, pid: int, call: Call, speak: SpeakData, env: Env): System
    requires CanMove(s, Ask(uid, pid, call, speak))
  {
    AnswerStep(AskStep(s, uid, pid, call, speak, env), uid)
  }

  /**
   When id 1 is refused while the daemon remembers a mark above 2, the next text is
   accepted with id 2 and queued, and its results will be refused.
   */
  lemma RefusedWrapLosesWork(s: System, uid: int, pid: int, bad: SpeakData, good: SpeakData, env: Env)
    requires CanMove(s, Ask(uid, pid, AddText, bad)) && NextId(s.handles[uid].local.uttId) == 1
    requires !Admits(s.daemon, uid, bad.(uttId := 1)) && Admits(s.daemon, uid, good.(uttId := 2))
    requires Mark(s.daemon.apps, uid) > 2 && StateOf(s.daemon.apps, uid) != Some(Playing)
    ensures var t := Called(s, uid, pid, AddText, bad, env);
            CanMove(t, Ask(uid, pid, AddText, good)) &&
            var r := Called(t, uid, pid, AddText, good, env);
            Texts(r.daemon.apps, uid) == Texts(s.daemon.apps, uid) + [good.(uttId := 2)]
            && !UttIdValid(r.daemon.apps, uid, 2) && Mark(r.daemon.apps, uid) == Mark(s.daemon.apps, uid)
            && Free(r, uid) && r.handles[uid].local.state == s.handles[uid].local.state
  {
    hide Core, Admits, A.SelectVoice;
    RefusalKeepsRow(s.daemon, uid, bad.(uttId := 1), env);
    var t := Called(s, uid, pid, AddText, bad, env);
    assert t.daemon == s.daemon && t.handles[uid].local.uttId == 1;
    QuietAdd(s.daemon, uid, good.(uttId := 2), env);
  }

  lemma QuietAdd(d: Daemon, uid: int, sd: SpeakData, env: Env)
    requires Admits(d, uid, sd) && StateOf(d.apps, uid) != Some(Playing)
    ensures AddQueue(d, uid, sd, env).0 == Enqueue(d, uid, sd)
    ensures Texts(Enqueue(d, uid, sd).apps, uid) == Texts(d.apps, uid) + [sd]
    ensures sd.uttId != 1 ==> Mark(Enqueue(d, uid, sd).apps, uid) == Mark(d.apps, uid)
  {
    AddTextEffect(d.apps, uid, sd);
  }

  // ----- a stale message

  /** What a play that does not fail to start does to messages and timers. */
  lemma PlaySends(d: Daemon, uid: int, env: Env)
    requires Inv(d) && MayPlay(d, uid, env)
    ensures var (r, err) := PlayClient(d, uid, env); var cur := CurrentPlaying(d.apps);
            && PlayedStates(d.apps, r.apps, uid) && r.outbox == d.outbox
            && r.interrupts == d.interrupts + (if FirstPlaying(d.apps) != -1 then multiset{cur} else multiset{})
            && (err != NoError <==> FailsToStart(TakeOver(d, uid), uid, env))
  {
    hide Core, TakeOver, A.StartCall, PlayClient, StartSynthesis;
    PlayIs(d, uid, env);
    PlayKeeps(d, uid, env);
    var t := TakeOver(d, uid);
    TakeOverSends(d, uid);
    P.PauseKeepsPlayers(t.players, uid);
    var st := StateOf(d.apps, uid).value;
    assert st == Ready || st == Paused by { NoneCreated(d); }
    StartAnswers(if st == Paused then t.(players := P.Resume(t.players, uid)) else t, uid, env);
  }

  lemma TakeOverSends(d: Daemon, uid: int)
    requires Inv(d) && StateOf(d.apps, uid).Some? && StateOf(d.apps, uid) != Some(Playing)
    ensures var r := TakeOver(d, uid);
            r.outbox == d.outbox
            && r.interrupts == d.interrupts + (if FirstPlaying(d.apps) != -1 then multiset{CurrentPlaying(d.apps)} else multiset{})
  {
    hide P.Pause;
    CurrentIsPlaying(d.apps);
  }

  lemma StartAnswers(d: Daemon, uid: int, env: Env)
    ensures var (r, err) := StartSynthesis(d, uid, false, env);
            r.outbox == d.outbox && r.interrupts == d.interrupts && (err != NoError <==> FailsToStart(d, uid, env))
  {
    hide A.StartCall;
  }

  /** Where client `a` stands: in the daemon, in its own record, and in what is pending for it. */
  ghost predicate Stands(s: System, a: int, actual: AppState, believed: AppState, timers: nat, messages: nat) {
    && Inv(s.daemon) && Free(s, a) && StateOf(s.daemon.apps, a) == Some(actual) && s.handles[a].local.state == believed
    && s.daemon.interrupts[a] == timers && s.daemon.outbox[(a, Paused)] == messages && (a, Ready) !in s.daemon.outbox
  }

  lemma OtherPlays(s: System, a: int, b: int, sd: SpeakData, env: Env)
    requires Stands(s, a, Playing, Playing, 0, 0) && a != b && b > 0 && env.network
    requires Free(s, b) && Allows(s.handles[b].local, ClientSpec.Play) && StateOf(s.daemon.apps, b).Some?
    ensures var m := Ask(b, 0, ClientSpec.Play, sd);
            CanMove(s, m) && Stands(Moved(s, m, env), a, Paused, Playing, 1, 0)
  {
    hide Core, PlayClient, TakeOver, FailsToStart, FirstPlaying, CurrentPlaying;
    OnlyPlaying(s.daemon, a, b);
    PlaySends(s.daemon, b, env);
    PlayKeeps(s.daemon, b, env);
  }

  lemma ThenStops(s: System, a: int, sd: SpeakData, env: Env)
    requires Stands(s, a, Paused, Playing, 1, 0) && a > 0
    ensures var m := Ask(a, 0, ClientSpec.Stop, sd);
            CanMove(s, m) && CanMove(Moved(s, m, env), Answer(a)) &&
            var t := AnswerStep(Moved(s, m, env), a);
            Stands(t, a, Ready, Ready, 1, 0) && Texts(t.daemon.apps, a) == []
  {
    hide Core, StopClient;
    StopSends(s.daemon, a);
  }

  lemma ThenPlays(s: System, a: int, sd: SpeakData, env: Env)
    requires Stands(s, a, Ready, Ready, 1, 0) && Texts(s.daemon.apps, a) == [] && a > 0 && env.network
    ensures var m := Ask(a, 0, ClientSpec.Play, sd);
            CanMove(s, m) && CanMove(Moved(s, m, env), Answer(a)) &&
            Stands(AnswerStep(Moved(s, m, env), a), a, Playing, Playing, 1, 0)
  {
    hide Core, PlayClient, TakeOver;
    PlaySends(s.daemon, a, env);
    PlayKeeps(s.daemon, a, env);
    TakeOverQueues(s.daemon, a, a);
    CurrentIsNot(s.daemon, a);
  }

  lemma CurrentIsNot(d: Daemon, a: int)
    requires Inv(d) && StateOf(d.apps, a) != Some(Playing)
    ensures FirstPlaying(d.apps) != -1 ==> CurrentPlaying(d.apps) != a
  {
    CurrentIsPlaying(d.apps);
  }

  lemma ThenHears(s: System, a: int, env: Env)
    requires Stands(s, a, Playing, Playing, 1, 0)
    ensures var m := Internal(EvInterrupt(a));
            CanMove(s, m) && CanMove(Moved(s, m, env), Deliver(a, Paused)) &&
            Stands(DeliverStep(Moved(s, m, env), a, Paused), a, Playing, Paused, 0, 0)
  {
    hide Core;
    StepKeepsInv(s.daemon, EvInterrupt(a), env);
  }

  lemma AfterOne(s: System, ms: seq<(Move, Env)>, m: Move, env: Env)
    requires CanMove(After(s, ms), m)
    ensures After(s, ms + [(m, env)]) == Moved(After(s, ms), m, env)
  {
    assert (ms + [(m, env)])[..|ms|] == ms;
  }

  /**
   A client that is interrupted, stops and plays again before the interrupt message
   arrives ends up believing that it is paused, while the daemon has it playing and
   nothing is on its way to correct it.
   */
  lemma StaleInterruptMisleads(s: System, a: int, b: int, sd: SpeakData, env: Env)
    requires AllGrounded(s) && SurelyPlaying(s, a) && a > 0 && b > 0 && a != b && env.network
    requires Free(s, b) && Allows(s.handles[b].local, ClientSpec.Play) && StateOf(s.daemon.apps, b).Some?
    ensures exists ms ::
              var t := After(s, ms);
              Free(t, a) && t.handles[a].local.state == Paused
              && StateOf(t.daemon.apps, a) == Some(Playing) && !Noticed(t.daemon, a)
  {
    hide Core, Moved, CanMove, Inv, Noticed, Stands, AnswerStep, DeliverStep;
    SurelyStands(s, a);
    var m1, m2, m3 := Ask(b, 0, ClientSpec.Play, sd), Ask(a, 0, ClientSpec.Stop, sd), Ask(a, 0, ClientSpec.Play, sd);
    var ms: seq<(Move, Env)> := [];
    OtherPlays(s, a, b, sd, env);
    AfterOne(s, ms, m1, env);
    ms := ms + [(m1, env)];
    ThenStops(After(s, ms), a, sd, env);
    AfterOne(s, ms, m2, env);
    ms := ms + [(m2, env)];
    AfterAnswer(s, ms, a, env);
    ms := ms + [(Answer(a), env)];
    ThenPlays(After(s, ms), a, sd, env);
    AfterOne(s, ms, m3, env);
    ms := ms + [(m3, env)];
    AfterAnswer(s, ms, a, env);
    ms := ms + [(Answer(a), env)];
    ThenHears(After(s, ms), a, env);
    AfterOne(s, ms, Internal(EvInterrupt(a)), env);
    ms := ms + [(Internal(EvInterrupt(a)), env)];
    AfterDelivery(s, ms, a, env);
    ms := ms + [(Deliver(a, Paused), env)];
    StandsMisled(After(s, ms), a);
  }

  lemma AfterAnswer(s: System, ms: seq<(Move, Env)>, a: int, env: Env)
    requires CanMove(After(s, ms), Answer(a))
    ensures After(s, ms + [(Answer(a), env)]) == AnswerStep(After(s, ms), a)
  {
    AfterOne(s, ms, Answer(a), env);
  }

  lemma AfterDelivery(s: System, ms: seq<(Move, Env)>, a: int, env: Env)
    requires CanMove(After(s, ms), Deliver(a, Paused))
    ensures After(s, ms + [(Deliver(a, Paused), env)]) == DeliverStep(After(s, ms), a, Paused)
  {
    AfterOne(s, ms, Deliver(a, Paused), env);
  }

  lemma SurelyStands(s: System, a: int)
    requires AllGrounded(s) && SurelyPlaying(s, a)
    ensures Stands(s, a, Playing, Playing, 0, 0)
  {
    hide Core;
    assert Grounded(s.daemon, a, s.handles[a]);
  }

  lemma StandsMisled(s: System, a: int)
    requires Stands(s, a, Playing, Paused, 0, 0)
    ensures Free(s, a) && s.handles[a].local.state == Paused && StateOf(s.daemon.apps, a) == Some(Playing) && !Noticed(s.daemon, a)
  {
  }

  lemma OnlyPlaying(d: Daemon, a: int, b: int)
    requires Inv(d) && StateOf(d.apps, a) == Some(Playing) && a != b
    ensures FirstPlaying(d.apps) != -1 && CurrentPlaying(d.apps) == a && StateOf(d.apps, b) != Some(Playing)
  {
    CurrentIsPlaying(d.apps);
  }

  lemma StopSends(d: Daemon, uid: int)
    requires Inv(d) && StateOf(d.apps, uid) == Some(Paused)
    ensures var (r, err) := StopClient(d, uid);
            && Inv(r) && err == NoError && StoppedStates(d, r, uid) && Texts(r.apps, uid) == []
            && r.outbox == d.outbox && r.interrupts == d.interrupts
  {
    hide Core, StopSynthesis, Clear;
    StopKeeps(d, uid);
    ClearEffect(d.apps, uid);
    var d1 := ClearClient(d, uid);
    StopEndsQueue(d1.(apps := WithState(d1.apps, uid, Ready), players := P.Stop(d1.players, uid)), uid);
  }

  lemma StopEndsQueue(d: Daemon, uid: int)
    ensures Texts(StopSynthesis(d).apps, uid) == Texts(d.apps, uid)
  {
  }
}
