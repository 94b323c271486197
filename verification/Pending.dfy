/**
 What is on its way after each step: polling timers, interrupt timers, the timers that
 follow a stream, and messages to clients; each exactly as the step leaves it.
 */
module Pending {
  import opened Types
  import opened Tables
  import opened DataSpec
  import opened DaemonSpec
  import opened DaemonInv
  import opened Scheduling
  import opened Answers
  import A = AgentSpec
  import P = PlayerSpec

  predicate Still(d: Daemon, r: Daemon) {
    StillBut(d, r, multiset{})
  }

  /** Nothing more is pending but these messages. */
  predicate StillBut(d: Daemon, r: Daemon, sent: multiset<(int, AppState)>) {
    r.timers == d.timers && r.interrupts == d.interrupts && r.players.due == d.players.due && r.outbox == d.outbox + sent
  }

  lemma PlayersKeepDue(ps: P.Players, apps: Apps, uid: int, c: SoundData, st: Option<AppState>, made: bool)
    ensures P.Stop(ps, uid).due == P.Pause(ps, uid).0.due == P.Resume(ps, uid).due == ps.due
    ensures P.Create(ps, uid, made).0.due == P.Destroy(ps, uid).due == P.AllStop(ps, apps).due == ps.due
    ensures P.Play(ps, apps, uid).ps.due == ps.due
    ensures P.OnBegin(ps, uid, c, st).0.due == P.OnError(ps, uid).due == ps.due
  {
  }

  /** The timer after a stream is started for a listed player, and ends whatever it finds. */
  lemma PlayersDue(ps: P.Players, apps: Apps, uid: int, c: SoundData)
    ensures P.OnEnd(ps, uid, c).0.due == ps.due + if Has(ps.list, uid) then multiset{uid} else multiset{}
    ensures P.NextPlay(ps, apps, uid).ps.due == ps.due - multiset{uid}
  {
  }

  function Told(told: bool, uid: int): multiset<(int, AppState)> {
    if told then multiset{(uid, Ready)} else multiset{}
  }

  lemma StopStill(d: Daemon, uid: int)
    ensures Still(d, StopClient(d, uid).0)
  {
    hide P.Stop, StopSynthesis, Clear, WithState;
    PlayersKeepDue(d.players, d.apps, uid, SoundData(0, Start, []), None, true);
  }

  lemma FailSends(d: Daemon, uid: int, uttId: int)
    ensures StillBut(d, FailClient(d, uid, uttId), Told(true, uid))
  {
    hide StopClient;
    StopStill(Log(d, [ErrorSent(uid, uttId)]), uid);
  }

  lemma StartSends(d: Daemon, uid: int, adding: bool, env: Env)
    ensures StillBut(d, StartSynthesis(d, uid, adding, env).0, Told(adding && FailsToStart(d, uid, env), uid))
  {
    hide FailClient, A.StartCall, DropText;
    if Texts(d.apps, uid) != [] { FailSends(Hand(d, uid, env).0, uid, HeadId(d, uid)); }
  }

  lemma TickSends(d: Daemon, env: Env)
    requires CurrentPlaying(d.apps) >= 0
    ensures StillBut(d, NextSynthesis(d, env), Told(FailsToStart(d, CurrentPlaying(d.apps), env), CurrentPlaying(d.apps)))
  {
    hide FailClient, A.StartCall, DropText, P.Play, CurrentPlaying;
    var uid := CurrentPlaying(d.apps);
    if !d.synthesizing {
      var d1 := d;
      if Texts(d.apps, uid) != [] {
        var (h, ok) := Hand(d, uid, env);
        FailSends(h, uid, HeadId(d, uid));
        d1 := if ok then h else FailClient(h, uid, HeadId(d, uid));
      }
      PlayersKeepDue(d1.players, d1.apps, uid, SoundData(0, Start, []), None, true);
    }
  }

  lemma AddSends(d: Daemon, uid: int, sd: SpeakData, env: Env)
    requires Inv(d)
    ensures var (r, err) := AddQueue(d, uid, sd, env);
            StillBut(d, r, Told(err == OperationFailed && !OutOfReach(d, env), uid))
  {
    hide Core, StartSynthesis, A.SelectVoice, FailsToStart, AddText, Unreachable, OutOfReach;
    ReachExactly(d, env);
    StartSends(Enqueue(d, uid, sd), uid, true, env);
    StartAnswer(Enqueue(d, uid, sd), uid, true, env);
  }

  /** The client that gives way to one that takes over. */
  function Giving(d: Daemon): multiset<int> {
    if FirstPlaying(d.apps) == -1 then multiset{} else multiset{CurrentPlaying(d.apps)}
  }

  /** One more polling timer if all went well; and whoever played will be told. */
  predicate PlayPends(d: Daemon, r: Daemon, more: bool, cur: multiset<int>) {
    && r.timers == d.timers + (if more then 1 else 0) && r.interrupts == d.interrupts + cur
    && r.players.due == d.players.due && r.outbox == d.outbox
  }

  lemma PlaySends(d: Daemon, uid: int, env: Env)
    requires Inv(d)
    ensures var (r, err) := PlayClient(d, uid, env);
            if StateOf(d.apps, uid) == Some(Playing) || err == InvalidParameter || err == OutOfNetwork then Still(d, r)
            else PlayPends(d, r, err == NoError, Giving(d))
  {
    hide Core, PlayClient, PlayOn, TakeOver, FailsToStart, OutOfReach;
    PlayIs(d, uid, env);
    PlayAnswer(d, uid, env);
    if !MayPlay(d, uid, env) {
      PlayRefusals(d, uid, env);
    } else {
      NoneCreated(d);
      TakeOverPends(d, uid);
      PlayOnPends(TakeOver(d, uid), uid, StateOf(d.apps, uid).value, env);
    }
  }

  lemma TakeOverPends(d: Daemon, uid: int)
    requires Inv(d) && StateOf(d.apps, uid).Some? && StateOf(d.apps, uid) != Some(Playing)
    ensures PlayPends(d, TakeOver(d, uid), false, Giving(d))
  {
    hide Core, P.Pause, CurrentPlaying, WithState, MaySetState;
    PlayersKeepDue(d.players, d.apps, CurrentPlaying(d.apps), SoundData(0, Start, []), None, true);
    CurrentExactly(d, uid);
  }

  lemma CurrentExactly(d: Daemon, uid: int)
    requires Inv(d) && StateOf(d.apps, uid) != Some(Playing)
    ensures FirstPlaying(d.apps) == -1 <==> CurrentPlaying(d.apps) == -1
    ensures FirstPlaying(d.apps) != -1 ==> CurrentPlaying(d.apps) != uid
  {
    if FirstPlaying(d.apps) != -1 { CurrentNotMinusOne(d); }
    CurrentIsPlaying(d.apps);
  }

  lemma CurrentNotMinusOne(d: Daemon)
    requires Inv(d) && FirstPlaying(d.apps) != -1
    ensures CurrentPlaying(d.apps) > 0
  {
    CurrentIsPlaying(d.apps);
  }

  lemma PlayOnPends(t: Daemon, uid: int, st: AppState, env: Env)
    requires st == Ready || st == Paused
    ensures var (r, err) := PlayOn(t, uid, st, env); PlayPends(t, r, err == NoError, multiset{})
  {
    hide StartSynthesis, P.Resume;
    PlayersKeepDue(t.players, t.apps, uid, SoundData(0, Start, []), None, true);
    StartSends(t, uid, false, env);
    StartSends(t.(players := P.Resume(t.players, uid)), uid, false, env);
  }

  lemma LeaveStill(d: Daemon, uid: int, pid: int, env: Env)
    ensures Still(d, FinalizeClient(d, uid, env).0) && Still(d, FinalizeSetting(d, pid, env).0)
  {
    hide StopClient, P.Destroy, UnloadJob, Clear, Delete;
    StopStill(d, uid);
    PlayersKeepDue(StopClient(d, uid).0.players, d.apps, uid, SoundData(0, Start, []), None, true);
  }

  lemma InitStill(d: Daemon, pid: int, uid: int, env: Env)
    ensures Still(d, InitClient(d, pid, uid, env).0) && Still(d, InitSetting(d, pid, env).0)
  {
    hide EnsureEngine, A.Load, P.Create, Append;
    PlayersKeepDue(d.players, d.apps, uid, SoundData(0, Start, []), None, env.made);
  }

  /** A "ready" for every client. */
  function ReadyToAll(apps: Apps): multiset<(int, AppState)> {
    if apps == [] then multiset{} else multiset{(apps[0].uid, Ready)} + ReadyToAll(apps[1..])
  }

  lemma {:induction false} WalkSends(d: Daemon, i: nat)
    requires i <= |d.apps|
    ensures StillBut(d, ResetFrom(d, i), ReadyToAll(d.apps[i..]))
    decreases |d.apps| - i
  {
    hide ResetClient;
    if i < |d.apps| {
      var d1 := ResetClient(d, d.apps[i].uid);
      WalkSends(d1, i + 1);
      ResetUids(d, d.apps[i].uid);
      SameUidsSame(d.apps, d1.apps, i + 1);
      assert d.apps[i..][0] == d.apps[i] && d.apps[i..][1..] == d.apps[i + 1..];
    }
  }

  lemma ResetUids(d: Daemon, uid: int)
    ensures var r := ResetClient(d, uid);
            && StillBut(d, r, Told(true, uid))
            && |r.apps| == |d.apps| && forall k | 0 <= k < |d.apps| :: r.apps[k].uid == d.apps[k].uid
  {
  }

  lemma {:induction false} SameUidsSame(apps: Apps, r: Apps, i: nat)
    requires |r| == |apps| && i <= |apps| && forall k | 0 <= k < |apps| :: r[k].uid == apps[k].uid
    ensures ReadyToAll(r[i..]) == ReadyToAll(apps[i..])
    decreases |apps| - i
  {
    if i < |apps| {
      SameUidsSame(apps, r, i + 1);
      assert apps[i..][1..] == apps[i + 1..] && r[i..][1..] == r[i + 1..];
    }
  }

  lemma ChangeSends(d: Daemon, pid: int, id: string, env: Env)
    requires pid in d.settings ==> d.agent.cur.Some?
    ensures StillBut(d, ChangeEngine(d, pid, id, env).0,
                     if pid in d.settings && !A.IsSameEngine(d.agent, id) then ReadyToAll(d.apps) else multiset{})
  {
    hide ResetFrom, UnloadJob, P.AllStop, A.SetEngine, A.IsSameEngine;
    PlayersKeepDue(d.players, d.apps, 0, SoundData(0, Start, []), None, true);
    WalkSends(d.(players := P.AllStop(d.players, d.apps)), 0);
    assert d.apps[0..] == d.apps;
  }

  /** Whether a play takes over. */
  predicate TakesOver(d: Daemon, u: int, env: Env) {
    StateOf(d.apps, u).Some? && StateOf(d.apps, u) != Some(Playing) && !OutOfReach(d, env)
  }

  /** The messages a step sends. */
  function Sends(d: Daemon, e: Event, env: Env, err: Error): multiset<(int, AppState)> {
    match e
    case EvAdd(u, _) => Told(err == OperationFailed && !OutOfReach(d, env), u)
    case EvTick =>
      var u := CurrentPlaying(d.apps);
      Told(d.next && FirstPlaying(d.apps) != -1 && FailsOn(d, Texts(d.apps, u), env), u)
    case EvInterrupt(u) => if StateOf(d.apps, u).Some? then multiset{(u, Paused)} else multiset{}
    case EvChangeEngine(pid, id) =>
      if pid in d.settings && !A.IsSameEngine(d.agent, id) then ReadyToAll(d.apps) else multiset{}
    case _ => multiset{}
  }

  /** What is on its way once a step has answered. */
  predicate Pends(d: Daemon, e: Event, env: Env, r: Daemon, err: Error) {
    && r.outbox == d.outbox + Sends(d, e, env, err)
    && r.timers == (match e
                    case EvPlay(u) => if TakesOver(d, u, env) && err == NoError then d.timers + 1 else d.timers
                    case EvTick => if FirstPlaying(d.apps) == -1 then d.timers - 1 else d.timers
                    case _ => d.timers)
    && r.interrupts == (match e
                        case EvPlay(u) => if TakesOver(d, u, env) then d.interrupts + Giving(d) else d.interrupts
                        case EvInterrupt(u) => d.interrupts - multiset{u}
                        case _ => d.interrupts)
    && r.players.due == (match e
                         case EvEnd(u, _) => d.players.due + if Has(d.players.list, u) then multiset{u} else multiset{}
                         case EvNextSound(u) => d.players.due - multiset{u}
                         case _ => d.players.due)
  }

  lemma TickPends(d: Daemon, env: Env)
    requires Inv(d) && d.timers > 0
    ensures Pends(d, EvTick, env, Tick(d, env), NoError)
  {
    hide Core, NextSynthesis, FailsToStart, FailsOn;
    if FirstPlaying(d.apps) != -1 {
      CurrentNotMinusOne(d);
      TickSends(d, env);
      FailsExactly(d, CurrentPlaying(d.apps), env);
    }
  }

  lemma PlayIsPending(d: Daemon, uid: int, env: Env)
    requires Inv(d)
    ensures var (r, err) := PlayClient(d, uid, env); Pends(d, EvPlay(uid), env, r, err)
  {
    hide Core, PlayClient, FailsOn, OutOfReach, CurrentPlaying;
    PlaySends(d, uid, env);
    PlayAnswer(d, uid, env);
  }

  lemma StillPends(d: Daemon, e: Event, env: Env, r: Daemon, err: Error)
    requires Still(d, r)
    requires !(e.EvAdd? || e.EvPlay? || e.EvTick? || e.EvInterrupt? || e.EvChangeEngine? || e.EvEnd? || e.EvNextSound?)
    ensures Pends(d, e, env, r, err)
  {
  }

  lemma EndPends(d: Daemon, uid: int, c: SoundData, env: Env)
    ensures Pends(d, EvEnd(uid, c), env, StreamEnds(d, uid, c), NoError)
  {
    hide P.OnEnd;
    PlayersDue(d.players, d.apps, uid, c);
  }

  lemma NextPends(d: Daemon, uid: int, env: Env)
    ensures Pends(d, EvNextSound(uid), env, NextSound(d, uid), NoError)
  {
    hide P.NextPlay;
    PlayersDue(d.players, d.apps, uid, SoundData(0, Start, []));
  }

  lemma StreamStill(d: Daemon, uid: int, c: SoundData)
    ensures Still(d, StreamBegins(d, uid, c)) && Still(d, StreamFails(d, uid, c))
  {
    hide P.OnBegin, P.OnError;
    PlayersKeepDue(d.players, d.apps, uid, c, StateOf(d.apps, uid), true);
  }

  lemma PauseStill(d: Daemon, uid: int)
    ensures Still(d, PauseClient(d, uid).0)
  {
    hide P.Pause;
    PlayersKeepDue(d.players, d.apps, uid, SoundData(0, Start, []), None, true);
  }

  /**
   Every step, exactly.  A polling timer is started by a play that takes over without an error,
   and ends when it finds nobody playing.  An interrupt timer is started for the client from
   which a play takes over, and sends "paused" to a client that is still there.  The timer
   after a stream is started at its end.  "Ready" is sent to a client whose text fails to start
   when it is added or its turn comes, and to all at an engine change.
   */
  lemma StepPends(d: Daemon, e: Event, env: Env)
    requires Inv(d) && Enabled(d, e)
    ensures var (r, err) := Step(d, e, env); Pends(d, e, env, r, err)
  {
    hide Core, InitClient, FinalizeClient, AddQueue, PlayClient, StopClient, PauseClient, Tick, Emit, InitSetting, FinalizeSetting,
      ChangeEngine, StreamBegins, StreamEnds, StreamFails, NextSound, Pends, Still;
    var (r, err) := Step(d, e, env);
    match e
    case EvAdd(uid, sd) => AddPends(d, uid, sd, env);
    case EvPlay(uid) => PlayIsPending(d, uid, env);
    case EvTick => TickPends(d, env);
    case EvInterrupt(uid) => InterruptPends(d, uid, env);
    case EvChangeEngine(pid, id) => ChangePends(d, pid, id, env);
    case EvEnd(uid, c) => EndPends(d, uid, c, env);
    case EvNextSound(uid) => NextPends(d, uid, env);
    case _ =>
      StepStill(d, e, env);
      StillPends(d, e, env, r, err);
  }

  lemma AddPends(d: Daemon, uid: int, sd: SpeakData, env: Env)
    requires Inv(d)
    ensures var (r, err) := AddQueue(d, uid, sd, env); Pends(d, EvAdd(uid, sd), env, r, err)
  {
    hide Core, AddQueue, OutOfReach;
    AddSends(d, uid, sd, env);
  }

  lemma InterruptPends(d: Daemon, uid: int, env: Env)
    ensures Pends(d, EvInterrupt(uid), env, SendInterrupt(d, uid), NoError)
  {
  }

  lemma ChangePends(d: Daemon, pid: int, id: string, env: Env)
    requires pid in d.settings ==> d.agent.cur.Some?
    ensures var (r, err) := ChangeEngine(d, pid, id, env); Pends(d, EvChangeEngine(pid, id), env, r, err)
  {
    hide ChangeEngine, ReadyToAll, A.IsSameEngine;
    ChangeSends(d, pid, id, env);
  }

  lemma StepStill(d: Daemon, e: Event, env: Env)
    requires Enabled(d, e)
    requires !(e.EvAdd? || e.EvPlay? || e.EvTick? || e.EvInterrupt? || e.EvChangeEngine? || e.EvEnd? || e.EvNextSound?)
    ensures Still(d, Step(d, e, env).0)
  {
    hide InitClient, FinalizeClient, StopClient, PauseClient, InitSetting, FinalizeSetting, StreamBegins, StreamFails,
      A.SetDefaultVoice, A.SetDefaultSpeed;
    match e
    case EvInit(pid, uid) => InitStill(d, pid, uid, env);
    case EvFinalize(uid) => LeaveStill(d, uid, 0, env);
    case EvStop(uid) => StopStill(d, uid);
    case EvPause(uid) => PauseStill(d, uid);
    case EvResult(ev, pcm) => hide Emit;
    case EvInitSetting(pid) => InitStill(d, pid, 0, env);
    case EvFinalizeSetting(pid) => LeaveStill(d, 0, pid, env);
    case EvBegin(uid, c) => StreamStill(d, uid, c);
    case EvError(uid, c) => StreamStill(d, uid, c);
    case _ =>
  }
}
