/**
 What a client is told: whenever the daemon takes the playing state away from a client
 that did not ask for it, a message to that client is on its way or a timer will send it.
 */
module Notices {
  import opened Types
  import opened Tables
  import opened DataSpec
  import opened DaemonSpec
  import opened DaemonInv
  import A = AgentSpec
  import P = PlayerSpec

  /** A state message for the client is pending. */
  predicate Noticed(d: Daemon, u: int) {
    u in d.interrupts || (u, Paused) in d.outbox || (u, Ready) in d.outbox
  }

  /** Only "ready" and "paused" are ever sent. */
  predicate Polite(outbox: multiset<(int, AppState)>) {
    forall m | m in outbox :: m.1 == Ready || m.1 == Paused
  }

  /** A registered client stays registered, and what is pending for it stays pending. */
  predicate Remembers(d: Daemon, r: Daemon, u: int) {
    StateOf(d.apps, u).Some? ==> StateOf(r.apps, u).Some? && (Noticed(d, u) ==> Noticed(r, u))
  }

  /** And if it stops playing something is pending. */
  predicate Tells(d: Daemon, r: Daemon, u: int) {
    && Remembers(d, r, u) && (Polite(d.outbox) ==> Polite(r.outbox))
    && (StateOf(d.apps, u) == Some(Playing) ==> StateOf(r.apps, u) == Some(Playing) || Noticed(r, u))
  }

  lemma TellsChain(d: Daemon, m: Daemon, r: Daemon, u: int)
    requires Tells(d, m, u) && Tells(m, r, u)
    ensures Tells(d, r, u)
  {
  }

  lemma SameStatesTell(d: Daemon, r: Daemon, u: int)
    requires StateOf(r.apps, u) == StateOf(d.apps, u) && r.interrupts == d.interrupts && r.outbox == d.outbox
    ensures Tells(d, r, u)
  {
  }

  // ----- the operations

  lemma StopRemembers(d: Daemon, uid: int, u: int)
    requires Inv(d)
    ensures var r := StopClient(d, uid).0; Remembers(d, r, u) && (u != uid ==> Tells(d, r, u)) && r.outbox == d.outbox
  {
    hide Core, StopClient;
    StopKeeps(d, uid);
  }

  lemma FailTells(d: Daemon, uid: int, uttId: int, u: int)
    requires Inv(d)
    ensures Tells(d, FailClient(d, uid, uttId), u)
  {
    hide Core, StopClient;
    FailKeeps(d, uid, uttId);
  }

  lemma StartTells(d: Daemon, uid: int, adding: bool, env: Env, u: int)
    requires Inv(d)
    ensures var r := StartSynthesis(d, uid, adding, env).0; Tells(d, r, u)
  {
    hide Core, Hand, FailClient, Tells, Polite;
    SameStatesTell(d, d, u);
    if !d.synthesizing && Texts(d.apps, uid) != [] {
      var h := Hand(d, uid, env).0;
      HandKeeps(d, uid, env);
      SameStatesTell(d, h, u);
      FailTells(h, uid, HeadId(d, uid), u);
      TellsChain(d, h, FailClient(h, uid, HeadId(d, uid)), u);
    }
  }

  lemma TickTells(d: Daemon, env: Env, u: int)
    requires Inv(d) && d.timers > 0
    ensures var r := Tick(d, env); Tells(d, r, u)
  {
    hide Core, NextSynthesis, Polite;
    NextTells(d, env, u);
  }

  lemma NextTells(d: Daemon, env: Env, u: int)
    requires Inv(d)
    ensures var r := NextSynthesis(d, env); Tells(d, r, u)
  {
    hide Core, Hand, FailClient, Tells, Polite, P.Play;
    var uid := CurrentPlaying(d.apps);
    SameStatesTell(d, d, u);
    if uid >= 0 && !d.synthesizing {
      var d1 := d;
      if Texts(d.apps, uid) != [] {
        var (h, ok) := Hand(d, uid, env);
        HandKeeps(d, uid, env);
        SameStatesTell(d, h, u);
        FailTells(h, uid, HeadId(d, uid), u);
        TellsChain(d, h, FailClient(h, uid, HeadId(d, uid)), u);
        d1 := if ok then h else FailClient(h, uid, HeadId(d, uid));
      }
      P.PullsKeepPlayers(d1.players, d1.apps, uid);
      var r := WithPull(d1, uid, P.Play(d1.players, d1.apps, uid));
      SameStatesTell(d1, r, u);
      TellsChain(d, d1, r, u);
    }
  }

  lemma AddTells(d: Daemon, uid: int, sd: SpeakData, env: Env, u: int)
    requires Inv(d)
    ensures var r := AddQueue(d, uid, sd, env).0; Tells(d, r, u)
  {
    hide Core, StartSynthesis, A.SelectVoice, Tells, Polite;
    var d1 := Enqueue(d, uid, sd);
    SameStatesKeep(d, d1.apps);
    SameStatesTell(d, d, u);
    SameStatesTell(d, d1, u);
    StartTells(d1, uid, true, env, u);
    TellsChain(d, d1, StartSynthesis(d1, uid, true, env).0, u);
  }

  /** The client that is interrupted by another one's play is told by a timer. */
  lemma PlayTells(d: Daemon, uid: int, env: Env, u: int)
    requires Inv(d)
    ensures var r := PlayClient(d, uid, env).0; Tells(d, r, u)
  {
    hide Core, PlayClient, PlayOn, TakeOver, Polite;
    PlayIs(d, uid, env);
    SameStatesTell(d, d, u);
    if MayPlay(d, uid, env) {
      var t := TakeOver(d, uid);
      TakeOverKeeps(d, uid);
      TakeOverTells(d, uid, u);
      PlayOnTells(t, uid, StateOf(d.apps, uid).value, env, u);
      TellsChain(d, t, PlayOn(t, uid, StateOf(d.apps, uid).value, env).0, u);
    }
  }

  lemma TakeOverTells(d: Daemon, uid: int, u: int)
    requires Inv(d) && StateOf(d.apps, uid).Some? && StateOf(d.apps, uid) != Some(Playing)
    ensures Tells(d, TakeOver(d, uid), u) && TakeOver(d, uid).outbox == d.outbox
  {
    hide Core, P.Pause;
    TakeOverKeeps(d, uid);
    CurrentOnly(d);
    if StateOf(d.apps, u) == Some(Playing) {
      assert CurrentPlaying(d.apps) == u;
      assert u in PauseCurrent(d, uid).interrupts;
    }
  }

  lemma CurrentOnly(d: Daemon)
    requires Inv(d)
    ensures forall u | StateOf(d.apps, u) == Some(Playing) :: CurrentPlaying(d.apps) == u && u > 0
  {
    CurrentIsPlaying(d.apps);
  }

  lemma PlayOnTells(t: Daemon, uid: int, st: AppState, env: Env, u: int)
    requires Inv(t)
    ensures var r := PlayOn(t, uid, st, env).0; Tells(t, r, u)
  {
    hide Core, StartSynthesis, P.Resume, Tells;
    P.PauseKeepsPlayers(t.players, uid);
    SamePlayersKeep(t, P.Resume(t.players, uid));
    var t1 := if st == Paused then t.(players := P.Resume(t.players, uid)) else t;
    var t2, r := StartSynthesis(t1, uid, false, env).0, PlayOn(t, uid, st, env).0;
    SameStatesTell(t, t1, u);
    StartTells(t1, uid, false, env, u);
    TellsChain(t, t1, t2, u);
    var m := if st == Paused || st == Ready then t2 else t1;
    SameStatesTell(m, r, u);
    TellsChain(t, m, r, u);
  }

  lemma PauseTells(d: Daemon, uid: int, u: int)
    ensures var r := PauseClient(d, uid).0; Remembers(d, r, u) && (u != uid ==> Tells(d, r, u)) && r.outbox == d.outbox
  {
    hide P.Pause;
  }

  /** An engine change tells every registered client that it is ready. */
  lemma {:induction false} WalkTells(d: Daemon, i: nat, u: int)
    requires Inv(d)
    ensures var r := ResetFrom(d, i); Tells(d, r, u)
    decreases |d.apps| - i
  {
    hide Core, Tells, Polite, ResetClient;
    SameStatesTell(d, d, u);
    if i < |d.apps| {
      var r := ResetClient(d, d.apps[i].uid);
      ResetOneKeeps(d, i);
      ResetTells(d, d.apps[i].uid, u);
      WalkTells(r, i + 1, u);
      TellsChain(d, r, ResetFrom(r, i + 1), u);
    }
  }

  lemma ResetTells(d: Daemon, uid: int, u: int)
    ensures var r := ResetClient(d, uid); Tells(d, r, u)
  {
  }

  lemma ChangeTells(d: Daemon, pid: int, id: string, env: Env, u: int)
    requires Inv(d) && (pid in d.settings ==> d.agent.cur.Some?)
    ensures var r := ChangeEngine(d, pid, id, env).0; Tells(d, r, u)
  {
    hide Core, Tells, Polite, ResetFrom, UnloadJob, P.AllStop, A.SetEngine, A.IsSameEngine;
    SameStatesTell(d, d, u);
    if pid in d.settings && !A.IsSameEngine(d.agent, id) {
      var d1 := d.(players := P.AllStop(d.players, d.apps));
      AllStopKeeps(d);
      SameStatesTell(d, d1, u);
      WalkTells(d1, 0, u);
      var d2, r := ResetFrom(d1, 0), ChangeEngine(d, pid, id, env).0;
      SameStatesTell(d2, r, u);
      TellsChain(d, d1, d2, u);
      TellsChain(d, d2, r, u);
    }
  }

  lemma LeaveRemembers(d: Daemon, uid: int, pid: int, env: Env, u: int)
    requires Inv(d)
    ensures var r := FinalizeClient(d, uid, env).0; (u != uid ==> Tells(d, r, u)) && r.outbox == d.outbox
    ensures Tells(d, FinalizeSetting(d, pid, env).0, u)
  {
    hide Core, Leave, UnloadIfIdle, Tells;
    SameStatesTell(d, d, u);
    LeaveKeeps(d, uid);
    LeaveSendsNothing(d, uid);
    IdleTells(Leave(d, uid), env, u);
    if u != uid {
      SameStatesTell(d, Leave(d, uid), u);
      TellsChain(d, Leave(d, uid), UnloadIfIdle(Leave(d, uid), env), u);
    }
    var d1 := d.(settings := Without(d.settings, pid));
    SameStatesTell(d, d1, u);
    IdleTells(d1, env, u);
    TellsChain(d, d1, UnloadIfIdle(d1, env), u);
  }

  lemma LeaveSendsNothing(d: Daemon, uid: int)
    ensures Leave(d, uid).outbox == d.outbox && Leave(d, uid).interrupts == d.interrupts
  {
    hide StopClient, ClearClient;
  }

  lemma IdleTells(d: Daemon, env: Env, u: int)
    ensures Tells(d, UnloadIfIdle(d, env), u) && UnloadIfIdle(d, env).outbox == d.outbox
  {
    hide UnloadJob, Tells;
    SameStatesTell(d, UnloadIfIdle(d, env), u);
  }

  lemma InitTells(d: Daemon, pid: int, uid: int, env: Env, u: int)
    ensures Tells(d, InitClient(d, pid, uid, env).0, u) && Tells(d, InitSetting(d, pid, env).0, u)
  {
    hide Tells, EnsureEngine, A.Load, P.Create, Append;
    SameStatesTell(d, InitSetting(d, pid, env).0, u);
    var r := InitClient(d, pid, uid, env).0;
    if r.apps == d.apps {
      SameStatesTell(d, r, u);
    } else {
      EntryTells(d, r, uid, pid, u);
    }
  }

  lemma EntryTells(d: Daemon, r: Daemon, uid: int, pid: int, u: int)
    requires r.apps == Append(d.apps, uid, NewRec(pid)) && r.interrupts == d.interrupts && r.outbox == d.outbox
    ensures Tells(d, r, u)
  {
    hide Append;
    AppendStates(d.apps, uid, pid);
  }

  lemma AppendStates(apps: Apps, uid: int, pid: int)
    ensures forall v | StateOf(apps, v).Some? :: StateOf(Append(apps, uid, NewRec(pid)), v) == StateOf(apps, v)
  {
  }

  lemma InterruptTells(d: Daemon, uid: int, u: int)
    ensures var r := SendInterrupt(d, uid); Tells(d, r, u)
  {
  }

  lemma QuietTells(d: Daemon, pid: int, v: Voice, speed: int, uid: int, c: SoundData, u: int)
    ensures Tells(d, ChangeVoice(d, pid, v).0, u) && Tells(d, ChangeSpeed(d, pid, speed).0, u)
    ensures Tells(d, StreamBegins(d, uid, c), u) && Tells(d, StreamEnds(d, uid, c), u) && Tells(d, NextSound(d, uid), u)
    ensures Tells(d, StreamFails(d, uid, c), u)
  {
    hide Tells, P.OnBegin, P.OnEnd, P.NextPlay, P.OnError;
    P.PullsKeepPlayers(d.players, d.apps, uid);
    SameStatesTell(d, ChangeVoice(d, pid, v).0, u);
    SameStatesTell(d, ChangeSpeed(d, pid, speed).0, u);
    SameStatesTell(d, StreamBegins(d, uid, c), u);
    SameStatesTell(d, StreamEnds(d, uid, c), u);
    SameStatesTell(d, NextSound(d, uid), u);
    SameStatesTell(d, StreamFails(d, uid, c), u);
  }

  // ----- all steps

  /** The requests by which a client itself gives up playing. */
  predicate GivesUp(e: Event, u: int) {
    e == EvStop(u) || e == EvPause(u) || e == EvFinalize(u)
  }

  /** One group of events after the other: clients' requests, then timers, engine and media, then settings. */
  predicate IsRequest(e: Event) {
    e.EvInit? || e.EvFinalize? || e.EvAdd? || e.EvPlay? || e.EvStop? || e.EvPause?
  }

  predicate IsSetting(e: Event) {
    e.EvInitSetting? || e.EvFinalizeSetting? || e.EvChangeEngine? || e.EvChangeVoice? || e.EvChangeSpeed?
  }

  /** What a step promises to client `u`. */
  predicate Informs(d: Daemon, e: Event, r: Daemon, u: int) {
    && (!GivesUp(e, u) ==> Tells(d, r, u)) && (e != EvFinalize(u) ==> Remembers(d, r, u))
    && (Polite(d.outbox) ==> Polite(r.outbox))
  }

  lemma TellsInforms(d: Daemon, e: Event, r: Daemon, u: int)
    requires Tells(d, r, u)
    ensures Informs(d, e, r, u)
  {
  }

  lemma RequestTells(d: Daemon, e: Event, env: Env, u: int)
    requires Inv(d) && Enabled(d, e) && IsRequest(e)
    ensures Informs(d, e, Step(d, e, env).0, u)
  {
    hide Core, InitClient, FinalizeClient, AddQueue, PlayClient, StopClient, PauseClient, Noticed, Polite;
    match e
    case EvInit(pid, uid) => InitTells(d, pid, uid, env, u);
    case EvFinalize(uid) => LeaveRemembers(d, uid, 0, env, u);
    case EvAdd(uid, sd) => AddTells(d, uid, sd, env, u);
    case EvPlay(uid) => PlayTells(d, uid, env, u);
    case EvStop(uid) => StopRemembers(d, uid, u);
    case EvPause(uid) => PauseTells(d, uid, u);
  }

  lemma SettingTells(d: Daemon, e: Event, env: Env, u: int)
    requires Inv(d) && Enabled(d, e) && IsSetting(e)
    ensures Tells(d, Step(d, e, env).0, u)
  {
    hide Core, Tells, InitSetting, FinalizeSetting, ChangeEngine, ChangeVoice, ChangeSpeed;
    var v, c := Voice("", 0), SoundData(0, Fail, []);
    match e
    case EvInitSetting(pid) => InitTells(d, pid, 0, env, u);
    case EvFinalizeSetting(pid) => LeaveRemembers(d, 0, pid, env, u);
    case EvChangeEngine(pid, id) => ChangeTells(d, pid, id, env, u);
    case EvChangeVoice(pid, voice) => QuietTells(d, pid, voice, 0, 0, c, u);
    case EvChangeSpeed(pid, s) => QuietTells(d, pid, v, s, 0, c, u);
  }

  lemma CallbackTells(d: Daemon, e: Event, env: Env, u: int)
    requires Inv(d) && Enabled(d, e) && !IsRequest(e) && !IsSetting(e)
    ensures Tells(d, Step(d, e, env).0, u)
  {
    hide Core, Tells, Tick, StreamBegins, StreamEnds, StreamFails, NextSound, Emit;
    var v, c := Voice("", 0), SoundData(0, Fail, []);
    match e
    case EvTick => TickTells(d, env, u);
    case EvResult(ev, pcm) => SameStatesTell(d, Emit(d, ev, pcm), u);
    case EvInterrupt(uid) => InterruptTells(d, uid, u);
    case EvBegin(uid, s) => QuietTells(d, 0, v, 0, uid, s, u);
    case EvEnd(uid, s) => QuietTells(d, 0, v, 0, uid, s, u);
    case EvError(uid, s) => QuietTells(d, 0, v, 0, uid, s, u);
    case EvNextSound(uid) => QuietTells(d, 0, v, 0, uid, c, u);
  }

  lemma StepTells(d: Daemon, e: Event, env: Env, u: int)
    requires Inv(d) && Enabled(d, e)
    ensures var r := Step(d, e, env).0;
            && (!GivesUp(e, u) ==> Tells(d, r, u)) && (e != EvFinalize(u) ==> Remembers(d, r, u))
            && (Polite(d.outbox) ==> Polite(r.outbox))
  {
    hide Core, Step, Tells, Remembers, Polite;
    var r := Step(d, e, env).0;
    if IsRequest(e) {
      RequestTells(d, e, env, u);
    } else if IsSetting(e) {
      SettingTells(d, e, env, u);
      TellsInforms(d, e, r, u);
    } else {
      CallbackTells(d, e, env, u);
      TellsInforms(d, e, r, u);
    }
  }
}
