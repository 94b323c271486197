/**
 The wake-up promise for sound: when a client is playing and has sound queued, its stream
 is going on; or its player is at rest, free, and a flag is up for the timer that will start
 it; or the timer that follows the end of its stream is pending and will find it current.
 Every step keeps this exactly when it is none of the named ones.
 */
module SoundWake {
  import opened Types
  import opened Tables
  import opened DataSpec
  import opened DaemonSpec
  import opened DaemonInv
  import opened Scheduling
  import A = AgentSpec
  import P = PlayerSpec

  /**
   What matters of one client: does it play, has it a player and queued sound; the player's
   media state, whether the stream it was given is neither over nor broken off, whether it
   is the current player and whether its next-play timer is pending.
   */
  datatype Ear = Ear(
    playing: bool,
    player: bool,
    queued: bool,
    media: P.Media,
    live: bool,
    current: bool,
    due: bool)

  function EarOf(d: Daemon, u: int): Ear {
    var p := Get(d.players.list, u);
    Ear(StateOf(d.apps, u) == Some(Playing), p.Some?, Sounds(d.apps, u) != [],
        if p.Some? then p.value.media else P.MediaNull, p.Some? && p.value.chunk.Some?,
        d.players.playing == Some(u), u in d.players.due)
  }

  predicate Streaming(x: Ear) {
    x.media == P.MediaPlaying && x.live
  }

  /** Playing, with a player and queued sound, and nothing is heard. */
  predicate Wanting(x: Ear) {
    x.playing && x.player && x.queued && !Streaming(x)
  }

  /** The tick that finds a flag up starts the player. */
  predicate Startable(x: Ear) {
    x.media == P.MediaNull && !x.current
  }

  /** The next-play timer takes the next chunk. */
  predicate Followed(x: Ear) {
    x.due && x.current
  }

  predicate Served(x: Ear, awake: bool) {
    Wanting(x) ==> (Startable(x) && awake) || Followed(x)
  }

  predicate Awake(d: Daemon) {
    d.synthesizing || d.next
  }

  ghost predicate SoundInv(d: Daemon) {
    forall u :: Served(EarOf(d, u), Awake(d))
  }

  lemma OnlyCurrent(d: Daemon)
    requires Inv(d)
    ensures SoundInv(d) <==> Served(EarOf(d, CurrentPlaying(d.apps)), Awake(d))
  {
    hide Core;
    CurrentPlays(d);
    forall u | u != CurrentPlaying(d.apps) ensures Served(EarOf(d, u), Awake(d)) {}
  }

  // ----- steps that take nothing from anybody who goes on playing

  ghost predicate Leaves(d: Daemon, r: Daemon) {
    && (Awake(d) ==> Awake(r))
    && forall u | EarOf(r, u).playing :: EarOf(r, u) == EarOf(d, u).(queued := EarOf(r, u).queued)
                                         && (EarOf(r, u).queued ==> EarOf(d, u).queued)
  }

  lemma LeavesKeeps(d: Daemon, r: Daemon)
    requires SoundInv(d) && Leaves(d, r)
    ensures SoundInv(r)
  {
    hide EarOf, Awake;
  }

  lemma LeavesChain(a: Daemon, b: Daemon, c: Daemon)
    requires Leaves(a, b) && Leaves(b, c)
    ensures Leaves(a, c)
  {
    hide EarOf, Awake;
  }

  lemma SameLeaves(d: Daemon, r: Daemon)
    requires r.apps == d.apps && r.players == d.players && (Awake(d) ==> Awake(r))
    ensures Leaves(d, r)
  {
  }

  /** Queues, states and players of those who play are as they were. */
  lemma OthersLeave(d: Daemon, r: Daemon)
    requires Awake(d) ==> Awake(r)
    requires r.players.due == d.players.due
    requires forall u | StateOf(r.apps, u) == Some(Playing) ::
               && StateOf(d.apps, u) == Some(Playing) && (Sounds(d.apps, u) == [] ==> Sounds(r.apps, u) == [])
               && Get(r.players.list, u) == Get(d.players.list, u)
               && (r.players.playing == Some(u) <==> d.players.playing == Some(u))
    ensures Leaves(d, r)
  {
  }

  lemma NobodyWants(r: Daemon)
    requires forall u :: StateOf(r.apps, u) != Some(Playing)
    ensures SoundInv(r)
  {
  }

  /** The flag of a cancelled job is replaced by the flag for the timer. */
  lemma CancelWakes(d: Daemon)
    requires d.synthesizing ==> d.job.Some? && d.agent.init && d.agent.loaded
    ensures var r := StopSynthesis(d);
            (Awake(d) ==> Awake(r)) && r.players == d.players && r.apps == d.apps
  {
  }

  lemma StopLeaves(d: Daemon, uid: int)
    requires Inv(d) && (d.synthesizing ==> d.job.Some? && d.agent.init && d.agent.loaded)
    ensures Leaves(d, StopClient(d, uid).0)
  {
    hide Core, StopSynthesis, Clear, Awake, P.Stop;
    ClearEffect(d.apps, uid);
    NoneCreated(d);
    StopPlayerOnly(d.players, uid);
    var d1, r := ClearClient(d, uid), StopClient(d, uid).0;
    var d2 := d1.(apps := WithState(d1.apps, uid, Ready), players := P.Stop(d1.players, uid));
    CancelWakes(d2);
    AwakeSame(d, d1);
    AwakeSame(d, d2);
    OthersLeave(d, r);
  }

  lemma StopPlayerOnly(ps: P.Players, uid: int)
    ensures var r := P.Stop(ps, uid);
            && r.due == ps.due
            && forall u | u != uid :: Get(r.list, u) == Get(ps.list, u) && (r.playing == Some(u) <==> ps.playing == Some(u))
  {
  }

  lemma AwakeSame(d: Daemon, r: Daemon)
    requires r.synthesizing == d.synthesizing && r.next == d.next
    ensures Awake(r) == Awake(d)
  {
  }

  lemma FailLeaves(d: Daemon, uid: int, uttId: int)
    requires Inv(d) && !d.synthesizing
    ensures Leaves(d, FailClient(d, uid, uttId))
  {
    hide Core, StopClient, Leaves;
    var e := Log(d, [ErrorSent(uid, uttId)]);
    StopLeaves(e, uid);
    SameLeaves(d, e);
    LeavesChain(d, e, StopClient(e, uid).0);
    SameLeaves(StopClient(e, uid).0, FailClient(d, uid, uttId));
    LeavesChain(d, StopClient(e, uid).0, FailClient(d, uid, uttId));
  }

  lemma HandLeaves(d: Daemon, uid: int, env: Env)
    requires Texts(d.apps, uid) != [] && !d.synthesizing
    ensures var (r, ok) := Hand(d, uid, env); Leaves(d, r) && (ok <==> r.synthesizing)
  {
    hide A.StartCall, DropText;
    DropTextEffect(d.apps, uid);
    OthersLeave(d, Hand(d, uid, env).0);
  }

  lemma StartLeaves(d: Daemon, uid: int, adding: bool, env: Env)
    requires Inv(d) && StateOf(d.apps, uid) == Some(Playing)
    ensures Leaves(d, StartSynthesis(d, uid, adding, env).0)
  {
    hide Core, Hand, FailClient, Leaves;
    SameLeaves(d, d);
    if !d.synthesizing && Texts(d.apps, uid) != [] {
      var (h, ok) := Hand(d, uid, env);
      HandLeaves(d, uid, env);
      HandKeeps(d, uid, env);
      if !ok {
        FailLeaves(h, uid, HeadId(d, uid));
        LeavesChain(d, h, FailClient(h, uid, HeadId(d, uid)));
      }
    }
  }

  lemma AddLeaves(d: Daemon, uid: int, sd: SpeakData, env: Env)
    requires Inv(d)
    ensures Leaves(d, AddQueue(d, uid, sd, env).0)
  {
    hide Core, StartSynthesis, A.SelectVoice, AddText, Leaves;
    SameLeaves(d, d);
    if Has(d.apps, uid) {
      var d1 := Enqueue(d, uid, sd);
      EnqueueLeaves(d, uid, sd);
      SameStatesKeep(d, d1.apps);
      if StateOf(d.apps, uid) == Some(Playing) {
        StartLeaves(d1, uid, true, env);
        LeavesChain(d, d1, StartSynthesis(d1, uid, true, env).0);
      }
    }
  }

  lemma EnqueueLeaves(d: Daemon, uid: int, sd: SpeakData)
    requires Has(d.apps, uid)
    ensures Leaves(d, Enqueue(d, uid, sd))
  {
    hide AddText;
    AddTextEffect(d.apps, uid, sd);
    OthersLeave(d, Enqueue(d, uid, sd));
  }

  lemma PauseLeaves(d: Daemon, uid: int)
    ensures Leaves(d, PauseClient(d, uid).0)
  {
    hide P.Pause, Awake, EarOf, WithState;
    var r := PauseClient(d, uid).0;
    AwakeSame(d, r);
    PauseOnly(d.players, uid);
    OthersLeave(d, r);
  }

  lemma PauseOnly(ps: P.Players, uid: int)
    ensures var (q, ok) := P.Pause(ps, uid);
            && q.due == ps.due && (!ok ==> q == ps)
            && forall u | u != uid :: Get(q.list, u) == Get(ps.list, u) && (q.playing == Some(u) <==> ps.playing == Some(u))
  {
  }

  lemma LeavingLeaves(d: Daemon, uid: int, pid: int, env: Env)
    requires Inv(d) && JobInv(d) && SoundInv(d)
    ensures SoundInv(FinalizeClient(d, uid, env).0) && SoundInv(FinalizeSetting(d, pid, env).0)
  {
    hide Core, Busy, SingleJob, Leave, UnloadIfIdle, SoundInv, Leaves;
    EraseLeaves(d, uid);
    LeavesKeeps(d, Leave(d, uid));
    IdleLeaves(Leave(d, uid), env);
    var d1 := d.(settings := Without(d.settings, pid));
    SameLeaves(d, d1);
    LeavesKeeps(d, d1);
    IdleLeaves(d1, env);
  }

  lemma IdleLeaves(d: Daemon, env: Env)
    requires SoundInv(d)
    ensures SoundInv(UnloadIfIdle(d, env))
  {
    if ClientCount(d) == 0 {
      assert d.apps == [];
      NobodyWants(UnloadIfIdle(d, env));
    }
  }

  lemma EraseLeaves(d: Daemon, uid: int)
    requires Inv(d) && JobInv(d)
    ensures Leaves(d, Leave(d, uid))
  {
    hide Core, Busy, SingleJob, StopClient, Clear, Delete, Leaves;
    var d1 := StopClient(d, uid).0;
    StopLeaves(d, uid);
    StopKeeps(d, uid);
    CoreHasAgent(d1);
    assert Unique(d1.players.list) by { PlayersUnique(d1); }
    RemovalLeaves(d1, uid);
    LeavesChain(d, d1, Leave(d, uid));
  }

  lemma PlayersUnique(d: Daemon)
    requires Inv(d)
    ensures Unique(d.players.list)
  {
  }

  lemma RemovalLeaves(d: Daemon, uid: int)
    requires Unique(d.apps) && Unique(d.players.list)
    ensures var d1 := ClearClient(d.(players := P.Destroy(d.players, uid)), uid);
            Leaves(d, d1.(apps := Delete(d1.apps, uid)))
  {
    hide Clear, Delete, Find;
    EraseEffect(d.apps, uid);
    if !Has(d.apps, uid) { EraseNobody(d.apps, uid); }
    GetDelete(d.players.list, uid);
    var d1 := ClearClient(d.(players := P.Destroy(d.players, uid)), uid);
    OthersLeave(d, d1.(apps := Delete(d1.apps, uid)));
  }

  lemma InitLeaves(d: Daemon, pid: int, uid: int, env: Env)
    requires Inv(d)
    ensures Leaves(d, InitClient(d, pid, uid, env).0) && Leaves(d, InitSetting(d, pid, env).0)
  {
    hide Core, EnsureEngine, A.Load, Append, P.Create, Leaves, NewRec;
    SameLeaves(d, InitSetting(d, pid, env).0);
    PlayersKnown(d);
    var r := InitClient(d, pid, uid, env).0;
    if r.apps == d.apps && r.players == d.players {
      SameLeaves(d, r);
    } else {
      JoinLeaves(d, r, uid, pid, env.made);
    }
  }

  lemma JoinLeaves(d: Daemon, r: Daemon, uid: int, pid: int, made: bool)
    requires !Has(d.apps, uid) && (forall u | Has(d.players.list, u) :: StateOf(d.apps, u).Some?)
    requires r.apps == Append(d.apps, uid, NewRec(pid)) && r.players == P.Create(d.players, uid, made).0
    requires r.synthesizing == d.synthesizing && r.next == d.next
    ensures Leaves(d, r)
  {
    hide Append, P.Create, StateOf;
    NewcomerQuiet(d.apps, d.players, uid, pid, made);
    OthersLeave(d, r);
  }

  lemma NewcomerQuiet(apps: Apps, ps: P.Players, uid: int, pid: int, made: bool)
    requires !Has(apps, uid) && (forall u | Has(ps.list, u) :: StateOf(apps, u).Some?)
    ensures var r, q := Append(apps, uid, NewRec(pid)), P.Create(ps, uid, made).0;
            && (forall u | StateOf(r, u) == Some(Playing) :: StateOf(apps, u) == Some(Playing) && Sounds(r, u) == Sounds(apps, u))
            && (forall u | StateOf(r, u) == Some(Playing) :: Get(q.list, u) == Get(ps.list, u))
            && q.playing == ps.playing && q.due == ps.due
  {
  }

  lemma PlayersKnown(d: Daemon)
    requires Inv(d)
    ensures forall u | Has(d.players.list, u) :: StateOf(d.apps, u).Some?
  {
  }

  lemma ChangeLeaves(d: Daemon, pid: int, id: string, env: Env)
    requires Inv(d) && SoundInv(d) && (pid in d.settings ==> d.agent.cur.Some?)
    ensures SoundInv(ChangeEngine(d, pid, id, env).0)
  {
    hide Core, Quieted, A.SetEngine, A.IsSameEngine, EarOf;
    if pid in d.settings && !A.IsSameEngine(d.agent, id) {
      QuietedKeeps(d, env);
      NobodyWants(ChangeEngine(d, pid, id, env).0);
    }
  }

  // ----- the polling timer

  /** What a tick makes of the playing client when there is no text: a player it can start takes a chunk. */
  lemma PullEar(d: Daemon, uid: int)
    requires StateOf(d.apps, uid) == Some(Playing)
    ensures var x, y := EarOf(d, uid), EarOf(WithPull(d, uid, P.Play(d.players, d.apps, uid)), uid);
            if x.player && x.queued && Startable(x) then Streaming(y) else y == x
  {
    hide DropSound;
    if Sounds(d.apps, uid) != [] { DropSoundEffect(d.apps, uid); }
  }

  lemma TickServes(d: Daemon, env: Env)
    requires Inv(d) && SoundInv(d) && d.timers > 0
    ensures SoundInv(Tick(d, env))
  {
    hide Core, NextSynthesis, EarOf;
    CurrentPlays(d);
    if CurrentPlaying(d.apps) >= 0 && d.next {
      NextServes(d, env);
    } else {
      SameLeaves(d, Tick(d, env));
      LeavesKeeps(d, Tick(d, env));
    }
  }

  lemma NextServes(d: Daemon, env: Env)
    requires Inv(d) && SoundInv(d) && CurrentPlaying(d.apps) >= 0 && d.next
    ensures SoundInv(NextSynthesis(d, env).(next := false))
  {
    hide Core, Hand, FailClient, WithPull, P.Play, EarOf, SoundInv, Leaves;
    var uid := CurrentPlaying(d.apps);
    CurrentPlays(d);
    if d.synthesizing {
      SameLeaves(d, d.(next := false));
      LeavesKeeps(d, d.(next := false));
    } else if Texts(d.apps, uid) == [] {
      PullServes(d, uid, false);
    } else {
      var (h, ok) := Hand(d, uid, env);
      HandLeaves(d, uid, env);
      HandKeeps(d, uid, env);
      if ok {
        LeavesKeeps(d, h);
        CurrentPlays(h);
        PullServes(h, uid, true);
      } else {
        FailedServes(h, uid, HeadId(d, uid));
      }
    }
  }

  /** The flag is taken away; a job at the engine is reason enough to wake up. */
  lemma PullServes(d: Daemon, uid: int, busy: bool)
    requires Inv(d) && SoundInv(d) && CurrentPlaying(d.apps) == uid && uid >= 0 && d.synthesizing == busy && Awake(d)
    ensures SoundInv(WithPull(d, uid, P.Play(d.players, d.apps, uid)).(next := false))
  {
    hide Core, P.Play;
    var p := P.Play(d.players, d.apps, uid);
    var r := WithPull(d, uid, p).(next := false);
    CurrentPlays(d);
    PullEar(d, uid);
    P.PullsKeepPlayers(d.players, d.apps, uid);
    assert EarOf(r, uid) == EarOf(WithPull(d, uid, p), uid);
    forall u ensures Served(EarOf(r, u), Awake(r)) {
      if u == uid { assert Served(EarOf(d, uid), Awake(d)); }
    }
  }

  lemma FailedServes(d: Daemon, uid: int, uttId: int)
    requires Inv(d) && StateOf(d.apps, uid) == Some(Playing)
    ensures var d1 := FailClient(d, uid, uttId);
            SoundInv(WithPull(d1, uid, P.Play(d1.players, d1.apps, uid)).(next := false))
  {
    hide Core, FailClient, P.Play, EarOf;
    var d1 := FailClient(d, uid, uttId);
    CurrentPlays(d);
    FailKeeps(d, uid, uttId);
    P.PullsKeepPlayers(d1.players, d1.apps, uid);
    var r := WithPull(d1, uid, P.Play(d1.players, d1.apps, uid)).(next := false);
    forall u ensures StateOf(r.apps, u) != Some(Playing) {
      assert StateOf(d.apps, u) == Some(Playing) ==> u == uid;
    }
    NobodyWants(r);
  }

  // ----- a play

  /** The play starts the engine. */
  predicate Starts(d: Daemon, uid: int, env: Env) {
    Texts(d.apps, uid) != [] && !FailsToStart(d, uid, env)
  }

  /**
   The client's sound waits for nothing after its play.  A paused client's player is
   resumed: the stream that it goes on with is over or broken off, and its timer has come
   to nothing; or it has none, and the play raises no flag.  The player of a ready client
   is left as it is, and neither timer will find it.
   */
  predicate PlayMutes(d: Daemon, uid: int, env: Env) {
    var x := EarOf(d, uid);
    && MayPlay(d, uid, env) && x.player && x.queued
    && Unserved(x, StateOf(d.apps, uid).value, Awake(d) || Starts(d, uid, env))
  }

  /** How the player stands for a client that was paused, or ready, when it plays. */
  predicate Unserved(x: Ear, st: AppState, awake: bool) {
    if st == Paused then
      match x.media
      case MediaPaused => !x.live && !x.due
      case MediaNull => !awake
      case MediaPlaying => !x.live
      case MediaReady => true
    else
      !Streaming(x) && !Followed(x) && !(Startable(x) && awake)
  }

  /** The player when the playing client was interrupted and the requester resumed. */
  function Resumed(x: Ear, st: AppState): Ear {
    if st != Paused then x
    else if x.media == P.MediaPaused then x.(media := P.MediaPlaying, current := true)
    else x.(current := false)
  }

  lemma TakeOverEar(d: Daemon, uid: int)
    requires Inv(d) && StateOf(d.apps, uid).Some? && StateOf(d.apps, uid) != Some(Playing)
    ensures var t := TakeOver(d, uid);
            && EarOf(t, uid) == EarOf(d, uid).(playing := true)
            && t.synthesizing == d.synthesizing && t.next == d.next && t.agent == d.agent
            && Texts(t.apps, uid) == Texts(d.apps, uid)
  {
    hide Core, TakeOver;
    TakeOverPlayer(d, uid);
    TakeOverQueues(d, uid);
    TakeOverKeeps(d, uid);
  }

  lemma TakeOverPlayer(d: Daemon, uid: int)
    requires Inv(d) && StateOf(d.apps, uid).Some? && StateOf(d.apps, uid) != Some(Playing)
    ensures var p, q := d.players, TakeOver(d, uid).players;
            Get(q.list, uid) == Get(p.list, uid) && (q.playing == Some(uid) <==> p.playing == Some(uid)) && q.due == p.due
  {
    hide Core, P.Pause, CurrentPlaying, WithState;
    CurrentPlays(d);
    PauseOnly(d.players, CurrentPlaying(d.apps));
  }

  lemma TakeOverQueues(d: Daemon, uid: int)
    ensures var t := TakeOver(d, uid);
            && t.synthesizing == d.synthesizing && t.next == d.next && t.agent == d.agent
            && Texts(t.apps, uid) == Texts(d.apps, uid) && Sounds(t.apps, uid) == Sounds(d.apps, uid)
  {
    hide P.Pause, CurrentPlaying, WithState;
  }

  lemma ResumeEar(d: Daemon, uid: int)
    requires Has(d.players.list, uid)
    ensures EarOf(d.(players := P.Resume(d.players, uid)), uid) == Resumed(EarOf(d, uid), Paused)
  {
  }

  lemma StartEar(d: Daemon, uid: int, env: Env)
    ensures var r := StartSynthesis(d, uid, false, env).0;
            && EarOf(r, uid) == EarOf(d, uid) && r.players == d.players && r.next == d.next
            && (r.synthesizing <==> d.synthesizing || Starts(d, uid, env))
  {
    hide A.StartCall, DropText;
    if Texts(d.apps, uid) != [] { DropTextEffect(d.apps, uid); }
  }

  /** Only the client itself is playing now. */
  lemma PlayOnEar(t: Daemon, uid: int, st: AppState, env: Env)
    requires (st == Ready || st == Paused) && Has(t.players.list, uid)
    ensures var r := PlayOn(t, uid, st, env).0;
            EarOf(r, uid) == Resumed(EarOf(t, uid), st) && (Awake(r) <==> Awake(t) || Starts(t, uid, env))
  {
    hide StartSynthesis, A.StartCall, P.Resume, EarOf;
    var t1 := if st == Paused then t.(players := P.Resume(t.players, uid)) else t;
    ResumeEar(t, uid);
    StartEar(t1, uid, env);
    SameStart(t, t1, uid, env);
    var t2 := StartSynthesis(t1, uid, false, env).0;
    TimersEar(t2, uid);
    TimersEar(t1, uid);
  }

  lemma TimersEar(d: Daemon, uid: int)
    ensures var r := d.(timers := d.timers + 1); EarOf(r, uid) == EarOf(d, uid) && Awake(r) == Awake(d)
  {
  }

  lemma SameStart(d: Daemon, t: Daemon, uid: int, env: Env)
    requires t.synthesizing == d.synthesizing && t.agent == d.agent && Texts(t.apps, uid) == Texts(d.apps, uid)
    ensures Starts(t, uid, env) <==> Starts(d, uid, env)
  {
  }

  lemma PlayServes(d: Daemon, uid: int, env: Env)
    requires Inv(d) && SoundInv(d)
    ensures SoundInv(PlayClient(d, uid, env).0) <==> !PlayMutes(d, uid, env)
  {
    hide Core, PlayClient, EarOf, Starts, PlayMutes, SoundInv, Served;
    if MayPlay(d, uid, env) {
      var r := PlayClient(d, uid, env).0;
      PlayKeeps(d, uid, env);
      CurrentPlays(r);
      OnlyCurrent(r);
      PlayedEar(d, uid, env);
    } else {
      PlayIs(d, uid, env);
      RefusedPlay(d, uid, env);
    }
  }

  lemma RefusedPlay(d: Daemon, uid: int, env: Env)
    ensures PlayMutes(d, uid, env) ==> MayPlay(d, uid, env)
  {
  }

  /** The requester after its play. */
  lemma PlayedEar(d: Daemon, uid: int, env: Env)
    requires Inv(d) && MayPlay(d, uid, env)
    ensures var r := PlayClient(d, uid, env).0; Served(EarOf(r, uid), Awake(r)) <==> !PlayMutes(d, uid, env)
  {
    hide Core, PlayClient, PlayOn, TakeOver, EarOf, FailsToStart;
    var st, t := StateOf(d.apps, uid).value, TakeOver(d, uid);
    PlayIs(d, uid, env);
    TakeOverEar(d, uid);
    NoneCreated(d);
    SameStart(d, t, uid, env);
    if Has(d.players.list, uid) {
      TakeOverPlayers(d, uid);
      PlayOnEar(t, uid, st, env);
      ServedAfterPlay(EarOf(d, uid), st, Awake(d) || Starts(d, uid, env));
      HasEar(d, uid);
    } else {
      NoPlayer(d, PlayClient(d, uid, env).0, uid, env);
    }
  }

  lemma HasEar(d: Daemon, uid: int)
    ensures EarOf(d, uid).player <==> Has(d.players.list, uid)
  {
  }

  lemma ServedAfterPlay(x: Ear, st: AppState, awake: bool)
    requires st == Ready || st == Paused
    ensures Served(Resumed(x.(playing := true), st), awake) <==> !(x.player && x.queued && Unserved(x, st, awake))
  {
  }

  lemma TakeOverPlayers(d: Daemon, uid: int)
    ensures Has(TakeOver(d, uid).players.list, uid) <==> Has(d.players.list, uid)
  {
    hide CurrentPlaying;
  }

  lemma NoPlayer(d: Daemon, r: Daemon, uid: int, env: Env)
    requires Inv(d) && MayPlay(d, uid, env) && !Has(d.players.list, uid) && r == PlayClient(d, uid, env).0
    ensures !EarOf(d, uid).player && !EarOf(r, uid).player
  {
    hide Core, PlayClient, TakeOver, StartSynthesis, CurrentPlaying;
    PlayIs(d, uid, env);
    TakeOverPlayers(d, uid);
    StartEar(TakeOver(d, uid), uid, env);
    var t := TakeOver(d, uid);
    StartEar(t.(players := P.Resume(t.players, uid)), uid, env);
  }

  // ----- results and callbacks

  /** A chunk arrives for a playing client whose player has come to a standstill. */
  predicate ResultMutes(d: Daemon, ev: ResultEvent) {
    && d.job.Some? && IsSound(ev) && UttIdValid(d.apps, d.job.value.uid, d.job.value.speak.uttId)
    && var x := EarOf(d, d.job.value.uid); x.playing && x.player && !Streaming(x) && !Startable(x) && !Followed(x)
  }

  /** The beginning of a stream makes its player the current one: one at rest is not started any more, another not followed. */
  predicate BeginMutes(d: Daemon, uid: int) {
    var u := CurrentPlaying(d.apps);
    var x := EarOf(d, u);
    Has(d.players.list, uid) && Wanting(x) && if u == uid then !x.due else !(x.media == P.MediaNull && Awake(d))
  }

  /** A stream ends while its player is not the current one, so that the timer will not find it. */
  predicate EndMutes(d: Daemon, uid: int) {
    var x := EarOf(d, uid);
    x.playing && x.player && x.queued && Streaming(x) && !x.current
  }

  /** A stream breaks off; no timer follows. */
  predicate ErrorMutes(d: Daemon, uid: int) {
    var x := EarOf(d, uid);
    x.playing && x.player && x.queued && !(x.media == P.MediaNull && Awake(d))
  }

  /** The timer of a client that has left takes the current player away before its own timer fires. */
  predicate NextMutes(d: Daemon, uid: int) {
    var x := EarOf(d, CurrentPlaying(d.apps));
    !Has(d.players.list, uid) && Wanting(x) && !(x.media == P.MediaNull && Awake(d))
  }

  lemma ResultServes(d: Daemon, ev: ResultEvent, pcm: seq<int>)
    requires Inv(d) && JobInv(d) && SoundInv(d) && d.job.Some?
    ensures SoundInv(Emit(d, ev, pcm)) <==> !ResultMutes(d, ev)
  {
    hide Core, Busy, SingleJob, OnResult, EarOf, UttIdValid;
    var j, r := d.job.value, Emit(d, ev, pcm);
    ResultEffect(d, ev, j.uid, j.speak.uttId, pcm);
    assert Awake(d) && Awake(r);
    ResultEars(d, ev, pcm);
    forall u | u != j.uid ensures Served(EarOf(r, u), Awake(r)) {
      assert Served(EarOf(d, u), Awake(d));
    }
    assert Served(EarOf(d, j.uid), Awake(d));
    assert SoundInv(r) <==> Served(EarOf(r, j.uid), Awake(r));
  }

  lemma ResultEars(d: Daemon, ev: ResultEvent, pcm: seq<int>)
    requires d.job.Some? && d.agent.init && d.agent.loaded && StateOf(d.apps, d.job.value.uid).Some?
    ensures var j, r := d.job.value, Emit(d, ev, pcm);
            && (forall u | u != j.uid :: EarOf(r, u) == EarOf(d, u))
            && EarOf(r, j.uid) == if IsSound(ev) && UttIdValid(d.apps, j.uid, j.speak.uttId) then EarOf(d, j.uid).(queued := true)
                                  else EarOf(d, j.uid)
  {
    hide Emit;
    ResultQueues(d, ev, pcm);
  }

  lemma ResultQueues(d: Daemon, ev: ResultEvent, pcm: seq<int>)
    requires d.job.Some? && d.agent.init && d.agent.loaded && StateOf(d.apps, d.job.value.uid).Some?
    ensures var j, r := d.job.value, Emit(d, ev, pcm);
            && (forall u | u != j.uid :: Sounds(r.apps, u) == Sounds(d.apps, u))
            && Sounds(r.apps, j.uid) == Sounds(d.apps, j.uid)
               + if IsSound(ev) && UttIdValid(d.apps, j.uid, j.speak.uttId) then [SoundData(j.speak.uttId, ev, pcm)] else []
  {
    hide AddSound, UttIdValid;
    var j := d.job.value;
    AddSoundEffect(d.apps, j.uid, SoundData(j.speak.uttId, ev, pcm));
  }

  lemma PlayerBelongs(d: Daemon)
    requires Inv(d)
    ensures d.players.playing.Some? ==> Has(d.players.list, d.players.playing.value)
  {
  }

  lemma BeginServes(d: Daemon, uid: int, c: SoundData)
    requires Inv(d) && SoundInv(d)
    ensures SoundInv(StreamBegins(d, uid, c)) <==> !BeginMutes(d, uid)
  {
    hide Core;
    var r := StreamBegins(d, uid, c);
    CurrentPlays(d);
    var u := CurrentPlaying(d.apps);
    assert Served(EarOf(d, u), Awake(d));
    CallbackCurrent(d, r);
  }

  lemma CallbackCurrent(d: Daemon, r: Daemon)
    requires Inv(d) && forall u :: StateOf(r.apps, u) == StateOf(d.apps, u)
    ensures SoundInv(r) <==> Served(EarOf(r, CurrentPlaying(d.apps)), Awake(r))
  {
    hide Core;
    CurrentPlays(d);
    forall u | u != CurrentPlaying(d.apps) ensures Served(EarOf(r, u), Awake(r)) {}
  }

  lemma EndServes(d: Daemon, uid: int, c: SoundData)
    requires Inv(d) && SoundInv(d)
    ensures SoundInv(StreamEnds(d, uid, c)) <==> !EndMutes(d, uid)
  {
    hide Core;
    var r := StreamEnds(d, uid, c);
    CurrentPlays(d);
    PlayerBelongs(d);
    assert Served(EarOf(d, CurrentPlaying(d.apps)), Awake(d));
    CallbackCurrent(d, r);
  }

  lemma ErrorServes(d: Daemon, uid: int, c: SoundData)
    requires Inv(d) && SoundInv(d)
    ensures SoundInv(StreamFails(d, uid, c)) <==> !ErrorMutes(d, uid)
  {
    hide Core;
    var r := StreamFails(d, uid, c);
    CurrentPlays(d);
    PlayerBelongs(d);
    assert Served(EarOf(d, CurrentPlaying(d.apps)), Awake(d));
    CallbackCurrent(d, r);
  }

  lemma NextPlayServes(d: Daemon, uid: int)
    requires Inv(d) && SoundInv(d) && uid in d.players.due
    ensures SoundInv(NextSound(d, uid)) <==> !NextMutes(d, uid)
  {
    hide Core, NextSound;
    var r, u := NextSound(d, uid), CurrentPlaying(d.apps);
    CurrentPlays(d);
    assert Served(EarOf(d, u), Awake(d));
    if u >= 0 { NextEar(d, uid, u); }
    NextStates(d, uid);
    CallbackCurrent(d, r);
  }

  lemma NextStates(d: Daemon, uid: int)
    ensures var r := NextSound(d, uid);
            Awake(r) == Awake(d) && forall u :: StateOf(r.apps, u) == StateOf(d.apps, u)
  {
    hide P.NextPlay;
    P.PullsKeepPlayers(d.players, d.apps, uid);
  }

  /** What the next-play timer of `uid` makes of client `u`. */
  lemma NextEar(d: Daemon, uid: int, u: int)
    requires StateOf(d.apps, u) == Some(Playing)
    ensures var x, y := EarOf(d, u), EarOf(NextSound(d, uid), u);
            if u != uid then
              if !Has(d.players.list, uid) || d.players.playing != Some(uid)
              then y == x.(current := x.current && Has(d.players.list, uid))
              else y == x.(current := y.current) && !x.current && !y.current
            else if x.player && x.current then
              if x.queued then Streaming(y) else !y.queued
            else y == x.(current := false, due := y.due)
  {
    hide P.NextPlay;
    if u != uid { NextOther(d.players, d.apps, uid, u); } else { NextOwn(d.players, d.apps, uid); }
    P.PullsKeepPlayers(d.players, d.apps, uid);
  }

  lemma NextOther(ps: P.Players, apps: Apps, uid: int, u: int)
    requires u != uid
    ensures var p := P.NextPlay(ps, apps, uid);
            && Get(p.ps.list, u) == Get(ps.list, u) && Sounds(p.apps, u) == Sounds(apps, u) && (u in p.ps.due <==> u in ps.due)
            && if !Has(ps.list, uid) then p.ps.playing == None
               else if ps.playing != Some(uid) then p.ps.playing == ps.playing else p.ps.playing != Some(u)
  {
    hide DropSound;
    if Sounds(apps, uid) != [] { DropSoundEffect(apps, uid); }
  }

  lemma NextOwn(ps: P.Players, apps: Apps, uid: int)
    requires StateOf(apps, uid).Some?
    ensures var p := P.NextPlay(ps, apps, uid);
            match Get(ps.list, uid)
            case None => p.ps.list == ps.list && p.ps.playing == None && p.apps == apps
            case Some(q) =>
              if ps.playing != Some(uid) then p.ps.list == ps.list && p.ps.playing == ps.playing && p.apps == apps
              else if Sounds(apps, uid) == [] then p.apps == apps
              else Get(p.ps.list, uid) == Some(q.(media := P.MediaPlaying, chunk := Some(Sounds(apps, uid)[0])))
  {
  }

  // ----- all steps

  /** The steps that leave a playing client's sound waiting for nothing. */
  predicate Mutes(d: Daemon, e: Event, env: Env) {
    match e
    case EvPlay(uid) => PlayMutes(d, uid, env)
    case EvResult(ev, _) => ResultMutes(d, ev)
    case EvBegin(uid, _) => BeginMutes(d, uid)
    case EvEnd(uid, _) => EndMutes(d, uid)
    case EvError(uid, _) => ErrorMutes(d, uid)
    case EvNextSound(uid) => NextMutes(d, uid)
    case _ => false
  }

  /** Every step keeps the promise for sound exactly when it is not one of those. */
  lemma {:induction false} StepSound(d: Daemon, e: Event, env: Env)
    requires Inv(d) && JobInv(d) && SoundInv(d) && Enabled(d, e)
    ensures SoundInv(Step(d, e, env).0) <==> !Mutes(d, e, env)
  {
    hide Core, Busy, SingleJob, SoundInv, EarOf, InitClient, FinalizeClient, AddQueue, PlayClient, StopClient, PauseClient, Tick, Emit,
      InitSetting, FinalizeSetting, ChangeEngine, ChangeVoice, ChangeSpeed, StreamBegins, StreamEnds, StreamFails, NextSound,
      PlayMutes, ResultMutes, BeginMutes, EndMutes, ErrorMutes, NextMutes, Leaves;
    var v := Voice("", 0);
    match e
    case EvInit(pid, uid) => InitLeaves(d, pid, uid, env); LeavesKeeps(d, InitClient(d, pid, uid, env).0);
    case EvFinalize(uid) => LeavingLeaves(d, uid, 0, env);
    case EvAdd(uid, sd) => AddLeaves(d, uid, sd, env); LeavesKeeps(d, AddQueue(d, uid, sd, env).0);
    case EvPlay(uid) => PlayServes(d, uid, env);
    case EvStop(uid) => StopLeaves(d, uid); LeavesKeeps(d, StopClient(d, uid).0);
    case EvPause(uid) => PauseLeaves(d, uid); LeavesKeeps(d, PauseClient(d, uid).0);
    case EvTick => TickServes(d, env);
    case EvResult(ev, pcm) => ResultServes(d, ev, pcm);
    case EvInterrupt(uid) => QuietLeaves(d, 0, v, 0, uid); LeavesKeeps(d, SendInterrupt(d, uid));
    case EvInitSetting(pid) => InitLeaves(d, pid, 0, env); LeavesKeeps(d, InitSetting(d, pid, env).0);
    case EvFinalizeSetting(pid) => LeavingLeaves(d, 0, pid, env);
    case EvChangeEngine(pid, id) => ChangeLeaves(d, pid, id, env);
    case EvChangeVoice(pid, w) => QuietLeaves(d, pid, w, 0, 0); LeavesKeeps(d, ChangeVoice(d, pid, w).0);
    case EvChangeSpeed(pid, s) => QuietLeaves(d, pid, v, s, 0); LeavesKeeps(d, ChangeSpeed(d, pid, s).0);
    case EvBegin(uid, c) => BeginServes(d, uid, c);
    case EvEnd(uid, c) => EndServes(d, uid, c);
    case EvError(uid, c) => ErrorServes(d, uid, c);
    case EvNextSound(uid) => NextPlayServes(d, uid);
  }

  lemma QuietLeaves(d: Daemon, pid: int, v: Voice, speed: int, uid: int)
    ensures Leaves(d, ChangeVoice(d, pid, v).0) && Leaves(d, ChangeSpeed(d, pid, speed).0) && Leaves(d, SendInterrupt(d, uid))
  {
    hide Leaves;
    SameLeaves(d, ChangeVoice(d, pid, v).0);
    SameLeaves(d, ChangeSpeed(d, pid, speed).0);
    SameLeaves(d, SendInterrupt(d, uid));
  }

  /** No step of the run leaves a client's sound waiting for nothing. */
  predicate Audible(d: Daemon, es: seq<(Event, Env)>) {
    es == [] ||
    (Audible(d, es[..|es| - 1]) &&
     var m := Run(d, es[..|es| - 1]); Enabled(m, Last(es).0) ==> !Mutes(m, Last(es).0, Last(es).1))
  }

  lemma {:induction false} RunSound(agent: A.Agent, scan: seq<A.EngineInfo>, es: seq<(Event, Env)>)
    requires A.Inv(agent) && agent.init && agent.cur.None?
    requires NoWedge(Boot(agent, scan), es) && Audible(Boot(agent, scan), es)
    ensures SoundInv(Run(Boot(agent, scan), es))
  {
    hide SoundInv, Step, Mutes, JobInv;
    if es == [] {
      NobodyWants(Boot(agent, scan));
    } else {
      var front := es[..|es| - 1];
      RunSound(agent, scan, front);
      ReachableInv(agent, scan, front);
      RunJobInv(agent, scan, front);
      var m := Run(Boot(agent, scan), front);
      var (e, env) := Last(es);
      if Enabled(m, e) {
        StepSound(m, e, env);
      }
    }
  }

  // ----- what the promise is for

  /** A player that can be started is heard with the next tick, if no text is waiting and the engine is idle. */
  lemma NextTickPlaysOldestSound(d: Daemon, uid: int, env: Env)
    requires Inv(d) && SoundInv(d) && Wanting(EarOf(d, uid)) && !Followed(EarOf(d, uid)) && d.timers > 0
    requires !d.synthesizing && Texts(d.apps, uid) == []
    ensures var r := Tick(d, env);
            && r.log == d.log + [Pulled(uid, Sounds(d.apps, uid)[0])] && Sounds(r.apps, uid) == Sounds(d.apps, uid)[1..]
            && Streaming(EarOf(r, uid))
  {
    hide Core, DropSound;
    assert Served(EarOf(d, uid), Awake(d));
    CurrentPlays(d);
    DropSoundEffect(d.apps, uid);
  }

  /** One that is followed is heard when its timer fires, which it can. */
  lemma TimerPlaysOldestSound(d: Daemon, uid: int)
    requires Wanting(EarOf(d, uid)) && Followed(EarOf(d, uid))
    ensures Enabled(d, EvNextSound(uid))
    ensures var r := NextSound(d, uid);
            && r.log == d.log + [Pulled(uid, Sounds(d.apps, uid)[0])] && Sounds(r.apps, uid) == Sounds(d.apps, uid)[1..]
            && Streaming(EarOf(r, uid))
  {
    hide DropSound;
    DropSoundEffect(d.apps, uid);
  }

  /** Neither can be said of it, nor does a stream go on. */
  predicate Standstill(x: Ear) {
    Wanting(x) && !Startable(x) && !Followed(x)
  }

  /** A player at a standstill is served by no tick and by no timer, whoever's: the sound stays. */
  lemma TickLeavesStandstill(d: Daemon, uid: int, env: Env)
    requires Inv(d) && d.timers > 0 && Standstill(EarOf(d, uid)) && Texts(d.apps, uid) == []
    ensures Sounds(Tick(d, env).apps, uid) == Sounds(d.apps, uid) && Tick(d, env).players == d.players
  {
    hide Core;
    CurrentPlays(d);
  }

  lemma TimerLeavesStandstill(d: Daemon, uid: int, v: int)
    requires Standstill(EarOf(d, uid)) && v in d.players.due
    ensures Sounds(NextSound(d, v).apps, uid) == Sounds(d.apps, uid)
  {
    hide DropSound;
    if Sounds(d.apps, v) != [] { DropSoundEffect(d.apps, v); }
  }
}
