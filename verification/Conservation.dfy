/**
 Where a client's utterances are: queued as text, at the engine, queued as sound, or handed
 to the media player.  In every run they are there in the order in which they were accepted,
 ticket by ticket and chunk by chunk, and as long as nothing threw one away none is missing.
 */
module Conservation {
  import opened Types
  import opened Tables
  import opened DataSpec
  import opened DaemonSpec
  import opened DaemonInv
  import opened Watermark
  import opened UtteranceIds
  import opened Tickets
  import A = AgentSpec
  import P = PlayerSpec

  function ViewOf(d: Daemon, u: int): View {
    View(Texts(d.apps, u), Sounds(d.apps, u), JobOf(d, u), d.job.Some? && d.job.value.uid == u && d.job.value.streaming)
  }

  /** The daemon has what the client's books say, and the books are in order. */
  predicate Tracked(d: Daemon, u: int) {
    Kept(BooksOf(d.log, u), ViewOf(d, u))
  }

  /** Does the act change the client's books or lose something of it? */
  predicate Touches(x: Act, u: int) {
    match x
    case Accepted(v, _) => v == u
    case Handed(v, _, _, _) => v == u
    case StartFailed(v, _) => v == u
    case ChunkIn(v, _) => v == u
    case Refused(v, _) => v == u
    case Ended(v, _, _) => v == u
    case Pulled(v, _) => v == u
    case Cleared(v) => v == u
    case _ => false
  }

  lemma SameTracks(d: Daemon, r: Daemon, u: int)
    requires Tracked(d, u) && r.log == d.log && ViewOf(r, u) == ViewOf(d, u)
    ensures Tracked(r, u)
  {
  }

  lemma OtherTracks(d: Daemon, x: Act, r: Daemon, u: int)
    requires Tracked(d, u) && !Touches(x, u) && r.log == d.log + [x] && ViewOf(r, u) == ViewOf(d, u)
    ensures Tracked(r, u)
  {
    hide Kept;
    BooksAppend(d.log, x, u);
  }

  /** An act of the client itself, once its effect on the books is known. */
  lemma OwnTracks(d: Daemon, x: Act, r: Daemon, u: int)
    requires r.log == d.log + [x]
    requires Kept(Entered(BooksOf(d.log, u), x, u), ViewOf(r, u))
    ensures Tracked(r, u)
  {
    hide Kept, Entered;
    BooksAppend(d.log, x, u);
  }

  // ----- the operations

  lemma TrackClear(d: Daemon, uid: int, u: int)
    requires Tracked(d, u)
    ensures Tracked(ClearClient(d, uid), u)
  {
    hide Kept, Clear, BooksOf, Entered;
    ClearEffect(d.apps, uid);
    var r := ClearClient(d, uid);
    if Has(d.apps, uid) {
      if uid == u {
        var b, v := BooksOf(d.log, u), ViewOf(d, u);
        ClearKept(b, v, u);
        assert ViewOf(r, u) == v.(texts := [], sounds := []);
        OwnTracks(d, Cleared(uid), r, u);
      } else {
        OtherTracks(d, Cleared(uid), r, u);
      }
    }
  }

  /** A job that ends without its last chunk. */
  lemma TrackEnd(d: Daemon, ev: ResultEvent, r: Daemon, u: int)
    requires Tracked(d, u) && d.job.Some? && (ev != Finish || Afresh(BooksOf(d.log, u)) || d.job.value.uid != u)
    requires r.log == d.log + [Ended(d.job.value.uid, d.job.value.speak.uttId, ev)] && r.job.None?
    requires Texts(r.apps, u) == Texts(d.apps, u) && Sounds(r.apps, u) == Sounds(d.apps, u)
    ensures Tracked(r, u)
  {
    hide Kept, BooksOf, Entered;
    var j := d.job.value;
    var x := Ended(j.uid, j.speak.uttId, ev);
    if j.uid == u {
      var b, v := BooksOf(d.log, u), ViewOf(d, u);
      EndKept(b, v, j.speak.uttId, ev, u);
      assert ViewOf(r, u) == v.(job := None, streaming := false);
      OwnTracks(d, x, r, u);
    } else {
      OtherTracks(d, x, r, u);
    }
  }

  lemma TrackCancel(d: Daemon, u: int)
    requires Tracked(d, u) && d.job.Some?
    ensures Tracked(Emit(d, Cancel, []), u)
    ensures Tracked(Log(d, [Ended(d.job.value.uid, d.job.value.speak.uttId, Cancel)]).(job := None), u)
  {
    hide Tracked;
    TrackEnd(d, Cancel, Emit(d, Cancel, []), u);
    TrackEnd(d, Cancel, Log(d, [Ended(d.job.value.uid, d.job.value.speak.uttId, Cancel)]).(job := None), u);
  }

  /** A chunk is queued; FINISH ends the job with it. */
  lemma TrackChunk(d: Daemon, ev: ResultEvent, pcm: seq<int>, u: int)
    requires Tracked(d, u) && OwnerInv(d) && d.job.Some? && EngineAllows(d.job.value, ev) && IsSound(ev)
    requires UttIdValid(d.apps, d.job.value.uid, d.job.value.speak.uttId)
    ensures Tracked(Emit(d, ev, pcm), u)
  {
    hide Kept, BooksOf, Entered, AddSound, UttIdValid;
    var j := d.job.value;
    var c := SoundData(j.speak.uttId, ev, pcm);
    var m := OnResult(d, ev, j.uid, j.speak.uttId, pcm);
    AddSoundEffect(d.apps, j.uid, c);
    assert m.log == d.log + [ChunkIn(j.uid, c)];
    if j.uid != u {
      OtherTracks(d, ChunkIn(j.uid, c), m, u);
      if ev == Finish { TrackEnd(m, ev, Emit(d, ev, pcm), u); } else { SameTracks(m, Emit(d, ev, pcm), u); }
    } else if ev == Finish {
      TrackFinish(d, pcm, u);
    } else {
      ChunkKept(BooksOf(d.log, u), ViewOf(d, u), c, u);
      OwnTracks(d, ChunkIn(u, c), Emit(d, ev, pcm), u);
    }
  }

  lemma TrackFinish(d: Daemon, pcm: seq<int>, u: int)
    requires Tracked(d, u) && OwnerInv(d) && d.job.Some? && d.job.value.uid == u
    requires UttIdValid(d.apps, u, d.job.value.speak.uttId)
    ensures Tracked(Emit(d, Finish, pcm), u)
  {
    hide Kept, BooksOf, Entered, AddSound, UttIdValid;
    var id := d.job.value.speak.uttId;
    var c, r := SoundData(id, Finish, pcm), Emit(d, Finish, pcm);
    AddSoundEffect(d.apps, u, c);
    FinishKept(BooksOf(d.log, u), ViewOf(d, u), c, id, u);
    assert r.log == d.log + [ChunkIn(u, c)] + [Ended(u, id, Finish)];
    BooksAppend(d.log, ChunkIn(u, c), u);
    BooksAppend(d.log + [ChunkIn(u, c)], Ended(u, id, Finish), u);
    assert ViewOf(r, u) == View(Texts(d.apps, u), Sounds(d.apps, u) + [c], None, false);
  }

  /** A chunk whose id is refused. */
  lemma TrackRefusal(d: Daemon, ev: ResultEvent, pcm: seq<int>, u: int)
    requires Tracked(d, u) && d.job.Some? && IsSound(ev)
    requires !UttIdValid(d.apps, d.job.value.uid, d.job.value.speak.uttId)
    ensures Tracked(Emit(d, ev, pcm), u)
  {
    hide Kept, BooksOf, UttIdValid;
    var j := d.job.value;
    var x, m := Refused(j.uid, j.speak.uttId), OnResult(d, ev, j.uid, j.speak.uttId, pcm);
    var s := m.(job := Some(j.(streaming := true)));
    if j.uid == u {
      BooksAppend(d.log, x, u);
      RefusedKept(BooksOf(d.log, u), ViewOf(d, u), j.speak.uttId, u);
      OwnTracks(d, x, m, u);
      OwnTracks(d, x, s, u);
    } else {
      OtherTracks(d, x, m, u);
      SameTracks(m, s, u);
    }
    if ev == Finish { TrackEnd(m, ev, Emit(d, ev, pcm), u); }
  }

  lemma {:induction false} TrackEmit(d: Daemon, ev: ResultEvent, pcm: seq<int>, u: int)
    requires Tracked(d, u) && OwnerInv(d) && d.job.Some? && EngineAllows(d.job.value, ev)
    ensures Tracked(Emit(d, ev, pcm), u)
  {
    hide Tracked, UttIdValid;
    if !IsSound(ev) {
      TrackEnd(d, ev, Emit(d, ev, pcm), u);
    } else if UttIdValid(d.apps, d.job.value.uid, d.job.value.speak.uttId) {
      TrackChunk(d, ev, pcm, u);
    } else {
      TrackRefusal(d, ev, pcm, u);
    }
  }

  lemma TrackStop(d: Daemon, uid: int, u: int)
    requires Tracked(d, u)
    ensures Tracked(StopClient(d, uid).0, u)
  {
    hide Tracked, Emit, Clear, P.Stop;
    var d1 := ClearClient(d, uid);
    TrackClear(d, uid, u);
    var d2 := d1.(apps := WithState(d1.apps, uid, Ready), players := P.Stop(d1.players, uid));
    SameTracks(d1, d2, u);
    if d2.job.Some? {
      TrackCancel(d2, u);
      SameTracks(Emit(d2, Cancel, []), Emit(d2, Cancel, []).(synthesizing := false), u);
    }
    SameTracks(d2, d2.(synthesizing := false), u);
  }

  lemma TrackFail(d: Daemon, uid: int, uttId: int, u: int)
    requires Tracked(d, u)
    ensures Tracked(FailClient(d, uid, uttId), u)
  {
    hide Tracked, StopClient;
    var e := Log(d, [ErrorSent(uid, uttId)]);
    OtherTracks(d, ErrorSent(uid, uttId), e, u);
    TrackStop(e, uid, u);
    SameTracks(StopClient(e, uid).0, FailClient(d, uid, uttId), u);
  }

  /** Starting moves the oldest text from the queue to the engine, or drops it. */
  lemma TrackHand(d: Daemon, uid: int, env: Env, u: int)
    requires Tracked(d, u) && OwnerInv(d) && !d.synthesizing && Texts(d.apps, uid) != []
    ensures Tracked(Hand(d, uid, env).0, u)
  {
    hide Kept, BooksOf, Entered, DropText, A.StartCall;
    var sd := Texts(d.apps, uid)[0];
    var (r, ok) := Hand(d, uid, env);
    DropTextEffect(d.apps, uid);
    var b, v := BooksOf(d.log, u), ViewOf(d, u);
    var x := if ok then Handed(uid, sd, A.StartCall(d.agent, sd).value.0, A.StartCall(d.agent, sd).value.1) else StartFailed(uid, sd);
    assert r.log == d.log + [x];
    if uid != u {
      OtherTracks(d, x, r, u);
    } else if ok {
      HandKept(b, v, sd, x.voice, x.speed, u);
      OwnTracks(d, x, r, u);
    } else {
      FailKept(b, v, sd, u);
      OwnTracks(d, x, r, u);
    }
  }

  lemma TrackStart(d: Daemon, uid: int, adding: bool, env: Env, u: int)
    requires Tracked(d, u) && OwnerInv(d)
    ensures Tracked(StartSynthesis(d, uid, adding, env).0, u)
  {
    hide Tracked, Hand, FailClient;
    if !d.synthesizing && Texts(d.apps, uid) != [] {
      TrackHand(d, uid, env, u);
      TrackFail(Hand(d, uid, env).0, uid, HeadId(d, uid), u);
    }
  }

  lemma TrackPull(d: Daemon, uid: int, p: P.Pull, u: int)
    requires Tracked(d, u)
    requires p == P.Play(d.players, d.apps, uid) || p == P.NextPlay(d.players, d.apps, uid)
    ensures Tracked(WithPull(d, uid, p), u)
  {
    hide Kept, BooksOf, Entered, P.Play, P.NextPlay, DropSound;
    P.PullTakes(d.players, d.apps, uid);
    var r := WithPull(d, uid, p);
    if p.taken.None? {
      assert d.log + [] == d.log;
      SameTracks(d, r, u);
    } else {
      var c := p.taken.value;
      DropSoundEffect(d.apps, uid);
      if uid == u {
        PullKept(BooksOf(d.log, u), ViewOf(d, u), u);
        OwnTracks(d, Pulled(u, c), r, u);
      } else {
        OtherTracks(d, Pulled(uid, c), r, u);
      }
    }
  }

  lemma TrackTick(d: Daemon, env: Env, u: int)
    requires Tracked(d, u) && OwnerInv(d) && d.timers > 0
    ensures Tracked(Tick(d, env), u)
  {
    hide Tracked, NextSynthesis;
    if CurrentPlaying(d.apps) < 0 {
      SameTracks(d, Tick(d, env), u);
    } else if d.next {
      TrackNext(d, env, u);
      SameTracks(NextSynthesis(d, env), Tick(d, env), u);
    }
  }

  lemma TrackNext(d: Daemon, env: Env, u: int)
    requires Tracked(d, u) && OwnerInv(d)
    ensures Tracked(NextSynthesis(d, env), u)
  {
    hide Tracked, Hand, FailClient, WithPull, P.Play;
    var uid := CurrentPlaying(d.apps);
    if uid >= 0 && !d.synthesizing {
      var d1 := d;
      if Texts(d.apps, uid) != [] {
        TrackHand(d, uid, env, u);
        var (h, ok) := Hand(d, uid, env);
        TrackFail(h, uid, HeadId(d, uid), u);
        d1 := if ok then h else FailClient(h, uid, HeadId(d, uid));
      }
      TrackPull(d1, uid, P.Play(d1.players, d1.apps, uid), u);
    }
  }

  lemma TrackEnqueue(d: Daemon, uid: int, sd: SpeakData, u: int)
    requires Tracked(d, u) && Has(d.apps, uid)
    ensures Tracked(Enqueue(d, uid, sd), u)
  {
    hide Kept, BooksOf, Entered, AddText;
    AddTextEffect(d.apps, uid, sd);
    var r := Enqueue(d, uid, sd);
    if uid == u {
      AcceptKept(BooksOf(d.log, u), ViewOf(d, u), sd, u);
      OwnTracks(d, Accepted(u, sd), r, u);
    } else {
      OtherTracks(d, Accepted(uid, sd), r, u);
    }
  }

  lemma TrackAdd(d: Daemon, uid: int, sd: SpeakData, env: Env, u: int)
    requires Tracked(d, u) && OwnerInv(d)
    ensures Tracked(AddQueue(d, uid, sd, env).0, u)
  {
    hide Tracked, StartSynthesis, A.SelectVoice;
    if Has(d.apps, uid) {
      TrackEnqueue(d, uid, sd, u);
      TrackStart(Enqueue(d, uid, sd), uid, true, env, u);
    }
  }

  lemma TrackPlay(d: Daemon, uid: int, env: Env, u: int)
    requires Inv(d) && Tracked(d, u) && OwnerInv(d)
    ensures Tracked(PlayClient(d, uid, env).0, u)
  {
    hide Core, Tracked, PlayClient, PlayOn, TakeOver;
    PlayIs(d, uid, env);
    if MayPlay(d, uid, env) {
      var t := TakeOver(d, uid);
      TakeOverMoves(d, uid, u);
      TakeOverView(d, uid, u);
      SameTracks(d, t, u);
      TrackPlayOn(t, uid, StateOf(d.apps, uid).value, env, u);
    }
  }

  lemma TakeOverView(d: Daemon, uid: int, u: int)
    ensures ViewOf(TakeOver(d, uid), u) == ViewOf(d, u) && TakeOver(d, uid).log == d.log
  {
    hide P.Pause, CurrentPlaying;
  }

  lemma TrackPlayOn(t: Daemon, uid: int, st: AppState, env: Env, u: int)
    requires Tracked(t, u) && OwnerInv(t)
    ensures Tracked(PlayOn(t, uid, st, env).0, u)
  {
    hide Tracked, StartSynthesis, P.Resume;
    var t1 := if st == Paused then t.(players := P.Resume(t.players, uid)) else t;
    SameTracks(t, t1, u);
    TrackStart(t1, uid, false, env, u);
    var t2 := StartSynthesis(t1, uid, false, env).0;
    SameTracks(t2, t2.(timers := t2.timers + 1), u);
    SameTracks(t1, t1.(timers := t1.timers + 1), u);
  }

  lemma TrackPause(d: Daemon, uid: int, u: int)
    requires Tracked(d, u)
    ensures Tracked(PauseClient(d, uid).0, u)
  {
    hide Tracked, P.Pause, WithState;
    SameTracks(d, PauseClient(d, uid).0, u);
  }

  lemma TrackUnload(d: Daemon, cancels: bool, u: int)
    requires Tracked(d, u)
    ensures Tracked(UnloadJob(d, cancels), u)
  {
    hide Tracked, Emit;
    if d.job.Some? {
      TrackCancel(d, u);
    }
  }

  lemma TrackLeaving(d: Daemon, uid: int, pid: int, env: Env, u: int)
    requires Inv(d) && Tracked(d, u)
    ensures Tracked(FinalizeClient(d, uid, env).0, u) && Tracked(FinalizeSetting(d, pid, env).0, u)
  {
    hide Core, Tracked, Leave, UnloadIfIdle;
    TrackLeave(d, uid, u);
    TrackIdle(Leave(d, uid), env, u);
    var d1 := d.(settings := Without(d.settings, pid));
    SameTracks(d, d1, u);
    TrackIdle(d1, env, u);
  }

  lemma TrackIdle(d: Daemon, env: Env, u: int)
    requires Tracked(d, u)
    ensures Tracked(UnloadIfIdle(d, env), u)
  {
    hide Tracked, UnloadJob;
    TrackUnload(d, env.cancels, u);
    var d1 := UnloadJob(d, env.cancels);
    SameTracks(d1, d1.(agent := A.Unload(d1.agent).0), u);
  }

  lemma TrackLeave(d: Daemon, uid: int, u: int)
    requires Inv(d) && Tracked(d, u)
    ensures Tracked(Leave(d, uid), u)
  {
    hide Core, Tracked, StopClient;
    var d1 := StopClient(d, uid).0;
    TrackStop(d, uid, u);
    StopKeeps(d, uid);
    CoreHasAgent(d1);
    var d2 := d1.(players := P.Destroy(d1.players, uid));
    SameTracks(d1, d2, u);
    TrackErase(d2, uid, u);
  }

  lemma TrackErase(d: Daemon, uid: int, u: int)
    requires Tracked(d, u) && Unique(d.apps)
    ensures var r := ClearClient(d, uid); Tracked(r.(apps := Delete(r.apps, uid)), u)
  {
    hide Tracked, Clear, Delete;
    TrackClear(d, uid, u);
    ClearEffect(d.apps, uid);
    EraseEffect(d.apps, uid);
    if !Has(d.apps, uid) { EraseNobody(d.apps, uid); }
    var m := ClearClient(d, uid);
    SameTracks(m, m.(apps := Delete(m.apps, uid)), u);
  }

  lemma TrackInit(d: Daemon, pid: int, uid: int, env: Env, u: int)
    requires Tracked(d, u)
    ensures Tracked(InitClient(d, pid, uid, env).0, u) && Tracked(InitSetting(d, pid, env).0, u)
  {
    hide Tracked, ViewOf;
    InitViews(d, pid, uid, env, u);
    SameTracks(d, InitSetting(d, pid, env).0, u);
    SameTracks(d, InitClient(d, pid, uid, env).0, u);
  }

  lemma InitViews(d: Daemon, pid: int, uid: int, env: Env, u: int)
    ensures var r := InitClient(d, pid, uid, env).0; r.log == d.log && ViewOf(r, u) == ViewOf(d, u)
    ensures var r := InitSetting(d, pid, env).0; r.log == d.log && ViewOf(r, u) == ViewOf(d, u)
  {
    hide EnsureEngine, A.Load, P.Create, Append, Texts, Sounds;
    AppendQueues(d.apps, uid, pid, u);
  }

  lemma AppendQueues(apps: Apps, uid: int, pid: int, u: int)
    ensures !Has(apps, uid) ==>
              var r := Append(apps, uid, NewRec(pid)); Texts(r, u) == Texts(apps, u) && Sounds(r, u) == Sounds(apps, u)
  {
  }

  lemma {:induction false} TrackReset(d: Daemon, i: nat, u: int)
    requires Tracked(d, u)
    ensures Tracked(ResetFrom(d, i), u)
    decreases |d.apps| - i
  {
    hide Tracked, ResetClient;
    if i < |d.apps| {
      TrackResetOne(d, d.apps[i].uid, u);
      TrackReset(ResetClient(d, d.apps[i].uid), i + 1, u);
    }
  }

  lemma TrackResetOne(d: Daemon, uid: int, u: int)
    requires Tracked(d, u)
    ensures Tracked(ResetClient(d, uid), u)
  {
    hide Tracked, ClearClient;
    TrackClear(d, uid, u);
    SameTracks(ClearClient(d, uid), ResetClient(d, uid), u);
  }

  lemma TrackChange(d: Daemon, pid: int, id: string, env: Env, u: int)
    requires Tracked(d, u) && (pid in d.settings ==> d.agent.cur.Some?)
    ensures Tracked(ChangeEngine(d, pid, id, env).0, u)
  {
    hide Tracked, ResetFrom, UnloadJob, P.AllStop, A.SetEngine, A.IsSameEngine;
    if pid in d.settings && !A.IsSameEngine(d.agent, id) {
      var d1 := d.(players := P.AllStop(d.players, d.apps));
      SameTracks(d, d1, u);
      TrackReset(d1, 0, u);
      TrackUnload(ResetFrom(d1, 0), env.cancels, u);
      var q := UnloadJob(ResetFrom(d1, 0), env.cancels);
      SameTracks(q, q.(agent := A.SetEngine(q.agent, id, env.lib).0), u);
    }
  }

  lemma TrackDefaults(d: Daemon, pid: int, v: Voice, speed: int, u: int)
    requires Tracked(d, u)
    ensures Tracked(ChangeVoice(d, pid, v).0, u) && Tracked(ChangeSpeed(d, pid, speed).0, u)
  {
    hide Tracked;
    SameTracks(d, ChangeVoice(d, pid, v).0, u);
    SameTracks(d, ChangeSpeed(d, pid, speed).0, u);
  }

  lemma TrackStream(d: Daemon, uid: int, c: SoundData, u: int)
    requires Tracked(d, u)
    ensures Tracked(StreamBegins(d, uid, c), u) && Tracked(StreamEnds(d, uid, c), u) && Tracked(StreamFails(d, uid, c), u)
  {
    hide Tracked, P.OnBegin, P.OnEnd, P.OnError;
    TrackNote(d, Began(uid, c), P.OnBegin(d.players, uid, c, StateOf(d.apps, uid)), u);
    TrackNote(d, Over(uid, c), P.OnEnd(d.players, uid, c), u);
    OtherTracks(d, ErrorSent(uid, c.uttId), StreamFails(d, uid, c), u);
  }

  lemma TrackNote(d: Daemon, x: Act, r: (P.Players, Option<P.Note>), u: int)
    requires Tracked(d, u) && !Touches(x, u)
    ensures Tracked(WithNote(d, x, r), u)
  {
    hide Tracked;
    var m := Log(d, [x]).(players := r.0);
    OtherTracks(d, x, m, u);
    match r.1
    case None =>
    case Some(n) =>
      assert d.log + [x, Noted(n)] == m.log + [Noted(n)];
      OtherTracks(m, Noted(n), WithNote(d, x, r), u);
  }

  // ----- all steps, all runs

  lemma {:induction false} StepTracks(d: Daemon, e: Event, env: Env, u: int)
    requires Inv(d) && OwnerInv(d) && Tracked(d, u) && Enabled(d, e)
    ensures Tracked(Step(d, e, env).0, u)
  {
    hide Core, OwnerInv, Tracked, InitClient, FinalizeClient, AddQueue, PlayClient, StopClient, PauseClient, Tick, Emit, InitSetting,
      FinalizeSetting, ChangeEngine, ChangeVoice, ChangeSpeed, StreamBegins, StreamEnds, StreamFails, P.NextPlay, WithPull;
    match e
    case EvInit(pid, uid) => TrackInit(d, pid, uid, env, u);
    case EvFinalize(uid) => TrackLeaving(d, uid, 0, env, u);
    case EvAdd(uid, sd) => TrackAdd(d, uid, sd, env, u);
    case EvPlay(uid) => TrackPlay(d, uid, env, u);
    case EvStop(uid) => TrackStop(d, uid, u);
    case EvPause(uid) => TrackPause(d, uid, u);
    case EvTick => TrackTick(d, env, u);
    case EvResult(ev, pcm) => TrackEmit(d, ev, pcm, u);
    case EvInterrupt(uid) => SameTracks(d, SendInterrupt(d, uid), u);
    case EvInitSetting(pid) => TrackInit(d, pid, 0, env, u);
    case EvFinalizeSetting(pid) => TrackLeaving(d, 0, pid, env, u);
    case EvChangeEngine(pid, id) => TrackChange(d, pid, id, env, u);
    case EvChangeVoice(pid, v) => TrackDefaults(d, pid, v, 0, u);
    case EvChangeSpeed(pid, s) => TrackDefaults(d, pid, Voice("", 0), s, u);
    case EvBegin(uid, c) => TrackStream(d, uid, c, u);
    case EvEnd(uid, c) => TrackStream(d, uid, c, u);
    case EvError(uid, c) => TrackStream(d, uid, c, u);
    case EvNextSound(uid) => TrackPull(d, uid, P.NextPlay(d.players, d.apps, uid), u);
  }

  lemma {:induction false} RunTracks(agent: A.Agent, scan: seq<A.EngineInfo>, es: seq<(Event, Env)>, u: int)
    requires A.Inv(agent) && agent.init && agent.cur.None?
    ensures Tracked(Run(Boot(agent, scan), es), u)
  {
    hide Tracked, Step;
    if es == [] {
      BootTracks(agent, scan, u);
    } else {
      var front := es[..|es| - 1];
      RunTracks(agent, scan, front, u);
      ReachableInv(agent, scan, front);
      RunOwner(agent, scan, front);
      var d1 := Run(Boot(agent, scan), front);
      var (e, env) := Last(es);
      if Enabled(d1, e) {
        StepTracks(d1, e, env, u);
      }
    }
  }

  lemma BootTracks(agent: A.Agent, scan: seq<A.EngineInfo>, u: int)
    ensures Tracked(Boot(agent, scan), u)
  {
  }

  /**
   Order and conservation, for every client in every run of any clients' requests,
   timers, engine results, media callbacks and engine changes, on tickets, so whatever
   ids and texts the clients chose:
   - the books have every text accepted and every chunk queued or handed to the player;
   - the queues and the engine hold exactly the texts and chunks the books say;
   - played sound, queued sound, the job and queued texts are in the order of acceptance;
   - played and queued sound is an in-order selection of what the engine delivered, which
     is, utterance after utterance, START first and FINISH last;
   - and of all that was accepted since anything of this client was last cleared, cancelled,
     refused or failed to start, nothing is missing: START CONTINUE* FINISH or FINISH alone
     for each of the first tickets, then the job, then the waiting texts up to the last one.
   */
  lemma {:induction false} OrderAndConservation(agent: A.Agent, scan: seq<A.EngineInfo>, es: seq<(Event, Env)>, u: int)
    requires A.Inv(agent) && agent.init && agent.cur.None?
    ensures var d := Run(Boot(agent, scan), es);
            var b, v := BooksOf(d.log, u), ViewOf(d, u);
            && Complete(b, d.log, u) && Fits(b, v) && NonDecreasing(Line(b)) && Ordered(b, v.streaming)
            && Exact(b, v.streaming) && (NoLoss(d.log, u) ==> b.base == 0)
  {
    hide Ordered, Fits, Exact, Complete;
    RunTracks(agent, scan, es, u);
    var d := Run(Boot(agent, scan), es);
    LineRises(BooksOf(d.log, u), ViewOf(d, u).streaming);
    FaithfulIsComplete(d.log, u);
    if NoLoss(d.log, u) { NoLossBase(d.log, u); }
  }
}
