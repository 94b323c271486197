/**
 The "stopped" watermark over whole runs: how one client's queue, mark and job move
 at every step, whoever makes it.  All later laws about utterance ids and about the
 texts waiting for the engine follow from this one relation.
 */
module Watermark {
  import opened Types
  import opened Tables
  import opened DataSpec
  import opened DaemonSpec
  import opened DaemonInv
  import opened Scheduling
  import A = AgentSpec
  import P = PlayerSpec

  /**
   One client's waiting texts, its watermark while it is registered, and the text the
   engine speaks for it.
   */
  datatype Row = Row(texts: seq<SpeakData>, mark: Option<int>, job: Option<SpeakData>)

  function RowOf(d: Daemon, u: int): Row {
    Row(Texts(d.apps, u), MarkOf(d.apps, u), JobOf(d, u))
  }

  function MarkOf(apps: Apps, u: int): Option<int> {
    if StateOf(apps, u).Some? then Some(Mark(apps, u)) else None
  }

  function JobOf(d: Daemon, u: int): Option<SpeakData> {
    if d.job.Some? && d.job.value.uid == u then Some(d.job.value.speak) else None
  }

  /** Texts leave the queue from the front, one of them perhaps for the engine; the mark stays. */
  predicate Advances(a: Row, b: Row) {
    && |b.texts| <= |a.texts| && b.texts == a.texts[|a.texts| - |b.texts|..] && b.mark == a.mark
    && (b.job.Some? ==> b.job == a.job || b.job.value in a.texts)
  }

  /**
   The queue is emptied and the engine has nothing of the client any more; the mark is
   the old one, the id of the last text removed, or gone because the client left.
   */
  predicate Empties(a: Row, b: Row) {
    && b.texts == [] && b.job == None
    && (b.mark == a.mark || b.mark == None || (a.texts != [] && b.mark == Some(Last(a.texts).uttId)))
  }

  predicate Leads(a: Row, b: Row) {
    Advances(a, b) || Empties(a, b)
  }

  lemma LeadsChain(a: Row, b: Row, c: Row)
    requires Leads(a, b) && Leads(b, c)
    ensures Leads(a, c)
  {
    if b.texts != [] {
      assert Last(b.texts) == Last(a.texts);
    }
  }

  /**
   In every state of every run: a job is held only while the flag is up and the
   engine is loaded, and its owner is playing or paused.
   */
  predicate OwnerInv(d: Daemon) {
    d.job.Some? ==> d.synthesizing && d.agent.init && d.agent.loaded && Active(d.apps, d.job.value.uid)
  }

  /** A step from `d` to `r` keeps the owner and moves the row of `u`. */
  predicate Moves(d: Daemon, r: Daemon, u: int) {
    OwnerInv(r) && Leads(RowOf(d, u), RowOf(r, u))
  }

  /** Nothing of the row changes. */
  lemma SameRow(d: Daemon, r: Daemon, u: int)
    requires Texts(r.apps, u) == Texts(d.apps, u) && MarkOf(r.apps, u) == MarkOf(d.apps, u) && r.job == d.job
    requires OwnerInv(r)
    ensures Moves(d, r, u)
  {
  }

  lemma MovesChain(d: Daemon, m: Daemon, r: Daemon, u: int)
    requires Moves(d, m, u) && Moves(m, r, u)
    ensures Moves(d, r, u)
  {
    LeadsChain(RowOf(d, u), RowOf(m, u), RowOf(r, u));
  }

  // ----- the operations

  lemma EmitMoves(d: Daemon, ev: ResultEvent, pcm: seq<int>, u: int)
    requires OwnerInv(d) && d.job.Some?
    ensures Moves(d, Emit(d, ev, pcm), u) && (EndsJob(ev) ==> Emit(d, ev, pcm).job.None?)
  {
    hide OnResult, Busy, SingleJob, Leads, UttIdValid;
    var j := d.job.value;
    ResultEffect(d, ev, j.uid, j.speak.uttId, pcm);
    SameOrEnded(d, Emit(d, ev, pcm), u);
  }

  lemma SameOrEnded(d: Daemon, r: Daemon, u: int)
    requires Texts(r.apps, u) == Texts(d.apps, u) && MarkOf(r.apps, u) == MarkOf(d.apps, u)
    requires JobOf(r, u) == JobOf(d, u) || JobOf(r, u) == None
    ensures Leads(RowOf(d, u), RowOf(r, u))
  {
  }

  lemma StopMoves(d: Daemon, uid: int, u: int)
    requires OwnerInv(d)
    ensures Moves(d, StopClient(d, uid).0, u)
    ensures d.job.None? ==> StopClient(d, uid).0.job.None?
  {
    hide StopSynthesis, Leads, Clear, WithState, P.Stop;
    var d1, r := ClearClient(d, uid), StopClient(d, uid).0;
    ClearEffect(d.apps, uid);
    if StateOf(d.apps, uid).None? {
      SameRow(d, r, u);
    } else if !Active(d.apps, uid) {
      DropQueue(d, r, uid, u);
    } else {
      var d2 := d1.(apps := WithState(d1.apps, uid, Ready), players := P.Stop(d1.players, uid));
      StopEnds(d2, u);
      DropQueue(d, StopSynthesis(d2), uid, u);
    }
  }

  /** `uid`'s queue is cleared, and if `uid` had the engine the job is over. */
  lemma DropQueue(d: Daemon, r: Daemon, uid: int, u: int)
    requires OwnerInv(d) && OwnerInv(r)
    requires r.job == None || (r.job == d.job && JobOf(d, uid) == None)
    requires StateOf(r.apps, u).Some? <==> StateOf(d.apps, u).Some?
    requires if u != uid then Texts(r.apps, u) == Texts(d.apps, u) && Mark(r.apps, u) == Mark(d.apps, u)
             else Texts(r.apps, u) == [] && var q := Texts(d.apps, u);
                  Mark(r.apps, u) == if q != [] && Last(q).uttId != -1 then Last(q).uttId else Mark(d.apps, u)
    ensures Moves(d, r, u)
  {
  }

  /** Cancelling on behalf of anybody ends the one job there is. */
  lemma StopEnds(d: Daemon, u: int)
    requires d.job.Some? ==> d.synthesizing && d.agent.init && d.agent.loaded
    ensures var r := StopSynthesis(d);
            r.job.None? && Texts(r.apps, u) == Texts(d.apps, u) && MarkOf(r.apps, u) == MarkOf(d.apps, u)
  {
  }

  lemma HandMoves(d: Daemon, uid: int, env: Env, u: int)
    requires OwnerInv(d) && !d.synthesizing && StateOf(d.apps, uid) == Some(Playing) && Texts(d.apps, uid) != []
    ensures Moves(d, Hand(d, uid, env).0, u)
  {
    hide A.SelectVoice;
    DropTextEffect(d.apps, uid);
  }

  lemma FailMoves(d: Daemon, uid: int, uttId: int, u: int)
    requires OwnerInv(d)
    ensures Moves(d, FailClient(d, uid, uttId), u)
  {
    hide Leads, StopClient;
    var e := Log(d, [ErrorSent(uid, uttId)]);
    SameRow(d, e, u);
    StopMoves(e, uid, u);
    MovesChain(d, e, StopClient(e, uid).0, u);
    SameRow(StopClient(e, uid).0, FailClient(d, uid, uttId), u);
    MovesChain(d, StopClient(e, uid).0, FailClient(d, uid, uttId), u);
  }

  lemma StartMoves(d: Daemon, uid: int, adding: bool, env: Env, u: int)
    requires OwnerInv(d) && StateOf(d.apps, uid) == Some(Playing)
    ensures Moves(d, StartSynthesis(d, uid, adding, env).0, u)
  {
    hide Leads, Hand, FailClient;
    if d.synthesizing || Texts(d.apps, uid) == [] {
      SameRow(d, d, u);
    } else {
      var (h, ok) := Hand(d, uid, env);
      HandMoves(d, uid, env, u);
      if !ok && adding {
        FailMoves(h, uid, HeadId(d, uid), u);
        MovesChain(d, h, FailClient(h, uid, HeadId(d, uid)), u);
      }
    }
  }

  lemma PullMoves(d: Daemon, uid: int, p: P.Pull, u: int)
    requires OwnerInv(d)
    requires p == P.Play(d.players, d.apps, uid) || p == P.NextPlay(d.players, d.apps, uid)
    ensures Moves(d, WithPull(d, uid, p), u)
  {
    hide P.Play, P.NextPlay, Leads;
    P.PullTakes(d.players, d.apps, uid);
    if p.taken.Some? {
      DropSoundEffect(d.apps, uid);
    }
    SameRow(d, WithPull(d, uid, p), u);
  }

  lemma TickMoves(d: Daemon, env: Env, u: int)
    requires Inv(d) && OwnerInv(d) && d.timers > 0
    ensures Moves(d, Tick(d, env), u)
  {
    hide Core, Leads, NextSynthesis;
    var uid := CurrentPlaying(d.apps);
    if uid < 0 || !d.next {
      SameRow(d, Tick(d, env), u);
    } else {
      var n := NextSynthesis(d, env);
      NextMoves(d, env, u);
      SameRow(n, Tick(d, env), u);
      MovesChain(d, n, Tick(d, env), u);
    }
  }

  lemma NextMoves(d: Daemon, env: Env, u: int)
    requires Inv(d) && OwnerInv(d)
    ensures Moves(d, NextSynthesis(d, env), u)
  {
    hide Core, Leads, Hand, FailClient, WithPull, P.Play;
    var uid := CurrentPlaying(d.apps);
    CurrentPlays(d);
    SameRow(d, d, u);
    if uid >= 0 && !d.synthesizing {
      var d1 := d;
      if Texts(d.apps, uid) != [] {
        var (h, ok) := Hand(d, uid, env);
        HandMoves(d, uid, env, u);
        FailMoves(h, uid, HeadId(d, uid), u);
        MovesChain(d, h, FailClient(h, uid, HeadId(d, uid)), u);
        d1 := if ok then h else FailClient(h, uid, HeadId(d, uid));
      }
      var p := P.Play(d1.players, d1.apps, uid);
      PullMoves(d1, uid, p, u);
      MovesChain(d, d1, WithPull(d1, uid, p), u);
    }
  }

  /** Play moves texts to the engine at most. */
  lemma PlayMoves(d: Daemon, uid: int, env: Env, u: int)
    requires Inv(d) && OwnerInv(d)
    ensures Moves(d, PlayClient(d, uid, env).0, u)
  {
    hide Core, Leads, PlayClient, PlayOn, TakeOver;
    PlayIs(d, uid, env);
    SameRow(d, d, u);
    if MayPlay(d, uid, env) {
      var t, st := TakeOver(d, uid), StateOf(d.apps, uid).value;
      TakeOverMoves(d, uid, u);
      PlayOnMoves(t, uid, st, env, u);
      MovesChain(d, t, PlayOn(t, uid, st, env).0, u);
    }
  }

  lemma TakeOverMoves(d: Daemon, uid: int, u: int)
    requires Inv(d) && OwnerInv(d) && StateOf(d.apps, uid).Some? && StateOf(d.apps, uid) != Some(Playing)
    ensures Moves(d, TakeOver(d, uid), u) && StateOf(TakeOver(d, uid).apps, uid) == Some(Playing)
  {
    hide Core, Leads, TakeOver;
    TakeOverKeeps(d, uid);
    TakeOverQueues(d, uid, u);
    SameRow(d, TakeOver(d, uid), u);
  }

  lemma TakeOverQueues(d: Daemon, uid: int, u: int)
    ensures var r := TakeOver(d, uid);
            && Texts(r.apps, u) == Texts(d.apps, u) && Mark(r.apps, u) == Mark(d.apps, u)
            && r.job == d.job && r.agent == d.agent && r.synthesizing == d.synthesizing
  {
    hide P.Pause, CurrentPlaying;
  }

  lemma PlayOnMoves(t: Daemon, uid: int, st: AppState, env: Env, u: int)
    requires OwnerInv(t) && StateOf(t.apps, uid) == Some(Playing)
    ensures Moves(t, PlayOn(t, uid, st, env).0, u)
  {
    hide Leads, StartSynthesis, P.Resume;
    var t1 := if st == Paused then t.(players := P.Resume(t.players, uid)) else t;
    SameRow(t, t1, u);
    StartMoves(t1, uid, false, env, u);
    var t2 := StartSynthesis(t1, uid, false, env).0;
    MovesChain(t, t1, t2, u);
    var r := PlayOn(t, uid, st, env).0;
    SameRow(t2, t2.(timers := t2.timers + 1), u);
    MovesChain(t, t2, t2.(timers := t2.timers + 1), u);
    SameRow(t, t1.(timers := t1.timers + 1), u);
  }

  lemma PauseMoves(d: Daemon, uid: int, u: int)
    requires OwnerInv(d)
    ensures Moves(d, PauseClient(d, uid).0, u)
  {
    hide Leads, P.Pause;
    SameRow(d, PauseClient(d, uid).0, u);
  }

  lemma LeaveMoves(d: Daemon, uid: int, u: int)
    requires Inv(d) && OwnerInv(d)
    ensures Moves(d, Leave(d, uid), u)
  {
    hide Core, Leads, StopClient;
    var d1 := StopClient(d, uid).0;
    StopMoves(d, uid, u);
    StopKeeps(d, uid);
    CoreHasAgent(d1);
    EraseMoves(d1, uid, u);
    MovesChain(d, d1, Leave(d, uid), u);
  }

  /** Once the client is not active, draining and erasing its record ends its row. */
  lemma EraseMoves(d: Daemon, uid: int, u: int)
    requires OwnerInv(d) && Unique(d.apps) && !Active(d.apps, uid)
    ensures var d1 := ClearClient(d.(players := P.Destroy(d.players, uid)), uid);
            Moves(d, d1.(apps := Delete(d1.apps, uid)), u)
  {
    hide Delete, Clear, P.Destroy, Leads, Find;
    EraseEffect(d.apps, uid);
    if !Has(d.apps, uid) { EraseNobody(d.apps, uid); }
    var d1 := ClearClient(d.(players := P.Destroy(d.players, uid)), uid);
    var r := d1.(apps := Delete(d1.apps, uid));
    assert forall v :: Get(r.apps, v) == if v == uid then None else Get(d.apps, v);
    if u == uid { GoneLeads(d, r, u); } else { SameOrEnded(d, r, u); }
  }

  lemma GoneLeads(d: Daemon, r: Daemon, u: int)
    requires OwnerInv(r) && StateOf(r.apps, u).None?
    ensures Leads(RowOf(d, u), RowOf(r, u))
  {
  }

  /** An idle engine is unloaded; without clients it has no job. */
  lemma IdleMoves(d: Daemon, env: Env, u: int)
    requires OwnerInv(d)
    ensures Moves(d, UnloadIfIdle(d, env), u)
  {
    SameRow(d, d, u);
    if ClientCount(d) == 0 {
      assert d.apps == [] && d.job.None?;
    }
  }

  lemma EnsureMoves(d: Daemon, env: Env, u: int)
    requires Inv(d) && OwnerInv(d)
    ensures Moves(d, EnsureEngine(d, env), u)
  {
    SameRow(d, d, u);
    if !d.isEngine {
      assert d.apps == [] && d.job.None?;
      SameRow(d, EnsureEngine(d, env), u);
    }
  }

  /** The row of a client that has just registered. */
  const Newcomer := Row([], Some(0), None)

  lemma RegisterMoves(d: Daemon, pid: int, uid: int, env: Env, u: int)
    requires Inv(d) && OwnerInv(d)
    ensures var r := InitClient(d, pid, uid, env).0;
            Moves(d, r, u) || (u == uid && StateOf(d.apps, u).None? && OwnerInv(r) && RowOf(r, u) == Newcomer)
    ensures Moves(d, InitSetting(d, pid, env).0, u)
  {
    hide Core, Leads, A.Load, EnsureEngine;
    var d1 := EnsureEngine(d, env);
    EnsureMoves(d, env, u);
    EnsureKeeps(d, env);
    CoreHasAgent(d1);
    A.LoadKeepsInv(d1.agent, env.lib);
    var a := if ClientCount(d1) == 0 then A.Load(d1.agent, env.lib).0 else d1.agent;
    AppendMoves(d1, a, pid, uid, env, u);
    var r, q := InitClient(d, pid, uid, env).0, InitSetting(d, pid, env).0;
    if Moves(d1, r, u) { MovesChain(d, d1, r, u); }
    MovesChain(d, d1, q, u);
  }

  lemma AppendMoves(d: Daemon, a: A.Agent, pid: int, uid: int, env: Env, u: int)
    requires OwnerInv(d) && (d.agent.init && d.agent.loaded ==> a.init && a.loaded)
    ensures Moves(d, d, u) && Moves(d, d.(agent := a), u) && Moves(d, d.(agent := a, settings := d.settings + [pid]), u)
    ensures !Has(d.apps, uid) ==>
              var r := d.(agent := a, apps := Append(d.apps, uid, NewRec(pid)), players := P.Create(d.players, uid, env.made).0);
              if u == uid then OwnerInv(r) && RowOf(r, u) == Newcomer else Moves(d, r, u)
  {
  }

  /** The walk of an engine change, before the engine is unloaded: queues go, the job does not yet. */
  lemma {:induction false} WalkEmpties(d: Daemon, i: nat, u: int)
    requires Inv(d)
    ensures var r := ResetFrom(d, i);
            if Find(d.apps, u) >= i then
              Texts(r.apps, u) == [] && Mark(r.apps, u) == Drained(Get(d.apps, u).value).stopped
            else Texts(r.apps, u) == Texts(d.apps, u) && Mark(r.apps, u) == Mark(d.apps, u)
    ensures var r := ResetFrom(d, i); r.job == d.job && r.agent == d.agent && r.synthesizing == d.synthesizing
    decreases |d.apps| - i
  {
    hide Core, ResetClient;
    if i < |d.apps| {
      var uid := d.apps[i].uid;
      var r := ResetClient(d, uid);
      ResetOneKeeps(d, i);
      ResetOneEmpties(d, uid, u);
      assert Find(d.apps, uid) == i by { CoreHasAgent(d); FindIs(d.apps, i); }
      WalkEmpties(r, i + 1, u);
    }
  }

  lemma ResetOneEmpties(d: Daemon, uid: int, u: int)
    requires Has(d.apps, uid)
    ensures var r := ResetClient(d, uid);
            if u == uid then Texts(r.apps, u) == [] && Mark(r.apps, u) == Drained(Get(d.apps, u).value).stopped
            else Get(r.apps, u) == Get(d.apps, u)
  {
  }

  lemma QuietedMoves(d: Daemon, env: Env, u: int)
    requires Inv(d) && OwnerInv(d) && d.agent.cur.Some?
    ensures var r := Quieted(d, env); r.job.None? && Texts(r.apps, u) == [] && Empties(RowOf(d, u), RowOf(r, u))
  {
    hide Core, P.AllStop, ResetFrom, UnloadJob;
    var d1 := d.(players := P.AllStop(d.players, d.apps));
    AllStopKeeps(d);
    WalkEmpties(d1, 0, u);
    QuietedKeeps(d, env);
    CoreHasAgent(d);
    UnloadEnds(ResetFrom(d1, 0), env.cancels, u);
    assert Has(d.apps, u) <==> Find(d.apps, u) >= 0;
  }

  lemma UnloadEnds(d: Daemon, cancels: bool, u: int)
    requires d.agent.init && d.agent.cur.Some? && (d.job.Some? ==> d.agent.loaded)
    ensures var r := UnloadJob(d, cancels);
            r.job.None? && Texts(r.apps, u) == Texts(d.apps, u) && Mark(r.apps, u) == Mark(d.apps, u)
  {
  }

  lemma ChangeMoves(d: Daemon, pid: int, id: string, env: Env, u: int)
    requires Inv(d) && OwnerInv(d) && (pid in d.settings ==> d.agent.cur.Some?)
    ensures Moves(d, ChangeEngine(d, pid, id, env).0, u)
  {
    hide Core, Quieted, A.SetEngine, A.IsSameEngine;
    SameRow(d, d, u);
    if pid in d.settings && !A.IsSameEngine(d.agent, id) {
      QuietedMoves(d, env, u);
    }
  }

  // ----- all steps

  /** The row when the client's own text has entered its queue. */
  function Pushed(a: Row, sd: SpeakData): Row {
    a.(texts := a.texts + [sd], mark := if sd.uttId == 1 then Some(0) else a.mark)
  }

  /** The text of an add enters the queue. */
  predicate Admits(d: Daemon, uid: int, sd: SpeakData) {
    Has(d.apps, uid) && A.SelectVoice(d.agent, sd.lang, sd.kind).Some?
  }

  lemma AddMoves(d: Daemon, uid: int, sd: SpeakData, env: Env, u: int)
    requires OwnerInv(d)
    ensures var r := AddQueue(d, uid, sd, env).0;
            if u == uid && Admits(d, uid, sd) then OwnerInv(r) && Leads(Pushed(RowOf(d, u), sd), RowOf(r, u))
            else Moves(d, r, u)
  {
    hide Leads, StartSynthesis, A.SelectVoice;
    SameRow(d, d, u);
    if Admits(d, uid, sd) {
      var d1 := Enqueue(d, uid, sd);
      AddTextEffect(d.apps, uid, sd);
      SameRow(d1, d1, u);
      if StateOf(d.apps, uid) == Some(Playing) {
        StartMoves(d1, uid, true, env, u);
      }
      if u != uid {
        SameRow(d, d1, u);
        MovesChain(d, d1, AddQueue(d, uid, sd, env).0, u);
      }
    }
  }

  lemma ReportMoves(d: Daemon, uid: int, c: SoundData, u: int)
    requires OwnerInv(d)
    ensures Moves(d, StreamBegins(d, uid, c), u) && Moves(d, StreamEnds(d, uid, c), u) && Moves(d, NextSound(d, uid), u)
  {
    hide Leads, P.OnBegin, P.OnEnd, P.NextPlay, WithPull;
    SameRow(d, StreamBegins(d, uid, c), u);
    SameRow(d, StreamEnds(d, uid, c), u);
    PullMoves(d, uid, P.NextPlay(d.players, d.apps, uid), u);
  }

  lemma DefaultsMove(d: Daemon, pid: int, v: Voice, speed: int, u: int)
    requires OwnerInv(d)
    ensures Moves(d, ChangeVoice(d, pid, v).0, u) && Moves(d, ChangeSpeed(d, pid, speed).0, u)
  {
    hide Leads;
    SameRow(d, ChangeVoice(d, pid, v).0, u);
    SameRow(d, ChangeSpeed(d, pid, speed).0, u);
  }

  lemma LeavingMoves(d: Daemon, uid: int, pid: int, env: Env, u: int)
    requires Inv(d) && OwnerInv(d)
    ensures Moves(d, FinalizeClient(d, uid, env).0, u) && Moves(d, FinalizeSetting(d, pid, env).0, u)
  {
    hide Core, Leads, Leave, UnloadIfIdle;
    SameRow(d, d, u);
    LeaveMoves(d, uid, u);
    IdleMoves(Leave(d, uid), env, u);
    MovesChain(d, Leave(d, uid), UnloadIfIdle(Leave(d, uid), env), u);
    var d1 := d.(settings := Without(d.settings, pid));
    SameRow(d, d1, u);
    IdleMoves(d1, env, u);
    MovesChain(d, d1, UnloadIfIdle(d1, env), u);
  }

  /** Every step of the daemon moves the row of every client, its own registration and accepted adds apart. */
  lemma StepMoves(d: Daemon, e: Event, env: Env, u: int)
    requires Inv(d) && OwnerInv(d) && Enabled(d, e)
    ensures var r := Step(d, e, env).0;
            if e.EvAdd? && e.uid == u && Admits(d, u, e.speak) then
              OwnerInv(r) && Leads(Pushed(RowOf(d, u), e.speak), RowOf(r, u))
            else
              Moves(d, r, u) ||
              (e.EvInit? && e.uid == u && StateOf(d.apps, u).None? && OwnerInv(r) && RowOf(r, u) == Newcomer)
  {
    hide Core, Leads, InitClient, FinalizeClient, AddQueue, PlayClient, StopClient, PauseClient, Tick, InitSetting, FinalizeSetting,
      ChangeEngine, ChangeVoice, ChangeSpeed, StreamBegins, StreamEnds, NextSound, Emit, P.OnError;
    match e
    case EvInit(pid, uid) => RegisterMoves(d, pid, uid, env, u);
    case EvFinalize(uid) => LeavingMoves(d, uid, 0, env, u);
    case EvAdd(uid, sd) => AddMoves(d, uid, sd, env, u);
    case EvPlay(uid) => PlayMoves(d, uid, env, u);
    case EvStop(uid) => StopMoves(d, uid, u);
    case EvPause(uid) => PauseMoves(d, uid, u);
    case EvTick => TickMoves(d, env, u);
    case EvResult(ev, pcm) => EmitMoves(d, ev, pcm, u);
    case EvInterrupt(uid) => SameRow(d, SendInterrupt(d, uid), u);
    case EvInitSetting(pid) => RegisterMoves(d, pid, 0, env, u);
    case EvFinalizeSetting(pid) => LeavingMoves(d, 0, pid, env, u);
    case EvChangeEngine(pid, id) => ChangeMoves(d, pid, id, env, u);
    case EvChangeVoice(pid, v) => DefaultsMove(d, pid, v, 0, u);
    case EvChangeSpeed(pid, s) => DefaultsMove(d, pid, Voice("", 0), s, u);
    case EvBegin(uid, c) => ReportMoves(d, uid, c, u);
    case EvEnd(uid, c) => ReportMoves(d, uid, c, u);
    case EvError(uid, c) => SameRow(d, StreamFails(d, uid, c), u);
    case EvNextSound(uid) => ReportMoves(d, uid, SoundData(0, Fail, []), u);
  }
}
