/**
 The daemon (server/ttsd_server.cpp) as a state machine.  Every request handler,
 timer and callback is one step, since they all run on one main loop.  The engine
 appears as the job it works on; what it and the rest of the environment answer
 during a step is the step's `Env`.
 */
module DaemonSpec {
  import opened Types
  import opened Tables
  import opened DataSpec
  import A = AgentSpec
  import P = PlayerSpec

  /** The utterance the engine works on; `streaming` once its first chunk is out. */
  datatype Job = Job(uid: int, speak: SpeakData, streaming: bool)

  /**
   The history: what was accepted, handed to the engine, received, played and thrown
   away, and what clients were told about it.
   */
  datatype Act =
    | Accepted(uid: int, speak: SpeakData)
    | Handed(uid: int, speak: SpeakData, voice: Voice, speed: int)
    | StartFailed(uid: int, speak: SpeakData)
    | ChunkIn(uid: int, sound: SoundData)
    | Refused(uid: int, uttId: int)
    | Ended(uid: int, uttId: int, event: ResultEvent)
    | Pulled(uid: int, sound: SoundData)
    | Cleared(uid: int)
    | Noted(note: P.Note)
    | ErrorSent(uid: int, uttId: int)
    | Began(uid: int, sound: SoundData)
    | Over(uid: int, sound: SoundData)

  datatype Env = Env(
    network: bool,                  // the network is up
    accepts: bool,                  // start_synth returns success
    lib: Option<A.EngineLib>,       // what loading an engine yields
    scan: seq<A.EngineInfo>,        // the engines found in the directories
    cancels: bool,                  // an engine that is unloaded reports its job cancelled
    made: bool)                     // the media library creates a player

  datatype Daemon = Daemon(
    apps: Apps,
    settings: seq<int>,
    agent: A.Agent,
    players: P.Players,
    isEngine: bool,
    synthesizing: bool,
    next: bool,
    timers: nat,                            // live __start_next_synthesis timers
    job: Option<Job>,
    interrupts: multiset<int>,              // live __send_interrupt_client timers
    outbox: multiset<(int, AppState)>,      // state messages on their way to clients
    log: seq<Act>)

  function ClientCount(d: Daemon): nat {
    |d.apps| + |d.settings|
  }

  function Log(d: Daemon, acts: seq<Act>): Daemon {
    d.(log := d.log + acts)
  }

  // ----- engine results

  predicate IsSound(ev: ResultEvent) {
    ev == Start || ev == Continue || ev == Finish
  }

  predicate EndsJob(ev: ResultEvent) {
    ev == Finish || ev == Fail || ev == Cancel
  }

  /** The result callback.  A refused id returns before the flags are touched. */
  function OnResult(d: Daemon, ev: ResultEvent, uid: int, uttId: int, pcm: seq<int>): (r: Daemon)
    ensures r == d.(apps := r.apps, synthesizing := r.synthesizing, next := r.next, log := r.log)
    ensures SameStates(d.apps, r.apps)
  {
    if IsSound(ev) then
      if !UttIdValid(d.apps, uid, uttId) then Log(d, [Refused(uid, uttId)])
      else if !d.agent.init || !d.agent.loaded then d
      else
        var c := SoundData(uttId, ev, pcm);
        var d1 := if Has(d.apps, uid) then Log(d, [ChunkIn(uid, c)]).(apps := AddSound(d.apps, uid, c)) else d;
        if ev == Finish then d1.(synthesizing := false, next := true) else d1
    else d.(synthesizing := false, next := true)
  }

  /** The engine reports on its job. */
  function Emit(d: Daemon, ev: ResultEvent, pcm: seq<int>): (r: Daemon)
    requires d.job.Some?
    ensures r == d.(apps := r.apps, synthesizing := r.synthesizing, next := r.next, job := r.job, log := r.log)
    ensures SameStates(d.apps, r.apps)
  {
    var j := d.job.value;
    var d1 := OnResult(d, ev, j.uid, j.speak.uttId, pcm);
    if EndsJob(ev) then Log(d1, [Ended(j.uid, j.speak.uttId, ev)]).(job := None)
    else d1.(job := Some(j.(streaming := true)))
  }

  /** START first, then CONTINUE; FINISH, FAIL and CANCEL at any time. */
  predicate EngineAllows(j: Job, ev: ResultEvent) {
    (ev == Start ==> !j.streaming) && (ev == Continue ==> j.streaming)
  }

  /** Cancelling ends the job and reports it before the call returns. */
  function CancelJob(d: Daemon): (r: Daemon)
    ensures r == d.(apps := r.apps, synthesizing := r.synthesizing, next := r.next, job := r.job, log := r.log)
    ensures SameStates(d.apps, r.apps)
  {
    if d.agent.init && d.agent.loaded && d.job.Some? then Emit(d, Cancel, []) else d
  }

  /** Unloading the engine ends its job, reported or not. */
  function UnloadJob(d: Daemon, cancels: bool): (r: Daemon)
    ensures r == d.(apps := r.apps, synthesizing := r.synthesizing, next := r.next, job := r.job, log := r.log)
    ensures SameStates(d.apps, r.apps)
  {
    if !(d.agent.init && d.agent.cur.Some? && d.agent.loaded && d.job.Some?) then d
    else if cancels then Emit(d, Cancel, [])
    else Log(d, [Ended(d.job.value.uid, d.job.value.speak.uttId, Cancel)]).(job := None)
  }

  // ----- requests

  function ClearClient(d: Daemon, uid: int): (r: Daemon)
    ensures r == d.(apps := r.apps, log := r.log)
    ensures SameStates(d.apps, r.apps)
  {
    if Has(d.apps, uid) then Log(d, [Cleared(uid)]).(apps := Clear(d.apps, uid)) else d
  }

  function StopSynthesis(d: Daemon): (r: Daemon)
    ensures r == d.(apps := r.apps, synthesizing := r.synthesizing, next := r.next, job := r.job, log := r.log)
    ensures SameStates(d.apps, r.apps)
  {
    if d.synthesizing then CancelJob(d).(synthesizing := false) else d
  }

  function StopClient(d: Daemon, uid: int): (r: (Daemon, Error))
    ensures r.0 == d.(apps := r.0.apps, players := r.0.players, synthesizing := r.0.synthesizing,
                      next := r.0.next, job := r.0.job, log := r.0.log)
  {
    match StateOf(d.apps, uid)
    case None => (d, InvalidParameter)
    case Some(st) =>
      var d1 := ClearClient(d, uid);
      if st == Playing || st == Paused then
        (StopSynthesis(d1.(apps := WithState(d1.apps, uid, Ready), players := P.Stop(d1.players, uid))), NoError)
      else (d1, NoError)
  }

  /** Take the client's oldest text and start the engine on it; false when the start fails. */
  function Hand(d: Daemon, uid: int, env: Env): (r: (Daemon, bool))
    requires Texts(d.apps, uid) != []
    ensures r.0 == d.(apps := r.0.apps, synthesizing := r.0.synthesizing, job := r.0.job, log := r.0.log)
    ensures SameStates(d.apps, r.0.apps)
  {
    var sd := Texts(d.apps, uid)[0];
    var d1 := d.(apps := DropText(d.apps, uid));
    var call := A.StartCall(d.agent, sd);
    if call.Some? && env.accepts then
      (Log(d1, [Handed(uid, sd, call.value.0, call.value.1)]).(synthesizing := true, job := Some(Job(uid, sd, false))), true)
    else (Log(d1, [StartFailed(uid, sd)]).(synthesizing := false), false)
  }

  /** After a failed start the client is told the error, stopped, and told that it is ready. */
  function FailClient(d: Daemon, uid: int, uttId: int): (r: Daemon)
    ensures r == d.(apps := r.apps, players := r.players, synthesizing := r.synthesizing,
                    next := r.next, job := r.job, outbox := r.outbox, log := r.log)
  {
    var d1 := StopClient(Log(d, [ErrorSent(uid, uttId)]), uid).0;
    d1.(outbox := d1.outbox + multiset{(uid, Ready)})
  }

  /** The id of the client's oldest text. */
  function HeadId(d: Daemon, uid: int): int
    requires Texts(d.apps, uid) != []
  {
    Texts(d.apps, uid)[0].uttId
  }

  /** `adding`: the start was caused by adding a text, not by play. */
  function StartSynthesis(d: Daemon, uid: int, adding: bool, env: Env): (r: (Daemon, Error))
    ensures r.0 == d.(apps := r.0.apps, players := r.0.players, synthesizing := r.0.synthesizing,
                      next := r.0.next, job := r.0.job, outbox := r.0.outbox, log := r.0.log)
  {
    if d.synthesizing || Texts(d.apps, uid) == [] then (d, NoError)
    else
      var (d1, ok) := Hand(d, uid, env);
      if ok then (d1, NoError) else (if adding then FailClient(d1, uid, HeadId(d, uid)) else d1, OperationFailed)
  }

  function WithPull(d: Daemon, uid: int, p: P.Pull): Daemon {
    Log(d, match p.taken case None => [] case Some(c) => [Pulled(uid, c)]).(players := p.ps, apps := p.apps)
  }

  function NextSynthesis(d: Daemon, env: Env): (r: Daemon)
    ensures r == d.(apps := r.apps, players := r.players, synthesizing := r.synthesizing,
                    next := r.next, job := r.job, outbox := r.outbox, log := r.log)
  {
    var uid := CurrentPlaying(d.apps);
    if uid < 0 || d.synthesizing then d
    else
      var d1 :=
        if Texts(d.apps, uid) == [] then d
        else var (h, ok) := Hand(d, uid, env); if ok then h else FailClient(h, uid, HeadId(d, uid));
      WithPull(d1, uid, P.Play(d1.players, d1.apps, uid))
  }

  /** The polling timer; it dies when nobody is playing. */
  function Tick(d: Daemon, env: Env): Daemon
    requires d.timers > 0
  {
    if CurrentPlaying(d.apps) < 0 then d.(timers := d.timers - 1)
    else if d.next then NextSynthesis(d, env).(next := false)
    else d
  }

  function EnsureEngine(d: Daemon, env: Env): (r: Daemon)
    ensures r == d.(agent := r.agent, isEngine := r.isEngine)
  {
    if d.isEngine then d
    else
      var (a, ok) := A.InitCurrent(d.agent, env.scan);
      d.(agent := a, isEngine := ok)
  }

  function InitClient(d: Daemon, pid: int, uid: int, env: Env): (Daemon, Error) {
    var d1 := EnsureEngine(d, env);
    if !d1.isEngine then (d1, EngineNotFound)
    else if Has(d1.apps, uid) then (d1, InvalidParameter)
    else
      var (a, loaded) := if ClientCount(d1) == 0 then A.Load(d1.agent, env.lib) else (d1.agent, true);
      var d2 := d1.(agent := a);
      if !loaded then (d2, OperationFailed)
      else
        var (ps, ok) := P.Create(d2.players, uid, env.made);
        (d2.(apps := Append(d2.apps, uid, NewRec(pid)), players := ps), if ok then NoError else OperationFailed)
  }

  /** The last client to leave unloads the engine. */
  function UnloadIfIdle(d: Daemon, env: Env): Daemon {
    if ClientCount(d) != 0 then d
    else
      var d1 := UnloadJob(d, env.cancels);
      d1.(agent := A.Unload(d1.agent).0)
  }

  /** Leaving: stopped, player destroyed, queues drained, record erased. */
  function Leave(d: Daemon, uid: int): Daemon {
    var d1 := StopClient(d, uid).0;
    var d2 := ClearClient(d1.(players := P.Destroy(d1.players, uid)), uid);
    d2.(apps := Delete(d2.apps, uid))
  }

  function FinalizeClient(d: Daemon, uid: int, env: Env): (Daemon, Error) {
    if !Has(d.apps, uid) then (d, InvalidParameter)
    else (UnloadIfIdle(Leave(d, uid), env), NoError)
  }

  predicate Unreachable(d: Daemon, env: Env) {
    A.NeedNetwork(d.agent) && !env.network
  }

  /** The text enters the queue. */
  function Enqueue(d: Daemon, uid: int, sd: SpeakData): Daemon {
    Log(d, [Accepted(uid, sd)]).(apps := AddText(d.apps, uid, sd))
  }

  function AddQueue(d: Daemon, uid: int, sd: SpeakData, env: Env): (Daemon, Error) {
    if !Has(d.apps, uid) then (d, InvalidParameter)
    else if A.SelectVoice(d.agent, sd.lang, sd.kind).None? then (d, InvalidVoice)
    else
      var d1 := Enqueue(d, uid, sd);
      if !IsPlaying(d.apps, uid) then (d1, NoError)
      else if Unreachable(d, env) then (d1, OperationFailed)
      else StartSynthesis(d1, uid, true, env)
  }

  /** The playing client, if it is another one, is paused; a timer will tell it. */
  function Interrupt(d: Daemon, cur: int): Daemon {
    d.(players := P.Pause(d.players, cur).0,
       apps := if MaySetState(d.apps, cur, Paused) then WithState(d.apps, cur, Paused) else d.apps,
       interrupts := d.interrupts + multiset{cur})
  }

  function PauseCurrent(d: Daemon, uid: int): Daemon {
    var cur := CurrentPlaying(d.apps);
    if uid != cur && cur != -1 then Interrupt(d, cur) else d
  }

  /** The client is the playing one now: resume its player, start the engine, keep a timer going. */
  function PlayOn(d: Daemon, uid: int, st: AppState, env: Env): (Daemon, Error) {
    var d1 := if st == Paused then d.(players := P.Resume(d.players, uid)) else d;
    var (d2, err) := if st == Paused || st == Ready then StartSynthesis(d1, uid, false, env) else (d1, NoError);
    if err != NoError then (d2, OperationFailed) else (d2.(timers := d2.timers + 1), NoError)
  }

  function PlayClient(d: Daemon, uid: int, env: Env): (Daemon, Error) {
    match StateOf(d.apps, uid)
    case None => (d, InvalidParameter)
    case Some(st) =>
      if st == Playing then (d, NoError)
      else if Unreachable(d, env) then (d, OutOfNetwork)
      else
        var d1 := PauseCurrent(d, uid);
        if !MaySetState(d1.apps, uid, Playing) then (d1, OperationFailed)
        else PlayOn(d1.(apps := WithState(d1.apps, uid, Playing)), uid, st, env)
  }

  function PauseClient(d: Daemon, uid: int): (Daemon, Error) {
    match StateOf(d.apps, uid)
    case None => (d, InvalidParameter)
    case Some(st) =>
      if st != Playing then (d, InvalidState)
      else
        var (ps, ok) := P.Pause(d.players, uid);
        if !ok then (d.(players := ps), OperationFailed)
        else (d.(players := ps, apps := WithState(d.apps, uid, Paused)), NoError)
  }

  /** The interrupt timer; the message for a client that has left goes nowhere. */
  function SendInterrupt(d: Daemon, uid: int): Daemon {
    d.(interrupts := d.interrupts - multiset{uid},
       outbox := if Has(d.apps, uid) then d.outbox + multiset{(uid, Paused)} else d.outbox)
  }

  // ----- settings

  function InitSetting(d: Daemon, pid: int, env: Env): (Daemon, Error) {
    var d1 := EnsureEngine(d, env);
    if !d1.isEngine then (d1, EngineNotFound)
    else if pid in d1.settings then (d1, InvalidParameter)
    else
      var (a, loaded) := if ClientCount(d1) == 0 then A.Load(d1.agent, env.lib) else (d1.agent, true);
      var d2 := d1.(agent := a);
      if !loaded then (d2, OperationFailed) else (d2.(settings := d2.settings + [pid]), NoError)
  }

  function FinalizeSetting(d: Daemon, pid: int, env: Env): (Daemon, Error) {
    if pid !in d.settings then (d, InvalidParameter)
    else (UnloadIfIdle(d.(settings := Without(d.settings, pid)), env), NoError)
  }

  function ResetClient(d: Daemon, uid: int): (r: Daemon)
    ensures |r.apps| == |d.apps|
    ensures r == d.(apps := r.apps, outbox := r.outbox, log := r.log)
  {
    var d1 := ClearClient(d, uid);
    d1.(apps := WithState(d1.apps, uid, Ready), outbox := d1.outbox + multiset{(uid, Ready)})
  }

  /** The walk over the clients, from index `i`. */
  function ResetFrom(d: Daemon, i: nat): (r: Daemon)
    ensures |r.apps| == |d.apps| && r == d.(apps := r.apps, outbox := r.outbox, log := r.log)
    decreases |d.apps| - i
  {
    if i >= |d.apps| then d
    else
      var d1 := ResetClient(d, d.apps[i].uid);
      ResetFrom(d1, i + 1)
  }

  /** Everything of an engine change but the engine. */
  function Quieted(d: Daemon, env: Env): Daemon {
    UnloadJob(ResetFrom(d.(players := P.AllStop(d.players, d.apps)), 0), env.cancels)
  }

  function ChangeEngine(d: Daemon, pid: int, id: string, env: Env): (Daemon, Error)
    requires pid in d.settings ==> d.agent.cur.Some?
  {
    if pid !in d.settings then (d, InvalidParameter)
    else if A.IsSameEngine(d.agent, id) then (d, NoError)
    else
      var d1 := Quieted(d, env);
      var (a, err) := A.SetEngine(d1.agent, id, env.lib);
      (d1.(agent := a), err)
  }

  function ChangeVoice(d: Daemon, pid: int, v: Voice): (Daemon, Error) {
    if pid !in d.settings then (d, InvalidParameter)
    else var (a, err) := A.SetDefaultVoice(d.agent, v); (d.(agent := a), err)
  }

  function ChangeSpeed(d: Daemon, pid: int, speed: int): (Daemon, Error) {
    if pid !in d.settings then (d, InvalidParameter)
    else var (a, err) := A.SetDefaultSpeed(d.agent, speed); (d.(agent := a), err)
  }

  // ----- media callbacks

  function WithNote(d: Daemon, x: Act, r: (P.Players, Option<P.Note>)): Daemon {
    Log(d, match r.1 case None => [x] case Some(n) => [x, Noted(n)]).(players := r.0)
  }

  function StreamBegins(d: Daemon, uid: int, c: SoundData): Daemon {
    WithNote(d, Began(uid, c), P.OnBegin(d.players, uid, c, StateOf(d.apps, uid)))
  }

  function StreamEnds(d: Daemon, uid: int, c: SoundData): Daemon {
    WithNote(d, Over(uid, c), P.OnEnd(d.players, uid, c))
  }

  /** A stream breaks off; the client is told the error. */
  function StreamFails(d: Daemon, uid: int, c: SoundData): Daemon {
    Log(d, [ErrorSent(uid, c.uttId)]).(players := P.OnError(d.players, uid))
  }

  function NextSound(d: Daemon, uid: int): Daemon {
    WithPull(d, uid, P.NextPlay(d.players, d.apps, uid))
  }

  // ----- runs

  datatype Event =
    | EvInit(pid: int, uid: int)
    | EvFinalize(uid: int)
    | EvAdd(uid: int, speak: SpeakData)
    | EvPlay(uid: int)
    | EvStop(uid: int)
    | EvPause(uid: int)
    | EvTick
    | EvResult(event: ResultEvent, pcm: seq<int>)
    | EvInterrupt(uid: int)
    | EvInitSetting(pid: int)
    | EvFinalizeSetting(pid: int)
    | EvChangeEngine(pid: int, id: string)
    | EvChangeVoice(pid: int, voice: Voice)
    | EvChangeSpeed(pid: int, speed: int)
    | EvBegin(uid: int, sound: SoundData)
    | EvEnd(uid: int, sound: SoundData)
    | EvError(uid: int, sound: SoundData)
    | EvNextSound(uid: int)

  /** What the environment can do; client uids are positive by construction. */
  predicate Enabled(d: Daemon, e: Event) {
    match e
    case EvInit(_, uid) => uid > 0
    case EvTick => d.timers > 0
    case EvResult(ev, _) => d.job.Some? && EngineAllows(d.job.value, ev)
    case EvInterrupt(uid) => uid in d.interrupts
    case EvChangeEngine(pid, _) => pid in d.settings ==> d.agent.cur.Some?
    case EvNextSound(uid) => uid in d.players.due
    case _ => true
  }

  function Step(d: Daemon, e: Event, env: Env): (Daemon, Error)
    requires Enabled(d, e)
  {
    match e
    case EvInit(pid, uid) => InitClient(d, pid, uid, env)
    case EvFinalize(uid) => FinalizeClient(d, uid, env)
    case EvAdd(uid, sd) => AddQueue(d, uid, sd, env)
    case EvPlay(uid) => PlayClient(d, uid, env)
    case EvStop(uid) => StopClient(d, uid)
    case EvPause(uid) => PauseClient(d, uid)
    case EvTick => (Tick(d, env), NoError)
    case EvResult(ev, pcm) => (Emit(d, ev, pcm), NoError)
    case EvInterrupt(uid) => (SendInterrupt(d, uid), NoError)
    case EvInitSetting(pid) => InitSetting(d, pid, env)
    case EvFinalizeSetting(pid) => FinalizeSetting(d, pid, env)
    case EvChangeEngine(pid, id) => ChangeEngine(d, pid, id, env)
    case EvChangeVoice(pid, v) => ChangeVoice(d, pid, v)
    case EvChangeSpeed(pid, s) => ChangeSpeed(d, pid, s)
    case EvBegin(uid, c) => (StreamBegins(d, uid, c), NoError)
    case EvEnd(uid, c) => (StreamEnds(d, uid, c), NoError)
    case EvError(uid, c) => (StreamFails(d, uid, c), NoError)
    case EvNextSound(uid) => (NextSound(d, uid), NoError)
  }

  /** Start-up over an agent that has read its settings. */
  function Boot(agent: A.Agent, scan: seq<A.EngineInfo>): Daemon {
    var (a, ok) := A.InitCurrent(agent, scan);
    Daemon([], [], a, P.Players([], None, multiset{}), ok, false, false, 0, None, multiset{}, multiset{}, [])
  }

  /** The state after some events; an event that is not enabled does not happen. */
  function Run(d: Daemon, es: seq<(Event, Env)>): Daemon {
    if es == [] then d
    else
      var d1 := Run(d, es[..|es| - 1]);
      var (e, env) := Last(es);
      if Enabled(d1, e) then Step(d1, e, env).0 else d1
  }
}
