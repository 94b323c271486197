/**
 The daemon together with all handles of all client processes.  A client is blocked
 from sending a request until its answer, so that sending and serving are one step and
 receiving the answer is another; state messages come in any order, between requests.
 */
module SystemSpec {
  import opened Types
  import opened DaemonSpec
  import opened ClientSpec
  import A = AgentSpec

  /** A handle; `timers` of prepare that have not run, and the answer on its way, if any. */
  datatype Handle = Handle(local: Local, timers: nat, answer: Option<(Call, Error)>)

  datatype System = System(daemon: Daemon, handles: map<int, Handle>)

  datatype Move =
    | Create(uid: int)
    | Prepare(uid: int)
    | Ask(uid: int, pid: int, call: Call, speak: SpeakData)
    | Answer(uid: int)
    | Drop(uid: int)                       // destroy of a handle that is not connected
    | Deliver(uid: int, state: AppState)
    | Internal(event: Event)               // timers, engine, media, settings

  /** The request a call sends; the text carries the id drawn for it. */
  function Wire(uid: int, pid: int, call: Call, speak: SpeakData, id: int): Event {
    match call
    case Connect => EvInit(pid, uid)
    case Unprepare => EvFinalize(uid)
    case Destroy => EvFinalize(uid)
    case AddText => EvAdd(uid, speak.(uttId := id))
    case Play => EvPlay(uid)
    case Stop => EvStop(uid)
    case Pause => EvPause(uid)
  }

  /** Not a client's request. */
  predicate IsInternal(e: Event) {
    !(e.EvInit? || e.EvFinalize? || e.EvAdd? || e.EvPlay? || e.EvStop? || e.EvPause?)
  }

  predicate Free(s: System, uid: int) {
    uid in s.handles && s.handles[uid].answer.None?
  }

  /** What can happen next; a call that fails its state check changes nothing and is no move. */
  predicate CanMove(s: System, m: Move) {
    match m
    case Create(uid) => uid > 0 && uid !in s.handles
    case Prepare(uid) => Free(s, uid) && s.handles[uid].local.state == Created
    case Ask(uid, _, call, _) =>
      uid > 0 && Free(s, uid) && Allows(s.handles[uid].local, call) && (call == Connect ==> s.handles[uid].timers > 0)
    case Answer(uid) => uid in s.handles && s.handles[uid].answer.Some?
    case Drop(uid) => Free(s, uid) && s.handles[uid].local.state == Created
    case Deliver(uid, st) => (uid, st) in s.daemon.outbox && (uid in s.handles ==> Free(s, uid))
    case Internal(e) => IsInternal(e) && Enabled(s.daemon, e)
  }

  /** Sending a request and having it served. */
  function AskStep(s: System, uid: int, pid: int, call: Call, speak: SpeakData, env: Env): System
    requires CanMove(s, Ask(uid, pid, call, speak))
  {
    var h := s.handles[uid];
    var l := Sent(h.local, call);
    var (d, err) := Step(s.daemon, Wire(uid, pid, call, speak, l.uttId), env);
    System(d, s.handles[uid := Handle(l, if call == Connect then h.timers - 1 else h.timers, Some((call, err)))])
  }

  /** Receiving the answer; a destroyed handle is gone. */
  function AnswerStep(s: System, uid: int): System
    requires CanMove(s, Answer(uid))
  {
    var h := s.handles[uid];
    var (call, err) := h.answer.value;
    if call == Destroy then s.(handles := s.handles - {uid})
    else s.(handles := s.handles[uid := h.(local := Answered(h.local, call, err), answer := None)])
  }

  function DeliverStep(s: System, uid: int, st: AppState): System {
    var d := s.daemon.(outbox := s.daemon.outbox - multiset{(uid, st)});
    if uid !in s.handles then s.(daemon := d)
    else System(d, s.handles[uid := s.handles[uid].(local := Told(s.handles[uid].local, st))])
  }

  function Moved(s: System, m: Move, env: Env): System
    requires CanMove(s, m)
  {
    match m
    case Create(uid) => s.(handles := s.handles[uid := Handle(NewLocal, 0, None)])
    case Prepare(uid) => s.(handles := s.handles[uid := s.handles[uid].(timers := s.handles[uid].timers + 1)])
    case Ask(uid, pid, call, speak) => AskStep(s, uid, pid, call, speak, env)
    case Answer(uid) => AnswerStep(s, uid)
    case Drop(uid) => s.(handles := s.handles - {uid})
    case Deliver(uid, st) => DeliverStep(s, uid, st)
    case Internal(e) => s.(daemon := Step(s.daemon, e, env).0)
  }

  function Launch(agent: A.Agent, scan: seq<A.EngineInfo>): System {
    System(Boot(agent, scan), map[])
  }

  /** The state after some moves; a move that cannot be made does not happen. */
  function After(s: System, ms: seq<(Move, Env)>): System {
    if ms == [] then s
    else
      var t := After(s, ms[..|ms| - 1]);
      var (m, env) := Last(ms);
      if CanMove(t, m) then Moved(t, m, env) else t
  }
}
