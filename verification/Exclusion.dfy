/**
 Distributed mutual exclusion: of all handles in all processes at most one believes that
 it is playing without a message on its way that will tell it otherwise.
 */
module Exclusion {
  import opened Types
  import opened DataSpec
  import opened DaemonSpec
  import opened DaemonInv
  import opened Notices
  import opened ClientSpec
  import opened SystemSpec
  import A = AgentSpec

  /** The answer to the handle's request says that it is leaving, or that it has stopped playing. */
  predicate Yielding(h: Handle) {
    h.answer.Some? && var (call, err) := h.answer.value;
    call == Unprepare || call == Destroy || (err == NoError && (call == ClientSpec.Stop || call == ClientSpec.Pause))
  }

  /** The handle believes that it is playing, or will as soon as its answer comes. */
  predicate Believes(h: Handle) {
    (h.local.state == Playing || h.answer == Some((ClientSpec.Play, NoError))) && !Yielding(h)
  }

  /** The belief is right, or a message will correct it. */
  predicate Grounded(d: Daemon, uid: int, h: Handle) {
    Believes(h) ==> StateOf(d.apps, uid) == Some(Playing) || (StateOf(d.apps, uid).Some? && Noticed(d, uid))
  }

  ghost predicate AllGrounded(s: System) {
    && Inv(s.daemon) && Polite(s.daemon.outbox)
    && forall uid | uid in s.handles :: Grounded(s.daemon, uid, s.handles[uid])
  }

  // ----- the daemon's side of a move

  lemma OthersStay(d: Daemon, e: Event, env: Env, u: int, h: Handle)
    requires Inv(d) && Enabled(d, e) && !GivesUp(e, u) && Grounded(d, u, h)
    ensures Grounded(Step(d, e, env).0, u, h)
  {
    hide Core, Step, Noticed, Polite;
    StepTells(d, e, env, u);
  }

  /** A play that reports success has made its client the playing one. */
  lemma PlayAnswers(d: Daemon, uid: int, env: Env)
    requires Inv(d) && PlayClient(d, uid, env).1 == NoError
    ensures StateOf(PlayClient(d, uid, env).0.apps, uid) == Some(Playing)
  {
    hide Core, PlayOn, TakeOver;
    PlayKeeps(d, uid, env);
  }

  /** A stop of a registered client is not refused. */
  lemma StopAnswers(d: Daemon, uid: int)
    ensures StopClient(d, uid).1 == NoError <==> StateOf(d.apps, uid).Some?
  {
  }

  /** A pause that fails leaves the client's state alone. */
  lemma PauseAnswers(d: Daemon, uid: int)
    ensures var (r, err) := PauseClient(d, uid);
            err != NoError ==> r.apps == d.apps && r.interrupts == d.interrupts && r.outbox == d.outbox
  {
  }

  /** The asking handle itself, once its request is served. */
  lemma AskerStays(d: Daemon, uid: int, pid: int, call: Call, speak: SpeakData, env: Env, h: Handle, r: Daemon, g: Handle)
    requires Inv(d) && uid > 0 && h.answer == None && Grounded(d, uid, h) && Allows(h.local, call)
    requires var l := Sent(h.local, call); var e := Wire(uid, pid, call, speak, l.uttId);
             r == Step(d, e, env).0 && g.local == l && g.answer == Some((call, Step(d, e, env).1))
    ensures Grounded(r, uid, g)
  {
    hide Core, StopClient, PauseClient, PlayClient, InitClient, AddQueue, FinalizeClient, Noticed, Polite;
    var e := Wire(uid, pid, call, speak, g.local.uttId);
    if !Yielding(g) {
      match call
      case Play => if g.answer.value.1 == NoError { PlayAnswers(d, uid, env); }
      case Stop => StopAnswers(d, uid);
      case Pause => PauseAnswers(d, uid); SameStatesTell(d, r, uid);
      case Connect => StepTells(d, e, env, uid);
      case AddText => StepTells(d, e, env, uid);
      case Unprepare =>
      case Destroy =>
    }
  }

  // ----- the moves

  lemma AskKeeps(s: System, uid: int, pid: int, call: Call, speak: SpeakData, env: Env)
    requires AllGrounded(s) && CanMove(s, Ask(uid, pid, call, speak))
    ensures AllGrounded(AskStep(s, uid, pid, call, speak, env))
  {
    hide Core, Step, Polite, Grounded;
    var h, t := s.handles[uid], AskStep(s, uid, pid, call, speak, env);
    var e := Wire(uid, pid, call, speak, Sent(h.local, call).uttId);
    StepKeepsInv(s.daemon, e, env);
    StepTells(s.daemon, e, env, uid);
    forall v | v in t.handles ensures Grounded(t.daemon, v, t.handles[v]) {
      if v == uid {
        AskerStays(s.daemon, uid, pid, call, speak, env, h, t.daemon, t.handles[v]);
      } else {
        OthersStay(s.daemon, e, env, v, s.handles[v]);
      }
    }
  }

  lemma AnswerKeeps(s: System, uid: int)
    requires AllGrounded(s) && CanMove(s, Answer(uid))
    ensures AllGrounded(AnswerStep(s, uid))
  {
    hide Core, Noticed, Polite;
    var t := AnswerStep(s, uid);
    forall v | v in t.handles ensures Grounded(t.daemon, v, t.handles[v]) {
      assert Grounded(s.daemon, v, s.handles[v]);
      if v == uid {
        var (call, err) := s.handles[v].answer.value;
        assert t.handles[v] == s.handles[v].(local := Answered(s.handles[v].local, call, err), answer := None);
      }
    }
  }

  /** The message that is delivered is the only one that is not pending any more. */
  lemma DeliverKeeps(s: System, uid: int, st: AppState)
    requires AllGrounded(s) && CanMove(s, Deliver(uid, st))
    ensures AllGrounded(DeliverStep(s, uid, st))
  {
    hide Core;
    var t := DeliverStep(s, uid, st);
    assert (uid, st).1 == Ready || st == Paused;
    forall v | v in t.handles ensures Grounded(t.daemon, v, t.handles[v]) {
      if v != uid {
        assert Grounded(s.daemon, v, s.handles[v]);
      }
    }
  }

  lemma InternalKeeps(s: System, e: Event, env: Env)
    requires AllGrounded(s) && CanMove(s, Internal(e))
    ensures AllGrounded(Moved(s, Internal(e), env))
  {
    hide Core, Step, Polite, Grounded;
    StepKeepsInv(s.daemon, e, env);
    StepTells(s.daemon, e, env, 0);
    forall v | v in s.handles ensures Grounded(Step(s.daemon, e, env).0, v, s.handles[v]) {
      OthersStay(s.daemon, e, env, v, s.handles[v]);
    }
  }

  lemma MoveKeeps(s: System, m: Move, env: Env)
    requires AllGrounded(s) && CanMove(s, m)
    ensures AllGrounded(Moved(s, m, env))
  {
    hide Core, Polite, AskStep, AnswerStep, DeliverStep, Noticed;
    match m
    case Ask(uid, pid, call, speak) => AskKeeps(s, uid, pid, call, speak, env);
    case Answer(uid) => AnswerKeeps(s, uid);
    case Deliver(uid, st) => DeliverKeeps(s, uid, st);
    case Internal(e) => InternalKeeps(s, e, env);
    case Create(uid) =>
    case Prepare(uid) => assert Grounded(s.daemon, uid, s.handles[uid]);
    case Drop(uid) =>
  }

  lemma {:induction false} AlwaysGrounded(agent: A.Agent, scan: seq<A.EngineInfo>, ms: seq<(Move, Env)>)
    requires A.Inv(agent) && agent.init && agent.cur.None?
    ensures AllGrounded(After(Launch(agent, scan), ms))
  {
    hide AllGrounded, Moved;
    if ms == [] {
      StartGrounded(agent, scan);
    } else {
      AlwaysGrounded(agent, scan, ms[..|ms| - 1]);
      var t := After(Launch(agent, scan), ms[..|ms| - 1]);
      var (m, env) := Last(ms);
      if CanMove(t, m) {
        MoveKeeps(t, m, env);
      }
    }
  }

  lemma StartGrounded(agent: A.Agent, scan: seq<A.EngineInfo>)
    requires A.Inv(agent) && agent.init && agent.cur.None?
    ensures AllGrounded(Launch(agent, scan))
  {
    hide Core;
    BootInv(agent, scan);
  }

  /** A handle that believes it is playing and has nothing on its way, neither answer nor message. */
  predicate SurelyPlaying(s: System, uid: int) {
    Free(s, uid) && s.handles[uid].local.state == Playing && !Noticed(s.daemon, uid)
  }

  /**
   In every reachable state of the whole system: a handle that is locally playing while
   the daemon does not have it playing has a "paused" or "ready" message pending; so a
   handle with nothing pending is right, and there is at most one such handle.
   */
  lemma {:induction false} MutualExclusion(agent: A.Agent, scan: seq<A.EngineInfo>, ms: seq<(Move, Env)>)
    requires A.Inv(agent) && agent.init && agent.cur.None?
    ensures var s := After(Launch(agent, scan), ms);
            && (forall u | Free(s, u) && s.handles[u].local.state == Playing ::
                  StateOf(s.daemon.apps, u) == Some(Playing) || Noticed(s.daemon, u))
            && (forall u, v | SurelyPlaying(s, u) && SurelyPlaying(s, v) :: u == v)
  {
    hide Core, Noticed;
    AlwaysGrounded(agent, scan, ms);
    var s := After(Launch(agent, scan), ms);
    OnePlaying(s.daemon);
    forall u | Free(s, u) && s.handles[u].local.state == Playing
      ensures StateOf(s.daemon.apps, u) == Some(Playing) || Noticed(s.daemon, u)
    {
      assert Grounded(s.daemon, u, s.handles[u]);
    }
  }

  lemma OnePlaying(d: Daemon)
    requires Inv(d)
    ensures AtMostOnePlaying(d.apps)
  {
  }
}
