/**
 What a call of the library amounts to for the two sides together: in which states it
 reaches the daemon, what the handle is after the answer, and that a call that succeeds
 leaves handle and daemon in the same state.
 */
module Protocol {
  import opened Types
  import opened Tables
  import opened DataSpec
  import opened DaemonSpec
  import opened DaemonInv
  import opened Notices
  import opened ClientSpec
  import opened SystemSpec
  import opened Exclusion
  import opened Agreement
  import opened Requests
  import opened Answers
  import A = AgentSpec
  import P = PlayerSpec

  /** The states in which a call reaches the daemon. */
  function StatesFor(call: Call): set<AppState> {
    match call
    case Connect => {Created, Ready, Playing, Paused}
    case Unprepare => {Ready}
    case Play => {Ready, Paused}
    case Pause => {Playing}
    case _ => {Ready, Playing, Paused}
  }

  /** The state that a call leads to, on both sides; None for calls that lead to none. */
  function Goal(call: Call): Option<AppState> {
    match call
    case Connect => Some(Ready)
    case Play => Some(Playing)
    case Stop => Some(Ready)
    case Pause => Some(Paused)
    case _ => None
  }

  /** A free handle can make a call in exactly these states, and connects when its timer fires. */
  lemma AskExactly(s: System, uid: int, pid: int, call: Call, speak: SpeakData)
    ensures CanMove(s, Ask(uid, pid, call, speak)) <==>
            uid > 0 && Free(s, uid) && s.handles[uid].local.state in StatesFor(call)
            && (call == Connect ==> s.handles[uid].timers > 0)
  {
    if Free(s, uid) {
      match s.handles[uid].local.state
      case Created => case Ready => case Playing => case Paused =>
    }
  }

  /** No move of this handle: it waits for its answer. */
  predicate Waits(ms: seq<(Move, Env)>, uid: int) {
    forall m | m in ms :: m.0 != Answer(uid)
  }

  /** While its answer is on its way, nothing that happens anywhere changes a handle. */
  lemma {:induction false} WaitsAlone(s: System, uid: int, ms: seq<(Move, Env)>)
    requires uid in s.handles && s.handles[uid].answer.Some? && Waits(ms, uid)
    ensures uid in After(s, ms).handles && After(s, ms).handles[uid] == s.handles[uid]
  {
    hide Step, Wire;
    if ms != [] {
      WaitsAlone(s, uid, ms[..|ms| - 1]);
      var t := After(s, ms[..|ms| - 1]);
      var (m, env) := Last(ms);
      assert (m, env) in ms;
      if CanMove(t, m) { OthersMove(t, m, env, uid); }
    }
  }

  lemma OthersMove(t: System, m: Move, env: Env, uid: int)
    requires CanMove(t, m) && uid in t.handles && t.handles[uid].answer.Some? && m != Answer(uid)
    ensures uid in Moved(t, m, env).handles && Moved(t, m, env).handles[uid] == t.handles[uid]
  {
    hide Step, Wire;
  }

  /** The handle's record after a call whose answer was `err`. */
  predicate Concludes(l: Local, call: Call, err: Error, r: Local) {
    && r.uttId == (if call != AddText then l.uttId else if l.uttId == 9999 then 1 else l.uttId + 1)
    && (r.before, r.state) ==
       if call == Unprepare then (l.state, Created)
       else if err == NoError && Goal(call).Some? then (l.state, Goal(call).value)
       else (l.before, l.state)
  }

  /**
   A call from request to answer, with anything in between: the answer is what the daemon
   said when it served the request, and the handle goes to the state the call leads to if
   that was no error.  After a destroy the handle is gone.
   */
  lemma Conversation(s: System, uid: int, pid: int, call: Call, speak: SpeakData, env: Env, ms: seq<(Move, Env)>)
    requires CanMove(s, Ask(uid, pid, call, speak)) && Waits(ms, uid)
    ensures var l := s.handles[uid].local;
            var err := Step(s.daemon, Wire(uid, pid, call, speak, if l.uttId == 9999 then 1 else l.uttId + 1), env).1;
            var t := After(AskStep(s, uid, pid, call, speak, env), ms);
            && CanMove(t, Answer(uid)) && var r := AnswerStep(t, uid);
            && r.daemon == t.daemon
            && (call == Destroy ==> uid !in r.handles)
            && (call != Destroy ==> Free(r, uid) && Concludes(l, call, err, r.handles[uid].local))
  {
    hide Step;
    WaitsAlone(AskStep(s, uid, pid, call, speak, env), uid, ms);
  }

  /**
   A call that the daemon serves without an error leaves it with the client in the state
   that the handle will be in; an added text is accepted with the id the handle drew for it.
   A client whose handle is unprepared or destroyed is gone in any case.
   */
  lemma SidesMeet(s: System, uid: int, pid: int, call: Call, speak: SpeakData, env: Env)
    requires AllGrounded(s) && CanMove(s, Ask(uid, pid, call, speak))
    ensures var t := AskStep(s, uid, pid, call, speak, env);
            var err, d := t.handles[uid].answer.value.1, t.daemon;
            && (call == Unprepare || call == Destroy ==> StateOf(d.apps, uid).None?)
            && (err == NoError && Goal(call).Some? ==> StateOf(d.apps, uid) == Goal(call))
            && (err == NoError && call == AddText ==> Accepted(uid, speak.(uttId := t.handles[uid].local.uttId)) in d.log)
  {
    hide Core, InitClient, FinalizeClient, AddQueue, PlayClient, StopClient, PauseClient, Allows, Polite, Noticed;
    var d := s.daemon;
    match call
    case Connect => InitReadies(d, pid, uid, env);
    case Unprepare => FinalizedIsGone(d, uid, env);
    case Destroy => FinalizedIsGone(d, uid, env);
    case AddText => AddAccepts(d, uid, speak.(uttId := Sent(s.handles[uid].local, call).uttId), env);
    case Play => PlayAnswer(d, uid, env);
    case Stop => StopAnswer(d, uid);
    case Pause => PauseAnswer(d, uid);
  }

  /** A message that is delivered is believed, whatever the handle's state, and is not pending any more; nothing else changes. */
  lemma Hears(s: System, uid: int, st: AppState)
    requires CanMove(s, Deliver(uid, st))
    ensures var t := DeliverStep(s, uid, st);
            && t.daemon == s.daemon.(outbox := t.daemon.outbox) && t.daemon.outbox + multiset{(uid, st)} == s.daemon.outbox
            && t.handles.Keys == s.handles.Keys && (forall v | v in s.handles && v != uid :: t.handles[v] == s.handles[v])
            && (uid in s.handles ==>
                  var l := s.handles[uid].local;
                  t.handles[uid] == s.handles[uid].(local := Local(if l.state == st then l.before else l.state, st, l.uttId)))
  {
  }

  /** No message is stuck: it can be delivered at once, or as soon as the handle has its answer. */
  lemma NothingStuck(s: System, uid: int, st: AppState)
    requires (uid, st) in s.daemon.outbox
    ensures CanMove(s, Deliver(uid, st)) || (CanMove(s, Answer(uid)) && CanMove(AnswerStep(s, uid), Deliver(uid, st)))
    ensures CanMove(s, Deliver(uid, st)) <==> !CanMove(s, Answer(uid))
  {
  }

  lemma InitReadies(d: Daemon, pid: int, uid: int, env: Env)
    ensures var (r, err) := InitClient(d, pid, uid, env); err == NoError ==> StateOf(r.apps, uid) == Some(Ready)
  {
    hide A.Load, A.InitCurrent, P.Create;
  }

  lemma AddAccepts(d: Daemon, uid: int, sd: SpeakData, env: Env)
    requires Inv(d)
    ensures var (r, err) := AddQueue(d, uid, sd, env); err == NoError ==> Accepted(uid, sd) in r.log
  {
    hide Core, AddQueue, OutOfReach, FailsOn;
    AddOutcome(d, uid, sd, env);
    assert (d.log + [Accepted(uid, sd)])[|d.log|] == Accepted(uid, sd);
  }

  /** Whether a play of this client succeeds. */
  predicate PlaySucceeds(d: Daemon, uid: int, env: Env) {
    match StateOf(d.apps, uid)
    case None => false
    case Some(Playing) => true
    case Some(_) => !OutOfReach(d, env) && !FailsOn(d, Texts(d.apps, uid), env)
  }

  /**
   A free handle that is ready or paused can ask to play.  It is answered without an error
   exactly when its client is registered and, unless it plays already, the engine is in
   reach and its start, if one is tried, does not fail.  Then the daemon has it playing when it
   answers, and the handle is playing when it hears the answer; otherwise it is as before.
   */
  lemma PlayTakes(s: System, uid: int, pid: int, speak: SpeakData, env: Env, ms: seq<(Move, Env)>)
    requires AllGrounded(s) && uid > 0 && Free(s, uid) && Waits(ms, uid)
    requires s.handles[uid].local.state == Ready || s.handles[uid].local.state == Paused
    ensures CanMove(s, Ask(uid, pid, ClientSpec.Play, speak))
    ensures var a := AskStep(s, uid, pid, ClientSpec.Play, speak, env);
            var t := After(a, ms);
            && CanMove(t, Answer(uid)) && var l, r := s.handles[uid].local, AnswerStep(t, uid);
            if PlaySucceeds(s.daemon, uid, env) then
              StateOf(a.daemon.apps, uid) == Some(Playing) && Free(r, uid) && r.handles[uid].local == Local(l.state, Playing, l.uttId)
            else
              Free(r, uid) && r.handles[uid].local == l
  {
    hide Core, PlayClient, OutOfReach, FailsOn, Polite, Noticed;
    Conversation(s, uid, pid, ClientSpec.Play, speak, env, ms);
    PlayAnswer(s.daemon, uid, env);
    NoneCreated(s.daemon);
  }

  /** The media player of a client is playing, and current. */
  predicate Audible(d: Daemon, uid: int, p: P.PlayerRec) {
    p.media == P.MediaPlaying && d.players.playing == Some(uid) && Get(d.players.list, uid) == Some(p)
  }

  lemma PauseHolds(d: Daemon, uid: int, p: P.PlayerRec)
    requires Inv(d) && StateOf(d.apps, uid) == Some(Playing) && Audible(d, uid, p)
    ensures var r := PauseClient(d, uid).0;
            Get(r.players.list, uid) == Some(p.(media := P.MediaPaused)) && r.agent == d.agent && r.synthesizing == d.synthesizing
  {
    hide Core;
  }

  lemma PlayResumes(d: Daemon, uid: int, env: Env, p: P.PlayerRec)
    requires Inv(d) && StateOf(d.apps, uid) == Some(Paused) && PlayClient(d, uid, env).1 == NoError
    requires p.media == P.MediaPlaying && Get(d.players.list, uid) == Some(p.(media := P.MediaPaused))
    ensures Audible(PlayClient(d, uid, env).0, uid, p)
  {
    hide Core, PlayClient, Unreachable;
    if !MayPlay(d, uid, env) { PlayRefusals(d, uid, env); }
    PlayEffect(d, uid, env);
  }

  lemma GroundedInv(s: System)
    requires AllGrounded(s)
    ensures Inv(s.daemon)
  {
  }

  /** The first half: the client is paused on both sides and silent. */
  lemma PauseTakes(s: System, uid: int, pid: int, speak: SpeakData, env: Env, p: P.PlayerRec)
    requires AllGrounded(s) && uid > 0 && SurelyPlaying(s, uid) && Audible(s.daemon, uid, p)
    ensures CanMove(s, Ask(uid, pid, ClientSpec.Pause, speak))
    ensures var a := AskStep(s, uid, pid, ClientSpec.Pause, speak, env);
            && CanMove(a, Answer(uid)) && var q := AnswerStep(a, uid);
            && AllGrounded(q) && Free(q, uid) && q.handles[uid].local.state == Paused
            && StateOf(q.daemon.apps, uid) == Some(Paused)
            && Texts(q.daemon.apps, uid) == Texts(s.daemon.apps, uid)
            && q.daemon.agent == s.daemon.agent && q.daemon.synthesizing == s.daemon.synthesizing
            && q.daemon.players.playing != Some(uid) && Get(q.daemon.players.list, uid) == Some(p.(media := P.MediaPaused))
  {
    hide Core, PauseClient, Polite, Noticed, CurrentPlaying;
    var d := s.daemon;
    assert Grounded(d, uid, s.handles[uid]);
    PauseEffect(d, uid);
    PauseHolds(d, uid, p);
    AskKeeps(s, uid, pid, ClientSpec.Pause, speak, env);
    AnswerKeeps(AskStep(s, uid, pid, ClientSpec.Pause, speak, env), uid);
  }

  /**
   Pausing and playing on: a client that surely plays and is heard is silent, paused on both
   sides, and then, unless the engine is out of reach or its start fails, playing on
   both sides and heard with the same utterance as before.
   */
  lemma PauseThenPlay(s: System, uid: int, pid: int, speak: SpeakData, env: Env, later: Env, p: P.PlayerRec)
    requires AllGrounded(s) && uid > 0 && SurelyPlaying(s, uid) && Audible(s.daemon, uid, p)
    requires !OutOfReach(s.daemon, later) && !FailsOn(s.daemon, Texts(s.daemon.apps, uid), later)
    ensures CanMove(s, Ask(uid, pid, ClientSpec.Pause, speak))
    ensures var a := AskStep(s, uid, pid, ClientSpec.Pause, speak, env);
            && CanMove(a, Answer(uid)) && var q := AnswerStep(a, uid);
            && Free(q, uid) && q.handles[uid].local.state == Paused && StateOf(q.daemon.apps, uid) == Some(Paused)
            && q.daemon.players.playing != Some(uid)
            && CanMove(q, Ask(uid, pid, ClientSpec.Play, speak))
            && var b := AskStep(q, uid, pid, ClientSpec.Play, speak, later);
            && CanMove(b, Answer(uid)) && var r := AnswerStep(b, uid);
            && Free(r, uid) && r.handles[uid].local.state == Playing && Audible(r.daemon, uid, p)
            && StateOf(r.daemon.apps, uid) == Some(Playing)
  {
    hide Core, AllGrounded, Noticed, AskStep, AnswerStep, Step, Unreachable, A.StartCall;
    PauseTakes(s, uid, pid, speak, env, p);
    PlayOnTakes(AnswerStep(AskStep(s, uid, pid, ClientSpec.Pause, speak, env), uid), uid, pid, speak, later, p);
  }

  /** The second half. */
  lemma PlayOnTakes(q: System, uid: int, pid: int, speak: SpeakData, env: Env, p: P.PlayerRec)
    requires AllGrounded(q) && uid > 0 && Free(q, uid) && q.handles[uid].local.state == Paused
    requires StateOf(q.daemon.apps, uid) == Some(Paused)
    requires p.media == P.MediaPlaying && Get(q.daemon.players.list, uid) == Some(p.(media := P.MediaPaused))
    requires !OutOfReach(q.daemon, env) && !FailsOn(q.daemon, Texts(q.daemon.apps, uid), env)
    ensures CanMove(q, Ask(uid, pid, ClientSpec.Play, speak))
    ensures var b := AskStep(q, uid, pid, ClientSpec.Play, speak, env);
            && CanMove(b, Answer(uid)) && var r := AnswerStep(b, uid);
            && Free(r, uid) && r.handles[uid].local.state == Playing && Audible(r.daemon, uid, p)
            && StateOf(r.daemon.apps, uid) == Some(Playing)
  {
    hide Core, PlayClient, AllGrounded, OutOfReach, FailsOn;
    PlayTakes(q, uid, pid, speak, env, []);
    PlayAnswer(q.daemon, uid, env) by { GroundedInv(q); }
    PlayResumes(q.daemon, uid, env, p) by { GroundedInv(q); }
  }
}
