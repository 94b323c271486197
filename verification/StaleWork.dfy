/**
 Stale work over runs of the whole system: after a stop, nothing started before it is
 accepted again until the client's ids wrap.
 */
module StaleWork {
  import opened Types
  import opened DataSpec
  import opened DaemonSpec
  import opened DaemonInv
  import opened Watermark
  import opened UtteranceIds
  import opened ClientSpec
  import opened SystemSpec
  import opened SystemScheduling
  import opened LiveWork
  import opened Marks
  import A = AgentSpec

  /** The mark, every waiting id and the id counted last are above `id`. */
  ghost predicate Beyond(s: System, u: int, id: int) {
    && Inv(s.daemon) && OwnerInv(s.daemon) && Past(RowOf(s.daemon, u), id)
    && u in s.handles && s.handles[u].local.uttId >= id
    && !(s.handles[u].answer.Some? && s.handles[u].answer.value.0 == Destroy)
  }

  /** The client keeps its handle and its registration, and does not draw id 1. */
  predicate GoesOn(s: System, m: Move, u: int) {
    && m != Drop(u)
    && (m.Ask? && m.uid == u ==> m.call != Unprepare && m.call != Destroy)
    && (m.Ask? && m.uid == u && m.call == AddText && u in s.handles ==> NextId(s.handles[u].local.uttId) != 1)
  }

  lemma EventGoesOn(s: System, m: Move, env: Env, u: int, id: int)
    requires Beyond(s, u, id) && CanMove(s, m) && GoesOn(s, m, u) && EventOf(s, m).Some?
    ensures MovesOn(s.daemon, EventOf(s, m).value, u, id)
  {
    hide Core, OwnerInv, Past;
  }

  lemma MoveBeyond(s: System, m: Move, env: Env, u: int, id: int)
    requires Beyond(s, u, id) && CanMove(s, m) && GoesOn(s, m, u)
    ensures Beyond(Moved(s, m, env), u, id)
  {
    hide Core, OwnerInv, Step, Moved, Past, RowOf, MovesOn, EventOf;
    MoveIsEvent(s, m, env);
    match EventOf(s, m) {
      case Some(e) =>
        EventGoesOn(s, m, env, u, id);
        StepKeepsInv(s.daemon, e, env);
        StepPast(s.daemon, e, env, u, id);
      case None =>
        QuietBeyond(s.daemon, Moved(s, m, env).daemon, u);
    }
    HandleGoesOn(s, m, env, u, id);
  }

  lemma QuietBeyond(d: Daemon, r: Daemon, u: int)
    requires r == d.(outbox := r.outbox)
    ensures RowOf(r, u) == RowOf(d, u) && (OwnerInv(d) ==> OwnerInv(r)) && (Inv(d) ==> Inv(r))
  {
  }

  lemma HandleGoesOn(s: System, m: Move, env: Env, u: int, id: int)
    requires Beyond(s, u, id) && CanMove(s, m) && GoesOn(s, m, u)
    ensures var t := Moved(s, m, env);
            u in t.handles && t.handles[u].local.uttId >= id && !(t.handles[u].answer.Some? && t.handles[u].answer.value.0 == Destroy)
  {
    hide Core, OwnerInv, Step, Past, RowOf;
  }

  /** The client goes on throughout the run. */
  predicate RunGoesOn(s: System, ms: seq<(Move, Env)>, u: int) {
    ms == [] ||
    (RunGoesOn(s, ms[..|ms| - 1], u) && var t := After(s, ms[..|ms| - 1]); CanMove(t, Last(ms).0) ==> GoesOn(t, Last(ms).0, u))
  }

  lemma {:induction false} RunBeyond(s: System, ms: seq<(Move, Env)>, u: int, id: int)
    requires Beyond(s, u, id) && RunGoesOn(s, ms, u)
    ensures Beyond(After(s, ms), u, id)
  {
    hide Beyond, Moved, GoesOn;
    if ms != [] {
      var front := ms[..|ms| - 1];
      RunBeyond(s, front, u, id);
      var t := After(s, front);
      var (m, env) := Last(ms);
      if CanMove(t, m) {
        MoveBeyond(t, m, env, u, id);
      }
    }
  }

  /** What is known of the one client, whatever the others have done. */
  ghost predicate Known(s: System, u: int) {
    Inv(s.daemon) && OwnerInv(s.daemon) && CountedFor(s, u)
  }

  lemma StopGoesBeyond(s: System, u: int, pid: int, sd: SpeakData, env: Env, id: int)
    requires Known(s, u) && CanMove(s, Ask(u, pid, ClientSpec.Stop, sd))
    requires Texts(s.daemon.apps, u) != [] && id < Last(Texts(s.daemon.apps, u)).uttId
    ensures Beyond(AskStep(s, u, pid, ClientSpec.Stop, sd, env), u, id)
  {
    hide Core, OwnerInv, StopClient, Past;
    var d := s.daemon;
    assert Last(Texts(d.apps, u)) in Texts(d.apps, u);
    StopMarks(d, u, id);
    StopKeeps(d, u);
    StopMoves(d, u, u);
  }

  /**
   Once a client has stopped with a text waiting whose id is above that of an earlier
   utterance, every sound result for the earlier one is refused and changes nothing, over
   any run of daemon and clients in which the client goes on and its ids do not wrap.
   */
  lemma {:induction false} StaleWorkIsRefused(s: System, u: int, pid: int, sd: SpeakData, env: Env, id: int,
      ms: seq<(Move, Env)>, ev: ResultEvent, pcm: seq<int>)
    requires Known(s, u) && CanMove(s, Ask(u, pid, ClientSpec.Stop, sd)) && IsSound(ev)
    requires Texts(s.daemon.apps, u) != [] && id < Last(Texts(s.daemon.apps, u)).uttId
    requires RunGoesOn(AskStep(s, u, pid, ClientSpec.Stop, sd, env), ms, u)
    ensures var d := After(AskStep(s, u, pid, ClientSpec.Stop, sd, env), ms).daemon;
            OnResult(d, ev, u, id, pcm) == Log(d, [Refused(u, id)])
  {
    hide Core, Known, AskStep, OwnerInv;
    StopGoesBeyond(s, u, pid, sd, env, id);
    RunBeyond(AskStep(s, u, pid, ClientSpec.Stop, sd, env), ms, u, id);
  }

  // ----- exactly when the refusal ends

  /** The move makes the daemon take a step that ends the refusal. */
  predicate MoveRevives(s: System, m: Move, env: Env, u: int, id: int) {
    var e := EventOf(s, m); e.Some? && Enabled(s.daemon, e.value) && Revives(s.daemon, e.value, env, u, id)
  }

  lemma MoveRefuses(s: System, m: Move, env: Env, u: int, id: int)
    requires Inv(s.daemon) && CanMove(s, m) && Refuses(s.daemon, u, id)
    ensures Inv(Moved(s, m, env).daemon)
    ensures Refuses(Moved(s, m, env).daemon, u, id) <==> !MoveRevives(s, m, env, u, id)
  {
    hide Core, Step, Moved, Revives, EventOf;
    MoveIsEvent(s, m, env);
    match EventOf(s, m)
    case Some(e) =>
      StepKeepsInv(s.daemon, e, env);
      StepRefuses(s.daemon, e, env, u, id);
    case None =>
      assert Moved(s, m, env).daemon.apps == s.daemon.apps;
  }

  /** Refused after each move of the run. */
  predicate AlwaysRefused(s: System, ms: seq<(Move, Env)>, u: int, id: int) {
    Refuses(After(s, ms).daemon, u, id) && (ms == [] || AlwaysRefused(s, ms[..|ms| - 1], u, id))
  }

  /** No move of the run ends the refusal. */
  predicate NeverRevived(s: System, ms: seq<(Move, Env)>, u: int, id: int) {
    ms == [] ||
    (NeverRevived(s, ms[..|ms| - 1], u, id) &&
     var t := After(s, ms[..|ms| - 1]); CanMove(t, Last(ms).0) ==> !MoveRevives(t, Last(ms).0, Last(ms).1, u, id))
  }

  /** Over any run of daemon and clients stale work stays refused exactly when no move revives it. */
  lemma {:induction false} RefusedExactly(s: System, ms: seq<(Move, Env)>, u: int, id: int)
    requires Inv(s.daemon) && Refuses(s.daemon, u, id)
    ensures AlwaysRefused(s, ms, u, id) <==> NeverRevived(s, ms, u, id)
    ensures AlwaysRefused(s, ms, u, id) ==> Inv(After(s, ms).daemon) && Refuses(After(s, ms).daemon, u, id)
  {
    hide Core, Moved, Refuses, MoveRevives;
    if ms != [] {
      var front := ms[..|ms| - 1];
      RefusedExactly(s, front, u, id);
      var t := After(s, front);
      var (m, env) := Last(ms);
      if CanMove(t, m) && NeverRevived(s, front, u, id) {
        MoveRefuses(t, m, env, u, id);
      }
    }
  }

  /**
   That no id 1 is enqueued would not be enough.  When id 1 is drawn and refused, id 2 is
   enqueued and the client stops once more, the mark falls to 2 and older ids pass again.
   */
  lemma RefusedWrapRevivesStale(d: Daemon, u: int, id: int, bad: SpeakData, good: SpeakData, env: Env)
    requires Past(RowOf(d, u), id) && id >= 2 && StateOf(d.apps, u) == Some(Ready)
    requires bad.uttId == 1 && !Admits(d, u, bad) && good.uttId == 2 && Admits(d, u, good)
    ensures var d1 := AddQueue(d, u, bad, env).0;
            var d2 := AddQueue(d1, u, good, env).0;
            var d3 := StopClient(d2, u).0;
            d1 == d && good in Texts(d2.apps, u) && UttIdValid(d3.apps, u, id)
  {
    hide A.SelectVoice, Clear, DataSpec.AddText;
    AddTextEffect(d.apps, u, good);
    var d2 := Enqueue(d, u, good);
    ClearEffect(d2.apps, u);
    assert Last(Texts(d2.apps, u)) == good;
  }
}
