/**
 The watermark must not refuse live work and must refuse stale work.  Both are laws
 about one client's row and the counter its library draws utterance ids from.
 */
module UtteranceIds {
  import opened Types
  import opened DataSpec
  import opened DaemonSpec
  import opened DaemonInv
  import opened Watermark
  import opened ClientSpec
  import opened Notices
  import A = AgentSpec
  import P = PlayerSpec

  predicate IdInRange(id: int) {
    0 <= id <= 9999
  }

  /** Would this text's results be accepted? */
  predicate Passes(a: Row, sd: SpeakData) {
    a.mark.GetOr(0) <= sd.uttId
  }

  /** Everything of the client that is alive passes. */
  predicate LivePasses(a: Row) {
    && (forall sd | sd in a.texts :: Passes(a, sd))
    && (a.job.Some? ==> Passes(a, a.job.value))
  }

  /** The mark and the last queued id do not exceed the id that is drawn next, unless that is 1. */
  predicate Counted(a: Row, id: int) {
    && a.mark.GetOr(0) <= id + 1 && (a.texts != [] ==> Last(a.texts).uttId <= id + 1)
    && (forall sd | sd in a.texts :: 0 <= sd.uttId) && (a.job.Some? ==> 0 <= a.job.value.uttId)
    && LivePasses(a)
  }

  lemma LeadsCounts(a: Row, b: Row, id: int)
    requires Counted(a, id) && Leads(a, b) && 0 <= id
    ensures Counted(b, id)
  {
    if b.texts != [] {
      assert Last(b.texts) == Last(a.texts);
    }
    forall sd | sd in b.texts ensures sd in a.texts {}
  }

  /** A text with the next id, wrapped or not, keeps everything alive above the mark. */
  lemma PushCounts(a: Row, id: int, sd: SpeakData)
    requires Counted(a, id) && IdInRange(id) && sd.uttId == NextId(id)
    ensures Counted(Pushed(a, sd), NextId(id))
  {
    var b := Pushed(a, sd);
    forall x | x in b.texts ensures Passes(b, x) && 0 <= x.uttId {}
  }

  /** Id 1 is drawn but does not reach the daemon's queue, which remembers ids that 2 does not pass. */
  predicate LosesWrap(a: Row, id: int) {
    NextId(id) == 1 && (a.mark.GetOr(0) > 2 || (a.texts != [] && Last(a.texts).uttId > 2))
  }

  /** A refused add keeps the law exactly when it does not lose the wrap. */
  lemma RefusalCounts(a: Row, id: int)
    requires Counted(a, id) && IdInRange(id)
    ensures Counted(a, NextId(id)) <==> !LosesWrap(a, id)
  {
  }

  /** Nothing queued, nothing in work, and no mark to refuse anything. */
  predicate Silent(a: Row) {
    a.texts == [] && a.job == None && a.mark.GetOr(0) == 0
  }

  lemma LeadsSilence(a: Row, b: Row)
    requires Silent(a) && Leads(a, b)
    ensures Silent(b)
  {
  }

  // ----- stale work

  /** The mark and every waiting id are above `id`. */
  predicate Past(a: Row, id: int) {
    a.mark.Some? && a.mark.value > id && forall sd | sd in a.texts :: sd.uttId > id
  }

  lemma LeadsPast(a: Row, b: Row, id: int)
    requires Past(a, id) && Leads(a, b) && b.mark.Some?
    ensures Past(b, id)
  {
    if a.texts != [] { assert Last(a.texts) in a.texts; }
    forall sd | sd in b.texts ensures sd in a.texts {}
  }

  /** A stop that removes a text leaves every smaller id behind. */
  lemma StopMarks(d: Daemon, u: int, id: int)
    requires OwnerInv(d) && Texts(d.apps, u) != [] && id < Last(Texts(d.apps, u)).uttId && Last(Texts(d.apps, u)).uttId != -1
    ensures Past(RowOf(StopClient(d, u).0, u), id)
  {
    hide StopSynthesis, Clear;
    ClearEffect(d.apps, u);
    var d1 := ClearClient(d, u);
    StopEnds(d1.(apps := WithState(d1.apps, u, Ready), players := P.Stop(d1.players, u)), u);
  }

  /** The client stays, and no text is accepted from it that brings ids back to `id` or below. */
  predicate MovesOn(d: Daemon, e: Event, u: int, id: int) {
    e != EvFinalize(u) && (e.EvAdd? && e.uid == u && Admits(d, u, e.speak) ==> e.speak.uttId != 1 && e.speak.uttId > id)
  }

  lemma StepPast(d: Daemon, e: Event, env: Env, u: int, id: int)
    requires Inv(d) && OwnerInv(d) && Enabled(d, e) && Past(RowOf(d, u), id) && MovesOn(d, e, u, id)
    ensures Past(RowOf(Step(d, e, env).0, u), id) && OwnerInv(Step(d, e, env).0)
  {
    hide Core, Step, Leads, Noticed, Polite;
    StepMoves(d, e, env, u);
    StepTells(d, e, env, u);
    var r := Step(d, e, env).0;
    var a := if e.EvAdd? && e.uid == u && Admits(d, u, e.speak) then Pushed(RowOf(d, u), e.speak) else RowOf(d, u);
    LeadsPast(a, RowOf(r, u), id);
  }

  predicate RunMovesOn(d: Daemon, es: seq<(Event, Env)>, u: int, id: int) {
    es == [] ||
    (RunMovesOn(d, es[..|es| - 1], u, id) &&
     var m := Run(d, es[..|es| - 1]); Enabled(m, Last(es).0) ==> MovesOn(m, Last(es).0, u, id))
  }

  /**
   Stale work is refused: after a stop that removed a text with an id above that of an
   earlier utterance, every sound result for that utterance is refused and changes
   nothing, over any run in which the client stays and has texts with higher ids accepted only.
   */
  lemma {:induction false} StaleIsRefused(d: Daemon, u: int, id: int, es: seq<(Event, Env)>, ev: ResultEvent, pcm: seq<int>)
    requires Inv(d) && OwnerInv(d) && IsSound(ev)
    requires Texts(d.apps, u) != [] && id < Last(Texts(d.apps, u)).uttId && Last(Texts(d.apps, u)).uttId != -1
    requires RunMovesOn(StopClient(d, u).0, es, u, id)
    ensures var r := Run(StopClient(d, u).0, es);
            OnResult(r, ev, u, id, pcm) == Log(r, [Refused(u, id)])
  {
    hide Core, StopClient;
    var s := StopClient(d, u).0;
    StopMarks(d, u, id);
    StopMoves(d, u, u);
    StopKeeps(d, u);
    RunPast(s, u, id, es);
  }

  lemma {:induction false} RunPast(d: Daemon, u: int, id: int, es: seq<(Event, Env)>)
    requires Inv(d) && OwnerInv(d) && Past(RowOf(d, u), id) && RunMovesOn(d, es, u, id)
    ensures var r := Run(d, es); Inv(r) && OwnerInv(r) && Past(RowOf(r, u), id)
  {
    hide Core, Past, RowOf, OwnerInv, Step, MovesOn;
    if es != [] {
      var front := es[..|es| - 1];
      RunPast(d, u, id, front);
      var m := Run(d, front);
      var (e, env) := Last(es);
      if Enabled(m, e) {
        StepKeepsInv(m, e, env);
        StepPast(m, e, env, u, id);
      }
    }
  }

  /** In every run the engine's job belongs to a playing or paused client. */
  lemma {:induction false} RunOwner(agent: A.Agent, scan: seq<A.EngineInfo>, es: seq<(Event, Env)>)
    requires A.Inv(agent) && agent.init && agent.cur.None?
    ensures OwnerInv(Run(Boot(agent, scan), es))
  {
    hide Core, OwnerInv, Step;
    if es == [] {
      assert OwnerInv(Boot(agent, scan)) by { BootOwner(agent, scan); }
    } else {
      var front := es[..|es| - 1];
      RunOwner(agent, scan, front);
      ReachableInv(agent, scan, front);
      var m := Run(Boot(agent, scan), front);
      var (e, env) := Last(es);
      if Enabled(m, e) {
        StepOwner(m, e, env);
      }
    }
  }

  lemma BootOwner(agent: A.Agent, scan: seq<A.EngineInfo>)
    ensures OwnerInv(Boot(agent, scan))
  {
  }

  lemma StepOwner(d: Daemon, e: Event, env: Env)
    requires Inv(d) && OwnerInv(d) && Enabled(d, e)
    ensures OwnerInv(Step(d, e, env).0)
  {
    hide Core, Step, Leads;
    StepMoves(d, e, env, 0);
  }
}
