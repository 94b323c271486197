/**
 The watermark never refuses live work: over all runs of the whole system in which no
 handle loses the wrap-around of its utterance ids, every text that waits for the engine
 and every utterance in work passes the daemon's id check.
 */
module LiveWork {
  import opened Types
  import opened DataSpec
  import opened DaemonSpec
  import opened DaemonInv
  import opened Scheduling
  import opened Watermark
  import opened UtteranceIds
  import opened ClientSpec
  import opened Notices
  import opened SystemSpec
  import A = AgentSpec

  /** The handle's finalize request has been served. */
  predicate Leaving(h: Handle) {
    h.answer.Some? && (h.answer.value.0 == Unprepare || h.answer.value.0 == Destroy)
  }

  /** A uid whose handle is away, or not connected, has nothing in the daemon that could be refused. */
  predicate CountedFor(s: System, u: int) {
    if u !in s.handles || s.handles[u].local.state == Created || Leaving(s.handles[u]) then Silent(RowOf(s.daemon, u))
    else Counted(RowOf(s.daemon, u), s.handles[u].local.uttId)
  }

  ghost predicate IdsInv(s: System) {
    && Inv(s.daemon) && OwnerInv(s.daemon) && Polite(s.daemon.outbox)
    && (forall u | u in s.handles :: IdInRange(s.handles[u].local.uttId))
    && forall u :: CountedFor(s, u)
  }

  /** The add draws id 1, the daemon refuses the text, and its record still remembers larger ids. */
  predicate Botched(s: System, m: Move) {
    && m.Ask? && m.call == AddText && m.uid in s.handles
    && var id := s.handles[m.uid].local.uttId;
    && LosesWrap(RowOf(s.daemon, m.uid), id)
    && !Admits(s.daemon, m.uid, m.speak.(uttId := NextId(id)))
  }

  // ----- one client's row

  lemma GoneIsSilent(d: Daemon, u: int)
    requires OwnerInv(d) && StateOf(d.apps, u).None?
    ensures Silent(RowOf(d, u))
  {
  }

  /** A row that moves, or that has just been registered, stays what it was. */
  lemma MovedRow(a: Row, b: Row, id: int)
    requires Leads(a, b) || b == Newcomer
    requires 0 <= id
    ensures Silent(a) ==> Silent(b)
    ensures Counted(a, id) ==> Counted(b, id)
  {
    hide Leads, Silent, Counted;
    if b == Newcomer {
      NewcomerSilent(id);
    } else {
      if Silent(a) { LeadsSilence(a, b); }
      if Counted(a, id) { LeadsCounts(a, b, id); }
    }
  }

  lemma NewcomerSilent(id: int)
    requires 0 <= id
    ensures Silent(Newcomer) && Counted(Newcomer, id)
  {
  }

  /** A step that is not the client's own accepted add. */
  lemma RowStays(d: Daemon, e: Event, env: Env, u: int, id: int)
    requires Inv(d) && OwnerInv(d) && Enabled(d, e) && 0 <= id
    requires e.EvAdd? && e.uid == u ==> !Admits(d, u, e.speak)
    ensures var r := Step(d, e, env).0;
            && (Silent(RowOf(d, u)) ==> Silent(RowOf(r, u))) && (Counted(RowOf(d, u), id) ==> Counted(RowOf(r, u), id))
  {
    hide Core, Step, Leads, Silent, Counted, OwnerInv, RowOf, Admits;
    StepMoves(d, e, env, u);
    MovedRow(RowOf(d, u), RowOf(Step(d, e, env).0, u), id);
  }

  lemma FinalizeRemoves(d: Daemon, uid: int, env: Env)
    requires Inv(d)
    ensures StateOf(FinalizeClient(d, uid, env).0.apps, uid).None?
  {
    hide Core, Leave, UnloadJob;
    LeaveKeeps(d, uid);
  }

  /** A refused add leaves the client's row alone. */
  lemma RefusalKeepsRow(d: Daemon, uid: int, sd: SpeakData, env: Env)
    requires !Admits(d, uid, sd)
    ensures AddQueue(d, uid, sd, env).0 == d
  {
  }

  // ----- the moves

  /**
   An add keeps the law exactly when it is not botched; any other request always does.
   */
  lemma AskCounts(s: System, uid: int, pid: int, call: Call, speak: SpeakData, env: Env)
    requires IdsInv(s) && CanMove(s, Ask(uid, pid, call, speak))
    ensures IdsInv(AskStep(s, uid, pid, call, speak, env)) <==> !Botched(s, Ask(uid, pid, call, speak))
  {
    hide Core, Step, OwnerInv, Leads, RowOf, Counted, Silent, Admits, LosesWrap, Polite, Tells, Remembers;
    var h, t := s.handles[uid], AskStep(s, uid, pid, call, speak, env);
    var e := Wire(uid, pid, call, speak, Sent(h.local, call).uttId);
    StepKeepsInv(s.daemon, e, env);
    StepOwner(s.daemon, e, env);
    StepTells(s.daemon, e, env, 0);
    forall v | v != uid ensures CountedFor(t, v) {
      assert CountedFor(s, v);
      RowStays(s.daemon, e, env, v, if v in s.handles then s.handles[v].local.uttId else 0);
    }
    AskerCounts(s, uid, pid, call, speak, env);
    if CountedFor(t, uid) {
      forall v ensures CountedFor(t, v) {}
    }
  }

  lemma AskerCounts(s: System, uid: int, pid: int, call: Call, speak: SpeakData, env: Env)
    requires IdsInv(s) && CanMove(s, Ask(uid, pid, call, speak))
    ensures CountedFor(AskStep(s, uid, pid, call, speak, env), uid) <==> !Botched(s, Ask(uid, pid, call, speak))
  {
    hide Core, OwnerInv, Leads, RowOf, Counted, Silent, Admits, LosesWrap, FinalizeClient, AddQueue, InitClient, StopClient,
      PlayClient, PauseClient;
    var h, d := s.handles[uid], s.daemon;
    var e := Wire(uid, pid, call, speak, Sent(h.local, call).uttId);
    assert CountedFor(s, uid);
    if call == Unprepare || call == Destroy {
      FinalizeRemoves(d, uid, env);
      StepOwner(d, e, env);
      GoneIsSilent(FinalizeClient(d, uid, env).0, uid);
    } else if call == AddText {
      AdderCounts(d, uid, e.speak, env, h.local.uttId);
    } else {
      RowStays(d, e, env, uid, h.local.uttId);
    }
  }

  /** The row of the client that adds a text, accepted or not. */
  lemma AdderCounts(d: Daemon, uid: int, sd: SpeakData, env: Env, id: int)
    requires Inv(d) && OwnerInv(d) && Counted(RowOf(d, uid), id) && IdInRange(id) && sd.uttId == NextId(id)
    ensures Counted(RowOf(AddQueue(d, uid, sd, env).0, uid), NextId(id))
            <==> !(LosesWrap(RowOf(d, uid), id) && !Admits(d, uid, sd))
  {
    hide Core, Leads, RowOf, Counted, Admits, LosesWrap, AddQueue;
    if Admits(d, uid, sd) {
      AddMoves(d, uid, sd, env, uid);
      PushCounts(RowOf(d, uid), id, sd);
      LeadsCounts(Pushed(RowOf(d, uid), sd), RowOf(AddQueue(d, uid, sd, env).0, uid), NextId(id));
    } else {
      RefusalKeepsRow(d, uid, sd, env);
      RefusalCounts(RowOf(d, uid), id);
    }
  }

  lemma InternalCounts(s: System, e: Event, env: Env)
    requires IdsInv(s) && CanMove(s, Internal(e))
    ensures IdsInv(Moved(s, Internal(e), env))
  {
    hide Core, Step, OwnerInv, Leads, RowOf, Counted, Silent, Polite, Tells, Remembers;
    var t := Moved(s, Internal(e), env);
    StepKeepsInv(s.daemon, e, env);
    StepOwner(s.daemon, e, env);
    StepTells(s.daemon, e, env, 0);
    forall v ensures CountedFor(t, v) {
      assert CountedFor(s, v);
      RowStays(s.daemon, e, env, v, if v in s.handles then s.handles[v].local.uttId else 0);
    }
  }

  /** Moves in which the daemon does nothing but pass on an answer or a message. */
  lemma LocalCounts(s: System, m: Move, env: Env)
    requires IdsInv(s) && CanMove(s, m) && !m.Ask? && !m.Internal?
    ensures IdsInv(Moved(s, m, env))
  {
    hide Core, CountedFor, OwnerInv, Polite, Moved, CanMove;
    LocalDaemon(s, m, env);
    SameDaemon(s.daemon, Moved(s, m, env).daemon);
    LocalIds(s, m, env);
    forall v ensures CountedFor(Moved(s, m, env), v) {
      LocalCountsFor(s, m, env, v);
    }
  }

  lemma LocalDaemon(s: System, m: Move, env: Env)
    requires CanMove(s, m) && !m.Ask? && !m.Internal?
    ensures var r := Moved(s, m, env).daemon; r == s.daemon.(outbox := r.outbox) && r.outbox <= s.daemon.outbox
  {
  }

  lemma LocalIds(s: System, m: Move, env: Env)
    requires CanMove(s, m) && !m.Ask? && !m.Internal? && forall v | v in s.handles :: IdInRange(s.handles[v].local.uttId)
    ensures var t := Moved(s, m, env); forall v | v in t.handles :: IdInRange(t.handles[v].local.uttId)
  {
  }

  lemma LocalCountsFor(s: System, m: Move, env: Env, v: int)
    requires CanMove(s, m) && !m.Ask? && !m.Internal? && Polite(s.daemon.outbox)
    requires CountedFor(s, v) && (v in s.handles ==> IdInRange(s.handles[v].local.uttId))
    ensures CountedFor(Moved(s, m, env), v)
  {
    hide Counted, Silent, RowOf, Step, AskStep;
    var t := Moved(s, m, env);
    assert RowOf(t.daemon, v) == RowOf(s.daemon, v) by {
      LocalDaemon(s, m, env);
      RowOfApps(s.daemon, t.daemon, v);
    }
    if v in s.handles { SilentOrCounted(RowOf(s.daemon, v), s.handles[v].local.uttId); }
    match m
    case Deliver(uid, st) => assert (uid, st).1 != Created;
    case _ =>
  }

  lemma RowOfApps(d: Daemon, r: Daemon, v: int)
    requires r.apps == d.apps && r.job == d.job
    ensures RowOf(r, v) == RowOf(d, v)
  {
  }

  lemma SameDaemon(d: Daemon, r: Daemon)
    requires Inv(d) && OwnerInv(d) && Polite(d.outbox) && r == d.(outbox := r.outbox) && r.outbox <= d.outbox
    ensures Inv(r) && OwnerInv(r) && Polite(r.outbox)
  {
    hide Core;
  }

  lemma SilentOrCounted(a: Row, id: int)
    requires 0 <= id
    ensures Silent(a) ==> Counted(a, id)
  {
  }

  /** A move keeps the law exactly when it is not a botched add. */
  lemma MoveCounts(s: System, m: Move, env: Env)
    requires IdsInv(s) && CanMove(s, m)
    ensures IdsInv(Moved(s, m, env)) <==> !Botched(s, m)
  {
    hide IdsInv;
    match m
    case Ask(uid, pid, call, speak) => AskCounts(s, uid, pid, call, speak, env);
    case Internal(e) => InternalCounts(s, e, env);
    case _ => LocalCounts(s, m, env);
  }

  /** No add of the run is botched. */
  predicate Unbotched(s: System, ms: seq<(Move, Env)>) {
    ms == [] ||
    (Unbotched(s, ms[..|ms| - 1]) &&
     var t := After(s, ms[..|ms| - 1]); CanMove(t, Last(ms).0) ==> !Botched(t, Last(ms).0))
  }

  lemma {:induction false} StaysCounted(s: System, ms: seq<(Move, Env)>)
    requires IdsInv(s) && Unbotched(s, ms)
    ensures IdsInv(After(s, ms))
  {
    hide IdsInv, Moved, Botched;
    if ms != [] {
      StaysCounted(s, ms[..|ms| - 1]);
      var t := After(s, ms[..|ms| - 1]);
      var (m, env) := Last(ms);
      if CanMove(t, m) {
        MoveCounts(t, m, env);
      }
    }
  }

  lemma AlwaysCounted(agent: A.Agent, scan: seq<A.EngineInfo>, ms: seq<(Move, Env)>)
    requires A.Inv(agent) && agent.init && agent.cur.None? && Unbotched(Launch(agent, scan), ms)
    ensures IdsInv(After(Launch(agent, scan), ms))
  {
    hide IdsInv;
    LaunchCounts(agent, scan);
    StaysCounted(Launch(agent, scan), ms);
  }

  lemma LaunchCounts(agent: A.Agent, scan: seq<A.EngineInfo>)
    requires A.Inv(agent) && agent.init && agent.cur.None?
    ensures IdsInv(Launch(agent, scan))
  {
    hide Core;
    BootInv(agent, scan);
  }

  /**
   Across any number of stops, engine changes, reconnections and wrap-arounds: every
   text in any queue, and whatever the engine has in work, passes the id check; so no
   result of the engine is refused, and no FINISH leaves the flag up.
   */
  lemma {:induction false} LiveWorkPasses(agent: A.Agent, scan: seq<A.EngineInfo>, ms: seq<(Move, Env)>)
    requires A.Inv(agent) && agent.init && agent.cur.None? && Unbotched(Launch(agent, scan), ms)
    ensures var d := After(Launch(agent, scan), ms).daemon;
            && (forall u, sd | sd in Texts(d.apps, u) :: UttIdValid(d.apps, u, sd.uttId))
            && (d.job.Some? ==> UttIdValid(d.apps, d.job.value.uid, d.job.value.speak.uttId))
            && (forall ev, pcm, env :: !Wedges(d, EvResult(ev, pcm), env))
  {
    hide IdsInv;
    AlwaysCounted(agent, scan, ms);
    var s := After(Launch(agent, scan), ms);
    forall u, sd | sd in Texts(s.daemon.apps, u) ensures UttIdValid(s.daemon.apps, u, sd.uttId) {
      CountedPasses(s, u);
    }
    if s.daemon.job.Some? {
      CountedPasses(s, s.daemon.job.value.uid);
    }
  }

  lemma CountedPasses(s: System, u: int)
    requires IdsInv(s)
    ensures forall sd | sd in Texts(s.daemon.apps, u) :: UttIdValid(s.daemon.apps, u, sd.uttId)
    ensures JobOf(s.daemon, u).Some? ==> UttIdValid(s.daemon.apps, u, JobOf(s.daemon, u).value.uttId)
  {
    hide Core;
    assert CountedFor(s, u);
    forall sd | sd in Texts(s.daemon.apps, u) ensures UttIdValid(s.daemon.apps, u, sd.uttId) {
      assert Passes(RowOf(s.daemon, u), sd);
    }
  }
}
