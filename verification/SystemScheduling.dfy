/**
 The scheduling promises for the whole system, each under no more than it needs: one job
 at a time in every run; an exact flag unless a refused wrap or an unreported engine change
 wedges it; and no lost wake-up unless a client is stranded besides.
 */
module SystemScheduling {
  import opened Types
  import opened DaemonSpec
  import opened DaemonInv
  import opened Scheduling
  import opened Watermark
  import opened UtteranceIds
  import opened EngineJob
  import opened ClientSpec
  import opened SystemSpec
  import opened LiveWork
  import A = AgentSpec

  /** What a move makes the daemon do. */
  function EventOf(s: System, m: Move): Option<Event> {
    match m
    case Internal(e) => Some(e)
    case Ask(uid, pid, call, speak) =>
      if uid in s.handles then Some(Wire(uid, pid, call, speak, Sent(s.handles[uid].local, call).uttId)) else None
    case _ => None
  }

  /** A move is what it makes the daemon do, or leaves the daemon's queues, flags and history alone. */
  lemma MoveIsEvent(s: System, m: Move, env: Env)
    requires CanMove(s, m)
    ensures match EventOf(s, m)
            case Some(e) => Enabled(s.daemon, e) && Moved(s, m, env).daemon == Step(s.daemon, e, env).0
            case None => Moved(s, m, env).daemon == s.daemon.(outbox := Moved(s, m, env).daemon.outbox)
  {
    hide Step;
  }

  // ----- one job, in every run

  ghost predicate JobHistory(d: Daemon) {
    Inv(d) && OwnerInv(d) && OneJob(d)
  }

  lemma MoveOne(s: System, m: Move, env: Env)
    requires JobHistory(s.daemon) && CanMove(s, m)
    ensures JobHistory(Moved(s, m, env).daemon)
  {
    hide Core, Step, Moved, Busy, SingleJob;
    MoveIsEvent(s, m, env);
    if EventOf(s, m).Some? {
      var e := EventOf(s, m).value;
      StepKeepsInv(s.daemon, e, env);
      StepOwner(s.daemon, e, env);
      StepOne(s.daemon, e, env);
    }
  }

  /** In every run of daemon and clients no start is attempted while a job is outstanding. */
  lemma {:induction false} SystemSingleJob(agent: A.Agent, scan: seq<A.EngineInfo>, ms: seq<(Move, Env)>)
    requires A.Inv(agent) && agent.init && agent.cur.None?
    ensures JobHistory(After(Launch(agent, scan), ms).daemon)
  {
    hide JobHistory, Moved;
    if ms == [] {
      LaunchOne(agent, scan);
    } else {
      SystemSingleJob(agent, scan, ms[..|ms| - 1]);
      var t := After(Launch(agent, scan), ms[..|ms| - 1]);
      var (m, env) := Last(ms);
      if CanMove(t, m) {
        MoveOne(t, m, env);
      }
    }
  }

  lemma LaunchOne(agent: A.Agent, scan: seq<A.EngineInfo>)
    requires A.Inv(agent) && agent.init && agent.cur.None?
    ensures JobHistory(Launch(agent, scan).daemon)
  {
    hide Core;
    BootInv(agent, scan);
  }

  // ----- the flag, unless something wedges it

  /** No add of id 1 is lost, and an engine that is replaced reports its job cancelled. */
  predicate Honest(s: System, m: Move, env: Env) {
    && !Botched(s, m)
    && var e := EventOf(s, m); e.Some? && e.value.EvChangeEngine? ==> !Wedges(s.daemon, e.value, env)
  }

  predicate HonestRun(s: System, ms: seq<(Move, Env)>) {
    ms == [] ||
    (HonestRun(s, ms[..|ms| - 1]) &&
     var t := After(s, ms[..|ms| - 1]); CanMove(t, Last(ms).0) ==> Honest(t, Last(ms).0, Last(ms).1))
  }

  lemma HonestStep(s: System, m: Move, env: Env)
    requires IdsInv(s) && CanMove(s, m) && Honest(s, m, env)
    ensures var e := EventOf(s, m); e.Some? ==> !Wedges(s.daemon, e.value, env)
  {
    hide Core, OwnerInv;
    if s.daemon.job.Some? {
      CountedPasses(s, s.daemon.job.value.uid);
    }
  }

  lemma MoveSchedules(s: System, m: Move, env: Env)
    requires IdsInv(s) && JobInv(s.daemon) && CanMove(s, m) && Honest(s, m, env)
    ensures var r := Moved(s, m, env).daemon; var e := EventOf(s, m);
            JobInv(r) && (WakeInv(s.daemon) && (e.Some? ==> !Strands(s.daemon, e.value, env)) ==> WakeInv(r))
  {
    hide Core, Step, Moved, Busy, SingleJob, Honest, Strands, Wedges, OwnerInv;
    MoveIsEvent(s, m, env);
    HonestStep(s, m, env);
    if EventOf(s, m).Some? {
      StepSchedules(s.daemon, EventOf(s, m).value, env);
    } else {
      KeepsFlags(s.daemon, Moved(s, m, env).daemon);
    }
  }

  lemma LaunchSchedules(agent: A.Agent, scan: seq<A.EngineInfo>)
    ensures JobInv(Launch(agent, scan).daemon) && WakeInv(Launch(agent, scan).daemon)
  {
  }

  /** The flag says exactly whether the engine has a job; the id check is no hypothesis any more. */
  lemma {:induction false} SystemFlag(agent: A.Agent, scan: seq<A.EngineInfo>, ms: seq<(Move, Env)>)
    requires A.Inv(agent) && agent.init && agent.cur.None? && HonestRun(Launch(agent, scan), ms)
    ensures var s := After(Launch(agent, scan), ms); IdsInv(s) && JobInv(s.daemon)
  {
    hide IdsInv, JobInv, Moved, Botched;
    if ms == [] {
      LaunchCounts(agent, scan);
      LaunchSchedules(agent, scan);
    } else {
      SystemFlag(agent, scan, ms[..|ms| - 1]);
      var t := After(Launch(agent, scan), ms[..|ms| - 1]);
      var (m, env) := Last(ms);
      if CanMove(t, m) {
        MoveCounts(t, m, env);
        MoveSchedules(t, m, env);
      }
    }
  }

  // ----- no lost wake-up, unless a client is stranded

  /** And no add or play leaves a client stranded. */
  predicate Fair(s: System, m: Move, env: Env) {
    Honest(s, m, env) && var e := EventOf(s, m); e.Some? ==> !Strands(s.daemon, e.value, env)
  }

  predicate FairRun(s: System, ms: seq<(Move, Env)>) {
    ms == [] ||
    (FairRun(s, ms[..|ms| - 1]) &&
     var t := After(s, ms[..|ms| - 1]); CanMove(t, Last(ms).0) ==> Fair(t, Last(ms).0, Last(ms).1))
  }

  lemma {:induction false} FairIsHonest(s: System, ms: seq<(Move, Env)>)
    requires FairRun(s, ms)
    ensures HonestRun(s, ms)
  {
    hide Honest;
    if ms != [] {
      FairIsHonest(s, ms[..|ms| - 1]);
    }
  }

  lemma {:induction false} SystemSchedules(agent: A.Agent, scan: seq<A.EngineInfo>, ms: seq<(Move, Env)>)
    requires A.Inv(agent) && agent.init && agent.cur.None? && FairRun(Launch(agent, scan), ms)
    ensures WakeInv(After(Launch(agent, scan), ms).daemon)
  {
    hide IdsInv, JobInv, WakeInv, Moved, Honest;
    if ms == [] {
      LaunchSchedules(agent, scan);
    } else {
      var front := ms[..|ms| - 1];
      SystemSchedules(agent, scan, front);
      FairIsHonest(Launch(agent, scan), front);
      SystemFlag(agent, scan, front);
      var t := After(Launch(agent, scan), front);
      var (m, env) := Last(ms);
      if CanMove(t, m) {
        MoveSchedules(t, m, env);
      }
    }
  }
}
