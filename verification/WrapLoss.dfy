/**
 A botched add is exactly what costs live work: if the move is none, everything that is
 alive goes on to pass the id check for as long as none is; if it is one, the same client
 loses a text by stopping once and adding it.
 */
module WrapLoss {
  import opened Types
  import opened DataSpec
  import opened DaemonSpec
  import opened DaemonInv
  import opened Watermark
  import opened UtteranceIds
  import opened ClientSpec
  import opened SystemSpec
  import opened LiveWork
  import opened Counterexamples
  import A = AgentSpec
  import P = PlayerSpec

  /** Every queued text and the text at the engine pass the daemon's id check. */
  ghost predicate AllPass(d: Daemon) {
    && (forall u, sd | sd in Texts(d.apps, u) :: UttIdValid(d.apps, u, sd.uttId))
    && (d.job.Some? ==> UttIdValid(d.apps, d.job.value.uid, d.job.value.speak.uttId))
  }

  lemma CountedIsAllPass(s: System)
    requires IdsInv(s)
    ensures AllPass(s.daemon)
  {
    hide IdsInv;
    forall u, sd | sd in Texts(s.daemon.apps, u) ensures UttIdValid(s.daemon.apps, u, sd.uttId) {
      CountedPasses(s, u);
    }
    if s.daemon.job.Some? {
      CountedPasses(s, s.daemon.job.value.uid);
    }
  }

  /** What is left of the client after its refused add, its answer, and a stop with its answer. */
  lemma StopsAfterRefusal(s: System, uid: int, pid: int, bad: SpeakData, good: SpeakData, env: Env)
    requires IdsInv(s) && CanMove(s, Ask(uid, pid, AddText, bad)) && Botched(s, Ask(uid, pid, AddText, bad))
    requires Admits(s.daemon, uid, good.(uttId := 2))
    ensures var t := Called(s, uid, pid, AddText, bad, env);
            CanMove(t, Ask(uid, pid, ClientSpec.Stop, good)) &&
            var r := Called(t, uid, pid, ClientSpec.Stop, good, env);
            && CanMove(r, Ask(uid, pid, AddText, good)) && r.handles[uid].local.uttId == 1
            && Admits(r.daemon, uid, good.(uttId := 2)) && StateOf(r.daemon.apps, uid) == Some(Ready)
            && Texts(r.daemon.apps, uid) == [] && Mark(r.daemon.apps, uid) > 2
  {
    hide Core, OwnerInv, A.SelectVoice, StopClient;
    RefusalKeepsRow(s.daemon, uid, bad.(uttId := 1), env);
    var t := Called(s, uid, pid, AddText, bad, env);
    assert t.daemon == s.daemon && t.handles[uid].local.uttId == 1;
    assert CountedFor(s, uid);
    StopLeavesMark(s.daemon, uid);
  }

  lemma StopLeavesMark(d: Daemon, uid: int)
    requires Inv(d) && OwnerInv(d) && Counted(RowOf(d, uid), 9999) && LosesWrap(RowOf(d, uid), 9999)
    ensures var (r, err) := StopClient(d, uid);
            && err == NoError && StateOf(r.apps, uid) == Some(Ready) && r.agent == d.agent
            && Texts(r.apps, uid) == [] && Mark(r.apps, uid) > 2
  {
    hide Core, StopSynthesis, Clear, Leads;
    var q := Texts(d.apps, uid);
    if q != [] {
      assert Last(q) in q;
      assert Passes(RowOf(d, uid), Last(q));
    }
    assert Mark(ClearClient(d, uid).apps, uid) > 2 by { ClearEffect(d.apps, uid); }
    ClearEffect(d.apps, uid);
    StopKeeps(d, uid);
    NoneCreated(d);
    var d1 := ClearClient(d, uid);
    StopEnds(d1.(apps := WithState(d1.apps, uid, Ready), players := P.Stop(d1.players, uid)), uid);
  }

  /** The refused add is answered, the client stops, is answered, and adds the text that is lost. */
  function Continuation(uid: int, pid: int, sd: SpeakData, env: Env): seq<(Move, Env)> {
    [(Answer(uid), env)] + [(Ask(uid, pid, ClientSpec.Stop, sd), env)] + [(Answer(uid), env)] + [(Ask(uid, pid, AddText, sd), env)]
  }

  lemma UnbotchedOne(s: System, ms: seq<(Move, Env)>, m: Move, env: Env)
    requires Unbotched(s, ms) && (CanMove(After(s, ms), m) ==> !Botched(After(s, ms), m))
    ensures Unbotched(s, ms + [(m, env)])
  {
    assert (ms + [(m, env)])[..|ms|] == ms;
  }

  lemma AndThen(s: System, ms: seq<(Move, Env)>, m: Move, env: Env)
    requires Unbotched(s, ms) && CanMove(After(s, ms), m) && !Botched(After(s, ms), m)
    ensures Unbotched(s, ms + [(m, env)]) && After(s, ms + [(m, env)]) == Moved(After(s, ms), m, env)
  {
    hide Moved, CanMove, Botched;
    UnbotchedOne(s, ms, m, env);
    AfterOne(s, ms, m, env);
  }

  /** The daemon after the text was added. */
  lemma AddedBelowMark(s: System, uid: int, pid: int, good: SpeakData, env: Env)
    requires CanMove(s, Ask(uid, pid, AddText, good)) && s.handles[uid].local.uttId == 1
    requires Admits(s.daemon, uid, good.(uttId := 2)) && StateOf(s.daemon.apps, uid) == Some(Ready)
    requires Mark(s.daemon.apps, uid) > 2
    ensures !AllPass(AskStep(s, uid, pid, AddText, good, env).daemon)
  {
    hide Admits, AddQueue, Enqueue;
    var sd := good.(uttId := 2);
    QuietAdd(s.daemon, uid, sd, env);
    var d := Enqueue(s.daemon, uid, sd);
    assert sd in Texts(d.apps, uid) && !UttIdValid(d.apps, uid, sd.uttId);
  }

  lemma BotchedLosesWork(s: System, uid: int, pid: int, bad: SpeakData, good: SpeakData, env: Env)
    requires IdsInv(s) && CanMove(s, Ask(uid, pid, AddText, bad)) && Botched(s, Ask(uid, pid, AddText, bad))
    requires Admits(s.daemon, uid, good.(uttId := 2))
    ensures var t, more := AskStep(s, uid, pid, AddText, bad, env), Continuation(uid, pid, good, env);
            Unbotched(t, more) && !AllPass(After(t, more).daemon)
  {
    hide IdsInv, Step, Admits, LosesWrap, AllPass;
    var t := AskStep(s, uid, pid, AddText, bad, env);
    StopsAfterRefusal(s, uid, pid, bad, good, env);
    var s1 := Called(s, uid, pid, AddText, bad, env);
    var s2 := Called(s1, uid, pid, ClientSpec.Stop, good, env);
    var ms: seq<(Move, Env)> := [];
    AndThen(t, ms, Answer(uid), env);
    ms := ms + [(Answer(uid), env)];
    assert After(t, ms) == s1;
    AndThen(t, ms, Ask(uid, pid, ClientSpec.Stop, good), env);
    ms := ms + [(Ask(uid, pid, ClientSpec.Stop, good), env)];
    AndThen(t, ms, Answer(uid), env);
    ms := ms + [(Answer(uid), env)];
    assert After(t, ms) == s2;
    AndThen(t, ms, Ask(uid, pid, AddText, good), env);
    ms := ms + [(Ask(uid, pid, AddText, good), env)];
    assert ms == Continuation(uid, pid, good, env);
    AddedBelowMark(s2, uid, pid, good, env);
  }

  /**
   Live work goes on to pass, over all continuations without a botched add, if and only if
   the move is none; for a botched one a text that the daemon would admit is lost.
   */
  lemma {:induction false} BotchedExactly(s: System, m: Move, env: Env, good: SpeakData)
    requires IdsInv(s) && CanMove(s, m)
    requires Botched(s, m) ==> Admits(s.daemon, m.uid, good.(uttId := 2))
    ensures (forall more | Unbotched(Moved(s, m, env), more) :: AllPass(After(Moved(s, m, env), more).daemon)) <==> !Botched(s, m)
  {
    hide IdsInv, AllPass, Botched, Admits;
    MoveCounts(s, m, env);
    var t := Moved(s, m, env);
    if Botched(s, m) {
      BotchedIsAdd(s, m);
      BotchedLosesWork(s, m.uid, m.pid, m.speak, good, env);
      assert Unbotched(t, Continuation(m.uid, m.pid, good, env));
    } else {
      forall more | Unbotched(t, more) ensures AllPass(After(t, more).daemon) {
        StaysCounted(t, more);
        CountedIsAllPass(After(t, more));
      }
    }
  }

  lemma BotchedIsAdd(s: System, m: Move)
    requires Botched(s, m)
    ensures m.Ask? && m.call == AddText
  {
  }
}
