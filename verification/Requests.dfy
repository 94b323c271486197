/** What a request leaves behind, for the client that made it and for everybody else. */
module Requests {
  import opened Types
  import opened Tables
  import opened DataSpec
  import opened DaemonSpec
  import opened DaemonInv
  import opened Scheduling
  import opened Watermark
  import A = AgentSpec
  import P = PlayerSpec

  /** The client has a player that neither plays nor is current. */
  predicate Silenced(ps: P.Players, uid: int) {
    ps.playing != Some(uid) && match Get(ps.list, uid) case None => true case Some(p) => p.media == P.MediaNull && p.uttId == -1
  }

  /** Nothing about client `u` changed: neither state nor queues, mark and player. */
  predicate Untouched(d: Daemon, r: Daemon, u: int) {
    && StateOf(r.apps, u) == StateOf(d.apps, u) && Get(r.players.list, u) == Get(d.players.list, u)
    && Texts(r.apps, u) == Texts(d.apps, u) && Sounds(r.apps, u) == Sounds(d.apps, u) && Mark(r.apps, u) == Mark(d.apps, u)
  }

  /** Everybody but `uid` is untouched, and the module's current player is the same unless it was `uid`'s. */
  ghost predicate OthersUntouched(d: Daemon, r: Daemon, uid: int) {
    && (forall u | u != uid :: Untouched(d, r, u))
    && r.players.playing == (if d.players.playing == Some(uid) then None else d.players.playing)
  }

  lemma CancelKeepsQueues(d: Daemon)
    ensures var r := StopSynthesis(d); r.apps == d.apps && r.players == d.players
  {
  }

  /**
   A playing or paused client that stops is ready, silent and without queues; no other
   client's state, queues, mark or player change, only the engine is taken from whoever
   had it.
   */
  lemma StopEffect(d: Daemon, uid: int)
    requires Inv(d) && OwnerInv(d) && Active(d.apps, uid)
    ensures var (r, err) := StopClient(d, uid);
            && err == NoError && StateOf(r.apps, uid) == Some(Ready) && Texts(r.apps, uid) == [] && Sounds(r.apps, uid) == []
            && Silenced(r.players, uid) && r.job == None && !r.synthesizing && OthersUntouched(d, r, uid)
  {
    hide Core, StopSynthesis, Clear, WithState, P.Stop;
    CurrentListed(d);
    var d1 := ClearClient(d, uid);
    ClearEffect(d.apps, uid);
    StopPlayer(d1.players, uid);
    var d2 := d1.(apps := WithState(d1.apps, uid, Ready), players := P.Stop(d1.players, uid));
    CancelKeepsQueues(d2);
    StopEnds(d2, uid);
    StopSynthesisDown(d2);
  }

  lemma StopSynthesisDown(d: Daemon)
    requires d.job.Some? ==> d.synthesizing && d.agent.init && d.agent.loaded
    ensures !StopSynthesis(d).synthesizing && StopSynthesis(d).job.None?
  {
  }

  lemma StopPlayer(ps: P.Players, uid: int)
    ensures var r := P.Stop(ps, uid);
            && (forall u | u != uid :: Get(r.list, u) == Get(ps.list, u))
            && (Has(ps.list, uid) ==> Silenced(r, uid) && r.playing == (if ps.playing == Some(uid) then None else ps.playing))
            && (!Has(ps.list, uid) ==> r == ps)
  {
  }

  lemma CurrentListed(d: Daemon)
    requires Inv(d)
    ensures d.players.playing.Some? ==> Has(d.players.list, d.players.playing.value)
    ensures Unique(d.players.list) && Unique(d.apps)
    ensures forall k | 0 <= k < |d.players.list| :: StateOf(d.apps, d.players.list[k].uid).Some?
  {
    forall k | 0 <= k < |d.players.list| ensures StateOf(d.apps, d.players.list[k].uid).Some? {
      FindIs(d.players.list, k);
      assert Has(d.players.list, d.players.list[k].uid);
    }
  }

  /** A player that is held, and one that goes on. */
  function Held(p: P.PlayerRec): P.PlayerRec {
    if p.media == P.MediaPlaying then p.(media := P.MediaPaused) else p
  }

  function Released(p: P.PlayerRec): P.PlayerRec {
    if p.media == P.MediaPaused then p.(media := P.MediaPlaying) else p
  }

  function OnPlayer(ps: P.Players, u: int, f: P.PlayerRec -> P.PlayerRec): Option<P.PlayerRec> {
    match Get(ps.list, u) case None => None case Some(p) => Some(f(p))
  }

  /** A pause keeps the client's queues, holds its player, and touches nobody else. */
  lemma PauseEffect(d: Daemon, uid: int)
    requires Inv(d) && StateOf(d.apps, uid) == Some(Playing)
    ensures var (r, err) := PauseClient(d, uid);
            if !Has(d.players.list, uid) then err == OperationFailed && r == d
            else
              && err == NoError && StateOf(r.apps, uid) == Some(Paused) && OthersUntouched(d, r, uid)
              && Texts(r.apps, uid) == Texts(d.apps, uid) && Sounds(r.apps, uid) == Sounds(d.apps, uid)
              && r.players.playing != Some(uid) && Get(r.players.list, uid) == OnPlayer(d.players, uid, Held)
              && r.job == d.job && r.synthesizing == d.synthesizing && r.timers == d.timers
  {
    hide Core, Find;
    CurrentListed(d);
  }

  lemma HoldIs(ps: P.Players, cur: int)
    ensures var r := P.Pause(ps, cur).0;
            && (forall u :: Get(r.list, u) == if u == cur then OnPlayer(ps, u, Held) else Get(ps.list, u))
            && r.playing == if ps.playing == Some(cur) && Has(ps.list, cur) then None else ps.playing
  {
  }

  lemma GoOnIs(ps: P.Players, uid: int)
    ensures var r := P.Resume(ps, uid);
            && (forall u :: Get(r.list, u) == if u == uid then OnPlayer(ps, u, Released) else Get(ps.list, u))
            && r.playing == match Get(ps.list, uid)
                            case None => ps.playing
                            case Some(p) => if p.media == P.MediaPaused then Some(uid) else None
  {
  }

  /** The client keeps its sound and its mark, and its texts but for the oldest. */
  predicate KeepsQueues(d: Daemon, r: Daemon, u: int) {
    && Sounds(r.apps, u) == Sounds(d.apps, u) && Mark(r.apps, u) == Mark(d.apps, u)
    && (Texts(r.apps, u) == Texts(d.apps, u) || (Texts(d.apps, u) != [] && Texts(r.apps, u) == Texts(d.apps, u)[1..]))
  }

  predicate SameQueues(d: Daemon, r: Daemon, u: int) {
    Texts(r.apps, u) == Texts(d.apps, u) && Sounds(r.apps, u) == Sounds(d.apps, u) && Mark(r.apps, u) == Mark(d.apps, u)
  }

  /** Client `u` has to give way to `uid`. */
  predicate Displaced(d: Daemon, uid: int, u: int) {
    u != uid && StateOf(d.apps, u) == Some(Playing)
  }

  /** What taking over does before the requester's own player and text are looked at. */
  lemma TakeOverHolds(d: Daemon, uid: int)
    requires Inv(d)
    ensures var t := TakeOver(d, uid);
            && (forall u :: SameQueues(d, t, u))
            && (forall u :: Get(t.players.list, u) == if Displaced(d, uid, u) then OnPlayer(d.players, u, Held) else Get(d.players.list, u))
            && t.players.playing ==
               if d.players.playing.Some? && Displaced(d, uid, d.players.playing.value) then None else d.players.playing
  {
    hide Core, P.Pause, Held, CurrentPlaying, WithState, MaySetState;
    ThePlaying(d);
    var cur := CurrentPlaying(d.apps);
    HoldIs(d.players, cur);
    assert TakeOver(d, uid).players == if cur != -1 && cur != uid then P.Pause(d.players, cur).0 else d.players;
  }

  lemma ThePlaying(d: Daemon)
    requires Inv(d)
    ensures forall u :: StateOf(d.apps, u) == Some(Playing) <==> CurrentPlaying(d.apps) != -1 && u == CurrentPlaying(d.apps)
    ensures d.players.playing.Some? ==> Has(d.players.list, d.players.playing.value)
  {
    CurrentIsPlaying(d.apps);
  }

  lemma StartSilent(d: Daemon, uid: int, env: Env)
    ensures var r := StartSynthesis(d, uid, false, env).0;
            r.players == d.players && KeepsQueues(d, r, uid) && forall u | u != uid :: Untouched(d, r, u)
  {
    hide A.StartCall, DropText;
    if Texts(d.apps, uid) != [] { DropTextEffect(d.apps, uid); }
  }

  /** The second half: the requester's player goes on, and its oldest text may go to the engine. */
  lemma PlayOnEffect(t: Daemon, uid: int, st: AppState, env: Env)
    requires st == Ready || st == Paused
    ensures var r := PlayOn(t, uid, st, env).0;
            && KeepsQueues(t, r, uid)
            && r.players == (if st == Paused then P.Resume(t.players, uid) else t.players)
            && forall u | u != uid :: StateOf(r.apps, u) == StateOf(t.apps, u) && SameQueues(t, r, u)
  {
    hide StartSynthesis, P.Resume;
    var t1 := if st == Paused then t.(players := P.Resume(t.players, uid)) else t;
    StartSilent(t1, uid, env);
    var r := PlayOn(t, uid, st, env).0;
    forall u | u != uid ensures StateOf(r.apps, u) == StateOf(t.apps, u) && SameQueues(t, r, u) {
      assert Untouched(t1, StartSynthesis(t1, uid, false, env).0, u);
    }
  }

  /**
   A play that takes over.  Whoever played is paused and its player held; everybody else is
   untouched.  The requester plays; if it was paused, its own player, if held, goes on and is the
   current one.  Its sound stays, and of its texts at most the oldest is gone.
   */
  lemma PlayEffect(d: Daemon, uid: int, env: Env)
    requires Inv(d) && MayPlay(d, uid, env)
    ensures var r, st := PlayClient(d, uid, env).0, StateOf(d.apps, uid).value;
            && StateOf(r.apps, uid) == Some(Playing) && KeepsQueues(d, r, uid)
            && Get(r.players.list, uid) == (if st == Paused then OnPlayer(d.players, uid, Released) else Get(d.players.list, uid))
            && (st == Paused && Has(d.players.list, uid) ==>
                  r.players.playing == if Get(d.players.list, uid).value.media == P.MediaPaused then Some(uid) else None)
            && forall u | u != uid ::
                 && SameQueues(d, r, u)
                 && if StateOf(d.apps, u) == Some(Playing) then
                      StateOf(r.apps, u) == Some(Paused) && Get(r.players.list, u) == OnPlayer(d.players, u, Held)
                      && r.players.playing != Some(u)
                    else
                      StateOf(r.apps, u) == StateOf(d.apps, u) && Get(r.players.list, u) == Get(d.players.list, u)
  {
    hide Core, PlayClient, PlayOn, TakeOver, Unreachable, P.Resume, Held, Released;
    PlayIs(d, uid, env);
    PlayKeeps(d, uid, env);
    TakeOverHolds(d, uid);
    NoneCreated(d);
    var t := TakeOver(d, uid);
    PlayOnEffect(t, uid, StateOf(d.apps, uid).value, env);
    GoOnIs(t.players, uid);
    assert SameQueues(d, t, uid);
    forall u | u != uid ensures SameQueues(d, PlayClient(d, uid, env).0, u) {
      assert SameQueues(d, t, u) && SameQueues(t, PlayClient(d, uid, env).0, u);
    }
  }

  /**
   A client that leaves is gone with its player; nobody else is touched; and the engine
   stays loaded exactly while somebody is left.
   */
  lemma LeaveEffect(d: Daemon, uid: int, env: Env)
    requires Inv(d) && OwnerInv(d) && Has(d.apps, uid)
    ensures var (r, err) := FinalizeClient(d, uid, env);
            && err == NoError && StateOf(r.apps, uid) == None && Get(r.players.list, uid) == None && OthersUntouched(d, r, uid)
            && (r.agent.loaded <==> d.agent.loaded && ClientCount(r) > 0)
  {
    hide Core, Leave, UnloadIfIdle;
    LeavePlain(d, uid);
    LeaveMoves(d, uid, uid);
    LeaveAgent(d, uid);
    var m := Leave(d, uid);
    IdleEffect(m, env);
    forall u | u != uid ensures Untouched(d, UnloadIfIdle(m, env), u) { assert Untouched(d, m, u); }
  }

  lemma LeaveAgent(d: Daemon, uid: int)
    requires Inv(d)
    ensures Leave(d, uid).agent == d.agent && (d.agent.loaded ==> d.agent.init && d.agent.cur.Some?)
  {
    hide StopClient, ClearClient;
  }

  lemma IdleEffect(d: Daemon, env: Env)
    requires OwnerInv(d) && (d.agent.loaded ==> d.agent.init && d.agent.cur.Some?)
    ensures var r := UnloadIfIdle(d, env);
            && r.apps == d.apps && r.players == d.players && ClientCount(r) == ClientCount(d)
            && (r.agent.loaded <==> d.agent.loaded && ClientCount(r) > 0)
  {
    if ClientCount(d) == 0 {
      assert d.apps == [] && d.job.None?;
    }
  }

  lemma LeavePlain(d: Daemon, uid: int)
    requires Inv(d) && OwnerInv(d) && Has(d.apps, uid)
    ensures var r := Leave(d, uid);
            StateOf(r.apps, uid) == None && Get(r.players.list, uid) == None && OthersUntouched(d, r, uid)
  {
    hide Core, StopClient, Leave, Untouched;
    var d1 := StopClient(d, uid).0;
    StopKeeps(d, uid);
    CurrentListed(d);
    CurrentListed(d1);
    if Active(d.apps, uid) { StopEffect(d, uid); } else { ReadyStopEffect(d, uid); }
    EraseLeaves(d, uid);
    forall u | u != uid ensures Untouched(d, Leave(d, uid), u) {
      assert Untouched(d, d1, u) && Untouched(d1, Leave(d, uid), u);
      UntouchedChain(d, d1, Leave(d, uid), u);
    }
  }

  lemma UntouchedChain(d: Daemon, m: Daemon, r: Daemon, u: int)
    requires Untouched(d, m, u) && Untouched(m, r, u)
    ensures Untouched(d, r, u)
  {
  }

  /** Once stopped, the client's player and record are removed and nothing else. */
  lemma EraseLeaves(d: Daemon, uid: int)
    requires var m := StopClient(d, uid).0;
             Unique(m.apps) && Unique(m.players.list)
             && (m.players.playing.Some? ==> Has(m.players.list, m.players.playing.value))
    ensures var m, r := StopClient(d, uid).0, Leave(d, uid);
            && StateOf(r.apps, uid) == None && Get(r.players.list, uid) == None
            && r.players.playing == (if m.players.playing == Some(uid) then None else m.players.playing)
            && forall u | u != uid :: Untouched(m, r, u)
  {
    hide StopClient, Clear, Delete, Find;
    var m := StopClient(d, uid).0;
    EraseEffect(m.apps, uid);
    GetDelete(m.players.list, uid);
    if !Has(m.apps, uid) { EraseNobody(m.apps, uid); }
  }

  /** A client that is merely ready and stops loses its queues and nothing else happens. */
  lemma ReadyStopEffect(d: Daemon, uid: int)
    requires StateOf(d.apps, uid).Some? && !Active(d.apps, uid)
    ensures var (r, err) := StopClient(d, uid);
            && err == NoError && r.players == d.players && r.job == d.job && r.synthesizing == d.synthesizing
            && Texts(r.apps, uid) == [] && Sounds(r.apps, uid) == []
            && forall u | u != uid :: Untouched(d, r, u)
  {
    hide Clear;
    ClearEffect(d.apps, uid);
  }

  function Reset(p: P.PlayerRec): P.PlayerRec {
    p.(uttId := -1, event := Finish, media := P.MediaNull)
  }

  /** An engine change resets every active client's player, event included, and leaves no current one. */
  lemma ChangeSilences(d: Daemon, pid: int, id: string, env: Env)
    requires Inv(d) && pid in d.settings && d.agent.cur.Some? && !A.IsSameEngine(d.agent, id)
    ensures var r := ChangeEngine(d, pid, id, env).0;
            && r.players.playing == None
            && forall u :: match Get(d.players.list, u)
                 case None => Get(r.players.list, u) == None
                 case Some(p) => Get(r.players.list, u) == Some(if Active(d.apps, u) then Reset(p) else p)
  {
    hide Core, ResetFrom, UnloadJob, A.SetEngine, A.IsSameEngine;
    CurrentListed(d);
    StopEachEffect(d.players.list, d.apps);
  }

  lemma {:induction false} StopEachEffect(list: seq<Entry<P.PlayerRec>>, apps: Apps)
    requires forall k | 0 <= k < |list| :: StateOf(apps, list[k].uid).Some?
    ensures forall u :: match Get(list, u)
              case None => Get(P.StopEach(list, apps), u) == None
              case Some(p) => Get(P.StopEach(list, apps), u) == Some(if Active(apps, u) then Reset(p) else p)
  {
    if list != [] {
      var rest, st := list[1..], StateOf(apps, list[0].uid).value;
      assert StateOf(apps, list[0].uid).Some?;
      StopEachEffect(rest, apps);
      forall u ensures Get(list, u) == if list[0].uid == u then Some(list[0].rec) else Get(rest, u) {
        GetCons(list[0], rest, u);
        assert [list[0]] + rest == list;
      }
      forall u ensures Get(P.StopEach(list, apps), u) ==
          if list[0].uid == u then Some(P.StopOne(list[0], st).rec) else Get(P.StopEach(rest, apps), u) {
        GetCons(P.StopOne(list[0], st), P.StopEach(rest, apps), u);
      }
    }
  }

  lemma GetCons<T>(e: Entry<T>, rest: seq<Entry<T>>, u: int)
    ensures Get([e] + rest, u) == if e.uid == u then Some(e.rec) else Get(rest, u)
  {
    assert ([e] + rest)[1..] == rest;
  }
}
