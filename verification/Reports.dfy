/**
 What a client hears of its utterances.  The media library plays the chunk a player was
 given, from its beginning to its end, before the player takes the next one; then the
 messages about what was accepted since anything of the client was last lost are one
 "started" and one "completed" for each accepted text, in order.
 */
module Reports {
  import opened Types
  import opened Tables
  import opened DataSpec
  import opened DaemonSpec
  import opened Subsequences
  import opened DaemonInv
  import opened Scheduling
  import opened Watermark
  import opened UtteranceIds
  import opened Tickets
  import opened Conservation
  import opened Requests
  import A = AgentSpec
  import P = PlayerSpec

  // ----- the media library's part

  /** Where the client's player is with its chunk. */
  datatype Stage = Quiet | Given(chunk: SoundData) | Streams(chunk: SoundData) | Played

  function Staged(s: Stage, x: Act, u: int): Stage {
    match x
    case Pulled(v, c) => if v == u then Given(c) else s
    case Began(v, c) => if v == u then Streams(c) else s
    case Over(v, _) => if v == u then Played else s
    case _ => s
  }

  function StageOf(log: seq<Act>, u: int): Stage {
    if log == [] then Quiet else Staged(StageOf(Front(log), u), Last(log), u)
  }

  /** A stream begins with the chunk that was taken, ends with the one that began, and only then is the next one taken. */
  predicate PlaysInTurn(d: Daemon, e: Event, u: int) {
    match e
    case EvBegin(v, c) => v == u ==> StageOf(d.log, u) == Given(c)
    case EvEnd(v, c) => v == u ==> StageOf(d.log, u) == Streams(c)
    case EvNextSound(v) => v == u ==> StageOf(d.log, u) == Played
    case EvError(v, _) => v != u
    case _ => true
  }

  // ----- what the client should hear

  /** The player has taken a chunk that was accepted after the client's last loss. */
  predicate Hearing(log: seq<Act>, u: int) {
    RecentChunks(log, u) != []
  }

  function RecentChunks(log: seq<Act>, u: int): seq<Tagged> {
    Recent(BooksOf(log, u).pulled, BooksOf(log, u).base)
  }

  /** The messages about these chunks. */
  function NotesOf(log: seq<Act>, u: int): seq<P.Note> {
    if log == [] || Loses(Last(log), u) then []
    else NotesOf(Front(log), u) + Counted(Front(log), Last(log), u)
  }

  function Counted(log: seq<Act>, x: Act, u: int): seq<P.Note> {
    if x.Noted? && x.note.uid == u && Hearing(log, u) then [x.note] else []
  }

  /** The event the player remembers after these chunks, having remembered `k` before them. */
  function Remembered(k: ResultEvent, cs: seq<Tagged>): ResultEvent {
    if cs == [] then k else Last(cs).chunk.event
  }

  function Opening(u: int, before: ResultEvent, c: SoundData): seq<P.Note> {
    if P.BeginsUtterance(before, c) then [P.UttStarted(u, c.uttId)] else []
  }

  function Closing(u: int, c: SoundData): seq<P.Note> {
    if c.event == Finish then [P.UttCompleted(u, c.uttId)] else []
  }

  /** The messages for chunks played to their ends by a player that remembered `k`. */
  function Told(u: int, k: ResultEvent, cs: seq<Tagged>): seq<P.Note> {
    if cs == [] then []
    else Told(u, k, Front(cs)) + Opening(u, Remembered(k, Front(cs)), Last(cs).chunk) + Closing(u, Last(cs).chunk)
  }

  predicate Holds(m: P.Media) {
    m != P.MediaNull
  }

  /** Player, chunks taken since the last loss, stage and messages belong together. */
  predicate Story(u: int, p: Option<P.PlayerRec>, k: ResultEvent, cs: seq<Tagged>, s: Stage, ns: seq<P.Note>) {
    if cs == [] then ns == []
    else match s
      case Quiet => false
      case Given(c) =>
        && Last(cs).chunk == c && ns == Told(u, k, Front(cs))
        && p.Some? && Holds(p.value.media) && p.value.event == Remembered(k, Front(cs))
      case Streams(c) =>
        && Last(cs).chunk == c && ns == Told(u, k, Front(cs)) + Opening(u, Remembered(k, Front(cs)), c)
        && p.Some? && Holds(p.value.media) && p.value.event == c.event
      case Played => ns == Told(u, k, cs) && p.Some? && p.value.event == Remembered(k, cs)
  }

  function EventOf(d: Daemon, u: int): ResultEvent {
    match Get(d.players.list, u) case None => Finish case Some(p) => p.event
  }

  /** A client of which nothing was ever lost starts from a player that remembers FINISH. */
  predicate Unspoilt(d: Daemon, u: int, k: ResultEvent) {
    NoLoss(d.log, u) ==>
      if Hearing(d.log, u) then k == Finish else EventOf(d, u) == Finish && StageOf(d.log, u) == Quiet
  }

  predicate Reported(d: Daemon, u: int, k: ResultEvent) {
    && Story(u, Get(d.players.list, u), k, RecentChunks(d.log, u), StageOf(d.log, u), NotesOf(d.log, u))
    && Unspoilt(d, u, k)
  }

  // ----- acts

  /** The player remembers the same event and is busy or not as before. */
  predicate SamePlayer(ps: P.Players, qs: P.Players, u: int) {
    match Get(ps.list, u)
    case None => Get(qs.list, u) == None
    case Some(p) =>
      match Get(qs.list, u) {
        case None => false
        case Some(q) => q.event == p.event && (Holds(q.media) <==> Holds(p.media))
      }
  }

  predicate StreamAct(x: Act, u: int) {
    match x
    case Pulled(v, _) => v == u
    case Began(v, _) => v == u
    case Over(v, _) => v == u
    case Noted(n) => n.uid == u
    case _ => false
  }

  lemma SameReported(d: Daemon, r: Daemon, u: int, k: ResultEvent)
    requires Reported(d, u, k) && r.log == d.log && SamePlayer(d.players, r.players, u)
    ensures Reported(r, u, k)
  {
    hide NoLoss, BooksOf, Told, Opening, RecentChunks, NotesOf, StageOf;
  }

  /** Tickets are given out before they are used. */
  predicate Placed(b: Books) {
    var n := |b.accepted|;
    && (forall i | 0 <= i < |b.texts| :: b.texts[i] < n) && (b.flight.Some? ==> b.flight.value < n)
    && (forall i | 0 <= i < |b.sounds| :: b.sounds[i].ticket < n) && (forall i | 0 <= i < |b.pulled| :: b.pulled[i].ticket < n)
  }

  lemma PlacedOne(b: Books, x: Act, u: int)
    requires Placed(b)
    ensures Placed(Entered(b, x, u))
  {
    match x
    case Accepted(_, _) =>
    case Handed(_, _, _, _) =>
    case ChunkIn(_, _) =>
    case Pulled(_, _) =>
    case _ =>
  }

  lemma {:induction false} AlwaysPlaced(log: seq<Act>, u: int)
    ensures Placed(BooksOf(log, u))
  {
    hide Entered, Placed;
    if log == [] {
      NonePlaced();
    } else {
      AlwaysPlaced(Front(log), u);
      PlacedOne(BooksOf(Front(log), u), Last(log), u);
    }
  }

  lemma NonePlaced()
    ensures Placed(EmptyBooks)
  {
  }

  lemma LogAppend(log: seq<Act>, x: Act, u: int)
    ensures StageOf(log + [x], u) == Staged(StageOf(log, u), x, u)
    ensures BooksOf(log + [x], u) == Entered(BooksOf(log, u), x, u)
    ensures NoLoss(log + [x], u) <==> NoLoss(log, u) && !Loses(x, u)
    ensures NotesOf(log + [x], u) == if Loses(x, u) then [] else NotesOf(log, u) + Counted(log, x, u)
  {
    hide Counted;
    assert Front(log + [x]) == log;
  }

  /** Something was lost, and nothing accepted since has been taken. */
  predicate Blank(log: seq<Act>, u: int) {
    !NoLoss(log, u) && !Hearing(log, u) && NotesOf(log, u) == []
  }

  lemma LossBlank(log: seq<Act>, x: Act, u: int)
    requires Loses(x, u)
    ensures Blank(log + [x], u)
  {
    hide NoLoss, BooksOf, StageOf, NotesOf;
    LogAppend(log, x, u);
    AlwaysPlaced(log + [x], u);
    var b := BooksOf(log + [x], u);
    RecentNone(b.pulled, b.base);
  }

  /** An act that takes no chunk for the client leaves its taken chunks; a loss makes them old. */
  lemma QuietBooks(log: seq<Act>, x: Act, u: int)
    requires !StreamAct(x, u) && !Loses(x, u)
    ensures RecentChunks(log + [x], u) == RecentChunks(log, u) && NotesOf(log + [x], u) == NotesOf(log, u)
    ensures StageOf(log + [x], u) == StageOf(log, u) && (NoLoss(log + [x], u) <==> NoLoss(log, u))
  {
    hide NoLoss, BooksOf, StageOf, NotesOf, Recent;
    LogAppend(log, x, u);
    assert NotesOf(log, u) + [] == NotesOf(log, u);
  }

  /** An act that is not about the client's stream. */
  lemma QuietReported(d: Daemon, x: Act, r: Daemon, u: int, k: ResultEvent)
    requires Reported(d, u, k) && !StreamAct(x, u) && r.log == d.log + [x]
    requires Loses(x, u) || SamePlayer(d.players, r.players, u)
    ensures Reported(r, u, k) && (Blank(d.log, u) ==> Blank(r.log, u))
  {
    hide NoLoss, BooksOf, Told, Opening, StageOf, NotesOf, RecentChunks, Hearing;
    if Loses(x, u) {
      LossBlank(d.log, x, u);
      BlankReported(r, u, k);
    } else {
      QuietBooks(d.log, x, u);
      SameHearing(d.log, r.log, u);
    }
  }

  lemma SameHearing(a: seq<Act>, b: seq<Act>, u: int)
    requires RecentChunks(a, u) == RecentChunks(b, u)
    ensures Hearing(a, u) <==> Hearing(b, u)
  {
  }

  /** After that nothing is claimed of the player. */
  lemma BlankReported(d: Daemon, u: int, k: ResultEvent)
    requires Blank(d.log, u)
    ensures Reported(d, u, k)
  {
  }

  // ----- the operations

  lemma PlayersSame(ps: P.Players, uid: int, u: int)
    ensures SamePlayer(ps, ps, u) && SamePlayer(ps, P.Pause(ps, uid).0, u) && SamePlayer(ps, P.Resume(ps, uid), u)
    ensures u != uid ==> SamePlayer(ps, P.Stop(ps, uid), u)
  {
  }

  lemma EmitReported(d: Daemon, ev: ResultEvent, pcm: seq<int>, u: int, k: ResultEvent)
    requires Reported(d, u, k) && d.job.Some?
    ensures Reported(Emit(d, ev, pcm), u, k) && (Blank(d.log, u) ==> Blank(Emit(d, ev, pcm).log, u))
  {
    hide Reported, Blank, SamePlayer, AddSound, UttIdValid;
    var j := d.job.value;
    var m := OnResult(d, ev, j.uid, j.speak.uttId, pcm);
    PlayersSame(d.players, 0, u);
    if m.log == d.log {
      SameReported(d, m, u, k);
    } else if IsSound(ev) && !UttIdValid(d.apps, j.uid, j.speak.uttId) {
      QuietReported(d, Refused(j.uid, j.speak.uttId), m, u, k);
    } else {
      QuietReported(d, ChunkIn(j.uid, SoundData(j.speak.uttId, ev, pcm)), m, u, k);
    }
    if EndsJob(ev) {
      QuietReported(m, Ended(j.uid, j.speak.uttId, ev), Emit(d, ev, pcm), u, k);
    } else {
      SameReported(m, Emit(d, ev, pcm), u, k);
    }
  }

  lemma ClearReported(d: Daemon, uid: int, u: int, k: ResultEvent)
    requires Reported(d, u, k)
    ensures Reported(ClearClient(d, uid), u, k) && (Blank(d.log, u) ==> Blank(ClearClient(d, uid).log, u))
    ensures uid == u && Has(d.apps, u) ==> Blank(ClearClient(d, uid).log, u)
  {
    hide Reported, Blank, SamePlayer, Clear;
    PlayersSame(d.players, 0, u);
    if Has(d.apps, uid) {
      QuietReported(d, Cleared(uid), ClearClient(d, uid), u, k);
      if uid == u { LossBlank(d.log, Cleared(uid), u); }
    }
  }

  lemma CancelReported(d: Daemon, u: int, k: ResultEvent)
    requires Reported(d, u, k)
    ensures Reported(StopSynthesis(d), u, k) && (Blank(d.log, u) ==> Blank(StopSynthesis(d).log, u))
  {
    hide Reported, Blank, SamePlayer;
    PlayersSame(d.players, 0, u);
    if d.job.Some? {
      EmitReported(d, Cancel, [], u, k);
      SameReported(Emit(d, Cancel, []), Emit(d, Cancel, []).(synthesizing := false), u, k);
    }
    SameReported(d, d.(synthesizing := false), u, k);
  }

  /** What a stop does; to the client that stops something is lost. */
  lemma StopReported(d: Daemon, uid: int, u: int, k: ResultEvent)
    requires Reported(d, u, k)
    ensures var r := StopClient(d, uid).0;
            && Reported(r, u, k) && (uid == u && Has(d.apps, u) ==> Blank(r.log, u))
            && (u != uid ==> Get(r.players.list, u) == Get(d.players.list, u))
  {
    hide Reported, Blank, SamePlayer, Clear, P.Stop, StopSynthesis, WithState, Silenced;
    var d1 := ClearClient(d, uid);
    ClearReported(d, uid, u, k);
    StopPlayer(d1.players, uid);
    if Active(d.apps, uid) {
      SilenceReported(d1, uid, u, k);
    }
  }

  lemma SilenceReported(d: Daemon, uid: int, u: int, k: ResultEvent)
    requires Reported(d, u, k) && (u == uid ==> Blank(d.log, u))
    ensures var r := StopSynthesis(d.(apps := WithState(d.apps, uid, Ready), players := P.Stop(d.players, uid)));
            Reported(r, u, k) && (u == uid ==> Blank(r.log, u))
  {
    hide Reported, Blank, SamePlayer, P.Stop, StopSynthesis, WithState;
    var m := d.(apps := WithState(d.apps, uid, Ready), players := P.Stop(d.players, uid));
    PlayersSame(d.players, uid, u);
    if u != uid { SameReported(d, m, u, k); } else { BlankReported(m, u, k); }
    CancelReported(m, u, k);
  }

  lemma FailReported(d: Daemon, uid: int, uttId: int, u: int, k: ResultEvent)
    requires Reported(d, u, k)
    ensures Reported(FailClient(d, uid, uttId), u, k)
  {
    hide Reported, SamePlayer, StopClient;
    var e := Log(d, [ErrorSent(uid, uttId)]);
    PlayersSame(d.players, 0, u);
    QuietReported(d, ErrorSent(uid, uttId), e, u, k);
    StopReported(e, uid, u, k);
    var m := StopClient(e, uid).0;
    PlayersSame(m.players, 0, u);
    SameReported(m, FailClient(d, uid, uttId), u, k);
  }

  lemma HandReported(d: Daemon, uid: int, env: Env, u: int, k: ResultEvent)
    requires Reported(d, u, k) && Texts(d.apps, uid) != []
    ensures Reported(Hand(d, uid, env).0, u, k)
  {
    hide Reported, SamePlayer, A.StartCall, DropText;
    var (r, ok) := Hand(d, uid, env);
    PlayersSame(d.players, 0, u);
    assert r.log == d.log + [Last(r.log)];
    QuietReported(d, Last(r.log), r, u, k);
  }

  lemma StartReported(d: Daemon, uid: int, adding: bool, env: Env, u: int, k: ResultEvent)
    requires Reported(d, u, k)
    ensures Reported(StartSynthesis(d, uid, adding, env).0, u, k)
  {
    hide Reported, Hand, FailClient;
    if !d.synthesizing && Texts(d.apps, uid) != [] {
      HandReported(d, uid, env, u, k);
      FailReported(Hand(d, uid, env).0, uid, HeadId(d, uid), u, k);
    }
  }

  /** `k` is what the player remembers, unless the recent chunks have begun to be taken. */
  predicate Primed(d: Daemon, u: int, k: ResultEvent) {
    Hearing(d.log, u) || k == EventOf(d, u)
  }

  lemma {:induction false} RecentSome(cs: seq<Tagged>, k: nat)
    requires Recent(cs, k) != []
    ensures exists i :: 0 <= i < |cs| && cs[i].ticket >= k
  {
    if Last(cs).ticket >= k {
      assert cs[|cs| - 1].ticket >= k;
    } else {
      RecentSome(Front(cs), k);
      var i :| 0 <= i < |Front(cs)| && Front(cs)[i].ticket >= k;
      assert cs[i].ticket >= k;
    }
  }

  /** Once recent chunks are taken, so is the next one. */
  lemma HeadIsRecent(b: Books, streaming: bool)
    requires Ordered(b, streaming) && b.sounds != [] && Recent(b.pulled, b.base) != []
    ensures b.sounds[0].ticket >= b.base
  {
    hide Ordered, Recent, Map;
    LineRises(b, streaming);
    RecentSome(b.pulled, b.base);
    var i :| 0 <= i < |b.pulled| && b.pulled[i].ticket >= b.base;
    MapAt(TicketOf, b.pulled + b.sounds);
    assert Line(b)[i] == b.pulled[i].ticket && Line(b)[|b.pulled|] == b.sounds[0].ticket;
  }

  /** A chunk is taken while the player holds none: the story goes on with it, or begins. */
  lemma TakeReported(d: Daemon, r: Daemon, u: int, k: ResultEvent)
    requires Reported(d, u, k) && Primed(d, u, k) && Tracked(d, u) && Sounds(d.apps, u) != []
    requires Hearing(d.log, u) ==> StageOf(d.log, u) == Played
    requires r.log == d.log + [Pulled(u, Sounds(d.apps, u)[0])]
    requires match Get(d.players.list, u) case None => false
             case Some(p) => Get(r.players.list, u) == Some(p.(media := P.MediaPlaying, chunk := Some(Sounds(d.apps, u)[0])))
    ensures Reported(r, u, k)
  {
    hide NoLoss, BooksOf, StageOf, NotesOf, Story, Ordered, Exact, Recent;
    var c, b := Sounds(d.apps, u)[0], BooksOf(d.log, u);
    var cs := Recent(b.pulled, b.base);
    LogAppend(d.log, Pulled(u, c), u);
    assert FirstSound(b, c);
    assert NotesOf(d.log, u) + [] == NotesOf(d.log, u);
    RecentAppend(b.pulled, b.sounds[0], b.base);
    if b.sounds[0].ticket >= b.base {
      StoryTakes(u, Get(d.players.list, u).value, k, cs, b.sounds[0], StageOf(d.log, u), NotesOf(d.log, u));
    } else {
      if cs != [] { HeadIsRecent(b, ViewOf(d, u).streaming); }
      if NoLoss(d.log, u) { NoLossBase(d.log, u); }
      assert cs + [] == cs;
      OldStory(u, Get(d.players.list, u), Get(r.players.list, u), k, StageOf(d.log, u), Given(c), NotesOf(d.log, u));
    }
  }

  lemma StoryTakes(u: int, p: P.PlayerRec, k: ResultEvent, cs: seq<Tagged>, t: Tagged, s: Stage, ns: seq<P.Note>)
    requires Story(u, Some(p), k, cs, s, ns) && (if cs == [] then k == p.event else s == Played)
    ensures Story(u, Some(p.(media := P.MediaPlaying, chunk := Some(t.chunk))), k, cs + [t], Given(t.chunk), ns)
  {
    assert Front(cs + [t]) == cs;
  }

  lemma OldStory(u: int, p: Option<P.PlayerRec>, q: Option<P.PlayerRec>, k: ResultEvent, s: Stage, t: Stage, ns: seq<P.Note>)
    requires Story(u, p, k, [], s, ns)
    ensures Story(u, q, k, [], t, ns)
  {
  }

  lemma NothingTold(u: int, k: ResultEvent)
    ensures Told(u, k, []) == []
  {
  }

  lemma PlayReported(d: Daemon, uid: int, u: int, k: ResultEvent)
    requires Reported(d, u, k) && Tracked(d, u) && (uid == u && Sounds(d.apps, u) != [] ==> Primed(d, u, k))
    ensures Reported(WithPull(d, uid, P.Play(d.players, d.apps, uid)), u, k)
  {
    hide Tracked, NoLoss, BooksOf, StageOf, NotesOf, Told, Opening, RecentChunks, Primed;
    var p := P.Play(d.players, d.apps, uid);
    var r := WithPull(d, uid, p);
    PlayersSame(d.players, 0, u);
    if p.taken.None? {
      assert d.log + [] == d.log;
      SameReported(d, r, u, k);
    } else if uid != u {
      QuietReported(d, Pulled(uid, p.taken.value), r, u, k);
    } else {
      TakeReported(d, r, u, k);
    }
  }

  lemma NextReported(d: Daemon, uid: int, u: int, k: ResultEvent)
    requires Reported(d, u, k) && Tracked(d, u) && Primed(d, u, k) && (uid == u ==> StageOf(d.log, u) == Played)
    ensures Reported(NextSound(d, uid), u, k)
  {
    hide Tracked, Reported, StageOf, Primed, P.NextPlay;
    var p := P.NextPlay(d.players, d.apps, uid);
    var r := NextSound(d, uid);
    NextPlayers(d.players, d.apps, uid, u);
    if p.taken.None? {
      assert d.log + [] == d.log;
      if uid == u { PlayedReported(d, r, u, k); } else { SameReported(d, r, u, k); }
    } else if uid != u {
      QuietReported(d, Pulled(uid, p.taken.value), r, u, k);
    } else {
      var rec := Get(d.players.list, u).value.(media := P.MediaNull);
      var m := d.(players := d.players.(list := Set(d.players.list, u, rec)));
      TrackSame(d, m, u);
      PlayedReported(d, m, u, k);
      PrimedSame(d, m, u, k);
      P.PullTakes(d.players, d.apps, uid);
      TakeReported(m, r, u, k);
    }
  }

  lemma NextPlayers(ps: P.Players, apps: Apps, uid: int, u: int)
    ensures var p := P.NextPlay(ps, apps, uid);
            if u != uid then SamePlayer(ps, p.ps, u)
            else match Get(ps.list, u)
              case None => Get(p.ps.list, u).None? && p.taken.None?
              case Some(q) =>
                && Get(p.ps.list, u).Some? && Get(p.ps.list, u).value.event == q.event
                && (p.taken.Some? ==> Get(p.ps.list, u) == Some(q.(media := P.MediaPlaying, chunk := p.taken)))
  {
  }

  /** Between two chunks only the remembered event matters. */
  lemma PlayedReported(d: Daemon, m: Daemon, u: int, k: ResultEvent)
    requires Reported(d, u, k) && StageOf(d.log, u) == Played && m.log == d.log
    requires match Get(d.players.list, u) case None => Get(m.players.list, u).None?
             case Some(p) => Get(m.players.list, u).Some? && Get(m.players.list, u).value.event == p.event
    ensures Reported(m, u, k)
  {
    hide NoLoss, StageOf, NotesOf, RecentChunks, Hearing, Told;
  }

  lemma PrimedSame(d: Daemon, m: Daemon, u: int, k: ResultEvent)
    requires Primed(d, u, k) && m.log == d.log && EventOf(m, u) == EventOf(d, u)
    ensures Primed(m, u, k)
  {
  }

  lemma TrackSame(d: Daemon, m: Daemon, u: int)
    requires Tracked(d, u) && m == d.(players := m.players)
    ensures Tracked(m, u)
  {
    SameTracks(d, m, u);
  }

  /** The stream callbacks tell the client what the chunk is. */
  lemma StreamReported(d: Daemon, uid: int, c: SoundData, u: int, k: ResultEvent)
    requires Reported(d, u, k)
    ensures (uid == u ==> StageOf(d.log, u) == Given(c)) ==> Reported(StreamBegins(d, uid, c), u, k)
    ensures (uid == u ==> StageOf(d.log, u) == Streams(c)) ==> Reported(StreamEnds(d, uid, c), u, k)
    ensures uid != u ==> Reported(StreamFails(d, uid, c), u, k)
  {
    if uid != u {
      OtherStream(d, uid, c, u, k);
    } else {
      if StageOf(d.log, u) == Given(c) { BeginReported(d, c, u, k); }
      if StageOf(d.log, u) == Streams(c) { EndReported(d, c, u, k); }
    }
  }

  lemma OtherStream(d: Daemon, uid: int, c: SoundData, u: int, k: ResultEvent)
    requires Reported(d, u, k) && uid != u
    ensures Reported(StreamBegins(d, uid, c), u, k) && Reported(StreamEnds(d, uid, c), u, k) && Reported(StreamFails(d, uid, c), u, k)
  {
    hide Reported, SamePlayer, P.OnBegin, P.OnEnd, P.OnError;
    OtherPlayers(d.players, uid, c, StateOf(d.apps, uid), u);
    OtherNote(d, Began(uid, c), P.OnBegin(d.players, uid, c, StateOf(d.apps, uid)), uid, u, k);
    OtherNote(d, Over(uid, c), P.OnEnd(d.players, uid, c), uid, u, k);
    QuietReported(d, ErrorSent(uid, c.uttId), StreamFails(d, uid, c), u, k);
  }

  lemma OtherPlayers(ps: P.Players, uid: int, c: SoundData, st: Option<AppState>, u: int)
    requires uid != u
    ensures var (b, e) := (P.OnBegin(ps, uid, c, st), P.OnEnd(ps, uid, c));
            && SamePlayer(ps, b.0, u) && (b.1.Some? ==> b.1.value.uid == uid)
            && SamePlayer(ps, e.0, u) && (e.1.Some? ==> e.1.value.uid == uid)
            && SamePlayer(ps, P.OnError(ps, uid), u)
  {
  }

  lemma OtherNote(d: Daemon, x: Act, n: (P.Players, Option<P.Note>), uid: int, u: int, k: ResultEvent)
    requires Reported(d, u, k) && !StreamAct(x, u) && SamePlayer(d.players, n.0, u) && (n.1.Some? ==> n.1.value.uid != u)
    ensures Reported(WithNote(d, x, n), u, k)
  {
    hide Reported, SamePlayer;
    var m := Log(d, [x]).(players := n.0);
    QuietReported(d, x, m, u, k);
    match n.1
    case None =>
    case Some(y) =>
      assert d.log + [x, Noted(y)] == m.log + [Noted(y)];
      PlayersSame(m.players, 0, u);
      QuietReported(m, Noted(y), WithNote(d, x, n), u, k);
  }

  /** The history grows by a stream act of the client and perhaps a message to it. */
  lemma StreamLog(log: seq<Act>, x: Act, n: Option<P.Note>, u: int)
    requires (x.Began? || x.Over?) && x.uid == u && (n.Some? ==> n.value.uid == u)
    ensures var r := log + match n case None => [x] case Some(y) => [x, Noted(y)];
            && StageOf(r, u) == Staged(StageOf(log, u), x, u) && RecentChunks(r, u) == RecentChunks(log, u)
            && (NoLoss(r, u) <==> NoLoss(log, u))
            && NotesOf(r, u) == NotesOf(log, u) + if n.Some? && Hearing(log, u) then [n.value] else []
  {
    hide NoLoss, BooksOf, StageOf, NotesOf, Recent;
    var m := log + [x];
    LogAppend(log, x, u);
    assert NotesOf(log, u) + [] == NotesOf(log, u);
    if n.Some? {
      LogAppend(m, Noted(n.value), u);
      assert log + [x, Noted(n.value)] == m + [Noted(n.value)];
    }
  }

  lemma StoryBegins(u: int, p: P.PlayerRec, q: P.PlayerRec, k: ResultEvent, cs: seq<Tagged>, c: SoundData, ns: seq<P.Note>)
    requires Story(u, Some(p), k, cs, Given(c), ns) && q.event == c.event && (Holds(q.media) <==> Holds(p.media))
    ensures Story(u, Some(q), k, cs, Streams(c), ns + if cs != [] then Opening(u, p.event, c) else [])
  {
    hide Told, Opening;
    assert cs == [] ==> ns + [] == [];
  }

  lemma StoryEnds(u: int, p: P.PlayerRec, q: P.PlayerRec, k: ResultEvent, cs: seq<Tagged>, c: SoundData, ns: seq<P.Note>)
    requires Story(u, Some(p), k, cs, Streams(c), ns) && q.event == p.event
    ensures Story(u, Some(q), k, cs, Played, ns + if cs != [] && p.event == Finish then [P.UttCompleted(u, c.uttId)] else [])
  {
    hide Opening;
    assert cs == [] ==> ns + [] == [];
  }

  /** Without a player nothing recent is being heard. */
  lemma NoStory(u: int, k: ResultEvent, cs: seq<Tagged>, s: Stage, t: Stage, ns: seq<P.Note>)
    requires Story(u, None, k, cs, s, ns)
    ensures cs == [] && Story(u, None, k, cs, t, ns)
  {
  }

  lemma BeganPlayer(ps: P.Players, u: int, c: SoundData, st: Option<AppState>)
    ensures var (qs, n) := P.OnBegin(ps, u, c, st);
            match Get(ps.list, u)
            case None => Get(qs.list, u) == None && n == None
            case Some(p) =>
              && Get(qs.list, u).Some? && Get(qs.list, u).value.event == c.event
              && (Holds(Get(qs.list, u).value.media) <==> Holds(p.media))
              && n == if P.BeginsUtterance(p.event, c) then Some(P.UttStarted(u, c.uttId)) else None
  {
  }

  lemma OverPlayer(ps: P.Players, u: int, c: SoundData)
    ensures var (qs, n) := P.OnEnd(ps, u, c);
            match Get(ps.list, u)
            case None => Get(qs.list, u) == None && n == None
            case Some(p) =>
              && Get(qs.list, u).Some? && Get(qs.list, u).value.event == p.event
              && n == if p.event == Finish then Some(P.UttCompleted(u, c.uttId)) else None
  {
  }

  /** A stream act and its message, once the story is known to go on with them. */
  lemma ActReported(d: Daemon, x: Act, q: (P.Players, Option<P.Note>), u: int, k: ResultEvent)
    requires Reported(d, u, k) && StageOf(d.log, u) != Quiet
    requires (x.Began? || x.Over?) && x.uid == u && (q.1.Some? ==> q.1.value.uid == u)
    requires Story(u, Get(q.0.list, u), k, RecentChunks(d.log, u), Staged(StageOf(d.log, u), x, u),
                   NotesOf(d.log, u) + if q.1.Some? && Hearing(d.log, u) then [q.1.value] else [])
    ensures Reported(WithNote(d, x, q), u, k)
  {
    hide NoLoss, StageOf, NotesOf, RecentChunks, Story, Staged;
    StreamLog(d.log, x, q.1, u);
    SameHearing(d.log, WithNote(d, x, q).log, u);
  }

  lemma BeginReported(d: Daemon, c: SoundData, u: int, k: ResultEvent)
    requires Reported(d, u, k) && StageOf(d.log, u) == Given(c)
    ensures Reported(StreamBegins(d, u, c), u, k)
  {
    hide NoLoss, StageOf, NotesOf, RecentChunks, Story, P.OnBegin, Unspoilt;
    var q := P.OnBegin(d.players, u, c, StateOf(d.apps, u));
    var ns, cs := NotesOf(d.log, u), RecentChunks(d.log, u);
    BeganPlayer(d.players, u, c, StateOf(d.apps, u));
    assert ns + [] == ns;
    match Get(d.players.list, u) {
      case None => NoStory(u, k, cs, Given(c), Streams(c), ns);
      case Some(p) => StoryBegins(u, p, Get(q.0.list, u).value, k, cs, c, ns);
    }
    ActReported(d, Began(u, c), q, u, k);
  }

  lemma EndReported(d: Daemon, c: SoundData, u: int, k: ResultEvent)
    requires Reported(d, u, k) && StageOf(d.log, u) == Streams(c)
    ensures Reported(StreamEnds(d, u, c), u, k)
  {
    hide NoLoss, StageOf, NotesOf, RecentChunks, Story, P.OnEnd, Unspoilt;
    var q := P.OnEnd(d.players, u, c);
    var ns, cs := NotesOf(d.log, u), RecentChunks(d.log, u);
    OverPlayer(d.players, u, c);
    assert ns + [] == ns;
    match Get(d.players.list, u) {
      case None => NoStory(u, k, cs, Streams(c), Played, ns);
      case Some(p) => StoryEnds(u, p, Get(q.0.list, u).value, k, cs, c, ns);
    }
    ActReported(d, Over(u, c), q, u, k);
  }

  lemma TickReported(d: Daemon, env: Env, u: int, k: ResultEvent)
    requires Reported(d, u, k) && Primed(d, u, k) && Tracked(d, u) && OwnerInv(d) && d.timers > 0
    ensures Reported(Tick(d, env), u, k)
  {
    hide Reported, Primed, Tracked, SamePlayer, NextSynthesis;
    PlayersSame(d.players, 0, u);
    if CurrentPlaying(d.apps) < 0 {
      SameReported(d, Tick(d, env), u, k);
    } else if d.next {
      NextTextReported(d, env, u, k);
      var m := NextSynthesis(d, env);
      PlayersSame(m.players, 0, u);
      SameReported(m, Tick(d, env), u, k);
    }
  }

  lemma NextTextReported(d: Daemon, env: Env, u: int, k: ResultEvent)
    requires Reported(d, u, k) && Primed(d, u, k) && Tracked(d, u) && OwnerInv(d)
    ensures Reported(NextSynthesis(d, env), u, k)
  {
    hide Reported, Primed, Tracked, Hand, FailClient, WithPull, P.Play;
    var uid := CurrentPlaying(d.apps);
    if uid >= 0 && !d.synthesizing {
      var d1 := d;
      if Texts(d.apps, uid) != [] {
        var (h, ok) := Hand(d, uid, env);
        HandReported(d, uid, env, u, k);
        TrackHand(d, uid, env, u);
        FailReported(h, uid, HeadId(d, uid), u, k);
        TrackFail(h, uid, HeadId(d, uid), u);
        HandPrimed(d, uid, env, u, k);
        FailSilences(h, uid, HeadId(d, uid));
        d1 := if ok then h else FailClient(h, uid, HeadId(d, uid));
      }
      PlayReported(d1, uid, u, k);
    }
  }

  lemma HandPrimed(d: Daemon, uid: int, env: Env, u: int, k: ResultEvent)
    requires Primed(d, u, k) && Texts(d.apps, uid) != []
    ensures Primed(Hand(d, uid, env).0, u, k) || (u == uid && !Hand(d, uid, env).1)
  {
    hide A.StartCall, DropText, BooksOf, NotesOf, Recent;
    var r := Hand(d, uid, env).0;
    assert r.log == d.log + [Last(r.log)];
    if !Loses(Last(r.log), u) { QuietBooks(d.log, Last(r.log), u); }
  }

  lemma FailSilences(d: Daemon, uid: int, uttId: int)
    ensures Sounds(FailClient(d, uid, uttId).apps, uid) == []
  {
    hide StopSynthesis, Clear, P.Stop;
    ClearEffect(d.apps, uid);
    var d1 := ClearClient(Log(d, [ErrorSent(uid, uttId)]), uid);
    SynthesisSounds(d1.(apps := WithState(d1.apps, uid, Ready), players := P.Stop(d1.players, uid)), uid);
  }

  lemma SynthesisSounds(d: Daemon, uid: int)
    ensures Sounds(StopSynthesis(d).apps, uid) == Sounds(d.apps, uid)
  {
  }

  lemma AddReported(d: Daemon, uid: int, sd: SpeakData, env: Env, u: int, k: ResultEvent)
    requires Reported(d, u, k)
    ensures Reported(AddQueue(d, uid, sd, env).0, u, k)
  {
    hide Reported, SamePlayer, StartSynthesis, A.SelectVoice, AddText;
    PlayersSame(d.players, 0, u);
    QuietReported(d, Accepted(uid, sd), Enqueue(d, uid, sd), u, k);
    StartReported(Enqueue(d, uid, sd), uid, true, env, u, k);
  }

  lemma PlayClientReported(d: Daemon, uid: int, env: Env, u: int, k: ResultEvent)
    requires Inv(d) && Reported(d, u, k)
    ensures Reported(PlayClient(d, uid, env).0, u, k)
  {
    hide Core, Reported, PlayClient, PlayOn, TakeOver;
    PlayIs(d, uid, env);
    if MayPlay(d, uid, env) {
      TakeOverReported(d, uid, u, k);
      PlayOnReported(TakeOver(d, uid), uid, StateOf(d.apps, uid).value, env, u, k);
    }
  }

  lemma TakeOverReported(d: Daemon, uid: int, u: int, k: ResultEvent)
    requires Reported(d, u, k)
    ensures Reported(TakeOver(d, uid), u, k)
  {
    hide Reported, SamePlayer, P.Pause, CurrentPlaying;
    PlayersSame(d.players, CurrentPlaying(d.apps), u);
    SameReported(d, TakeOver(d, uid), u, k);
  }

  lemma PlayOnReported(d: Daemon, uid: int, st: AppState, env: Env, u: int, k: ResultEvent)
    requires Reported(d, u, k)
    ensures Reported(PlayOn(d, uid, st, env).0, u, k)
  {
    hide Reported, SamePlayer, P.Resume, StartSynthesis;
    PlayersSame(d.players, uid, u);
    var d1 := if st == Paused then d.(players := P.Resume(d.players, uid)) else d;
    SameReported(d, d1, u, k);
    StartReported(d1, uid, false, env, u, k);
    var d2 := StartSynthesis(d1, uid, false, env).0;
    PlayersSame(d1.players, uid, u);
    PlayersSame(d2.players, uid, u);
    SameReported(d1, d1.(timers := d1.timers + 1), u, k);
    SameReported(d2, d2.(timers := d2.timers + 1), u, k);
  }

  lemma PauseReported(d: Daemon, uid: int, u: int, k: ResultEvent)
    requires Reported(d, u, k)
    ensures Reported(PauseClient(d, uid).0, u, k)
  {
    hide Reported, SamePlayer, P.Pause;
    PlayersSame(d.players, uid, u);
    if StateOf(d.apps, uid) == Some(Playing) {
      SameReported(d, PauseClient(d, uid).0, u, k);
    }
  }

  lemma IdleReported(d: Daemon, env: Env, u: int, k: ResultEvent)
    requires Reported(d, u, k)
    ensures Reported(UnloadIfIdle(d, env), u, k)
  {
    hide Reported, SamePlayer, UnloadJob;
    UnloadReported(d, env.cancels, u, k);
    var m := UnloadJob(d, env.cancels);
    PlayersSame(m.players, 0, u);
    SameReported(m, m.(agent := A.Unload(m.agent).0), u, k);
  }

  lemma UnloadReported(d: Daemon, cancels: bool, u: int, k: ResultEvent)
    requires Reported(d, u, k)
    ensures Reported(UnloadJob(d, cancels), u, k)
  {
    hide Reported, SamePlayer;
    PlayersSame(d.players, 0, u);
    if d.job.Some? {
      EmitReported(d, Cancel, [], u, k);
      var x := Ended(d.job.value.uid, d.job.value.speak.uttId, Cancel);
      QuietReported(d, x, Log(d, [x]).(job := None), u, k);
    }
  }

  lemma LeavingReported(d: Daemon, uid: int, pid: int, env: Env, u: int, k: ResultEvent)
    requires Inv(d) && Reported(d, u, k)
    ensures Reported(FinalizeClient(d, uid, env).0, u, k) && Reported(FinalizeSetting(d, pid, env).0, u, k)
  {
    hide Core, Reported, SamePlayer, Leave, UnloadIfIdle;
    if Has(d.apps, uid) {
      LeaveReported(d, uid, u, k);
      IdleReported(Leave(d, uid), env, u, k);
    }
    var d1 := d.(settings := Without(d.settings, pid));
    PlayersSame(d.players, 0, u);
    SameReported(d, d1, u, k);
    IdleReported(d1, env, u, k);
  }

  lemma LeaveReported(d: Daemon, uid: int, u: int, k: ResultEvent)
    requires Inv(d) && Reported(d, u, k) && Has(d.apps, uid)
    ensures Reported(Leave(d, uid), u, k)
  {
    hide Core, Reported, SamePlayer, Blank, StopClient, Delete, Clear;
    var d1 := StopClient(d, uid).0;
    StopReported(d, uid, u, k);
    StopKeeps(d, uid);
    CurrentListed(d1);
    var d2 := d1.(players := P.Destroy(d1.players, uid));
    if u == uid {
      BlankReported(d2, u, k);
    } else {
      DestroySame(d1.players, uid, u);
      SameReported(d1, d2, u, k);
    }
    ClearReported(d2, uid, u, k);
    var d3 := ClearClient(d2, uid);
    PlayersSame(d3.players, 0, u);
    SameReported(d3, d3.(apps := Delete(d3.apps, uid)), u, k);
  }

  lemma DestroySame(ps: P.Players, uid: int, u: int)
    requires Unique(ps.list) && u != uid
    ensures SamePlayer(ps, P.Destroy(ps, uid), u)
  {
    GetDelete(ps.list, uid);
  }

  lemma InitReported(d: Daemon, pid: int, uid: int, env: Env, u: int, k: ResultEvent)
    requires Inv(d) && Reported(d, u, k)
    ensures Reported(InitClient(d, pid, uid, env).0, u, k) && Reported(InitSetting(d, pid, env).0, u, k)
  {
    hide Core, Reported, SamePlayer, EnsureEngine, A.Load, Append, P.Create;
    PlayersSame(d.players, 0, u);
    SameReported(d, InitSetting(d, pid, env).0, u, k);
    var r := InitClient(d, pid, uid, env).0;
    if r.players == d.players {
      SameReported(d, r, u, k);
    } else {
      NoPlayerYet(d, uid);
      CreateReported(d, r, uid, env.made, u, k);
    }
  }

  lemma NoPlayerYet(d: Daemon, uid: int)
    requires Inv(d)
    ensures StateOf(d.apps, uid).None? ==> Get(d.players.list, uid).None?
  {
  }

  /** A new player has everything before it. */
  lemma CreateReported(d: Daemon, r: Daemon, uid: int, made: bool, u: int, k: ResultEvent)
    requires Reported(d, u, k) && r.log == d.log && r.players == P.Create(d.players, uid, made).0
    requires Get(d.players.list, uid).None?
    ensures Reported(r, u, k)
  {
    hide NoLoss, BooksOf, StageOf, NotesOf, Told, Opening, RecentChunks;
  }

  /** The walk of an engine change loses something of every client. */
  lemma {:induction false} WalkLoses(d: Daemon, i: nat, u: int)
    requires Inv(d) && (Blank(d.log, u) || Find(d.apps, u) >= i)
    ensures Blank(ResetFrom(d, i).log, u)
    decreases |d.apps| - i
  {
    hide Core, ResetClient, Blank;
    if i < |d.apps| {
      var uid := d.apps[i].uid;
      ResetOneKeeps(d, i);
      ResetLoses(d, uid, u);
      WalkLoses(ResetClient(d, uid), i + 1, u);
    }
  }

  lemma ResetLoses(d: Daemon, uid: int, u: int)
    requires Has(d.apps, uid)
    ensures uid == u || Blank(d.log, u) ==> Blank(ResetClient(d, uid).log, u)
  {
    hide Clear, NoLoss, BooksOf, NotesOf, Recent;
    if uid == u { LossBlank(d.log, Cleared(uid), u); } else { QuietBooks(d.log, Cleared(uid), u); }
  }

  lemma {:induction false} WalkReported(d: Daemon, i: nat, u: int, k: ResultEvent)
    requires Reported(d, u, k)
    ensures Reported(ResetFrom(d, i), u, k) && ResetFrom(d, i).players == d.players
    decreases |d.apps| - i
  {
    hide Reported, ResetClient;
    if i < |d.apps| {
      ResetReported(d, d.apps[i].uid, u, k);
      WalkReported(ResetClient(d, d.apps[i].uid), i + 1, u, k);
    }
  }

  lemma ResetReported(d: Daemon, uid: int, u: int, k: ResultEvent)
    requires Reported(d, u, k)
    ensures Reported(ResetClient(d, uid), u, k)
  {
    hide Reported, SamePlayer, ClearClient;
    ClearReported(d, uid, u, k);
    PlayersSame(d.players, 0, u);
    SameReported(ClearClient(d, uid), ResetClient(d, uid), u, k);
  }

  /** Whoever has a player loses something; whoever has none keeps none. */
  lemma AllStopReported(d: Daemon, u: int, k: ResultEvent)
    requires Inv(d) && Reported(d, u, k)
    ensures Reported(ResetFrom(d.(players := P.AllStop(d.players, d.apps)), 0), u, k)
  {
    hide Core, Reported, Blank, ResetFrom, P.StopEach, Reset;
    var d1 := d.(players := P.AllStop(d.players, d.apps));
    AllStopKeeps(d);
    CurrentListed(d);
    StopEachEffect(d.players.list, d.apps);
    if Has(d.players.list, u) {
      FindIs(d.players.list, Find(d.players.list, u));
      assert StateOf(d.apps, u).Some?;
      WalkLoses(d1, 0, u);
      BlankReported(ResetFrom(d1, 0), u, k);
    } else {
      SameReported(d, d1, u, k);
      WalkReported(d1, 0, u, k);
    }
  }

  lemma ChangeReported(d: Daemon, pid: int, id: string, env: Env, u: int, k: ResultEvent)
    requires Inv(d) && Reported(d, u, k) && (pid in d.settings ==> d.agent.cur.Some?)
    ensures Reported(ChangeEngine(d, pid, id, env).0, u, k)
  {
    hide Core, Reported, SamePlayer, Blank, ResetFrom, UnloadJob, P.AllStop, A.SetEngine, A.IsSameEngine;
    if pid in d.settings && !A.IsSameEngine(d.agent, id) {
      var d1 := d.(players := P.AllStop(d.players, d.apps));
      var m := ResetFrom(d1, 0);
      AllStopReported(d, u, k);
      UnloadReported(m, env.cancels, u, k);
      var q := UnloadJob(m, env.cancels);
      PlayersSame(q.players, 0, u);
      SameReported(q, ChangeEngine(d, pid, id, env).0, u, k);
    }
  }

  // ----- all steps, all runs

  lemma DefaultsReported(d: Daemon, pid: int, v: Voice, speed: int, uid: int, u: int, k: ResultEvent)
    requires Reported(d, u, k)
    ensures Reported(ChangeVoice(d, pid, v).0, u, k) && Reported(ChangeSpeed(d, pid, speed).0, u, k)
    ensures Reported(SendInterrupt(d, uid), u, k)
  {
    hide Reported, SamePlayer;
    PlayersSame(d.players, 0, u);
    SameReported(d, ChangeVoice(d, pid, v).0, u, k);
    SameReported(d, ChangeSpeed(d, pid, speed).0, u, k);
    SameReported(d, SendInterrupt(d, uid), u, k);
  }

  lemma {:induction false} StepReported(d: Daemon, e: Event, env: Env, u: int, k: ResultEvent)
    requires Inv(d) && OwnerInv(d) && Tracked(d, u) && Enabled(d, e) && PlaysInTurn(d, e, u)
    requires Reported(d, u, k) && Primed(d, u, k)
    ensures Reported(Step(d, e, env).0, u, k)
  {
    hide Core, OwnerInv, Tracked, Reported, Primed, StageOf, InitClient, FinalizeClient, AddQueue, PlayClient, StopClient,
      PauseClient, Tick, Emit, InitSetting, FinalizeSetting, ChangeEngine, ChangeVoice, ChangeSpeed, StreamBegins, StreamEnds, StreamFails, NextSound,
      SendInterrupt;
    var v := Voice("", 0);
    match e
    case EvInit(pid, uid) => InitReported(d, pid, uid, env, u, k);
    case EvFinalize(uid) => LeavingReported(d, uid, 0, env, u, k);
    case EvAdd(uid, sd) => AddReported(d, uid, sd, env, u, k);
    case EvPlay(uid) => PlayClientReported(d, uid, env, u, k);
    case EvStop(uid) => StopReported(d, uid, u, k);
    case EvPause(uid) => PauseReported(d, uid, u, k);
    case EvTick => TickReported(d, env, u, k);
    case EvResult(ev, pcm) => EmitReported(d, ev, pcm, u, k);
    case EvInterrupt(uid) => DefaultsReported(d, 0, v, 0, uid, u, k);
    case EvInitSetting(pid) => InitReported(d, pid, 0, env, u, k);
    case EvFinalizeSetting(pid) => LeavingReported(d, 0, pid, env, u, k);
    case EvChangeEngine(pid, id) => ChangeReported(d, pid, id, env, u, k);
    case EvChangeVoice(pid, voice) => DefaultsReported(d, pid, voice, 0, 0, u, k);
    case EvChangeSpeed(pid, s) => DefaultsReported(d, pid, v, s, 0, u, k);
    case EvBegin(uid, c) => StreamReported(d, uid, c, u, k);
    case EvEnd(uid, c) => StreamReported(d, uid, c, u, k);
    case EvError(uid, c) => StreamReported(d, uid, c, u, k);
    case EvNextSound(uid) => NextReported(d, uid, u, k);
  }

  /** The media library plays the client's chunks in turn, throughout the run. */
  predicate RunsInTurn(d: Daemon, es: seq<(Event, Env)>, u: int) {
    es == [] ||
    (RunsInTurn(d, es[..|es| - 1], u) &&
     var m := Run(d, es[..|es| - 1]); Enabled(m, Last(es).0) ==> PlaysInTurn(m, Last(es).0, u))
  }

  /** What the client's player remembered when it took the first chunk accepted since the last loss. */
  function Carried(d: Daemon, es: seq<(Event, Env)>, u: int): ResultEvent {
    if es == [] then Finish
    else
      var front := es[..|es| - 1];
      var m := Run(d, front);
      if Hearing(m.log, u) then Carried(d, front, u) else EventOf(m, u)
  }

  /** Before that, any event may be put for it. */
  lemma BeforeHearing(d: Daemon, u: int, j: ResultEvent, k: ResultEvent)
    requires Reported(d, u, j) && !Hearing(d.log, u)
    ensures Reported(d, u, k)
  {
  }

  lemma {:induction false} RunReported(agent: A.Agent, scan: seq<A.EngineInfo>, es: seq<(Event, Env)>, u: int)
    requires A.Inv(agent) && agent.init && agent.cur.None? && RunsInTurn(Boot(agent, scan), es, u)
    ensures Reported(Run(Boot(agent, scan), es), u, Carried(Boot(agent, scan), es, u))
  {
    hide Reported, Tracked, Step, PlaysInTurn, Hearing, EventOf;
    if es == [] {
      BootReported(agent, scan, u);
    } else {
      var front, b := es[..|es| - 1], Boot(agent, scan);
      RunReported(agent, scan, front, u);
      RunTracks(agent, scan, front, u);
      ReachableInv(agent, scan, front);
      RunOwner(agent, scan, front);
      var m, k := Run(b, front), Carried(b, es, u);
      var (e, env) := Last(es);
      if !Hearing(m.log, u) { BeforeHearing(m, u, Carried(b, front, u), k); }
      if Enabled(m, e) {
        StepReported(m, e, env, u, k);
      }
    }
  }

  lemma BootReported(agent: A.Agent, scan: seq<A.EngineInfo>, u: int)
    ensures Reported(Boot(agent, scan), u, Finish)
  {
  }

  // ----- pairs

  /** "Started" and "completed" for each of the texts with tickets from `k` to below `n`. */
  function Pairs(u: int, accepted: seq<SpeakData>, k: nat, n: nat): (ns: seq<P.Note>)
    requires k <= n <= |accepted|
    ensures |ns| == 2 * (n - k)
  {
    if n == k then []
    else
      Pairs(u, accepted, k, n - 1) + [P.UttStarted(u, accepted[n - 1].uttId), P.UttCompleted(u, accepted[n - 1].uttId)]
  }

  /** Chunks of accepted texts, ticket after ticket from `k` on. */
  predicate Regular(accepted: seq<SpeakData>, k: nat, cs: seq<Tagged>) {
    && Grouped(cs, k) && k <= |accepted|
    && forall i | 0 <= i < |cs| :: k <= cs[i].ticket < |accepted| && cs[i].chunk.uttId == accepted[cs[i].ticket].uttId
  }

  function Partial(u: int, cs: seq<Tagged>): seq<P.Note> {
    if cs != [] && Last(cs).chunk.event != Finish then [P.UttStarted(u, Last(cs).chunk.uttId)] else []
  }

  lemma FrontRegular(accepted: seq<SpeakData>, k: nat, cs: seq<Tagged>)
    requires Regular(accepted, k, cs) && cs != []
    ensures Regular(accepted, k, Front(cs)) && Last(cs).ticket == Due(Front(cs), k)
    ensures (if Remembered(Finish, Front(cs)) == Finish then Opens(Last(cs).chunk)
             else Last(cs).chunk.event == Continue || Last(cs).chunk.event == Finish)
    ensures k <= Due(Front(cs), k) <= Due(cs, k) <= |accepted|
  {
    if |cs| > 1 { assert cs[|cs| - 2] == Last(Front(cs)) && cs[|cs| - 2 + 1] == Last(cs); }
  }

  /** Told in full: a pair for every utterance that is complete, and a "started" for the one that is not. */
  lemma {:induction false} ToldInPairs(u: int, accepted: seq<SpeakData>, k: nat, cs: seq<Tagged>)
    requires Regular(accepted, k, cs)
    ensures k <= Due(cs, k) <= |accepted| && Told(u, Finish, cs) == Pairs(u, accepted, k, Due(cs, k)) + Partial(u, cs)
  {
    hide Regular;
    if cs != [] {
      FrontRegular(accepted, k, cs);
      ToldInPairs(u, accepted, k, Front(cs));
      AddTold(u, accepted, k, cs);
    } else {
      assert Regular(accepted, k, cs);
      StartsAt(accepted, k, cs);
    }
  }

  lemma StartsAt(accepted: seq<SpeakData>, k: nat, cs: seq<Tagged>)
    requires Regular(accepted, k, cs)
    ensures k <= |accepted|
  {
  }

  /** "Started" is told with the first chunk and not again. */
  lemma OpenedOnce(u: int, accepted: seq<SpeakData>, k: nat, cs: seq<Tagged>)
    requires Regular(accepted, k, cs) && cs != []
    ensures Partial(u, Front(cs)) + Opening(u, Remembered(Finish, Front(cs)), Last(cs).chunk)
         == [P.UttStarted(u, Last(cs).chunk.uttId)]
  {
    hide Regular;
    FrontRegular(accepted, k, cs);
    SameUtterance(accepted, k, cs);
  }

  lemma Regroup<T>(a: seq<T>, b: seq<T>, c: seq<T>, e: seq<T>)
    ensures a + b + c + e == a + (b + c) + e == a + (b + c + e)
  {
  }

  lemma AddTold(u: int, accepted: seq<SpeakData>, k: nat, cs: seq<Tagged>)
    requires Regular(accepted, k, cs) && cs != [] && k <= Due(Front(cs), k) <= |accepted| && k <= Due(cs, k) <= |accepted|
    requires Told(u, Finish, Front(cs)) == Pairs(u, accepted, k, Due(Front(cs), k)) + Partial(u, Front(cs))
    ensures Told(u, Finish, cs) == Pairs(u, accepted, k, Due(cs, k)) + Partial(u, cs)
  {
    hide Regular, Opening, Pairs;
    var n, c := Due(Front(cs), k), Last(cs).chunk;
    FrontRegular(accepted, k, cs);
    SameUtterance(accepted, k, cs);
    OpenedOnce(u, accepted, k, cs);
    Regroup(Pairs(u, accepted, k, n), Partial(u, Front(cs)), Opening(u, Remembered(Finish, Front(cs)), c), Closing(u, c));
    assert Told(u, Finish, cs) == Pairs(u, accepted, k, n) + ([P.UttStarted(u, c.uttId)] + Closing(u, c));
    if c.event == Finish {
      OnePair(u, accepted, k, n);
    }
  }

  lemma OnePair(u: int, accepted: seq<SpeakData>, k: nat, n: nat)
    requires k <= n < |accepted|
    ensures Pairs(u, accepted, k, n + 1)
         == Pairs(u, accepted, k, n) + ([P.UttStarted(u, accepted[n].uttId)] + [P.UttCompleted(u, accepted[n].uttId)]) + []
  {
  }

  /** An unfinished utterance goes on with the same id. */
  lemma SameUtterance(accepted: seq<SpeakData>, k: nat, cs: seq<Tagged>)
    requires Regular(accepted, k, cs) && cs != []
    ensures |cs| > 1 && Last(Front(cs)).chunk.event != Finish ==> Last(Front(cs)).chunk.uttId == Last(cs).chunk.uttId
    ensures Last(cs).ticket < |accepted| && Last(cs).chunk.uttId == accepted[Last(cs).ticket].uttId
  {
    if |cs| > 1 { assert cs[|cs| - 2] == Last(Front(cs)) && cs[|cs| - 2 + 1] == Last(cs); }
  }

  /** "Started" and "completed" for the first texts from ticket `k` on, in order, and perhaps the next "started". */
  predicate InPairs(u: int, accepted: seq<SpeakData>, k: nat, ns: seq<P.Note>) {
    var n := k + |ns| / 2;
    && n <= |accepted|
    && (|ns| % 2 == 1 ==> n < |accepted|)
    && ns == Pairs(u, accepted, k, n) + if |ns| % 2 == 1 then [P.UttStarted(u, accepted[n].uttId)] else []
  }

  lemma WholePairs(u: int, accepted: seq<SpeakData>, k: nat, n: nat)
    requires k <= n <= |accepted|
    ensures InPairs(u, accepted, k, Pairs(u, accepted, k, n))
  {
    hide Pairs;
    var ns := Pairs(u, accepted, k, n);
    assert |ns| / 2 == n - k && |ns| % 2 == 0;
    assert ns + [] == ns;
  }

  lemma OpenPairs(u: int, accepted: seq<SpeakData>, k: nat, n: nat)
    requires k <= n < |accepted|
    ensures InPairs(u, accepted, k, Pairs(u, accepted, k, n) + [P.UttStarted(u, accepted[n].uttId)])
  {
    hide Pairs;
    var ns := Pairs(u, accepted, k, n) + [P.UttStarted(u, accepted[n].uttId)];
    assert |ns| / 2 == n - k && |ns| % 2 == 1;
  }

  lemma ToldIn(u: int, accepted: seq<SpeakData>, k: nat, cs: seq<Tagged>)
    requires Regular(accepted, k, cs)
    ensures InPairs(u, accepted, k, Told(u, Finish, cs))
  {
    hide Pairs, Told, InPairs, Regular;
    ToldInPairs(u, accepted, k, cs);
    assert Pairs(u, accepted, k, Due(cs, k)) + [] == Pairs(u, accepted, k, Due(cs, k));
    if cs == [] || Last(cs).chunk.event == Finish {
      WholePairs(u, accepted, k, Due(cs, k));
    } else {
      SameUtterance(accepted, k, cs);
      OpenPairs(u, accepted, k, Due(cs, k));
    }
  }

  /** With the next utterance opened as well. */
  lemma OpenedIn(u: int, accepted: seq<SpeakData>, k: nat, cs: seq<Tagged>)
    requires Regular(accepted, k, cs) && cs != []
    ensures InPairs(u, accepted, k, Told(u, Finish, Front(cs)) + Opening(u, Remembered(Finish, Front(cs)), Last(cs).chunk))
  {
    hide Pairs, Told, InPairs, Regular;
    var ds := Front(cs);
    FrontRegular(accepted, k, cs);
    SameUtterance(accepted, k, cs);
    ToldIn(u, accepted, k, ds);
    if Remembered(Finish, ds) == Finish {
      ToldInPairs(u, accepted, k, ds);
      OpenPairs(u, accepted, k, Due(ds, k));
      assert Pairs(u, accepted, k, Due(ds, k)) + [] == Pairs(u, accepted, k, Due(ds, k));
    }
    assert Told(u, Finish, ds) + [] == Told(u, Finish, ds);
  }

  // ----- a player that remembers an unfinished utterance

  /** What a player that remembered `k` tells of the chunks, the last of them in stage `s`. */
  function ToldAt(u: int, k: ResultEvent, cs: seq<Tagged>, s: Stage): seq<P.Note> {
    if cs == [] then []
    else match s
      case Streams(c) => Told(u, k, Front(cs)) + Opening(u, Remembered(k, Front(cs)), Last(cs).chunk)
      case Played => Told(u, k, cs)
      case _ => Told(u, k, Front(cs))
  }

  /** The chunks whose streams have begun. */
  function Begun(cs: seq<Tagged>, s: Stage): seq<Tagged> {
    if cs == [] || s.Streams? || s.Played? then cs else Front(cs)
  }

  /** The first "started" is not sent: the utterance is one chunk, and the player remembers another one unfinished. */
  predicate Swallows(k: ResultEvent, begun: seq<Tagged>) {
    k != Finish && begun != [] && begun[0].chunk.event == Finish
  }

  function Restored(u: int, k: ResultEvent, begun: seq<Tagged>, ns: seq<P.Note>): seq<P.Note> {
    if Swallows(k, begun) then [P.UttStarted(u, begun[0].chunk.uttId)] + ns else ns
  }

  lemma {:induction false} ToldRestored(u: int, k: ResultEvent, cs: seq<Tagged>)
    requires cs != [] ==> Opens(cs[0].chunk)
    ensures Told(u, Finish, cs) == Restored(u, k, cs, Told(u, k, cs))
  {
    if cs != [] {
      var ds, c := Front(cs), Last(cs).chunk;
      ToldRestored(u, k, ds);
      OpeningRestored(u, k, cs);
      if ds != [] && Swallows(k, cs) {
        Regroup([P.UttStarted(u, cs[0].chunk.uttId)], Told(u, k, ds), Opening(u, Remembered(k, ds), c), Closing(u, c));
      }
    }
  }

  /** Once a chunk has begun, both remember the same. */
  lemma OpeningRestored(u: int, k: ResultEvent, cs: seq<Tagged>)
    requires cs != [] && Opens(cs[0].chunk)
    ensures if |cs| > 1 then Remembered(Finish, Front(cs)) == Remembered(k, Front(cs)) && Front(cs)[0] == cs[0]
            else Opening(u, Finish, cs[0].chunk) == Restored(u, k, cs, Opening(u, k, cs[0].chunk))
  {
  }

  lemma AtRestored(u: int, k: ResultEvent, cs: seq<Tagged>, s: Stage)
    requires cs != [] ==> Opens(cs[0].chunk)
    ensures ToldAt(u, Finish, cs, s) == Restored(u, k, Begun(cs, s), ToldAt(u, k, cs, s))
  {
    hide Told, Opening;
    if cs != [] {
      ToldRestored(u, k, cs);
      if |cs| > 1 { ToldRestored(u, k, Front(cs)); } else { NothingTold(u, k); NothingTold(u, Finish); }
      OpeningRestored(u, k, cs);
      if s.Streams? { StreamsRestored(u, k, cs); }
    }
  }

  lemma StreamsRestored(u: int, k: ResultEvent, cs: seq<Tagged>)
    requires cs != [] && Opens(cs[0].chunk)
    ensures Told(u, Finish, Front(cs)) + Opening(u, Remembered(Finish, Front(cs)), Last(cs).chunk)
         == Restored(u, k, cs, Told(u, k, Front(cs)) + Opening(u, Remembered(k, Front(cs)), Last(cs).chunk))
  {
    hide Told, Opening;
    OpeningRestored(u, k, cs);
    if |cs| > 1 {
      ToldRestored(u, k, Front(cs));
      Regroup([P.UttStarted(u, cs[0].chunk.uttId)], Told(u, k, Front(cs)), Opening(u, Remembered(k, Front(cs)), Last(cs).chunk), []);
    } else {
      NothingTold(u, k);
      NothingTold(u, Finish);
      assert [] + Opening(u, k, cs[0].chunk) == Opening(u, k, cs[0].chunk);
      assert [] + Opening(u, Finish, cs[0].chunk) == Opening(u, Finish, cs[0].chunk);
    }
  }

  lemma AtInPairs(u: int, accepted: seq<SpeakData>, k: nat, cs: seq<Tagged>, s: Stage)
    requires Regular(accepted, k, cs)
    ensures InPairs(u, accepted, k, ToldAt(u, Finish, cs, s))
  {
    hide InPairs, Regular, Told, Opening;
    ToldIn(u, accepted, k, cs);
    if cs == [] {
      NothingTold(u, Finish);
    } else {
      FrontRegular(accepted, k, cs);
      ToldIn(u, accepted, k, Front(cs));
      OpenedIn(u, accepted, k, cs);
    }
  }

  // ----- the books

  lemma {:induction false} RecentConcat(a: seq<Tagged>, b: seq<Tagged>, k: nat)
    ensures Recent(a + b, k) == Recent(a, k) + Recent(b, k)
  {
    if b == [] {
      assert a + b == a && Recent(a, k) + [] == Recent(a, k);
    } else {
      RecentConcat(a, Front(b), k);
      assert a + b == a + Front(b) + [Last(b)];
      RecentAppend(a + Front(b), Last(b), k);
    }
  }

  lemma {:induction false} RecentIn(cs: seq<Tagged>, k: nat)
    ensures forall t | t in Recent(cs, k) :: t in cs && t.ticket >= k
  {
    if cs != [] {
      RecentIn(Front(cs), k);
      assert cs == Front(cs) + [Last(cs)];
    }
  }

  lemma PrefixGrouped(cs: seq<Tagged>, k: nat, n: nat)
    requires Grouped(cs, k) && n <= |cs|
    ensures Grouped(cs[..n], k)
  {
    var ds := cs[..n];
    assert forall i | 0 <= i < |ds| :: ds[i] == cs[i];
  }

  /** What the exact books say of the recent chunks that were taken. */
  lemma ExactRegular(b: Books, streaming: bool)
    requires Ordered(b, streaming) && Exact(b, streaming)
    ensures Regular(b.accepted, b.base, Recent(b.pulled, b.base))
  {
    hide Chained, Grouped, Recent, Within;
    var cs, all := Recent(b.pulled, b.base), Recent(b.chunks, b.base);
    RecentConcat(b.pulled, b.sounds, b.base);
    assert all[..|cs|] == cs;
    PrefixGrouped(all, b.base, |cs|);
    RecentIn(b.chunks, b.base);
    forall i | 0 <= i < |cs|
      ensures b.base <= cs[i].ticket < |b.accepted| && cs[i].chunk.uttId == b.accepted[cs[i].ticket].uttId
    {
      assert all[i] == cs[i] && all[i] in all;
      var j :| 0 <= j < |b.chunks| && b.chunks[j] == cs[i];
    }
  }

  /** Nothing of the client is waiting or at the engine, and nothing accepted since the last loss is being played. */
  predicate Finished(d: Daemon, u: int) {
    var b := BooksOf(d.log, u);
    b.texts == [] && b.flight == None && b.sounds == [] && (Hearing(d.log, u) ==> StageOf(d.log, u) == Played)
  }

  lemma AllHeard(u: int, b: Books, streaming: bool)
    requires Exact(b, streaming) && Regular(b.accepted, b.base, Recent(b.pulled, b.base))
    requires b.texts == [] && b.flight == None && b.sounds == []
    ensures Told(u, Finish, Recent(b.pulled, b.base)) == Pairs(u, b.accepted, b.base, |b.accepted|)
  {
    hide Told, Pairs, Regular, Grouped, Recent;
    assert b.pulled + [] == b.pulled;
    ToldInPairs(u, b.accepted, b.base, Recent(b.pulled, b.base));
    assert Pairs(u, b.accepted, b.base, |b.accepted|) + [] == Pairs(u, b.accepted, b.base, |b.accepted|);
  }

  lemma BooksInPairs(d: Daemon, u: int, k: ResultEvent)
    requires Reported(d, u, k) && Tracked(d, u)
    ensures var b := BooksOf(d.log, u);
            var told := Restored(u, k, Begun(RecentChunks(d.log, u), StageOf(d.log, u)), NotesOf(d.log, u));
            && InPairs(u, b.accepted, b.base, told)
            && (Finished(d, u) ==> told == Pairs(u, b.accepted, b.base, |b.accepted|))
            && (NoLoss(d.log, u) ==> b.base == 0 && told == NotesOf(d.log, u))
  {
    hide NoLoss, BooksOf, StageOf, NotesOf, Ordered, Exact, InPairs, Pairs, Told, Regular, Opening, Recent;
    var b, s, cs := BooksOf(d.log, u), StageOf(d.log, u), RecentChunks(d.log, u);
    ExactRegular(b, ViewOf(d, u).streaming);
    assert NotesOf(d.log, u) == ToldAt(u, k, cs, s);
    if cs != [] { FirstOpens(b.accepted, b.base, cs); }
    AtRestored(u, k, cs, s);
    AtInPairs(u, b.accepted, b.base, cs, s);
    if Finished(d, u) {
      AllHeard(u, b, ViewOf(d, u).streaming);
      NothingTold(u, Finish);
    }
    if NoLoss(d.log, u) { NoLossBase(d.log, u); }
  }

  lemma FirstOpens(accepted: seq<SpeakData>, k: nat, cs: seq<Tagged>)
    requires Regular(accepted, k, cs) && cs != []
    ensures Opens(cs[0].chunk)
  {
  }

  /**
   Over every run in which the media library plays the client's chunks in turn, the
   messages about everything accepted since the client's last loss are "started" and
   "completed" for the first of these texts, in order, and at most one "started" more; and
   once all of it has been heard, one pair for every such text.  Only the very first
   "started" may be missing, and is exactly when the player remembered an unfinished
   utterance and the first text came in one chunk; never when nothing was lost.
   */
  lemma {:induction false} ReportsInPairs(agent: A.Agent, scan: seq<A.EngineInfo>, es: seq<(Event, Env)>, u: int)
    requires A.Inv(agent) && agent.init && agent.cur.None? && RunsInTurn(Boot(agent, scan), es, u)
    ensures var d := Run(Boot(agent, scan), es);
            var b := BooksOf(d.log, u);
            var begun := Begun(RecentChunks(d.log, u), StageOf(d.log, u));
            var told := Restored(u, Carried(Boot(agent, scan), es, u), begun, NotesOf(d.log, u));
            && InPairs(u, b.accepted, b.base, told)
            && (Finished(d, u) ==> told == Pairs(u, b.accepted, b.base, |b.accepted|))
            && (NoLoss(d.log, u) ==> b.base == 0 && told == NotesOf(d.log, u))
  {
    hide *;
    RunReported(agent, scan, es, u);
    RunTracks(agent, scan, es, u);
    BooksInPairs(Run(Boot(agent, scan), es), u, Carried(Boot(agent, scan), es, u));
  }
}
