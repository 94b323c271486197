/**
 What server/ttsd_player.cpp computes: one media player per client, fed from the
 client's sound queue, turning stream callbacks into "utterance started" and
 "utterance completed" messages.
 */
module PlayerSpec {
  import opened Types
  import opened Tables
  import opened DataSpec

  datatype Media = MediaNull | MediaReady | MediaPlaying | MediaPaused

  datatype PlayerRec = PlayerRec(
    uttId: int,
    event: ResultEvent,         // event of the chunk whose stream began last
    media: Media,
    chunk: Option<SoundData>)   // the chunk the media player was given, until its stream ends or breaks off

  const NewPlayer := PlayerRec(-1, Finish, MediaNull, None)

  /** `playing` is the uid of the player the module calls current; `due` the live __player_next_play timers. */
  datatype Players = Players(list: seq<Entry<PlayerRec>>, playing: Option<int>, due: multiset<int>)

  function Released(ps: Players, uid: int): Players {
    if ps.playing == Some(uid) then ps.(playing := None) else ps
  }

  /** `made`: the media library created a player. */
  function Create(ps: Players, uid: int, made: bool): (Players, bool) {
    if Has(ps.list, uid) || !made then (ps, false) else (ps.(list := Append(ps.list, uid, NewPlayer)), true)
  }

  function Destroy(ps: Players, uid: int): Players {
    if !Has(ps.list, uid) then ps else Released(ps, uid).(list := Delete(ps.list, uid))
  }

  /** Stopping keeps the event of the chunk that was cut off. */
  function Stop(ps: Players, uid: int): Players {
    match Get(ps.list, uid)
    case None => ps
    case Some(p) => Released(ps, uid).(list := Set(ps.list, uid, p.(uttId := -1, media := MediaNull)))
  }

  function Pause(ps: Players, uid: int): (Players, bool) {
    match Get(ps.list, uid)
    case None => (ps, false)
    case Some(p) =>
      (Released(ps, uid).(list := if p.media == MediaPlaying then Set(ps.list, uid, p.(media := MediaPaused)) else ps.list), true)
  }

  function Resume(ps: Players, uid: int): Players {
    match Get(ps.list, uid)
    case None => ps
    case Some(p) =>
      if p.media == MediaPaused then ps.(list := Set(ps.list, uid, p.(media := MediaPlaying)), playing := Some(uid))
      else ps.(playing := None)
  }

  /** The player table, the client table and the chunk that was taken from the sound queue. */
  datatype Pull = Pull(ps: Players, apps: Apps, taken: Option<SoundData>)

  /** Hand the oldest chunk of the client to its media player. */
  function StartChunk(ps: Players, apps: Apps, uid: int): Pull {
    if !Has(ps.list, uid) || Sounds(apps, uid) == [] then Pull(ps, apps, None)
    else
      var c := Sounds(apps, uid)[0];
      var p := Get(ps.list, uid).value;
      Pull(ps.(list := Set(ps.list, uid, p.(media := MediaPlaying, chunk := Some(c)))), DropSound(apps, uid), Some(c))
  }

  function Play(ps: Players, apps: Apps, uid: int): Pull {
    match Get(ps.list, uid)
    case None => Pull(ps, apps, None)
    case Some(p) =>
      if ps.playing == Some(uid) || p.media != MediaNull then Pull(ps, apps, None) else StartChunk(ps, apps, uid)
  }

  /** The timer after the end of a stream; without a player it takes the current one away, whoever's it is. */
  function NextPlay(ps: Players, apps: Apps, uid: int): Pull {
    var ps1 := ps.(due := ps.due - multiset{uid});
    match Get(ps.list, uid)
    case None => Pull(ps1.(playing := None), apps, None)
    case Some(p) =>
      if ps.playing != Some(uid) then Pull(ps1, apps, None)
      else
        var q := ps1.(list := Set(ps.list, uid, p.(media := MediaNull)));
        if Has(apps, uid) && Sounds(apps, uid) == [] then Pull(q.(playing := None), apps, None)
        else StartChunk(q, apps, uid)
  }

  /** What a player takes is the head of its client's sound queue. */
  lemma PullTakes(ps: Players, apps: Apps, uid: int)
    ensures forall p | p == Play(ps, apps, uid) || p == NextPlay(ps, apps, uid) ::
              if p.taken.None? then p.apps == apps
              else Sounds(apps, uid) != [] && p.taken == Some(Sounds(apps, uid)[0]) && p.apps == DropSound(apps, uid)
  {
  }

  /** A player is given the oldest chunk of its client, and starts. */
  ghost predicate Starts(ps: Players, apps: Apps, uid: int, p: PlayerRec, r: Pull) {
    var q := Sounds(apps, uid);
    && q != [] && r.taken == Some(q[0]) && r.apps == DropSound(apps, uid)
    && Get(r.ps.list, uid) == Some(p.(media := MediaPlaying, chunk := Some(q[0]))) && r.ps.playing == ps.playing
  }

  /**
   What the two calls that feed a player do.  A tick starts a player at rest that is not current
   if there is sound.  The timer after a stream goes on with the current player if there is more
   sound, and otherwise leaves it at rest with no player current; it leaves a player that is not
   current alone; and for a client without a player it takes the current one away.
   */
  lemma PullEffects(ps: Players, apps: Apps, uid: int)
    requires Has(ps.list, uid) ==> Has(apps, uid)
    ensures var r := Play(ps, apps, uid);
            && (forall u | u != uid :: Get(r.ps.list, u) == Get(ps.list, u)) && r.ps.due == ps.due
            && match Get(ps.list, uid)
               case None => r == Pull(ps, apps, None)
               case Some(p) =>
                 if ps.playing == Some(uid) || p.media != MediaNull || Sounds(apps, uid) == [] then r == Pull(ps, apps, None)
                 else Starts(ps, apps, uid, p, r)
    ensures var r := NextPlay(ps, apps, uid);
            && (forall u | u != uid :: Get(r.ps.list, u) == Get(ps.list, u)) && r.ps.due == ps.due - multiset{uid}
            && match Get(ps.list, uid)
               case None => r == Pull(ps.(playing := None, due := r.ps.due), apps, None)
               case Some(p) =>
                 if ps.playing != Some(uid) then r == Pull(ps.(due := r.ps.due), apps, None)
                 else if Sounds(apps, uid) == [] then
                   Get(r.ps.list, uid) == Some(p.(media := MediaNull)) && r.ps.playing == None && r.apps == apps && r.taken == None
                 else Starts(ps, apps, uid, p, r)
  {
  }

  /** A playing or paused player is reset. */
  function StopOne(e: Entry<PlayerRec>, st: AppState): Entry<PlayerRec> {
    if st == Playing || st == Paused then Entry(e.uid, e.rec.(uttId := -1, event := Finish, media := MediaNull)) else e
  }

  /** A player without a client is destroyed, which ends the walk over the list. */
  function StopEach(list: seq<Entry<PlayerRec>>, apps: Apps): seq<Entry<PlayerRec>> {
    if list == [] then []
    else match StateOf(apps, list[0].uid)
      case None => list[1..]
      case Some(st) => [StopOne(list[0], st)] + StopEach(list[1..], apps)
  }

  /** One step of the walk, seen from its accumulated result. */
  lemma StopEachStep(done: seq<Entry<PlayerRec>>, list: seq<Entry<PlayerRec>>, i: nat, apps: Apps)
    requires i < |list|
    ensures match StateOf(apps, list[i].uid)
            case None => done + StopEach(list[i..], apps) == done + list[i + 1..]
            case Some(st) => done + StopEach(list[i..], apps) == done + [StopOne(list[i], st)] + StopEach(list[i + 1..], apps)
  {
    assert list[i..][0] == list[i] && list[i..][1..] == list[i + 1..];
  }

  lemma StopEachOfNone(apps: Apps)
    ensures StopEach([], apps) == []
  {
  }

  function AllStop(ps: Players, apps: Apps): Players {
    ps.(list := StopEach(ps.list, apps), playing := None)
  }

  datatype Note = UttStarted(uid: int, uttId: int) | UttCompleted(uid: int, uttId: int)

  /** Does the beginning of chunk `c`, after a chunk with event `e`, begin an utterance? */
  predicate BeginsUtterance(e: ResultEvent, c: SoundData) {
    c.event == Start || (e == Finish && c.event == Finish)
  }

  function OnBegin(ps: Players, uid: int, c: SoundData, st: Option<AppState>): (Players, Option<Note>) {
    match Get(ps.list, uid)
    case None => (ps, None)
    case Some(p) =>
      var media := if st == Some(Paused) && p.media == MediaPlaying then MediaPaused else p.media;
      (ps.(list := Set(ps.list, uid, p.(uttId := c.uttId, event := c.event, media := media)), playing := Some(uid)),
       if BeginsUtterance(p.event, c) then Some(UttStarted(uid, c.uttId)) else None)
  }

  function OnEnd(ps: Players, uid: int, c: SoundData): (Players, Option<Note>) {
    match Get(ps.list, uid)
    case None => (Released(ps, uid), None)
    case Some(p) =>
      (ps.(list := Set(ps.list, uid, p.(chunk := None)), due := ps.due + multiset{uid}),
       if p.event == Finish then Some(UttCompleted(uid, c.uttId)) else None)
  }

  function OnError(ps: Players, uid: int): Players {
    match Get(ps.list, uid)
    case None => Released(ps, uid)
    case Some(p) => Released(ps, uid).(list := Set(ps.list, uid, p.(event := Finish, chunk := None)))
  }

  /** A step that overwrites records only and leaves the current player among the listed ones. */
  ghost predicate SamePlayers(ps: Players, r: Players) {
    && (Unique(ps.list) ==> Unique(r.list))
    && (forall u :: Has(r.list, u) <==> Has(ps.list, u))
    && ((ps.playing.Some? ==> Has(ps.list, ps.playing.value)) && r.playing.Some? ==> Has(r.list, r.playing.value))
  }

  /** Overwriting a player's record, whoever of the listed players becomes the current one. */
  lemma OverwriteKeeps(ps: Players, uid: int, rec: PlayerRec, playing: Option<int>, due: multiset<int>)
    requires playing.Some? ==> playing == ps.playing || (playing == Some(uid) && Has(ps.list, uid))
    ensures SamePlayers(ps, Players(Set(ps.list, uid, rec), playing, due))
  {
  }

  lemma SameListKeeps(ps: Players, playing: Option<int>, due: multiset<int>)
    requires playing.Some? ==> playing == ps.playing
    ensures SamePlayers(ps, ps.(playing := playing, due := due))
  {
  }

  lemma SamePlayersChain(a: Players, b: Players, c: Players)
    requires SamePlayers(a, b) && SamePlayers(b, c)
    ensures SamePlayers(a, c)
  {
  }

  lemma StopKeepsPlayers(ps: Players, uid: int)
    ensures SamePlayers(ps, Stop(ps, uid))
  {
    hide SamePlayers;
    SameListKeeps(ps, ps.playing, ps.due);
    if Has(ps.list, uid) {
      OverwriteKeeps(ps, uid, Get(ps.list, uid).value.(uttId := -1, media := MediaNull), Released(ps, uid).playing, ps.due);
    }
  }

  lemma PauseKeepsPlayers(ps: Players, uid: int)
    ensures SamePlayers(ps, Pause(ps, uid).0) && SamePlayers(ps, Resume(ps, uid))
  {
    hide SamePlayers;
    SameListKeeps(ps, ps.playing, ps.due);
    SameListKeeps(ps, None, ps.due);
    SameListKeeps(ps, Released(ps, uid).playing, ps.due);
    if Has(ps.list, uid) {
      var p := Get(ps.list, uid).value;
      OverwriteKeeps(ps, uid, p.(media := MediaPaused), Released(ps, uid).playing, ps.due);
      OverwriteKeeps(ps, uid, p.(media := MediaPlaying), Some(uid), ps.due);
    }
  }

  lemma CallbacksKeepPlayers(ps: Players, uid: int, c: SoundData, st: Option<AppState>)
    ensures SamePlayers(ps, OnBegin(ps, uid, c, st).0) && SamePlayers(ps, OnEnd(ps, uid, c).0)
    ensures SamePlayers(ps, OnError(ps, uid))
  {
    hide SamePlayers;
    SameListKeeps(ps, ps.playing, ps.due);
    SameListKeeps(ps, Released(ps, uid).playing, ps.due);
    if Has(ps.list, uid) {
      var p := Get(ps.list, uid).value;
      OverwriteKeeps(ps, uid, p.(uttId := c.uttId, event := c.event,
        media := if st == Some(Paused) && p.media == MediaPlaying then MediaPaused else p.media), Some(uid), ps.due);
      OverwriteKeeps(ps, uid, p.(event := Finish, chunk := None), Released(ps, uid).playing, ps.due);
      OverwriteKeeps(ps, uid, p.(chunk := None), ps.playing, ps.due + multiset{uid});
    }
  }

  lemma ChunkKeepsPlayers(ps: Players, apps: Apps, uid: int)
    ensures SamePlayers(ps, StartChunk(ps, apps, uid).ps) && SameStates(apps, StartChunk(ps, apps, uid).apps)
  {
    hide SamePlayers;
    SameListKeeps(ps, ps.playing, ps.due);
    if Has(ps.list, uid) && Sounds(apps, uid) != [] {
      OverwriteKeeps(ps, uid, Get(ps.list, uid).value.(media := MediaPlaying, chunk := Some(Sounds(apps, uid)[0])), ps.playing, ps.due);
    }
  }

  lemma PullsKeepPlayers(ps: Players, apps: Apps, uid: int)
    ensures SamePlayers(ps, Play(ps, apps, uid).ps) && SameStates(apps, Play(ps, apps, uid).apps)
    ensures SamePlayers(ps, NextPlay(ps, apps, uid).ps) && SameStates(apps, NextPlay(ps, apps, uid).apps)
  {
    hide SamePlayers, StartChunk;
    var due := ps.due - multiset{uid};
    SameListKeeps(ps, ps.playing, ps.due);
    SameListKeeps(ps, ps.playing, due);
    SameListKeeps(ps, None, due);
    ChunkKeepsPlayers(ps, apps, uid);
    if Has(ps.list, uid) {
      var rec := Get(ps.list, uid).value.(media := MediaNull);
      var q := ps.(list := Set(ps.list, uid, rec), due := due);
      OverwriteKeeps(ps, uid, rec, ps.playing, due);
      OverwriteKeeps(ps, uid, rec, None, due);
      ChunkKeepsPlayers(q, apps, uid);
      SamePlayersChain(ps, q, StartChunk(q, apps, uid).ps);
    }
  }

  // ----- the started/completed transducer

  datatype Callback =
    | BeginOf(uid: int, chunk: SoundData, state: Option<AppState>)
    | EndOf(uid: int, chunk: SoundData)
    | ErrorOf(uid: int)
    | PauseOf(uid: int)
    | ResumeOf(uid: int)
    | StopOf(uid: int)
    | CreateOf(uid: int, made: bool)
    | DestroyOf(uid: int)

  function OnCallback(ps: Players, cb: Callback): (Players, Option<Note>) {
    match cb
    case BeginOf(u, c, st) => OnBegin(ps, u, c, st)
    case EndOf(u, c) => OnEnd(ps, u, c)
    case ErrorOf(u) => (OnError(ps, u), None)
    case PauseOf(u) => (Pause(ps, u).0, None)
    case ResumeOf(u) => (Resume(ps, u), None)
    case StopOf(u) => (Stop(ps, u), None)
    case CreateOf(u, made) => (Create(ps, u, made).0, None)
    case DestroyOf(u) => (Destroy(ps, u), None)
  }

  function Notes(ps: Players, cbs: seq<Callback>): seq<Note>
    decreases cbs
  {
    if cbs == [] then []
    else
      var (q, n) := OnCallback(ps, cbs[0]);
      (match n case None => [] case Some(x) => [x]) + Notes(q, cbs[1..])
  }

  function NotesFor(ns: seq<Note>, uid: int): seq<Note> {
    if ns == [] then [] else (if ns[0].uid == uid then [ns[0]] else []) + NotesFor(ns[1..], uid)
  }

  /** The stream callbacks of one client. */
  function Heard(cbs: seq<Callback>, uid: int): seq<Callback> {
    if cbs == [] then []
    else (if cbs[0].uid == uid && (cbs[0].BeginOf? || cbs[0].EndOf?) then [cbs[0]] else []) + Heard(cbs[1..], uid)
  }

  /** One client's messages depend on its own stream callbacks and on one event alone. */
  function Transduce(e: ResultEvent, cbs: seq<Callback>): seq<Note>
    decreases cbs
  {
    if cbs == [] then []
    else match cbs[0]
      case BeginOf(u, c, _) =>
        (if BeginsUtterance(e, c) then [UttStarted(u, c.uttId)] else []) + Transduce(c.event, cbs[1..])
      case EndOf(u, c) =>
        (if e == Finish then [UttCompleted(u, c.uttId)] else []) + Transduce(e, cbs[1..])
      case _ => Transduce(e, cbs[1..])
  }

  /** What the transducer answers to one callback of anybody's player. */
  function Answer(e: ResultEvent, cb: Callback, uid: int): seq<Note> {
    if cb.uid != uid then []
    else match cb
      case BeginOf(u, c, _) => if BeginsUtterance(e, c) then [UttStarted(u, c.uttId)] else []
      case EndOf(u, c) => if e == Finish then [UttCompleted(u, c.uttId)] else []
      case _ => []
  }

  function OneNote(n: Option<Note>, uid: int): seq<Note> {
    match n case None => [] case Some(x) => if x.uid == uid then [x] else []
  }

  /** A callback that resets or removes the client's player. */
  predicate Disturbs(cb: Callback, uid: int) {
    cb.uid == uid && (cb.ErrorOf? || cb.CreateOf? || cb.DestroyOf?)
  }

  lemma NotesForOne(n: Option<Note>, rest: seq<Note>, uid: int)
    ensures NotesFor((match n case None => [] case Some(x) => [x]) + rest, uid) == OneNote(n, uid) + NotesFor(rest, uid)
  {
    match n
    case None => assert [] + rest == rest;
    case Some(x) => assert ([x] + rest)[1..] == rest;
  }

  lemma TransduceOne(e: ResultEvent, cb: Callback, rest: seq<Callback>, uid: int)
    ensures Transduce(e, (if cb.uid == uid && (cb.BeginOf? || cb.EndOf?) then [cb] else []) + rest)
            == Answer(e, cb, uid) + Transduce(if cb.BeginOf? && cb.uid == uid then cb.chunk.event else e, rest)
  {
    if cb.uid == uid && (cb.BeginOf? || cb.EndOf?) {
      assert ([cb] + rest)[1..] == rest;
    } else {
      assert [] + rest == rest;
    }
  }

  /**
   Whatever the other clients' players do in between, and however often this one is
   paused, resumed or stopped, its messages are the transducer's output on its own
   stream callbacks.
   */
  lemma {:induction false} MessagesAreLocal(ps: Players, cbs: seq<Callback>, uid: int)
    requires Unique(ps.list) && Has(ps.list, uid)
    requires forall cb | cb in cbs :: !Disturbs(cb, uid)
    ensures NotesFor(Notes(ps, cbs), uid) == Transduce(Get(ps.list, uid).value.event, Heard(cbs, uid))
    decreases cbs
  {
    hide OnCallback;
    if cbs != [] {
      var cb, rest := cbs[0], cbs[1..];
      var (q, n) := OnCallback(ps, cb);
      StepIsLocal(ps, cb, uid);
      MessagesAreLocal(q, rest, uid);
      NotesForOne(n, Notes(q, rest), uid);
      TransduceOne(Get(ps.list, uid).value.event, cb, Heard(rest, uid), uid);
    }
  }

  lemma StepIsLocal(ps: Players, cb: Callback, uid: int)
    requires Unique(ps.list) && Has(ps.list, uid) && !Disturbs(cb, uid)
    ensures var q := OnCallback(ps, cb).0;
            Unique(q.list) && Has(q.list, uid) &&
            Get(q.list, uid).value.event ==
              if cb.BeginOf? && cb.uid == uid then cb.chunk.event else Get(ps.list, uid).value.event
    ensures OneNote(OnCallback(ps, cb).1, uid) == Answer(Get(ps.list, uid).value.event, cb, uid)
  {
    hide Find;
    match cb
    case DestroyOf(u) => GetDelete(ps.list, u);
    case CreateOf(u, made) => assert u != uid;
    case _ =>
  }

  /** START CONTINUE* FINISH, or FINISH alone, all of one utterance. */
  predicate Complete(u: seq<SoundData>) {
    && |u| > 0 && Last(u).event == Finish
    && (forall c | c in u :: c.uttId == u[0].uttId)
    && (|u| > 1 ==> u[0].event == Start && forall i | 0 < i < |u| - 1 :: u[i].event == Continue)
  }

  /** The stream callbacks of a client that plays chunks one after the other. */
  predicate PlaysOut(cbs: seq<Callback>, uid: int, chunks: seq<SoundData>) {
    && |cbs| == 2 * |chunks|
    && forall i | 0 <= i < |chunks| ::
         && cbs[2 * i].BeginOf? && cbs[2 * i].uid == uid && cbs[2 * i].chunk == chunks[i]
         && cbs[2 * i + 1] == EndOf(uid, chunks[i])
  }

  function Flatten(utts: seq<seq<SoundData>>): seq<SoundData> {
    if utts == [] then [] else utts[0] + Flatten(utts[1..])
  }

  function StartedAndCompleted(uid: int, utts: seq<seq<SoundData>>): seq<Note> {
    if utts == [] then []
    else
      (if utts[0] == [] then []
       else [UttStarted(uid, utts[0][0].uttId), UttCompleted(uid, utts[0][0].uttId)]) + StartedAndCompleted(uid, utts[1..])
  }

  /** The tail of an utterance whose earlier chunks have begun. */
  lemma {:induction false} TailTransduced(e: ResultEvent, cbs: seq<Callback>, uid: int,
      u: seq<SoundData>, rest: seq<SoundData>, id: int)
    requires u != [] && Last(u).event == Finish && e != Finish
    requires forall i | 0 <= i < |u| :: u[i].uttId == id && (i < |u| - 1 ==> u[i].event == Continue)
    requires PlaysOut(cbs, uid, u + rest)
    ensures PlaysOut(cbs[2 * |u|..], uid, rest)
    ensures Transduce(e, cbs) == [UttCompleted(uid, id)] + Transduce(Finish, cbs[2 * |u|..])
    decreases u
  {
    ChunkTransduced(e, cbs, uid, u[0], u[1..] + rest) by { assert u + rest == [u[0]] + (u[1..] + rest); }
    if |u| == 1 {
      assert u[1..] + rest == rest;
    } else {
      TailTransduced(Continue, cbs[2..], uid, u[1..], rest, id);
      assert cbs[2..][2 * |u[1..]|..] == cbs[2 * |u|..];
    }
  }

  /** One chunk: its beginning and its end. */
  lemma ChunkTransduced(e: ResultEvent, cbs: seq<Callback>, uid: int, c: SoundData, rest: seq<SoundData>)
    requires PlaysOut(cbs, uid, [c] + rest)
    ensures PlaysOut(cbs[2..], uid, rest)
    ensures Transduce(e, cbs) ==
              (if BeginsUtterance(e, c) then [UttStarted(uid, c.uttId)] else [])
              + (if c.event == Finish then [UttCompleted(uid, c.uttId)] else []) + Transduce(c.event, cbs[2..])
  {
    var all := [c] + rest;
    assert all[0] == c;
    assert cbs[2 * 0].BeginOf? && cbs[2 * 0 + 1] == EndOf(uid, c);
    assert cbs[1..][0] == EndOf(uid, c) && cbs[1..][1..] == cbs[2..];
    forall i | 0 <= i < |rest|
      ensures cbs[2..][2 * i].BeginOf? && cbs[2..][2 * i].uid == uid && cbs[2..][2 * i].chunk == rest[i]
      ensures cbs[2..][2 * i + 1] == EndOf(uid, rest[i])
    {
      assert all[i + 1] == rest[i];
      assert cbs[2..][2 * i] == cbs[2 * (i + 1)] && cbs[2..][2 * i + 1] == cbs[2 * (i + 1) + 1];
    }
  }

  /**
   One complete utterance after a chunk with event `e`: it is always completed, and
   it is started exactly when the chunk before it was the end of an utterance or it
   has more than one chunk.
   */
  lemma UtteranceTransduced(e: ResultEvent, cbs: seq<Callback>, uid: int, u: seq<SoundData>, rest: seq<SoundData>)
    requires Complete(u) && PlaysOut(cbs, uid, u + rest)
    ensures PlaysOut(cbs[2 * |u|..], uid, rest)
    ensures Transduce(e, cbs) ==
              (if e == Finish || |u| > 1 then [UttStarted(uid, u[0].uttId)] else [])
              + [UttCompleted(uid, u[0].uttId)] + Transduce(Finish, cbs[2 * |u|..])
  {
    hide Transduce;
    ChunkTransduced(e, cbs, uid, u[0], u[1..] + rest) by { assert u + rest == [u[0]] + (u[1..] + rest); }
    if |u| == 1 {
      assert u[1..] + rest == rest;
    } else {
      TailTransduced(Start, cbs[2..], uid, u[1..], rest, u[0].uttId);
      assert cbs[2..][2 * |u[1..]|..] == cbs[2 * |u|..];
    }
  }

  lemma {:induction false} UtterancesTransduced(cbs: seq<Callback>, uid: int, utts: seq<seq<SoundData>>)
    requires forall i | 0 <= i < |utts| :: Complete(utts[i])
    requires PlaysOut(cbs, uid, Flatten(utts))
    ensures Transduce(Finish, cbs) == StartedAndCompleted(uid, utts)
  {
    if utts != [] {
      UtteranceTransduced(Finish, cbs, uid, utts[0], Flatten(utts[1..]));
      UtterancesTransduced(cbs[2 * |utts[0]|..], uid, utts[1..]);
    }
  }

  /**
   From a player whose last chunk ended an utterance, any number of complete
   utterances of any lengths produce exactly "started, completed" for each of them
   in order, interleaved with whatever happens to other clients and with pauses.
   */
  lemma {:induction false} StartedThenCompleted(ps: Players, cbs: seq<Callback>, uid: int, utts: seq<seq<SoundData>>)
    requires Unique(ps.list) && Has(ps.list, uid) && Get(ps.list, uid).value.event == Finish
    requires forall cb | cb in cbs :: !Disturbs(cb, uid)
    requires forall i | 0 <= i < |utts| :: Complete(utts[i])
    requires PlaysOut(Heard(cbs, uid), uid, Flatten(utts))
    ensures NotesFor(Notes(ps, cbs), uid) == StartedAndCompleted(uid, utts)
  {
    MessagesAreLocal(ps, cbs, uid);
    UtterancesTransduced(Heard(cbs, uid), uid, utts);
  }

  /**
   After a stop that cut a chunk off, the next utterance is reported in full exactly
   when the chunk that was cut off was a FINISH chunk or the utterance has more than
   one chunk; otherwise it is completed without having been started.
   */
  lemma FirstUtteranceAfterStop(ps: Players, cbs: seq<Callback>, uid: int, u: seq<SoundData>)
    requires Unique(ps.list) && Has(ps.list, uid)
    requires forall cb | cb in cbs :: !Disturbs(cb, uid)
    requires Complete(u) && PlaysOut(Heard(cbs, uid), uid, u)
    ensures NotesFor(Notes(Stop(ps, uid), cbs), uid) == [UttStarted(uid, u[0].uttId), UttCompleted(uid, u[0].uttId)]
            <==> Get(ps.list, uid).value.event == Finish || |u| > 1
    ensures Get(ps.list, uid).value.event != Finish && |u| == 1 ==>
            NotesFor(Notes(Stop(ps, uid), cbs), uid) == [UttCompleted(uid, u[0].uttId)]
  {
    var q := Stop(ps, uid);
    MessagesAreLocal(q, cbs, uid);
    assert u + [] == u;
    UtteranceTransduced(Get(ps.list, uid).value.event, Heard(cbs, uid), uid, u, []);
    assert Transduce(Finish, Heard(cbs, uid)[2 * |u|..]) == [];
  }
}
