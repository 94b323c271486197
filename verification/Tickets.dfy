/**
 One client's books.  Every accepted text has a ticket, its place in the order of
 acceptance; the books say where each ticket is.  This module is the bookkeeping: what
 each act of the history does to the books, and the order they stay in.
 */
module Tickets {
  import opened Types
  import opened DaemonSpec
  import opened Subsequences

  /** A chunk of sound and the ticket of the text it was made from. */
  datatype Tagged = Tagged(ticket: nat, chunk: SoundData)

  /**
   `accepted[k]` is the text with ticket `k`; `chunks` is all sound ever queued, in the order
   of arrival; `faithful` says that every act so far was about the head of its queue; the
   tickets from `base` on were given out after the client's last loss.
   */
  datatype Books = Books(
    accepted: seq<SpeakData>,
    texts: seq<nat>,
    flight: Option<nat>,
    chunks: seq<Tagged>,
    sounds: seq<Tagged>,
    pulled: seq<Tagged>,
    faithful: bool,
    base: nat)

  const EmptyBooks := Books([], [], None, [], [], [], true, 0)

  /** Is `sd` the oldest waiting text, `c` the oldest waiting chunk? */
  predicate FirstText(b: Books, sd: SpeakData) {
    b.texts != [] && b.texts[0] < |b.accepted| && b.accepted[b.texts[0]] == sd
  }

  predicate FirstSound(b: Books, c: SoundData) {
    b.sounds != [] && b.sounds[0].chunk == c
  }

  /** One more act of the history; one that is not about the head of its queue spoils the books. */
  function Posted(b: Books, x: Act, u: int): Books {
    match x
    case Accepted(v, sd) => if v == u then b.(accepted := b.accepted + [sd], texts := b.texts + [|b.accepted|]) else b
    case Handed(v, sd, _, _) =>
      if v != u then b
      else if FirstText(b, sd) then b.(texts := b.texts[1..], flight := Some(b.texts[0]))
      else b.(faithful := false)
    case StartFailed(v, sd) =>
      if v != u then b else if FirstText(b, sd) then b.(texts := b.texts[1..]) else b.(faithful := false)
    case ChunkIn(v, c) =>
      if v != u then b
      else if b.flight.Some? then
        var t := Tagged(b.flight.value, c);
        b.(chunks := b.chunks + [t], sounds := b.sounds + [t])
      else b.(faithful := false)
    case Ended(v, _, _) => if v == u then b.(flight := None) else b
    case Pulled(v, c) =>
      if v != u then b
      else if FirstSound(b, c) then b.(pulled := b.pulled + [b.sounds[0]], sounds := b.sounds[1..])
      else b.(faithful := false)
    case Cleared(v) => if v == u then b.(texts := [], sounds := []) else b
    case _ => b
  }

  /** An act that takes an utterance of the client out of circulation. */
  predicate Loses(x: Act, u: int) {
    match x
    case Cleared(v) => v == u
    case StartFailed(v, _) => v == u
    case Refused(v, _) => v == u
    case Ended(v, _, ev) => v == u && ev != Finish
    case _ => false
  }

  /** A loss makes every ticket given out so far an old one. */
  function Entered(b: Books, x: Act, u: int): Books {
    var c := Posted(b, x, u);
    if Loses(x, u) then c.(base := |c.accepted|) else c
  }

  function BooksOf(log: seq<Act>, u: int): Books {
    if log == [] then EmptyBooks else Entered(BooksOf(Front(log), u), Last(log), u)
  }

  lemma BooksAppend(log: seq<Act>, x: Act, u: int)
    ensures BooksOf(log + [x], u) == Entered(BooksOf(log, u), x, u)
  {
    assert Front(log + [x]) == log;
  }

  predicate NoLoss(log: seq<Act>, u: int) {
    log == [] || (NoLoss(Front(log), u) && !Loses(Last(log), u))
  }

  // ----- what the daemon has of one client

  datatype View = View(texts: seq<SpeakData>, sounds: seq<SoundData>, job: Option<SpeakData>, streaming: bool)

  /** Queues and job hold exactly the texts and chunks the books speak of. */
  predicate Fits(b: Books, v: View) {
    && |b.texts| == |v.texts|
    && (forall i | 0 <= i < |b.texts| :: b.texts[i] < |b.accepted| && v.texts[i] == b.accepted[b.texts[i]])
    && (b.flight.Some? <==> v.job.Some?)
    && (b.flight.Some? ==> b.flight.value < |b.accepted| && v.job.value == b.accepted[b.flight.value])
    && |b.sounds| == |v.sounds| && (forall i | 0 <= i < |b.sounds| :: v.sounds[i] == b.sounds[i].chunk)
  }

  /** Within one utterance START comes first and FINISH last; utterances follow in ticket order. */
  predicate Follows(x: Tagged, y: Tagged) {
    || x.ticket < y.ticket
    || (x.ticket == y.ticket && (x.chunk.event == Start || x.chunk.event == Continue)
        && (y.chunk.event == Continue || y.chunk.event == Finish))
  }

  predicate Chained(cs: seq<Tagged>) {
    forall i | 0 <= i < |cs| - 1 :: Follows(cs[i], cs[i + 1])
  }

  predicate Rising(s: seq<nat>) {
    forall i, j | 0 <= i < j < |s| :: s[i] < s[j]
  }

  /** Chunks before the job before the texts, everything in the order of tickets. */
  predicate Ordered(b: Books, streaming: bool) {
    && Rising(b.texts)
    && (forall i | 0 <= i < |b.chunks| :: b.chunks[i].ticket < |b.accepted| && IsSound(b.chunks[i].chunk.event)
          && b.chunks[i].chunk.uttId == b.accepted[b.chunks[i].ticket].uttId)
    && (forall i, j | 0 <= i < |b.chunks| && 0 <= j < |b.texts| :: b.chunks[i].ticket < b.texts[j])
    && (b.flight.Some? ==>
          && (forall j | 0 <= j < |b.texts| :: b.flight.value < b.texts[j])
          && (forall i | 0 <= i < |b.chunks| :: b.chunks[i].ticket <= b.flight.value)
          && (forall i | 0 <= i < |b.chunks| && b.chunks[i].ticket == b.flight.value ::
                streaming && b.chunks[i].chunk.event != Finish))
    && Chained(b.chunks) && Within(b.pulled + b.sounds, b.chunks)
  }

  /** The chunks of the tickets from `k` on. */
  function Recent(cs: seq<Tagged>, k: nat): seq<Tagged> {
    if cs == [] then [] else Recent(Front(cs), k) + if Last(cs).ticket >= k then [Last(cs)] else []
  }

  /** The first ticket from `k` on whose sound is not complete. */
  function Due(cs: seq<Tagged>, k: nat): nat {
    if cs == [] then k else if Last(cs).chunk.event == Finish then Last(cs).ticket + 1 else Last(cs).ticket
  }

  predicate Opens(c: SoundData) {
    c.event == Start || c.event == Finish
  }

  /** Ticket after ticket from `k` on, each START CONTINUE* FINISH or FINISH alone, the last perhaps unfinished. */
  predicate Grouped(cs: seq<Tagged>, k: nat) {
    && (cs != [] ==> cs[0].ticket == k && Opens(cs[0].chunk))
    && forall i | 0 <= i < |cs| - 1 ::
         if cs[i].chunk.event == Finish then cs[i + 1].ticket == cs[i].ticket + 1 && Opens(cs[i + 1].chunk)
         else cs[i + 1].ticket == cs[i].ticket && (cs[i + 1].chunk.event == Continue || cs[i + 1].chunk.event == Finish)
  }

  predicate InFlight(b: Books) {
    b.flight.Some? && b.flight.value >= b.base
  }

  /**
   Nothing given a ticket since the last loss is missing: complete sound for the first of
   these tickets, then the job, then the end of the queue, up to the last ticket.
   */
  predicate Exact(b: Books, streaming: bool) {
    var cs := Recent(b.chunks, b.base);
    var n := Due(cs, b.base) + if InFlight(b) then 1 else 0;
    && Recent(b.pulled + b.sounds, b.base) == cs && Grouped(cs, b.base)
    && (if InFlight(b) then b.flight.value == Due(cs, b.base) && (streaming <==> cs != [] && Last(cs).chunk.event != Finish)
        else cs == [] || Last(cs).chunk.event == Finish)
    && b.base <= n <= |b.accepted| <= n + |b.texts|
    && var past := |b.texts| + n - |b.accepted|;
       && (forall i | 0 <= i < past :: b.texts[i] < b.base)
       && forall i | past <= i < |b.texts| :: b.texts[i] == n + i - past
  }

  predicate Kept(b: Books, v: View) {
    b.faithful && Fits(b, v) && Ordered(b, v.streaming) && Exact(b, v.streaming)
  }

  // ----- the acts, one by one

  lemma AcceptKept(b: Books, v: View, sd: SpeakData, u: int)
    requires Kept(b, v)
    ensures Kept(Entered(b, Accepted(u, sd), u), v.(texts := v.texts + [sd]))
  {
    hide Chained, Grouped, Within, Recent, Fits, Ordered, Exact;
    var c, w := Entered(b, Accepted(u, sd), u), v.(texts := v.texts + [sd]);
    assert Fits(c, w) by { AcceptFits(b, v, sd); }
    assert Ordered(c, w.streaming) by { AcceptOrdered(b, v, sd); }
    assert Exact(c, w.streaming) by { AcceptExact(b, v, sd); }
  }

  function WithText(b: Books, sd: SpeakData): Books {
    b.(accepted := b.accepted + [sd], texts := b.texts + [|b.accepted|])
  }

  lemma AcceptFits(b: Books, v: View, sd: SpeakData)
    requires Fits(b, v)
    ensures Fits(WithText(b, sd), v.(texts := v.texts + [sd]))
  {
  }

  lemma AcceptOrdered(b: Books, v: View, sd: SpeakData)
    requires Fits(b, v) && Ordered(b, v.streaming)
    ensures Ordered(WithText(b, sd), v.streaming)
  {
    hide Chained, Within;
  }

  lemma AcceptExact(b: Books, v: View, sd: SpeakData)
    requires Exact(b, v.streaming)
    ensures Exact(WithText(b, sd), v.streaming)
  {
    hide Grouped, Recent;
  }

  lemma HandKept(b: Books, v: View, sd: SpeakData, voice: Voice, speed: int, u: int)
    requires Kept(b, v) && v.job.None? && v.texts != [] && v.texts[0] == sd
    ensures Kept(Entered(b, Handed(u, sd, voice, speed), u), View(v.texts[1..], v.sounds, Some(sd), false))
  {
    hide Chained, Grouped, Within, Recent;
    var c := Entered(b, Handed(u, sd, voice, speed), u);
    assert forall j | 0 <= j < |c.texts| :: c.texts[j] == b.texts[j + 1];
  }

  /** What is known of books that have just suffered a loss. */
  predicate Afresh(b: Books) {
    b.base == |b.accepted|
  }

  lemma RecentNone(cs: seq<Tagged>, k: nat)
    requires forall i | 0 <= i < |cs| :: cs[i].ticket < k
    ensures Recent(cs, k) == []
  {
  }

  lemma {:induction false} WithinIn<T>(a: seq<T>, b: seq<T>)
    requires Within(a, b)
    ensures forall x | x in a :: x in b
  {
    if a != [] {
      if Last(a) == Last(b) && Within(Front(a), Front(b)) {
        WithinIn(Front(a), Front(b));
        assert a == Front(a) + [Last(a)];
      } else {
        WithinIn(a, Front(b));
      }
    }
  }

  /** Books in order that start afresh miss nothing, whatever the engine is about. */
  lemma AfreshExact(b: Books, v: View)
    requires Fits(b, v) && Ordered(b, v.streaming) && Afresh(b)
    ensures Exact(b, v.streaming)
  {
    hide Chained, Within;
    RecentNone(b.chunks, b.base);
    WithinIn(b.pulled + b.sounds, b.chunks);
    var s := b.pulled + b.sounds;
    forall i | 0 <= i < |s| ensures s[i].ticket < b.base {
      assert s[i] in b.chunks;
      var j :| 0 <= j < |b.chunks| && b.chunks[j] == s[i];
    }
    RecentNone(s, b.base);
  }

  lemma FailKept(b: Books, v: View, sd: SpeakData, u: int)
    requires Kept(b, v) && v.texts != [] && v.texts[0] == sd
    ensures Kept(Entered(b, StartFailed(u, sd), u), v.(texts := v.texts[1..]))
  {
    hide Exact, Chained, Within;
    var c := Entered(b, StartFailed(u, sd), u);
    assert forall j | 0 <= j < |c.texts| :: c.texts[j] == b.texts[j + 1];
    AfreshExact(c, v.(texts := v.texts[1..]));
  }

  /** A refused chunk changes nothing but what may be expected; the engine goes on streaming. */
  lemma RefusedKept(b: Books, v: View, id: int, u: int)
    requires Kept(b, v)
    ensures var c := Entered(b, Refused(u, id), u);
            Afresh(c) && c.flight == b.flight && Kept(c, v) && Kept(c, v.(streaming := true))
  {
    hide Exact, Chained, Within;
    var c := Entered(b, Refused(u, id), u);
    AfreshExact(c, v);
    AfreshExact(c, v.(streaming := true));
  }

  lemma ChainGrows(cs: seq<Tagged>, t: Tagged)
    requires Chained(cs) && (cs != [] ==> Follows(Last(cs), t))
    ensures Chained(cs + [t])
  {
    var ds := cs + [t];
    forall i | 0 <= i < |ds| - 1 ensures Follows(ds[i], ds[i + 1]) {
      if i < |cs| - 1 { assert Follows(cs[i], cs[i + 1]); }
    }
  }

  lemma GroupGrows(cs: seq<Tagged>, k: nat, t: Tagged)
    requires Grouped(cs, k) && t.ticket == Due(cs, k) && IsSound(t.chunk.event)
    requires (cs != [] && Last(cs).chunk.event != Finish) ==> t.chunk.event != Start
    requires (cs == [] || Last(cs).chunk.event == Finish) ==> t.chunk.event != Continue
    ensures Grouped(cs + [t], k)
  {
    var ds := cs + [t];
    assert forall i | 0 <= i < |cs| :: ds[i] == cs[i];
    assert ds[|cs|] == t;
  }

  lemma RecentAppend(cs: seq<Tagged>, t: Tagged, k: nat)
    ensures Recent(cs + [t], k) == Recent(cs, k) + if t.ticket >= k then [t] else []
  {
    assert Front(cs + [t]) == cs;
  }

  /** The chunk the engine delivers fits behind the ones before it. */
  lemma ChunkChains(b: Books, v: View, c: SoundData)
    requires Kept(b, v) && v.job.Some? && IsSound(c.event)
    requires (c.event == Start ==> !v.streaming) && (c.event == Continue ==> v.streaming)
    ensures var t := Tagged(b.flight.value, c);
            var cs := b.chunks + [t];
            && Chained(cs) && Within(b.pulled + (b.sounds + [t]), cs)
            && Recent(b.pulled + (b.sounds + [t]), b.base) == Recent(cs, b.base)
               == Recent(b.chunks, b.base) + (if InFlight(b) then [t] else [])
            && Grouped(Recent(cs, b.base), b.base)
  {
    hide Within, Chained, Grouped, Recent;
    var t := Tagged(b.flight.value, c);
    WithinAppend(b.pulled + b.sounds, b.chunks, t);
    assert b.pulled + (b.sounds + [t]) == b.pulled + b.sounds + [t];
    if b.chunks != [] { assert b.chunks[|b.chunks| - 1] == Last(b.chunks); }
    ChainGrows(b.chunks, t);
    RecentAppend(b.chunks, t, b.base);
    RecentAppend(b.pulled + b.sounds, t, b.base);
    var rs := Recent(b.chunks, b.base);
    assert rs + [] == rs;
    if InFlight(b) { GroupGrows(rs, b.base, t); }
  }

  lemma ChunkKept(b: Books, v: View, c: SoundData, u: int)
    requires Kept(b, v) && v.job.Some? && c.uttId == v.job.value.uttId
    requires c.event == if v.streaming then Continue else Start
    ensures Kept(Entered(b, ChunkIn(u, c), u), v.(sounds := v.sounds + [c], streaming := true))
  {
    hide Chained, Grouped, Within, Recent, Fits, Ordered, Exact;
    var w := v.(sounds := v.sounds + [c], streaming := true);
    ChunkChains(b, v, c);
    FlightFits(b, v);
    assert Fits(WithChunk(b, c), w) by { ChunkFits(b, v, c); }
    assert Ordered(WithChunk(b, c), true) by { ChunkOrdered(b, v, c); }
    assert Exact(WithChunk(b, c), true) by { ChunkExact(b, v, c); }
  }

  lemma FlightFits(b: Books, v: View)
    requires Fits(b, v)
    ensures b.flight.Some? <==> v.job.Some?
  {
  }

  function WithChunk(b: Books, c: SoundData): Books
    requires b.flight.Some?
  {
    b.(chunks := b.chunks + [Tagged(b.flight.value, c)], sounds := b.sounds + [Tagged(b.flight.value, c)])
  }

  lemma ChunkFits(b: Books, v: View, c: SoundData)
    requires Fits(b, v) && b.flight.Some?
    ensures Fits(WithChunk(b, c), v.(sounds := v.sounds + [c], streaming := true))
  {
  }

  lemma ChunkOrdered(b: Books, v: View, c: SoundData)
    requires Kept(b, v) && v.job.Some? && c.uttId == v.job.value.uttId && IsSound(c.event) && c.event != Finish
    requires Chained(WithChunk(b, c).chunks) && Within(b.pulled + WithChunk(b, c).sounds, WithChunk(b, c).chunks)
    ensures Ordered(WithChunk(b, c), true)
  {
    hide Chained, Within, Exact;
  }

  lemma ChunkExact(b: Books, v: View, c: SoundData)
    requires Kept(b, v) && v.job.Some? && IsSound(c.event) && c.event != Finish
    requires var t := Tagged(b.flight.value, c);
             && Recent(b.pulled + WithChunk(b, c).sounds, b.base) == Recent(WithChunk(b, c).chunks, b.base)
                == Recent(b.chunks, b.base) + (if InFlight(b) then [t] else [])
             && Grouped(Recent(WithChunk(b, c).chunks, b.base), b.base)
    ensures Exact(WithChunk(b, c), true)
  {
    hide Chained, Within, Grouped, Recent, Ordered;
    var rs := Recent(b.chunks, b.base);
    assert rs + [] == rs;
  }

  /** The last chunk and the end of the job. */
  lemma FinishKept(b: Books, v: View, c: SoundData, id: int, u: int)
    requires Kept(b, v) && v.job.Some? && c.uttId == v.job.value.uttId && c.event == Finish
    ensures Kept(Entered(Entered(b, ChunkIn(u, c), u), Ended(u, id, Finish), u), View(v.texts, v.sounds + [c], None, false))
  {
    hide Chained, Grouped, Within, Recent, Fits, Ordered, Exact;
    var w := View(v.texts, v.sounds + [c], None, false);
    ChunkChains(b, v, c);
    FlightFits(b, v);
    var r := WithChunk(b, c).(flight := None);
    assert Fits(r, w) by { FinishFits(b, v, c); }
    assert Ordered(r, false) by { FinishOrdered(b, v, c); }
    assert Exact(r, false) by { FinishExact(b, v, c); }
  }

  lemma FinishFits(b: Books, v: View, c: SoundData)
    requires Fits(b, v) && b.flight.Some?
    ensures Fits(WithChunk(b, c).(flight := None), View(v.texts, v.sounds + [c], None, false))
  {
  }

  lemma FinishOrdered(b: Books, v: View, c: SoundData)
    requires Kept(b, v) && v.job.Some? && c.uttId == v.job.value.uttId && c.event == Finish
    requires Chained(WithChunk(b, c).chunks) && Within(b.pulled + WithChunk(b, c).sounds, WithChunk(b, c).chunks)
    ensures Ordered(WithChunk(b, c).(flight := None), false)
  {
    hide Chained, Within, Exact;
  }

  lemma FinishExact(b: Books, v: View, c: SoundData)
    requires Kept(b, v) && v.job.Some? && c.event == Finish
    requires var t := Tagged(b.flight.value, c);
             && Recent(b.pulled + WithChunk(b, c).sounds, b.base) == Recent(WithChunk(b, c).chunks, b.base)
                == Recent(b.chunks, b.base) + (if InFlight(b) then [t] else [])
             && Grouped(Recent(WithChunk(b, c).chunks, b.base), b.base)
    ensures Exact(WithChunk(b, c).(flight := None), false)
  {
    hide Chained, Within, Grouped, Recent, Ordered;
    var rs := Recent(b.chunks, b.base);
    assert rs + [] == rs;
  }

  /** A job that ends without its last chunk, or after its last chunk was refused. */
  lemma EndKept(b: Books, v: View, id: int, ev: ResultEvent, u: int)
    requires Kept(b, v) && (ev != Finish || Afresh(b))
    ensures Kept(Entered(b, Ended(u, id, ev), u), v.(job := None, streaming := false))
  {
    hide Exact, Chained, Within;
    AfreshExact(Entered(b, Ended(u, id, ev), u), v.(job := None, streaming := false));
  }

  lemma PullKept(b: Books, v: View, u: int)
    requires Kept(b, v) && v.sounds != []
    ensures Kept(Entered(b, Pulled(u, v.sounds[0]), u), v.(sounds := v.sounds[1..]))
  {
    hide Chained, Grouped, Within, Recent;
    assert b.pulled + [b.sounds[0]] + b.sounds[1..] == b.pulled + b.sounds;
  }

  lemma ClearKept(b: Books, v: View, u: int)
    requires Kept(b, v)
    ensures Kept(Entered(b, Cleared(u), u), v.(texts := [], sounds := []))
  {
    hide Exact, Chained;
    WithinPrefix(b.pulled, b.sounds);
    WithinTrans(b.pulled, b.pulled + b.sounds, b.chunks);
    assert b.pulled + [] == b.pulled;
    AfreshExact(Entered(b, Cleared(u), u), v.(texts := [], sounds := []));
  }

  // ----- the order of everything

  /** Played, queued as sound, at the engine, queued as text: the tickets in this order. */
  function Line(b: Books): seq<nat> {
    Map(TicketOf, b.pulled + b.sounds) + (match b.flight case None => [] case Some(f) => [f]) + b.texts
  }

  function TicketOf(t: Tagged): nat {
    t.ticket
  }

  predicate NonDecreasing(s: seq<nat>) {
    forall i, j | 0 <= i < j < |s| :: s[i] <= s[j]
  }

  lemma {:induction false} ChainRises(cs: seq<Tagged>, i: nat, j: nat)
    requires Chained(cs) && i <= j < |cs|
    ensures cs[i].ticket <= cs[j].ticket
    decreases j
  {
    if i < j {
      ChainRises(cs, i, j - 1);
      assert Follows(cs[j - 1], cs[j - 1 + 1]);
    }
  }

  lemma {:induction false} MapAt<S, T>(f: S -> T, s: seq<S>)
    ensures |Map(f, s)| == |s| && forall i | 0 <= i < |s| :: Map(f, s)[i] == f(s[i])
  {
    if s != [] {
      MapAt(f, Front(s));
      assert s == Front(s) + [Last(s)];
    }
  }

  lemma {:induction false} WithinRises(a: seq<nat>, b: seq<nat>)
    requires Within(a, b) && NonDecreasing(b)
    ensures NonDecreasing(a) && forall x | x in a :: x in b
  {
    if a != [] {
      assert forall i, j | 0 <= i < j < |Front(b)| :: b[i] <= b[j];
      if Last(a) == Last(b) && Within(Front(a), Front(b)) {
        WithinRises(Front(a), Front(b));
        forall i, j | 0 <= i < j < |a| ensures a[i] <= a[j] {
          if j < |a| - 1 { assert a[i] == Front(a)[i] && a[j] == Front(a)[j]; }
          else { assert a[i] == Front(a)[i] && Front(a)[i] in Front(b); }
        }
        assert a == Front(a) + [Last(a)];
      } else {
        WithinRises(a, Front(b));
      }
    }
  }

  /** The line never goes back. */
  lemma LineRises(b: Books, streaming: bool)
    requires Ordered(b, streaming)
    ensures NonDecreasing(Line(b))
  {
    hide Within, Chained, Map;
    var a, c := Map(TicketOf, b.pulled + b.sounds), Map(TicketOf, b.chunks);
    WithinMap(TicketOf, b.pulled + b.sounds, b.chunks);
    MapAt(TicketOf, b.chunks);
    forall i, j | 0 <= i < j < |c| ensures c[i] <= c[j] { ChainRises(b.chunks, i, j); }
    WithinRises(a, c);
    forall i | 0 <= i < |a|
      ensures (b.flight.Some? ==> a[i] <= b.flight.value) && forall j | 0 <= j < |b.texts| :: a[i] < b.texts[j]
    {
      assert a[i] in c;
      var k :| 0 <= k < |c| && c[k] == a[i];
      assert c[k] == b.chunks[k].ticket;
    }
  }

  // ----- the books' lists are the history's

  function AcceptedBy(u: int): Act -> Option<SpeakData> {
    (x: Act) => if x.Accepted? && x.uid == u then Some(x.speak) else None
  }

  function QueuedFor(u: int): Act -> Option<SoundData> {
    (x: Act) => if x.ChunkIn? && x.uid == u then Some(x.sound) else None
  }

  function PulledFor(u: int): Act -> Option<SoundData> {
    (x: Act) => if x.Pulled? && x.uid == u then Some(x.sound) else None
  }

  function ChunkOf(t: Tagged): SoundData {
    t.chunk
  }

  /** The history speaks of these texts and chunks and of no others. */
  predicate Complete(b: Books, log: seq<Act>, u: int) {
    && b.accepted == Collect(AcceptedBy(u), log)
    && Map(ChunkOf, b.chunks) == Collect(QueuedFor(u), log)
    && Map(ChunkOf, b.pulled) == Collect(PulledFor(u), log)
  }

  lemma MapAppend<S, T>(f: S -> T, s: seq<S>, x: S)
    ensures Map(f, s + [x]) == Map(f, s) + [f(x)]
  {
    assert Front(s + [x]) == s;
  }

  lemma {:induction false} FaithfulIsComplete(log: seq<Act>, u: int)
    requires BooksOf(log, u).faithful
    ensures Complete(BooksOf(log, u), log, u)
  {
    hide Map;
    if log == [] {
      assert Map(ChunkOf, []) == [] by { MapAt(ChunkOf, []); }
    } else {
      var b, x := BooksOf(Front(log), u), Last(log);
      FaithfulIsComplete(Front(log), u);
      if x.ChunkIn? && x.uid == u { MapAppend(ChunkOf, b.chunks, Tagged(b.flight.value, x.sound)); }
      if x.Pulled? && x.uid == u { MapAppend(ChunkOf, b.pulled, b.sounds[0]); }
    }
  }

  // ----- the last loss

  lemma NoLossBase(log: seq<Act>, u: int)
    requires NoLoss(log, u)
    ensures BooksOf(log, u).base == 0
  {
  }

  /** The old tickets are those given out up to the last loss. */
  lemma {:induction false} BaseIsLastLoss(log: seq<Act>, x: Act, since: seq<Act>, u: int)
    requires Loses(x, u) && NoLoss(since, u)
    ensures BooksOf(log + [x] + since, u).base == |BooksOf(log + [x], u).accepted|
  {
    if since == [] {
      assert log + [x] + since == log + [x];
      BooksAppend(log, x, u);
    } else {
      BaseIsLastLoss(log, x, Front(since), u);
      assert log + [x] + since == log + [x] + Front(since) + [Last(since)];
      BooksAppend(log + [x] + Front(since), Last(since), u);
    }
  }
}
