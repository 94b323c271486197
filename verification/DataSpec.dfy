/**
 What server/ttsd_data.cpp computes, as functions on the client table: two FIFOs,
 a play state and a "stopped" utterance watermark per client.
 */
module DataSpec {
  import opened Types
  import opened Tables

  datatype AppRec = AppRec(
    pid: int,
    stopped: int,           // utterance ids below this one are refused
    state: AppState,
    speak: seq<SpeakData>,
    sound: seq<SoundData>)

  type Apps = seq<Entry<AppRec>>

  function NewRec(pid: int): AppRec {
    AppRec(pid, 0, Ready, [], [])
  }

  function StateOf(apps: Apps, uid: int): Option<AppState> {
    match Get(apps, uid) case None => None case Some(a) => Some(a.state)
  }

  predicate IsPlaying(apps: Apps, uid: int) {
    StateOf(apps, uid) == Some(Playing)
  }

  /** The texts and the chunks queued for a client; an unknown client has none. */
  function Texts(apps: Apps, uid: int): seq<SpeakData> {
    match Get(apps, uid) case None => [] case Some(a) => a.speak
  }

  function Sounds(apps: Apps, uid: int): seq<SoundData> {
    match Get(apps, uid) case None => [] case Some(a) => a.sound
  }

  /** The watermark of a client. */
  function Mark(apps: Apps, uid: int): int {
    match Get(apps, uid) case None => 0 case Some(a) => a.stopped
  }

  /** Two tables that list the same clients in the same states. */
  ghost predicate SameStates(apps: Apps, r: Apps) {
    && |r| == |apps| && (Unique(apps) ==> Unique(r))
    && forall u :: StateOf(r, u) == StateOf(apps, u)
  }

  /** Draining both queues; the last text removed leaves its id behind as the watermark. */
  function Drained(a: AppRec): AppRec {
    a.(speak := [], sound := [],
       stopped := if a.speak != [] && Last(a.speak).uttId != -1 then Last(a.speak).uttId else a.stopped)
  }

  function Clear(apps: Apps, uid: int): (r: Apps)
    ensures SameStates(apps, r)
  {
    match Get(apps, uid) case None => apps case Some(a) => Set(apps, uid, Drained(a))
  }

  /** Enqueueing id 1 means the client's ids have wrapped, so the watermark is lifted. */
  function AddText(apps: Apps, uid: int, sd: SpeakData): (r: Apps)
    ensures SameStates(apps, r)
  {
    match Get(apps, uid)
    case None => apps
    case Some(a) => Set(apps, uid, a.(speak := a.speak + [sd], stopped := if sd.uttId == 1 then 0 else a.stopped))
  }

  function AddSound(apps: Apps, uid: int, sd: SoundData): (r: Apps)
    ensures SameStates(apps, r)
  {
    match Get(apps, uid) case None => apps case Some(a) => Set(apps, uid, a.(sound := a.sound + [sd]))
  }

  function DropText(apps: Apps, uid: int): (r: Apps)
    requires Texts(apps, uid) != []
    ensures SameStates(apps, r)
  {
    var a := Get(apps, uid).value;
    Set(apps, uid, a.(speak := a.speak[1..]))
  }

  function DropSound(apps: Apps, uid: int): (r: Apps)
    requires Sounds(apps, uid) != []
    ensures SameStates(apps, r)
  {
    var a := Get(apps, uid).value;
    Set(apps, uid, a.(sound := a.sound[1..]))
  }

  // ----- what the updates do to the queues and the watermark

  /** Only the queues and watermark of `uid` may differ. */
  ghost predicate OthersSame(apps: Apps, r: Apps, uid: int) {
    forall u | u != uid ::
      Texts(r, u) == Texts(apps, u) && Sounds(r, u) == Sounds(apps, u) && Mark(r, u) == Mark(apps, u)
  }

  lemma ClearEffect(apps: Apps, uid: int)
    ensures var r := Clear(apps, uid); var q := Texts(apps, uid);
            OthersSame(apps, r, uid) && Texts(r, uid) == [] && Sounds(r, uid) == []
            && Mark(r, uid) == if q != [] && Last(q).uttId != -1 then Last(q).uttId else Mark(apps, uid)
  {
  }

  lemma AddTextEffect(apps: Apps, uid: int, sd: SpeakData)
    requires StateOf(apps, uid).Some?
    ensures var r := AddText(apps, uid, sd);
            OthersSame(apps, r, uid) && Texts(r, uid) == Texts(apps, uid) + [sd] && Sounds(r, uid) == Sounds(apps, uid)
            && Mark(r, uid) == if sd.uttId == 1 then 0 else Mark(apps, uid)
  {
  }

  lemma AddSoundNobody(apps: Apps, uid: int, c: SoundData)
    requires !Has(apps, uid)
    ensures AddSound(apps, uid, c) == apps
  {
  }

  lemma AddSoundEffect(apps: Apps, uid: int, sd: SoundData)
    requires StateOf(apps, uid).Some?
    ensures var r := AddSound(apps, uid, sd);
            OthersSame(apps, r, uid) && Texts(r, uid) == Texts(apps, uid) && Sounds(r, uid) == Sounds(apps, uid) + [sd]
            && Mark(r, uid) == Mark(apps, uid)
  {
  }

  lemma DropTextEffect(apps: Apps, uid: int)
    requires Texts(apps, uid) != []
    ensures var r := DropText(apps, uid);
            OthersSame(apps, r, uid) && Texts(r, uid) == Texts(apps, uid)[1..] && Sounds(r, uid) == Sounds(apps, uid)
            && Mark(r, uid) == Mark(apps, uid)
  {
  }

  lemma DropSoundEffect(apps: Apps, uid: int)
    requires Sounds(apps, uid) != []
    ensures var r := DropSound(apps, uid);
            OthersSame(apps, r, uid) && Texts(r, uid) == Texts(apps, uid) && Sounds(r, uid) == Sounds(apps, uid)[1..]
            && Mark(r, uid) == Mark(apps, uid)
  {
  }

  /** Draining and erasing a record removes that client and no other. */
  lemma EraseEffect(apps: Apps, uid: int)
    requires Unique(apps)
    ensures var r := Delete(Clear(apps, uid), uid);
            Unique(r) && forall u :: Get(r, u) == if u == uid then None else Get(apps, u)
  {
    GetDelete(Clear(apps, uid), uid);
  }

  lemma EraseNobody(apps: Apps, uid: int)
    requires !Has(apps, uid)
    ensures Delete(Clear(apps, uid), uid) == apps && Delete(apps, uid) == apps
  {
  }

  /** Index of the first playing client, or -1. */
  function FirstPlaying(apps: Apps): (r: int)
    ensures -1 <= r < |apps|
    ensures 0 <= r ==> apps[r].rec.state == Playing && forall k | 0 <= k < r :: apps[k].rec.state != Playing
    ensures r == -1 ==> forall k | 0 <= k < |apps| :: apps[k].rec.state != Playing
  {
    if apps == [] then -1
    else if apps[0].rec.state == Playing then 0
    else
      var r := FirstPlaying(apps[1..]);
      if r == -1 then -1 else r + 1
  }

  /** The uid of the playing client, or -1. */
  function CurrentPlaying(apps: Apps): int {
    var i := FirstPlaying(apps);
    if i == -1 then -1 else apps[i].uid
  }

  function WithState(apps: Apps, uid: int, st: AppState): (r: Apps)
    ensures |r| == |apps| && (Unique(apps) ==> Unique(r))
    ensures forall u :: StateOf(r, u) == if u == uid && StateOf(apps, u).Some? then Some(st) else StateOf(apps, u)
    ensures forall u :: Texts(r, u) == Texts(apps, u) && Sounds(r, u) == Sounds(apps, u) && Mark(r, u) == Mark(apps, u)
  {
    match Get(apps, uid) case None => apps case Some(a) => Set(apps, uid, a.(state := st))
  }

  /** Nobody may become the playing client while somebody is. */
  predicate MaySetState(apps: Apps, uid: int, st: AppState) {
    Has(apps, uid) && (st == Playing ==> FirstPlaying(apps) == -1)
  }

  /** An unknown client has nothing to refuse: the error code it returns reads as true. */
  predicate UttIdValid(apps: Apps, uid: int, uttId: int) {
    match Get(apps, uid) case None => true case Some(a) => uttId >= a.stopped
  }

  ghost predicate AtMostOnePlaying(apps: Apps) {
    forall u, v | StateOf(apps, u) == Some(Playing) && StateOf(apps, v) == Some(Playing) :: u == v
  }

  /** With unique uids the scan for the playing client and the per-client states agree. */
  lemma CurrentIsPlaying(apps: Apps)
    requires Unique(apps)
    ensures FirstPlaying(apps) != -1 ==> StateOf(apps, CurrentPlaying(apps)) == Some(Playing)
    ensures forall u | StateOf(apps, u) == Some(Playing) ::
              FirstPlaying(apps) != -1 && (AtMostOnePlaying(apps) ==> CurrentPlaying(apps) == u)
  {
    var i := FirstPlaying(apps);
    if i != -1 {
      FindIs(apps, i);
    }
    forall u | StateOf(apps, u) == Some(Playing)
      ensures FirstPlaying(apps) != -1 && (AtMostOnePlaying(apps) ==> CurrentPlaying(apps) == u)
    {
      assert apps[Find(apps, u)].rec.state == Playing;
      assert StateOf(apps, apps[FirstPlaying(apps)].uid) == Some(Playing);
    }
  }

  /**
   The check inside set-state keeps at most one client playing, whatever state is
   asked for and for whom.
   */
  lemma SetStateKeepsOnePlaying(apps: Apps, uid: int, st: AppState)
    requires Unique(apps) && AtMostOnePlaying(apps) && MaySetState(apps, uid, st)
    ensures AtMostOnePlaying(WithState(apps, uid, st))
  {
    CurrentIsPlaying(apps);
  }

  /** The list of setting clients without the first occurrence of a pid. */
  function Without(s: seq<int>, pid: int): seq<int> {
    if s == [] then [] else if s[0] == pid then s[1..] else [s[0]] + Without(s[1..], pid)
  }

  lemma {:induction false} WithoutIs(s: seq<int>, pid: int, i: nat)
    requires i <= |s| && pid !in s[..i] && (i < |s| ==> s[i] == pid)
    ensures Without(s, pid) == if i < |s| then s[..i] + s[i + 1..] else s
  {
    if i > 0 {
      var t := s[1..];
      assert s == [s[0]] + t && s[..i] == [s[0]] + t[..i - 1];
      assert s[0] == s[..i][0];
      WithoutIs(t, pid, i - 1);
      if i < |s| {
        assert s[i + 1..] == t[i..];
        assert s[..i] + s[i + 1..] == [s[0]] + (t[..i - 1] + t[i..]);
      }
    }
  }
}
