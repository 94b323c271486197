/** server/ttsd_player.cpp: the list of players, changed by requests and by media callbacks. */
module PlayerModule {
  import opened Types
  import opened Tables
  import opened DataSpec
  import opened Data
  import opened PlayerSpec

  class Player {
    const data: DataStore
    var list: seq<Entry<PlayerRec>>
    var playing: Option<int>
    var due: multiset<int>   // live next-play timers

    ghost function State(): Players
      reads this
    {
      Players(list, playing, due)
    }

    constructor (data: DataStore)
      ensures this.data == data && State() == Players([], None, multiset{})
    {
      this.data := data;
      list, playing, due := [], None, multiset{};
    }

    method CreateInstance(uid: int, made: bool) returns (ok: bool)
      modifies this
      ensures (State(), ok) == Create(old(State()), uid, made)
    {
      var i := Search(list, uid);
      if i != -1 || !made {
        return false;
      }
      list := Append(list, uid, PlayerRec(-1, Finish, MediaNull, None));
      return true;
    }

    method DestroyInstance(uid: int) returns (ok: bool)
      modifies this
      ensures State() == Destroy(old(State()), uid) && ok == Has(old(list), uid)
    {
      var i := Search(list, uid);
      if i == -1 {
        return false;
      }
      if playing == Some(uid) {
        playing := None;
      }
      list := list[..i] + list[i + 1..];
      return true;
    }

    method StopPlayer(uid: int) returns (ok: bool)
      modifies this
      ensures State() == Stop(old(State()), uid) && ok == Has(old(list), uid)
    {
      var i := Search(list, uid);
      if i == -1 {
        return false;
      }
      if playing == Some(uid) {
        playing := None;
      }
      list := Set(list, uid, list[i].rec.(uttId := -1, media := MediaNull));
      return true;
    }

    method PausePlayer(uid: int) returns (ok: bool)
      modifies this
      ensures (State(), ok) == Pause(old(State()), uid)
    {
      var i := Search(list, uid);
      if i == -1 {
        return false;
      }
      if playing == Some(uid) {
        playing := None;
      }
      if list[i].rec.media == MediaPlaying {
        list := Set(list, uid, list[i].rec.(media := MediaPaused));
      }
      return true;
    }

    method ResumePlayer(uid: int) returns (ok: bool)
      modifies this
      ensures State() == Resume(old(State()), uid) && ok == Has(old(list), uid)
    {
      var i := Search(list, uid);
      if i == -1 {
        return false;
      }
      playing := None;
      if list[i].rec.media == MediaPaused {
        list := Set(list, uid, list[i].rec.(media := MediaPlaying));
        playing := Some(uid);
      }
      return true;
    }

    /** Hand the oldest chunk of the client to its media player and start it. */
    method SetAndStart(uid: int) returns (taken: Option<SoundData>)
      requires data.Valid() && Has(list, uid)
      modifies this, data
      ensures data.Valid() && data.settings == old(data.settings)
      ensures Pull(State(), data.apps, taken) == StartChunk(old(State()), old(data.apps), uid)
    {
      taken := data.GetSoundData(uid);
      if taken.None? {
        return;
      }
      var i := Search(list, uid);
      list := Set(list, uid, list[i].rec.(media := MediaPlaying, chunk := taken));
    }

    method PlaySound(uid: int) returns (taken: Option<SoundData>)
      requires data.Valid()
      modifies this, data
      ensures data.Valid() && data.settings == old(data.settings)
      ensures Pull(State(), data.apps, taken) == Play(old(State()), old(data.apps), uid)
    {
      taken := None;
      if playing == Some(uid) {
        return;
      }
      var i := Search(list, uid);
      if i == -1 {
        return;
      }
      if list[i].rec.media != MediaNull {
        return;
      }
      taken := SetAndStart(uid);
    }

    /** The timer that follows the end of a stream. */
    method NextPlaySound(uid: int) returns (taken: Option<SoundData>)
      requires data.Valid()
      modifies this, data
      ensures data.Valid() && data.settings == old(data.settings)
      ensures Pull(State(), data.apps, taken) == NextPlay(old(State()), old(data.apps), uid)
    {
      taken := None;
      due := due - multiset{uid};
      var i := Search(list, uid);
      if i == -1 {
        playing := None;
        return;
      }
      if playing != Some(uid) {
        return;
      }
      list := Set(list, uid, list[i].rec.(media := MediaNull));
      var k := Search(data.apps, uid);
      if k != -1 && |data.apps[k].rec.sound| == 0 {
        playing := None;
        return;
      }
      taken := SetAndStart(uid);
    }

    method AllStopPlayers()
      modifies this
      ensures State() == AllStop(old(State()), data.apps)
    {
      hide StopEach, StateOf;
      playing := None;
      var i := 0;
      ghost var was, done := list, [];
      while i < |list|
        invariant |done| == i <= |list| == |was| && playing == None && due == old(due)
        invariant list[..i] == done && list[i..] == was[i..]
        invariant StopEach(was, data.apps) == done + StopEach(was[i..], data.apps)
      {
        assert list[i] == list[i..][0] == was[i..][0] == was[i];
        StopEachStep(done, was, i, data.apps);
        assert list[i + 1..] == list[i..][1..] == was[i..][1..] == was[i + 1..];
        var st := data.GetClientState(list[i].uid);
        if st.None? {
          list := list[..i] + list[i + 1..];
          return;
        }
        list := ResetEntry(list, i, st.value);
        done := done + [list[i]];
        i := i + 1;
      }
      assert list[..i] == list && was[i..] == [];
      StopEachOfNone(data.apps);
    }

    /** `list` with entry `i` reset. */
    static method ResetEntry(list: seq<Entry<PlayerRec>>, i: nat, st: AppState) returns (r: seq<Entry<PlayerRec>>)
      requires i < |list|
      ensures |r| == |list| && r[i] == StopOne(list[i], st) && r[..i] == list[..i] && r[i + 1..] == list[i + 1..]
    {
      r := list;
      if st == Playing || st == Paused {
        r := r[i := Entry(r[i].uid, r[i].rec.(uttId := -1, event := Finish, media := MediaNull))];
      }
    }

    method BeginOfStream(uid: int, c: SoundData) returns (note: Option<Note>)
      modifies this
      ensures (State(), note) == OnBegin(old(State()), uid, c, StateOf(data.apps, uid))
    {
      var i := Search(list, uid);
      if i == -1 {
        return None;
      }
      var p := list[i].rec;
      note := None;
      if c.event == Start || (p.event == Finish && c.event == Finish) {
        note := Some(UttStarted(uid, c.uttId));
      }
      p := p.(uttId := c.uttId, event := c.event);
      playing := Some(uid);
      var st := data.GetClientState(uid);
      if st == Some(Paused) && p.media == MediaPlaying {
        p := p.(media := MediaPaused);
      }
      list := Set(list, uid, p);
    }

    method EndOfStream(uid: int, c: SoundData) returns (note: Option<Note>)
      modifies this
      ensures (State(), note) == OnEnd(old(State()), uid, c)
    {
      var i := Search(list, uid);
      if i == -1 {
        if playing == Some(uid) {
          playing := None;
        }
        return None;
      }
      note := if list[i].rec.event == Finish then Some(UttCompleted(uid, c.uttId)) else None;
      list := Set(list, uid, list[i].rec.(chunk := None));
      due := due + multiset{uid};
    }

    method StreamError(uid: int)
      modifies this
      ensures State() == OnError(old(State()), uid)
    {
      var i := Search(list, uid);
      if i != -1 {
        list := Set(list, uid, list[i].rec.(event := Finish, chunk := None));
      }
      if playing == Some(uid) {
        playing := None;
      }
    }
  }
}
