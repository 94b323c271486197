/** server/ttsd_data.cpp: the client table and the list of setting clients, updated in place. */
module Data {
  import opened Types
  import opened Tables
  import opened DataSpec

  class DataStore {
    var apps: Apps
    var settings: seq<int>
    var mutexState: bool

    /** Every entry point finds the spin flag down, so the busy wait is never entered. */
    ghost predicate Valid()
      reads this
    {
      !mutexState
    }

    constructor ()
      ensures Valid() && apps == [] && settings == []
    {
      apps, settings, mutexState := [], [], false;
    }

    method NewClient(pid: int, uid: int) returns (err: Error)
      requires Valid()
      modifies this
      ensures Valid() && settings == old(settings)
      ensures err == if Has(old(apps), uid) then InvalidParameter else NoError
      ensures apps == if Has(old(apps), uid) then old(apps) else Append(old(apps), uid, NewRec(pid))
    {
      var index := Search(apps, uid);
      if index != -1 {
        return InvalidParameter;
      }
      apps := Append(apps, uid, AppRec(pid, 0, Ready, [], []));
      return NoError;
    }

    method DeleteClient(uid: int) returns (err: Error)
      requires Valid()
      modifies this
      ensures Valid() && settings == old(settings)
      ensures err == if Has(old(apps), uid) then NoError else InvalidParameter
      ensures apps == Delete(Clear(old(apps), uid), uid)
    {
      var index := Search(apps, uid);
      if index < 0 {
        return InvalidParameter;
      }
      var _ := ClearData(uid);
      assert Find(apps, uid) == index by { SameUids(old(apps), apps); }
      apps := apps[..index] + apps[index + 1..];
      return NoError;
    }

    method ClientCount() returns (n: nat)
      ensures n == |apps| + |settings|
    {
      return |apps| + |settings|;
    }

    method AddSpeakData(uid: int, sd: SpeakData) returns (err: Error)
      requires Valid()
      modifies this
      ensures Valid() && settings == old(settings)
      ensures err == if Has(old(apps), uid) then NoError else InvalidParameter
      ensures apps == AddText(old(apps), uid, sd)
    {
      var index := Search(apps, uid);
      if index < 0 {
        return InvalidParameter;
      }
      var a := apps[index].rec;
      a := a.(speak := a.speak + [sd]);
      if sd.uttId == 1 {
        a := a.(stopped := 0);
      }
      apps := Set(apps, uid, a);
      return NoError;
    }

    /** Take the oldest text of a client. */
    method GetSpeakData(uid: int) returns (r: Option<SpeakData>)
      requires Valid()
      modifies this
      ensures Valid() && settings == old(settings)
      ensures r.None? <==> Texts(old(apps), uid) == []
      ensures r.None? ==> apps == old(apps)
      ensures r.Some? ==> r.value == Texts(old(apps), uid)[0] && apps == DropText(old(apps), uid)
    {
      var index := Search(apps, uid);
      if index < 0 {
        return None;
      }
      var a := apps[index].rec;
      if |a.speak| == 0 {
        return None;
      }
      r := Some(a.speak[0]);
      apps := Set(apps, uid, a.(speak := a.speak[1..]));
    }

    method AddSoundData(uid: int, sd: SoundData) returns (err: Error)
      requires Valid()
      modifies this
      ensures Valid() && settings == old(settings)
      ensures err == if Has(old(apps), uid) then NoError else InvalidParameter
      ensures apps == AddSound(old(apps), uid, sd)
    {
      var index := Search(apps, uid);
      if index < 0 {
        return InvalidParameter;
      }
      var a := apps[index].rec;
      apps := Set(apps, uid, a.(sound := a.sound + [sd]));
      return NoError;
    }

    /** Take the oldest chunk of a client. */
    method GetSoundData(uid: int) returns (r: Option<SoundData>)
      requires Valid()
      modifies this
      ensures Valid() && settings == old(settings)
      ensures r.None? <==> Sounds(old(apps), uid) == []
      ensures r.None? ==> apps == old(apps)
      ensures r.Some? ==> r.value == Sounds(old(apps), uid)[0] && apps == DropSound(old(apps), uid)
    {
      var index := Search(apps, uid);
      if index < 0 {
        return None;
      }
      var a := apps[index].rec;
      if |a.sound| == 0 {
        return None;
      }
      r := Some(a.sound[0]);
      apps := Set(apps, uid, a.(sound := a.sound[1..]));
    }

    /** Drain both queues, remembering the id of the last text removed. */
    method ClearData(uid: int) returns (err: Error)
      requires Valid()
      modifies this
      ensures Valid() && settings == old(settings)
      ensures err == if Has(old(apps), uid) then NoError else InvalidParameter
      ensures apps == Clear(old(apps), uid)
    {
      var index := Search(apps, uid);
      if index < 0 {
        return InvalidParameter;
      }
      ghost var was, a := apps, apps[index].rec;
      var removedLast := DrainTexts(uid);
      FindSet(was, uid, a.(speak := []));
      ghost var b := a.(speak := []);
      if removedLast != -1 {
        b := b.(stopped := removedLast);
        SetTwice(was, uid, a.(speak := []), b);
        apps := Set(apps, uid, apps[index].rec.(stopped := removedLast));
      }
      assert apps == Set(was, uid, b) && b.(sound := []) == Drained(a);
      DrainSounds(uid);
      SetTwice(was, uid, b, b.(sound := []));
      return NoError;
    }

    method DrainTexts(uid: int) returns (removedLast: int)
      requires Valid() && Has(apps, uid)
      modifies this
      ensures Valid() && settings == old(settings)
      ensures apps == Set(old(apps), uid, Get(old(apps), uid).value.(speak := []))
      ensures removedLast == var q := Texts(old(apps), uid); if q == [] then -1 else Last(q).uttId
    {
      ghost var was, a, n := apps, Get(apps, uid).value, 0;
      removedLast := -1;
      assert Set(was, uid, a.(speak := a.speak[0..])) == was;
      while true
        invariant Valid() && settings == old(settings)
        invariant 0 <= n <= |a.speak| && apps == Set(was, uid, a.(speak := a.speak[n..]))
        invariant removedLast == if n == 0 then -1 else a.speak[n - 1].uttId
        decreases |a.speak| - n
      {
        var temp := GetSpeakData(uid);
        if temp.None? {
          break;
        }
        removedLast := temp.value.uttId;
        SetTwice(was, uid, a.(speak := a.speak[n..]), a.(speak := a.speak[n + 1..]));
        assert a.speak[n..][1..] == a.speak[n + 1..];
        n := n + 1;
      }
    }

    method DrainSounds(uid: int)
      requires Valid() && Has(apps, uid)
      modifies this
      ensures Valid() && settings == old(settings)
      ensures apps == Set(old(apps), uid, Get(old(apps), uid).value.(sound := []))
    {
      ghost var was, a, n := apps, Get(apps, uid).value, 0;
      assert Set(was, uid, a.(sound := a.sound[0..])) == was;
      while true
        invariant Valid() && settings == old(settings)
        invariant 0 <= n <= |a.sound| && apps == Set(was, uid, a.(sound := a.sound[n..]))
        decreases |a.sound| - n
      {
        var temp := GetSoundData(uid);
        if temp.None? {
          break;
        }
        SetTwice(was, uid, a.(sound := a.sound[n..]), a.(sound := a.sound[n + 1..]));
        assert a.sound[n..][1..] == a.sound[n + 1..];
        n := n + 1;
      }
    }

    method GetClientState(uid: int) returns (st: Option<AppState>)
      ensures st == StateOf(apps, uid)
    {
      var index := Search(apps, uid);
      return if index < 0 then None else Some(apps[index].rec.state);
    }

    /** The error code for an unknown client reads as true. */
    method IsUttIdValid(uid: int, uttId: int) returns (r: bool)
      ensures r == UttIdValid(apps, uid, uttId)
    {
      var index := Search(apps, uid);
      if index < 0 {
        return true;
      }
      return !(uttId < apps[index].rec.stopped);
    }

    method SetClientState(uid: int, st: AppState) returns (err: Error)
      requires Valid()
      modifies this
      ensures Valid() && settings == old(settings)
      ensures err == NoError <==> MaySetState(old(apps), uid, st)
      ensures apps == if MaySetState(old(apps), uid, st) then WithState(old(apps), uid, st) else old(apps)
    {
      var index := Search(apps, uid);
      if index < 0 {
        return InvalidParameter;
      }
      assert !mutexState;  // the source spins here while the flag is up
      mutexState := true;
      if st == Playing {
        var playing := ScanPlaying();
        if playing != -1 {
          mutexState := false;
          return OperationFailed;
        }
      }
      apps := Set(apps, uid, apps[index].rec.(state := st));
      mutexState := false;
      return NoError;
    }

    method ScanPlaying() returns (r: int)
      ensures r == FirstPlaying(apps)
    {
      var i := 0;
      while i < |apps|
        invariant 0 <= i <= |apps|
        invariant forall k | 0 <= k < i :: apps[k].rec.state != Playing
      {
        if apps[i].rec.state == Playing {
          return i;
        }
        i := i + 1;
      }
      return -1;
    }

    method GetCurrentPlaying() returns (uid: int)
      ensures uid == CurrentPlaying(apps)
    {
      var i := ScanPlaying();
      return if i == -1 then -1 else apps[i].uid;
    }

    method SettingAdd(pid: int) returns (err: Error)
      requires Valid()
      modifies this
      ensures Valid() && apps == old(apps)
      ensures err == if pid in old(settings) then InvalidParameter else NoError
      ensures settings == if pid in old(settings) then old(settings) else old(settings) + [pid]
    {
      var index := SettingIndex(pid);
      if index != -1 {
        return InvalidParameter;
      }
      settings := settings + [pid];
      return NoError;
    }

    method SettingDelete(pid: int) returns (err: Error)
      requires Valid()
      modifies this
      ensures Valid() && apps == old(apps)
      ensures err == if pid in old(settings) then NoError else InvalidParameter
      ensures settings == Without(old(settings), pid)
    {
      var index := SettingIndex(pid);
      if index < 0 {
        WithoutIs(settings, pid, |settings|);
        return InvalidParameter;
      }
      WithoutIs(settings, pid, index);
      settings := settings[..index] + settings[index + 1..];
      return NoError;
    }

    method SettingIndex(pid: int) returns (r: int)
      ensures -1 <= r < |settings|
      ensures r == -1 ==> pid !in settings
      ensures 0 <= r ==> settings[r] == pid && pid !in settings[..r]
    {
      var i := 0;
      while i < |settings|
        invariant 0 <= i <= |settings|
        invariant pid !in settings[..i]
      {
        if settings[i] == pid {
          return i;
        }
        i := i + 1;
      }
      return -1;
    }
  }
}
