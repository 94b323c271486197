/** client/tts_client.c: the process's counter and list of handles, and lookups by handle and by uid. */
module ClientHandles {
  import opened Types
  import opened Tables
  import opened ClientSpec
  import opened HandleIds

  class HandleList {
    const pid: nat
    var lastHandle: int
    var list: Clients              // a handle's number is its uid
    ghost var created: nat
    ghost var stamps: seq<nat>

    ghost predicate Valid()
      reads this
    {
      lastHandle == Allocated(created) && Stamped(list, stamps, pid, created)
    }

    constructor (pid: nat)
      ensures Valid() && this.pid == pid && list == [] && created == 0
    {
      this.pid := pid;
      lastHandle, list, created, stamps := 0, [], 0, [];
    }

    method GenerateUid() returns (uid: int)
      modifies this`lastHandle
      ensures lastHandle == NextHandle(old(lastHandle)) && uid == Uid(pid, lastHandle)
    {
      lastHandle := lastHandle + 1;
      if lastHandle > MAX_HANDLE {
        lastHandle := 1;
      }
      return pid * 1000 + lastHandle;
    }

    /** While fewer than 999 handles are created after any live one, the new uid is nobody else's. */
    method NewHandle() returns (uid: int)
      requires Valid()
      modifies this
      ensures Valid() && created == old(created) + 1 && uid == UidOf(pid, created)
      ensures list == old(list) + [Entry(uid, NewLocal)] && stamps == old(stamps) + [created]
      ensures Recent(stamps, created) ==> !Has(old(list), uid)
    {
      uid := GenerateUid();
      CreationStamps(list, stamps, pid, created);
      list := list + [Entry(uid, NewLocal)];
      created := created + 1;
      stamps := stamps + [created];
      if Recent(stamps, created) {
        RecentAreUnique(list, stamps, pid, created);
        assert forall k | 0 <= k < |old(list)| :: list[k] == old(list)[k] && list[k].uid != list[|list| - 1].uid;
      }
    }

    method DestroyHandle(handle: int) returns (ok: bool)
      requires Valid()
      modifies this
      ensures Valid() && list == Delete(old(list), handle) && ok == Has(old(list), handle)
      ensures created == old(created) && (Recent(old(stamps), created) ==> Recent(stamps, created))
    {
      var i := Search(list, handle);
      if i == -1 {
        return false;
      }
      RemovalStamps(list, stamps, pid, created, i);
      list := list[..i] + list[i + 1..];
      stamps := stamps[..i] + stamps[i + 1..];
      return true;
    }

    method GetByHandle(handle: int) returns (r: Option<Local>)
      ensures r == Get(list, handle)
    {
      var i := Search(list, handle);
      return if i == -1 then None else Some(list[i].rec);
    }

    /** Negative uids are rejected; no listed one is negative, so the two lookups agree. */
    method GetByUid(uid: int) returns (r: Option<Local>)
      requires Valid()
      ensures r == Get(list, uid)
    {
      if uid < 0 {
        NoNegativeUid(uid);
        return None;
      }
      var i := Search(list, uid);
      return if i == -1 then None else Some(list[i].rec);
    }

    lemma NoNegativeUid(uid: int)
      requires Valid() && uid < 0
      ensures Get(list, uid) == None
    {
      var i := Find(list, uid);
      if i != -1 {
        AllocatedIs(stamps[i]);
      }
    }
  }
}
