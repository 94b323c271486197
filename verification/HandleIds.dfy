/**
 client/tts_client.c: how a process names its handles.  A uid is the process id followed
 by a three-digit handle number that runs from 1 to 999 and starts over.
 */
module HandleIds {
  import opened Tables
  import opened ClientSpec

  const MAX_HANDLE := 999

  function NextHandle(h: int): int {
    if h + 1 > MAX_HANDLE then 1 else h + 1
  }

  /** The handle number of the process's k-th creation, counting from 1; 0 before the first. */
  function Allocated(k: nat): int {
    if k == 0 then 0 else NextHandle(Allocated(k - 1))
  }

  function Uid(pid: int, handle: int): int {
    pid * 1000 + handle
  }

  /** The uid that creation `k` of process `pid` receives. */
  function UidOf(pid: int, k: nat): int {
    Uid(pid, Allocated(k))
  }

  lemma {:induction false} AllocatedIs(k: nat)
    ensures Allocated(k) == if k == 0 then 0 else (k - 1) % MAX_HANDLE + 1
  {
    if k > 0 {
      AllocatedIs(k - 1);
    }
  }

  /** Process and handle number can be read off a uid. */
  lemma UidDecodes(pid: int, handle: int)
    requires 1 <= handle <= MAX_HANDLE
    ensures Uid(pid, handle) / 1000 == pid && Uid(pid, handle) % 1000 == handle
  {
  }

  /** Two creations receive the same uid iff they are in one process, a multiple of 999 creations apart. */
  lemma CollisionsExactly(p: int, i: nat, q: int, j: nat)
    requires 1 <= i <= j
    ensures UidOf(p, i) == UidOf(q, j) <==> p == q && (j - i) % MAX_HANDLE == 0
  {
    AllocatedIs(i);
    AllocatedIs(j);
    UidDecodes(p, Allocated(i));
    UidDecodes(q, Allocated(j));
    SameRemainder(i - 1, j - 1, MAX_HANDLE);
  }

  lemma SameRemainder(a: nat, b: nat, n: nat)
    requires a <= b && n > 0
    ensures a % n == b % n <==> (b - a) % n == 0
  {
    var x, y := a / n, b / n;
    assert a == x * n + a % n && b == y * n + b % n;
    if a % n == b % n {
      assert b - a == (y - x) * n;
      MultipleIs(b - a, y - x, n);
    }
    if (b - a) % n == 0 {
      var z := (b - a) / n;
      assert b == (x + z) * n + a % n;
      QuotientIs(b, x + z, a % n, n);
    }
  }

  lemma MultipleIs(m: nat, k: int, n: nat)
    requires n > 0 && m == k * n
    ensures m % n == 0
  {
    QuotientIs(m, k, 0, n);
  }

  /** Quotient and remainder are unique. */
  lemma QuotientIs(m: nat, k: int, r: nat, n: nat)
    requires n > 0 && m == k * n + r && r < n
    ensures m % n == r
  {
    var d := m / n - k;
    assert d * n == r - m % n;
    OnlyZeroIsSmall(d, n);
  }

  lemma OnlyZeroIsSmall(d: int, n: int)
    requires -n < d * n < n
    ensures d == 0
  {
  }

  /** No uid of a process leaves the 32-bit range exactly for process ids up to 2147482. */
  lemma UidFitsExactly(pid: nat)
    ensures (forall h | 1 <= h <= MAX_HANDLE :: Uid(pid, h) <= 0x7fff_ffff) <==> pid <= 2147482
  {
    if pid > 2147482 {
      assert Uid(pid, MAX_HANDLE) > 0x7fff_ffff;
    }
  }

  // ----- the list of handles

  type Clients = seq<Entry<Local>>

  /** The listed handles, each with the number of its creation. */
  ghost predicate Stamped(list: Clients, stamps: seq<nat>, pid: int, created: nat) {
    && |stamps| == |list|
    && (forall i | 0 <= i < |list| :: 1 <= stamps[i] <= created && list[i].uid == UidOf(pid, stamps[i]))
    && forall i, j | 0 <= i < j < |list| :: stamps[i] < stamps[j]
  }

  /** Every live handle was among the last 999 created. */
  predicate Recent(stamps: seq<nat>, created: nat) {
    forall i | 0 <= i < |stamps| :: created - stamps[i] < MAX_HANDLE
  }

  /** Uids of live handles are distinct iff no two were created a multiple of 999 apart. */
  lemma UniqueExactly(list: Clients, stamps: seq<nat>, pid: int, created: nat)
    requires Stamped(list, stamps, pid, created)
    ensures Unique(list) <==> forall i, j | 0 <= i < j < |stamps| :: (stamps[j] - stamps[i]) % MAX_HANDLE != 0
  {
    hide UidOf;
    forall i, j | 0 <= i < j < |stamps| ensures list[i].uid == list[j].uid <==> (stamps[j] - stamps[i]) % MAX_HANDLE == 0 {
      CollisionsExactly(pid, stamps[i], pid, stamps[j]);
    }
  }

  lemma RecentAreUnique(list: Clients, stamps: seq<nat>, pid: int, created: nat)
    requires Stamped(list, stamps, pid, created) && Recent(stamps, created)
    ensures Unique(list)
  {
    UniqueExactly(list, stamps, pid, created);
    forall i, j | 0 <= i < j < |stamps| ensures (stamps[j] - stamps[i]) % MAX_HANDLE != 0 {
      assert 0 < stamps[j] - stamps[i] < MAX_HANDLE;
    }
  }

  /** One creation and one removal keep the books. */
  lemma CreationStamps(list: Clients, stamps: seq<nat>, pid: int, created: nat)
    requires Stamped(list, stamps, pid, created)
    ensures Stamped(list + [Entry(UidOf(pid, created + 1), NewLocal)], stamps + [created + 1], pid, created + 1)
  {
    hide UidOf;
  }

  lemma RemovalStamps(list: Clients, stamps: seq<nat>, pid: int, created: nat, i: nat)
    requires Stamped(list, stamps, pid, created) && i < |list|
    ensures Stamped(list[..i] + list[i + 1..], stamps[..i] + stamps[i + 1..], pid, created)
  {
    hide UidOf;
    var l, s := list[..i] + list[i + 1..], stamps[..i] + stamps[i + 1..];
    assert forall k | 0 <= k < |l| :: l[k] == list[if k < i then k else k + 1] && s[k] == stamps[if k < i then k else k + 1];
  }
}
