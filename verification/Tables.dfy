/**
 The daemon and the client library keep their records in lists that are searched
 from the front for a uid.  This module is the theory of such a list: `Get` is its
 reading as a partial map, and every update is described by what `Get` returns.
 */
module Tables {
  import opened Types

  datatype Entry<+T> = Entry(uid: int, rec: T)

  /** Index of the first entry for `uid`, or -1. */
  function Find<T>(xs: seq<Entry<T>>, uid: int): (r: int)
    ensures -1 <= r < |xs|
    ensures 0 <= r ==> xs[r].uid == uid && forall k | 0 <= k < r :: xs[k].uid != uid
    ensures r == -1 ==> forall k | 0 <= k < |xs| :: xs[k].uid != uid
  {
    if xs == [] then -1
    else if xs[0].uid == uid then 0
    else
      var r := Find(xs[1..], uid);
      if r == -1 then -1 else r + 1
  }

  function Get<T>(xs: seq<Entry<T>>, uid: int): Option<T> {
    var i := Find(xs, uid);
    if i == -1 then None else Some(xs[i].rec)
  }

  predicate Has<T>(xs: seq<Entry<T>>, uid: int) {
    Get(xs, uid).Some?
  }

  /** No two entries share a uid. */
  ghost predicate Unique<T>(xs: seq<Entry<T>>) {
    forall i, j | 0 <= i < j < |xs| :: xs[i].uid != xs[j].uid
  }

  /** Overwrite the record of a listed uid in place. */
  function Set<T>(xs: seq<Entry<T>>, uid: int, rec: T): (r: seq<Entry<T>>)
    ensures |r| == |xs|
    ensures forall k | 0 <= k < |xs| :: r[k].uid == xs[k].uid
    ensures Unique(xs) ==> Unique(r)
    ensures forall v :: Get(r, v) == if v == uid && Has(xs, v) then Some(rec) else Get(xs, v)
  {
    var i := Find(xs, uid);
    if i == -1 then xs else
      var r := xs[i := Entry(uid, rec)];
      assert forall v :: Find(r, v) == Find(xs, v) by { SameUids(xs, r); }
      r
  }

  function Append<T>(xs: seq<Entry<T>>, uid: int, rec: T): (r: seq<Entry<T>>)
    ensures Unique(xs) && !Has(xs, uid) ==> Unique(r)
    ensures forall v :: Get(r, v) == if v == uid && !Has(xs, v) then Some(rec) else Get(xs, v)
  {
    var r := xs + [Entry(uid, rec)];
    assert forall v :: Find(r, v) == if Find(xs, v) == -1 && v == uid then |xs| else Find(xs, v) by {
      forall v ensures Find(r, v) == if Find(xs, v) == -1 && v == uid then |xs| else Find(xs, v) {
        FindAppend(xs, uid, rec, v);
      }
    }
    r
  }

  /** Erase the first entry for a uid. */
  function Delete<T>(xs: seq<Entry<T>>, uid: int): (r: seq<Entry<T>>)
    ensures |r| == |xs| - if Has(xs, uid) then 1 else 0
  {
    var i := Find(xs, uid);
    if i == -1 then xs else xs[..i] + xs[i + 1..]
  }

  lemma SameUids<T>(xs: seq<Entry<T>>, ys: seq<Entry<T>>)
    requires |xs| == |ys| && forall k | 0 <= k < |xs| :: xs[k].uid == ys[k].uid
    ensures forall v :: Find(xs, v) == Find(ys, v)
  {
    forall v ensures Find(xs, v) == Find(ys, v) {
      var i, j := Find(xs, v), Find(ys, v);
      if i != -1 { assert ys[i].uid == v; }
      if j != -1 { assert xs[j].uid == v; }
    }
  }

  lemma FindAppend<T>(xs: seq<Entry<T>>, uid: int, rec: T, v: int)
    ensures Find(xs + [Entry(uid, rec)], v) == if Find(xs, v) == -1 && v == uid then |xs| else Find(xs, v)
  {
    var r := xs + [Entry(uid, rec)];
    var i, j := Find(xs, v), Find(r, v);
    if i != -1 { assert r[i].uid == v; }
    if j != -1 && j < |xs| { assert xs[j].uid == v; }
    if v == uid { assert r[|xs|].uid == v; }
  }

  /** With unique uids, erasing an entry removes that uid and no other. */
  lemma GetDelete<T>(xs: seq<Entry<T>>, uid: int)
    requires Unique(xs)
    ensures Unique(Delete(xs, uid))
    ensures forall v :: Get(Delete(xs, uid), v) == if v == uid then None else Get(xs, v)
  {
    var i, r := Find(xs, uid), Delete(xs, uid);
    if i != -1 {
      assert forall k | 0 <= k < |r| :: r[k] == xs[if k < i then k else k + 1];
      forall v ensures Get(r, v) == if v == uid then None else Get(xs, v) {
        var a, b := Find(xs, v), Find(r, v);
        if b != -1 { assert xs[if b < i then b else b + 1].uid == v; }
        if a != -1 && a != i { assert r[if a < i then a else a - 1].uid == v; }
      }
    }
  }

  /** The index of a listed uid can be replaced by the entry itself when uids are unique. */
  lemma FindIs<T>(xs: seq<Entry<T>>, i: nat)
    requires Unique(xs) && i < |xs|
    ensures Find(xs, xs[i].uid) == i && Get(xs, xs[i].uid) == Some(xs[i].rec)
  {
    var j := Find(xs, xs[i].uid);
  }

  lemma FindSet<T>(xs: seq<Entry<T>>, uid: int, rec: T)
    ensures forall v :: Find(Set(xs, uid, rec), v) == Find(xs, v)
  {
    SameUids(xs, Set(xs, uid, rec));
  }

  /** The later of two overwrites wins. */
  lemma SetTwice<T>(xs: seq<Entry<T>>, uid: int, a: T, b: T)
    ensures Set(Set(xs, uid, a), uid, b) == Set(xs, uid, b)
  {
    FindSet(xs, uid, a);
  }

  /** The list as a map. */
  ghost function View<T>(xs: seq<Entry<T>>): map<int, T> {
    map i | 0 <= i < |xs| && Find(xs, xs[i].uid) == i :: xs[i].uid := xs[i].rec
  }

  lemma ViewIsGet<T>(xs: seq<Entry<T>>)
    ensures forall u :: u in View(xs) <==> Has(xs, u)
    ensures forall u | u in View(xs) :: Get(xs, u) == Some(View(xs)[u])
  {
    forall u ensures u in View(xs) <==> Has(xs, u) {
      var i := Find(xs, u);
      if i != -1 {
        assert Find(xs, xs[i].uid) == i;
      }
    }
  }

  /** A map with the list's keys and values is the list's view. */
  lemma ViewIs<T>(xs: seq<Entry<T>>, m: map<int, T>)
    requires forall u :: Get(xs, u) == if u in m then Some(m[u]) else None
    ensures View(xs) == m
  {
    ViewIsGet(xs);
    assert forall u :: u in m ==> Get(xs, u) == Some(m[u]);
    forall u ensures u in View(xs) <==> u in m {
      assert Get(xs, u) == if u in m then Some(m[u]) else None;
    }
  }

  /** The list with unique uids behaves as a map: appending, overwriting and erasing are the map's own updates. */
  lemma AppendRefinesMap<T>(xs: seq<Entry<T>>, uid: int, rec: T)
    requires !Has(xs, uid)
    ensures View(Append(xs, uid, rec)) == View(xs)[uid := rec]
  {
    var ys, m := Append(xs, uid, rec), View(xs)[uid := rec];
    forall u ensures Get(ys, u) == if u in m then Some(m[u]) else None {
      ViewIsGet(xs);
    }
    ViewIs(ys, m);
  }

  lemma SetRefinesMap<T>(xs: seq<Entry<T>>, uid: int, rec: T)
    requires Has(xs, uid)
    ensures View(Set(xs, uid, rec)) == View(xs)[uid := rec]
  {
    var ys, m := Set(xs, uid, rec), View(xs)[uid := rec];
    forall u ensures Get(ys, u) == if u in m then Some(m[u]) else None {
      ViewIsGet(xs);
    }
    ViewIs(ys, m);
  }

  lemma DeleteRefinesMap<T>(xs: seq<Entry<T>>, uid: int)
    requires Unique(xs)
    ensures View(Delete(xs, uid)) == View(xs) - {uid}
  {
    var ys, m := Delete(xs, uid), View(xs) - {uid};
    forall u ensures Get(ys, u) == if u in m then Some(m[u]) else None {
      ViewIsGet(xs);
      GetDelete(xs, uid);
    }
    ViewIs(ys, m);
  }

  lemma {:induction false} ViewSize<T>(xs: seq<Entry<T>>)
    requires Unique(xs)
    ensures |View(xs)| == |xs|
  {
    hide View, Find;
    if xs == [] {
      ViewOfNone<T>();
    } else {
      ViewSize(xs[1..]);
      ViewKeys(xs);
      assert |View(xs).Keys| == |View(xs[1..]).Keys| + 1;
    }
  }

  lemma ViewOfNone<T>()
    ensures View<T>([]) == map[]
  {
  }

  /** The first uid is one more key. */
  lemma ViewKeys<T>(xs: seq<Entry<T>>)
    requires Unique(xs) && xs != []
    ensures View(xs).Keys == View(xs[1..]).Keys + {xs[0].uid} && xs[0].uid !in View(xs[1..]).Keys
  {
    hide View;
    var u := xs[0].uid;
    assert Find(xs, u) == 0 && Delete(xs, u) == xs[1..];
    GetDelete(xs, u);
    ViewIsGet(xs);
    ViewIsGet(xs[1..]);
    forall v ensures v in View(xs).Keys <==> v in View(xs[1..]).Keys + {u} {
      assert v in View(xs) <==> Has(xs, v);
      assert v in View(xs[1..]) <==> Has(xs[1..], v);
    }
  }

  /** A search from the front, as every list of the program does it. */
  method Search<T>(xs: seq<Entry<T>>, uid: int) returns (r: int)
    ensures r == Find(xs, uid)
  {
    var i := 0;
    while i < |xs|
      invariant 0 <= i <= |xs|
      invariant forall k | 0 <= k < i :: xs[k].uid != uid
    {
      if xs[i].uid == uid {
        return i;
      }
      i := i + 1;
    }
    return -1;
  }
}
