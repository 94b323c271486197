/** One sequence inside another, in order: what is left of a history when parts of it are dropped. */
module Subsequences {
  import opened Types

  function Front<T>(s: seq<T>): seq<T>
    requires s != []
  {
    s[..|s| - 1]
  }

  predicate Within<T(==)>(a: seq<T>, b: seq<T>) {
    a == [] || (b != [] && ((Last(a) == Last(b) && Within(Front(a), Front(b))) || Within(a, Front(b))))
  }

  lemma {:induction false} WithinSelf<T>(a: seq<T>)
    ensures Within(a, a)
  {
    if a != [] { WithinSelf(Front(a)); }
  }

  /** The larger sequence may grow at the end, alone or together with the smaller. */
  lemma WithinAppend<T>(a: seq<T>, b: seq<T>, x: T)
    requires Within(a, b)
    ensures Within(a, b + [x]) && Within(a + [x], b + [x])
  {
    assert Front(a + [x]) == a && Front(b + [x]) == b;
  }

  lemma {:induction false} WithinTrans<T>(a: seq<T>, b: seq<T>, c: seq<T>)
    requires Within(a, b) && Within(b, c)
    ensures Within(a, c)
    decreases |a| + |b| + |c|
  {
    if a != [] && b != [] {
      if Last(b) == Last(c) && Within(Front(b), Front(c)) {
        if Last(a) == Last(b) && Within(Front(a), Front(b)) {
          WithinTrans(Front(a), Front(b), Front(c));
        } else {
          WithinTrans(a, Front(b), Front(c));
        }
      } else {
        WithinTrans(a, b, Front(c));
      }
    }
  }

  /** Dropping elements at the end. */
  lemma {:induction false} WithinPrefix<T>(a: seq<T>, b: seq<T>)
    ensures Within(a, a + b)
  {
    if b == [] {
      assert a + b == a;
      WithinSelf(a);
    } else {
      WithinPrefix(a, Front(b));
      assert Front(a + b) == a + Front(b);
    }
  }

  function Map<S, T>(f: S -> T, s: seq<S>): seq<T> {
    if s == [] then [] else Map(f, Front(s)) + [f(Last(s))]
  }

  lemma {:induction false} WithinMap<S, T>(f: S -> T, a: seq<S>, b: seq<S>)
    requires Within(a, b)
    ensures Within(Map(f, a), Map(f, b))
  {
    if a != [] {
      var ma, mb := Map(f, a), Map(f, b);
      assert Front(mb) == Map(f, Front(b)) && Front(ma) == Map(f, Front(a));
      if Last(a) == Last(b) && Within(Front(a), Front(b)) {
        WithinMap(f, Front(a), Front(b));
      } else {
        WithinMap(f, a, Front(b));
      }
    }
  }

  /** The elements that `f` keeps, as it changes them. */
  function Collect<S, T>(f: S -> Option<T>, s: seq<S>): seq<T> {
    if s == [] then []
    else match f(Last(s))
      case None => Collect(f, Front(s))
      case Some(x) => Collect(f, Front(s)) + [x]
  }
}
