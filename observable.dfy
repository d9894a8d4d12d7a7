/**
 * The generic subject of the observer pattern: `Observable<T>` keeps a list of
 * non-owning observer handles, appends to it on `subscribe`, removes every
 * matching handle on `unsubscribe` (erase–remove) and calls each entry once,
 * in list order, on `notify`.
 *
 * An observer is modelled as an object of class `Observer`: Dafny compares
 * references by identity, which is exactly the pointer comparison the
 * original does. What an observer's `field_changed` callback does is not
 * modelled; `Notify` returns the sequence of calls it makes instead.
 */
module Observers {

  /** An observer handle; its identity is the only thing the subject uses. */
  class Observer<S> {
    constructor () {}
  }

  /** One `field_changed(source, field)` call made on `observer`. */
  datatype Call<S> = Call(observer: Observer<S>, source: S, field: string)

  // ---------------------------------------------------------------------
  // Reference definitions
  // ---------------------------------------------------------------------

  /** The calls a notification makes: one per list entry, in list order. */
  function Fanout<S>(observers: seq<Observer<S>>, source: S, field: string): seq<Call<S>>
  {
    if observers == [] then []
    else [Call(observers[0], source, field)] + Fanout(observers[1..], source, field)
  }

  /** Number of calls in `calls` that go to observer `o`. */
  function CallsTo<S>(calls: seq<Call<S>>, o: Observer<S>): nat
  {
    if calls == [] then 0
    else (if calls[0].observer == o then 1 else 0) + CallsTo(calls[1..], o)
  }

  /** `s` with every entry equal to `x` dropped, the others kept in order. */
  function Without<T(==)>(s: seq<T>, x: T): seq<T>
  {
    if s == [] then []
    else if s[0] == x then Without(s[1..], x)
    else [s[0]] + Without(s[1..], x)
  }

  /** `r` can be obtained from `s` by deleting entries (order is kept). */
  predicate IsSubsequence<T(==)>(r: seq<T>, s: seq<T>)
    decreases |s|
  {
    if r == [] then true
    else if s == [] then false
    else (r[0] == s[0] && IsSubsequence(r[1..], s[1..])) || IsSubsequence(r, s[1..])
  }

  // ---------------------------------------------------------------------
  // Properties of a notification
  // ---------------------------------------------------------------------

  /** Notifying the observers of `a + b` is notifying those of `a`, then those of `b`. */
  lemma {:induction false} FanoutConcat<S>(a: seq<Observer<S>>, b: seq<Observer<S>>, source: S, field: string)
    ensures Fanout(a + b, source, field) == Fanout(a, source, field) + Fanout(b, source, field)
    decreases |a|
  {
    if a != [] {
      assert (a + b)[1..] == a[1..] + b;
      FanoutConcat(a[1..], b, source, field);
    } else {
      assert a + b == b;
    }
  }

  /** The i-th call goes to the i-th entry, with the same source and field name for all. */
  lemma {:induction false} FanoutAt<S>(observers: seq<Observer<S>>, source: S, field: string, i: nat)
    requires i < |observers|
    ensures |Fanout(observers, source, field)| == |observers|
    ensures Fanout(observers, source, field)[i] == Call(observers[i], source, field)
    decreases |observers|
  {
    if i == 0 {
      FanoutLength(observers[1..], source, field);
    } else {
      FanoutAt(observers[1..], source, field, i - 1);
    }
  }

  /** A notification makes exactly one call per list entry. */
  lemma {:induction false} FanoutLength<S>(observers: seq<Observer<S>>, source: S, field: string)
    ensures |Fanout(observers, source, field)| == |observers|
    decreases |observers|
  {
    if observers != [] {
      FanoutLength(observers[1..], source, field);
    }
  }

  /**
   * An observer is called exactly as many times as it occurs in the list:
   * there is no deduplication.
   */
  lemma {:induction false} CallsToFanout<S>(observers: seq<Observer<S>>, source: S, field: string, o: Observer<S>)
    ensures CallsTo(Fanout(observers, source, field), o) == multiset(observers)[o]
    decreases |observers|
  {
    if observers != [] {
      assert observers == [observers[0]] + observers[1..];
      assert multiset(observers) == multiset{observers[0]} + multiset(observers[1..]);
      CallsToFanout(observers[1..], source, field, o);
    }
  }

  /** Subscribing `o` twice makes every later notification call it two more times. */
  lemma DoubleSubscribeCallsTwice<S>(observers: seq<Observer<S>>, o: Observer<S>, source: S, field: string)
    ensures CallsTo(Fanout(observers + [o] + [o], source, field), o)
         == CallsTo(Fanout(observers, source, field), o) + 2
  {
    CallsToFanout(observers + [o] + [o], source, field, o);
    CallsToFanout(observers, source, field, o);
    assert multiset(observers + [o] + [o]) == multiset(observers) + multiset{o, o};
  }

  // ---------------------------------------------------------------------
  // Properties of erase–remove
  // ---------------------------------------------------------------------

  /** Removal distributes over concatenation. */
  lemma {:induction false} WithoutConcat<T>(a: seq<T>, b: seq<T>, x: T)
    ensures Without(a + b, x) == Without(a, x) + Without(b, x)
    decreases |a|
  {
    if a != [] {
      assert (a + b)[1..] == a[1..] + b;
      WithoutConcat(a[1..], b, x);
    } else {
      assert a + b == b;
    }
  }

  /** An entry survives removal exactly when it was there and is not the removed handle. */
  lemma {:induction false} WithoutMembers<T>(s: seq<T>, x: T, y: T)
    ensures y in Without(s, x) <==> y in s && y != x
    decreases |s|
  {
    if s != [] {
      WithoutMembers(s[1..], x, y);
      assert y in s <==> y == s[0] || y in s[1..];
    }
  }

  /** Removal drops all occurrences of the handle and no occurrence of any other. */
  lemma {:induction false} WithoutCounts<T>(s: seq<T>, x: T)
    ensures multiset(Without(s, x)) == multiset(s)[x := 0]
    decreases |s|
  {
    if s != [] {
      WithoutCounts(s[1..], x);
      assert s == [s[0]] + s[1..];
      assert multiset(s) == multiset{s[0]} + multiset(s[1..]);
    }
  }

  /** Removal is stable: what is left is a subsequence of the original list. */
  lemma {:induction false} WithoutIsSubsequence<T>(s: seq<T>, x: T)
    ensures IsSubsequence(Without(s, x), s)
    decreases |s|
  {
    if s != [] {
      WithoutIsSubsequence(s[1..], x);
      if s[0] != x {
        assert Without(s, x)[1..] == Without(s[1..], x);
      }
    }
  }

  /** Removing a handle that is not in the list leaves the list as it was. */
  lemma {:induction false} WithoutAbsent<T>(s: seq<T>, x: T)
    requires x !in s
    ensures Without(s, x) == s
    decreases |s|
  {
    if s != [] {
      assert x !in s[1..];
      WithoutAbsent(s[1..], x);
      assert s == [s[0]] + s[1..];
    }
  }

  /** Removing twice removes nothing more. */
  lemma {:induction false} WithoutIdempotent<T>(s: seq<T>, x: T)
    ensures Without(Without(s, x), x) == Without(s, x)
  {
    WithoutMembers(s, x, x);
    WithoutAbsent(Without(s, x), x);
  }

  /** A subsequence holds no entry more often than the sequence it was taken from. */
  lemma {:induction false} SubsequenceCounts<T>(r: seq<T>, s: seq<T>)
    requires IsSubsequence(r, s)
    ensures multiset(r) <= multiset(s)
    decreases |s|
  {
    if r != [] {
      assert s == [s[0]] + s[1..];
      assert multiset(s) == multiset{s[0]} + multiset(s[1..]);
      if r[0] == s[0] && IsSubsequence(r[1..], s[1..]) {
        SubsequenceCounts(r[1..], s[1..]);
        assert r == [r[0]] + r[1..];
        assert multiset(r) == multiset{r[0]} + multiset(r[1..]);
      } else {
        SubsequenceCounts(r, s[1..]);
      }
    }
  }

  /**
   * Erase–remove is the only stable way of dropping every `x`: a subsequence
   * of `s` that keeps every entry other than `x` as often as `s` has it, and
   * no `x`, is `Without(s, x)`.
   */
  lemma {:induction false} WithoutUnique<T>(r: seq<T>, s: seq<T>, x: T)
    requires IsSubsequence(r, s)
    requires multiset(r) == multiset(s)[x := 0]
    ensures r == Without(s, x)
    decreases |s|
  {
    if s == [] {
      assert r == [];
    } else {
      var h, t := s[0], s[1..];
      assert s == [h] + t;
      assert multiset(s) == multiset{h} + multiset(t);
      if h == x {
        assert multiset(t)[x := 0] == multiset(s)[x := 0];
        if r != [] {
          assert r[0] in multiset(r);
          assert r[0] != x;
          assert IsSubsequence(r, t);
        }
        WithoutUnique(r, t, x);
      } else {
        assert multiset(s)[x := 0] == multiset{h} + multiset(t)[x := 0];
        assert multiset(r)[h] == multiset(t)[h] + 1;
        assert r != [];
        assert r == [r[0]] + r[1..];
        assert multiset(r) == multiset{r[0]} + multiset(r[1..]);
        if r[0] == h && IsSubsequence(r[1..], t) {
          calc {
            multiset(r[1..]);
            multiset(r) - multiset{h};
            (multiset{h} + multiset(t)[x := 0]) - multiset{h};
            multiset(t)[x := 0];
          }
          WithoutUnique(r[1..], t, x);
        } else {
          SubsequenceCounts(r, t);
          assert false;
        }
      }
    }
  }

  /** Subscribing and then unsubscribing `o` removes it as if it had never been added. */
  lemma SubscribeThenUnsubscribe<T>(s: seq<T>, o: T)
    ensures Without(s + [o], o) == Without(s, o)
  {
    WithoutConcat(s, [o], o);
    assert Without([o], o) == [];
  }

  // ---------------------------------------------------------------------
  // The subject
  // ---------------------------------------------------------------------

  /** `Observable<T>`: the subscriber list and the three operations on it. */
  class Observable<S> {
    /** `mObservers`, in subscription order, duplicates allowed. */
    var observers: seq<Observer<S>>

    /** A new subject has no subscribers. */
    constructor ()
      ensures observers == []
    {
      observers := [];
    }

    /** `push_back`: the handle goes at the end, earlier entries stay where they were. */
    method Subscribe(o: Observer<S>)
      modifies this
      ensures observers == old(observers) + [o]
      ensures |observers| == |old(observers)| + 1
      ensures forall i :: 0 <= i < |old(observers)| ==> observers[i] == old(observers)[i]
    {
      observers := observers + [o];
    }

    /**
     * Erase–remove: `std::remove` moves every entry other than `o` forward
     * over the matches, keeping their order, and `erase` cuts off the tail.
     */
    method Unsubscribe(o: Observer<S>)
      modifies this
      ensures observers == Without(old(observers), o)
      ensures o !in observers
      ensures forall p :: p != o ==> multiset(observers)[p] == multiset(old(observers))[p]
      ensures IsSubsequence(observers, old(observers))
      ensures o !in old(observers) ==> observers == old(observers)
    {
      ghost var original := observers;
      var write := 0;
      var read := 0;
      while read < |observers|
        invariant |observers| == |original|
        invariant 0 <= write <= read <= |observers|
        invariant observers[..write] == Without(original[..read], o)
        invariant observers[read..] == original[read..]
      {
        assert observers[read] == original[read];
        assert original[..read + 1] == original[..read] + [original[read]];
        WithoutConcat(original[..read], [original[read]], o);
        if observers[read] != o {
          observers := observers[write := observers[read]];
          write := write + 1;
        }
        read := read + 1;
      }
      assert original[..read] == original;
      observers := observers[..write];
      WithoutMembers(original, o, o);
      WithoutCounts(original, o);
      WithoutIsSubsequence(original, o);
      if o !in original {
        WithoutAbsent(original, o);
      }
    }

    /**
     * Calls `field_changed(source, field)` on every entry, in list order;
     * the list itself is left alone.
     */
    method Notify(source: S, field: string) returns (calls: seq<Call<S>>)
      ensures calls == Fanout(observers, source, field)
      ensures |calls| == |observers|
      ensures forall i :: 0 <= i < |observers| ==> calls[i] == Call(observers[i], source, field)
    {
      calls := [];
      for i := 0 to |observers|
        invariant calls == Fanout(observers[..i], source, field)
      {
        assert observers[..i + 1] == observers[..i] + [observers[i]];
        FanoutConcat(observers[..i], [observers[i]], source, field);
        calls := calls + [Call(observers[i], source, field)];
      }
      assert observers[..|observers|] == observers;
      FanoutLength(observers, source, field);
      forall i | 0 <= i < |observers|
        ensures calls[i] == Call(observers[i], source, field)
      {
        FanoutAt(observers, source, field, i);
      }
    }
  }

  /**
   * A client: subscribing a, b, a and notifying calls a, b, a in that order;
   * after unsubscribing a, a notification calls only b.
   */
  method SubscribeNotifyUnsubscribe<S>(source: S)
    returns (a: Observer<S>, b: Observer<S>, before: seq<Call<S>>, after: seq<Call<S>>)
    ensures a != b
    ensures before == [Call(a, source, "value"), Call(b, source, "value"), Call(a, source, "value")]
    ensures after == [Call(b, source, "value")]
  {
    var subject := new Observable<S>();
    a := new Observer<S>();
    b := new Observer<S>();
    subject.Subscribe(a);
    subject.Subscribe(b);
    subject.Subscribe(a);
    before := subject.Notify(source, "value");
    subject.Unsubscribe(a);
    assert [a, b, a] == [a] + [b] + [a];
    assert [a, b, a][1..] == [b, a] && [b, a][1..] == [a] && [a][1..] == [];
    assert Without([a], a) == [];
    assert Without([b, a], a) == [b];
    assert Without([a, b, a], a) == [b];
    after := subject.Notify(source, "value");
  }
}
