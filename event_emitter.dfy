/** The engine's publish/subscribe core (`EventEmitter`): each event name maps
    to a JavaScript `Set` of listener functions, kept in insertion order.
    Listener functions are opaque here; a client callback is named by a handle
    of type `H`, and the wrapper closure that `once` creates is a listener of
    its own, told apart by a serial number (every closure is a new object). */
module EventEmitter {

  /** A member of an event's listener set. */
  datatype Listener<H> = Callback(handler: H) | OnceWrapper(serial: nat, target: H)

  predicate Distinct<T(==)>(s: seq<T>) {
    forall i, j :: 0 <= i < j < |s| ==> s[i] != s[j]
  }

  /** `Set.prototype.add`: appends `x` unless it is already present. */
  function Added<T(==,!new)>(s: seq<T>, x: T): (r: seq<T>)
    ensures forall y :: y in r <==> y in s || y == x
    ensures x in s ==> r == s
    ensures x !in s ==> r == s + [x]
    ensures Distinct(s) ==> Distinct(r)
  {
    if x in s then s else s + [x]
  }

  /** `Set.prototype.delete`: removes `x`, keeping the order of the rest. */
  function Without<T(==,!new)>(s: seq<T>, x: T): (r: seq<T>)
    ensures forall y :: y in r <==> y in s && y != x
    ensures x !in s ==> r == s
    ensures |r| <= |s|
    ensures Distinct(s) ==> Distinct(r)
    decreases |s|
  {
    if s == [] then []
    else if s[0] == x then Without(s[1..], x)
    else DistinctTail(s); [s[0]] + Without(s[1..], x)
  }

  lemma DistinctTail<T>(s: seq<T>)
    requires |s| > 0
    ensures Distinct(s) ==> Distinct(s[1..]) && s[0] !in s[1..]
  {
    if !Distinct(s) { return; }
    forall i, j | 0 <= i < j < |s[1..]| ensures s[1..][i] != s[1..][j] {
      assert s[1..][i] == s[i + 1] && s[1..][j] == s[j + 1];
    }
    forall k | 0 <= k < |s[1..]| ensures s[1..][k] != s[0] {
      assert s[1..][k] == s[k + 1];
    }
  }

  /** The listener set of `event`; a missing entry behaves as an empty set. */
  function Subscribers<H>(m: map<string, seq<Listener<H>>>, event: string): seq<Listener<H>> {
    if event in m then m[event] else []
  }

  /** Some once-wrapper for `h` is still live when `pending` is walked. */
  ghost predicate WrappedIn<H(!new)>(h: H, pending: seq<Listener<H>>, live: seq<Listener<H>>) {
    exists w :: w in pending && w in live && w.OnceWrapper? && w.target == h
  }

  /** One `emit`: `Set.prototype.forEach` visits the snapshot `pending` in
      order and skips members deleted meanwhile. A callback is invoked; a
      once-wrapper deletes itself and its target. The result is the handlers
      invoked, in order, and the set left behind. */
  function Fire<H(==,!new)>(pending: seq<Listener<H>>, live: seq<Listener<H>>): (r: (seq<H>, seq<Listener<H>>))
    ensures |r.0| <= |pending| && |r.1| <= |live|
    decreases |pending|
  {
    if pending == [] then ([], live)
    else if pending[0] !in live then Fire(pending[1..], live)
    else match pending[0]
      case Callback(h) =>
        var (calls, left) := Fire(pending[1..], live);
        ([h] + calls, left)
      case OnceWrapper(_, h) =>
        Fire(pending[1..], Without(Without(live, pending[0]), Callback(h)))
  }

  /** Exactly the members that no visited wrapper deletes survive an emit:
      live wrappers that are visited go, and so do their targets. */
  lemma {:induction false} FireSurvivors<H(!new)>(p: seq<Listener<H>>, live: seq<Listener<H>>, x: Listener<H>)
    ensures x in Fire(p, live).1 <==>
      x in live && !(x.OnceWrapper? && x in p) && !(x.Callback? && WrappedIn(x.handler, p, live))
    decreases |p|
  {
    if p != [] {
      var a, rest := p[0], p[1..];
      assert p == [a] + rest;
      if a !in live {
        FireSurvivors(rest, live, x);
        if x.Callback? && WrappedIn(x.handler, p, live) {
          var w :| w in p && w in live && w.OnceWrapper? && w.target == x.handler;
          assert w in rest;
        }
      } else if a.Callback? {
        FireSurvivors(rest, live, x);
        if x.Callback? && WrappedIn(x.handler, p, live) {
          var w :| w in p && w in live && w.OnceWrapper? && w.target == x.handler;
          assert w in rest;
        }
      } else {
        var live' := Without(Without(live, a), Callback(a.target));
        FireSurvivors(rest, live', x);
        if x.Callback? && x.handler != a.target {
          if WrappedIn(x.handler, p, live) {
            var w :| w in p && w in live && w.OnceWrapper? && w.target == x.handler;
            assert w in rest && w in live';
          }
          if WrappedIn(x.handler, rest, live') {
            var w :| w in rest && w in live' && w.OnceWrapper? && w.target == x.handler;
            assert w in p && w in live;
          }
        }
        if x.Callback? && x.handler == a.target {
          assert WrappedIn(x.handler, p, live) by { assert a in p && a in live; }
        }
      }
    }
  }

  /** Only registered callbacks that are still live are ever invoked. */
  lemma {:induction false} FireCallsRegistered<H(!new)>(p: seq<Listener<H>>, live: seq<Listener<H>>, h: H)
    ensures h in Fire(p, live).0 ==> Callback(h) in p && Callback(h) in live
    decreases |p|
  {
    if p != [] {
      var a, rest := p[0], p[1..];
      if a !in live {
        FireCallsRegistered(rest, live, h);
      } else if a.Callback? {
        FireCallsRegistered(rest, live, h);
      } else {
        FireCallsRegistered(rest, Without(Without(live, a), Callback(a.target)), h);
      }
    }
  }

  /** A callback is invoked at most as often as it occurs in the snapshot. */
  lemma {:induction false} FireCallCount<H(!new)>(p: seq<Listener<H>>, live: seq<Listener<H>>, h: H)
    ensures multiset(Fire(p, live).0)[h] <= multiset(p)[Callback(h)]
    decreases |p|
  {
    if p != [] {
      var a, rest := p[0], p[1..];
      assert p == [a] + rest;
      assert multiset(p) == multiset{a} + multiset(rest);
      if a !in live {
        FireCallCount(rest, live, h);
      } else if a.Callback? {
        FireCallCount(rest, live, h);
        var (calls, left) := Fire(rest, live);
        assert Fire(p, live).0 == [a.handler] + calls;
        assert multiset(Fire(p, live).0) == multiset{a.handler} + multiset(calls);
      } else {
        FireCallCount(rest, Without(Without(live, a), Callback(a.target)), h);
      }
    }
  }

  /** A callback that is live when the walk reaches it, with no wrapper for
      it visited earlier, is invoked. */
  lemma {:induction false} FireCallsReached<H(!new)>(p: seq<Listener<H>>, live: seq<Listener<H>>, i: nat, h: H)
    requires i < |p| && p[i] == Callback(h) && Callback(h) in live
    requires forall j :: 0 <= j < i ==> !(p[j].OnceWrapper? && p[j].target == h)
    ensures h in Fire(p, live).0
    decreases |p|
  {
    var a, rest := p[0], p[1..];
    if i == 0 {
      assert a in live && a.Callback?;
    } else if a !in live {
      FireCallsReached(rest, live, i - 1, h);
    } else if a.Callback? {
      FireCallsReached(rest, live, i - 1, h);
    } else {
      assert a.target != h;
      FireCallsReached(rest, Without(Without(live, a), Callback(a.target)), i - 1, h);
    }
  }

  lemma {:induction false} DistinctCount<T(!new)>(s: seq<T>, x: T)
    requires Distinct(s) && x in s
    ensures multiset(s)[x] == 1
    decreases |s|
  {
    assert s == [s[0]] + s[1..];
    assert multiset(s) == multiset{s[0]} + multiset(s[1..]);
    DistinctTail(s);
    if s[0] != x {
      DistinctCount(s[1..], x);
    }
  }

  /** `once(event, h)` on a set with no wrapper for `h`: the next emit invokes
      `h` exactly once and leaves neither `h` nor its wrapper behind, so the
      emit after that does not invoke `h` again. */
  lemma OnceThenEmit<H(!new)>(existing: seq<Listener<H>>, h: H, serial: nat)
    requires Distinct(existing)
    requires forall w :: w in existing ==> !(w.OnceWrapper? && w.target == h)
    ensures var s := Added(Added(existing, Callback(h)), OnceWrapper(serial, h));
            var (calls, left) := Fire(s, s);
            && multiset(calls)[h] == 1
            && Callback(h) !in left && OnceWrapper(serial, h) !in left
            && h !in Fire(left, left).0
  {
    var w := OnceWrapper(serial, h);
    var s1 := Added(existing, Callback(h));
    var s := Added(s1, w);
    assert w !in s1;
    assert s == s1 + [w];
    var i :| 0 <= i < |s1| && s1[i] == Callback(h);
    assert s[i] == Callback(h);
    forall j | 0 <= j < i ensures !(s[j].OnceWrapper? && s[j].target == h) {
      assert s[j] == s1[j] && s1[j] in existing;
    }
    FireCallsReached(s, s, i, h);
    FireCallCount(s, s, h);
    DistinctCount(s, Callback(h));
    var (calls, left) := Fire(s, s);
    assert multiset(calls)[h] >= 1;
    FireSurvivors(s, s, Callback(h));
    assert WrappedIn(h, s, s) by { assert w in s; }
    FireSurvivors(s, s, w);
    FireCallsRegistered(left, left, h);
  }

  /** With no once-wrapper in the snapshot, an emit deletes nothing. */
  lemma {:induction false} FireWithoutWrappersKeepsSet<H(!new)>(p: seq<Listener<H>>, live: seq<Listener<H>>)
    requires forall x :: x in p ==> x.Callback?
    ensures Fire(p, live).1 == live
    decreases |p|
  {
    if p != [] {
      assert p[0] in p;
      forall x | x in p[1..] ensures x.Callback? { assert x in p; }
      FireWithoutWrappersKeepsSet(p[1..], live);
    }
  }

  /** Walking `[l] + rest` is walking `[l]`, then `rest` over what is left. */
  lemma FireCons<H(!new)>(l: Listener<H>, rest: seq<Listener<H>>, live: seq<Listener<H>>)
    ensures var (c1, left1) := Fire([l], live);
      Fire([l] + rest, live) == (c1 + Fire(rest, left1).0, Fire(rest, left1).1)
  {
    var p := [l] + rest;
    assert p[0] == l && p[1..] == rest;
    assert [l][1..] == [];
    var none: seq<H> := [];
    if l !in live {
      assert Fire([l], live) == (none, live);
      assert none + Fire(rest, live).0 == Fire(rest, live).0;
    } else if l.Callback? {
      assert Fire([l], live) == ([l.handler] + none, live);
      assert [l.handler] + none == [l.handler];
    } else {
      var left1 := Without(Without(live, l), Callback(l.target));
      assert Fire([l], live) == (none, left1);
      assert none + Fire(rest, left1).0 == Fire(rest, left1).0;
    }
  }

  /** One listener further into `emit`: the handlers invoked so far and the
      set left behind still add up to a whole walk of the snapshot. */
  lemma EmitStep<H(!new)>(snapshot: seq<Listener<H>>, i: nat, called: seq<H>, c: seq<H>, live: seq<Listener<H>>,
                          total: (seq<H>, seq<Listener<H>>))
    requires i < |snapshot|
    requires called + Fire(snapshot[i..], live).0 == total.0
    requires Fire(snapshot[i..], live).1 == total.1
    requires c == Fire([snapshot[i]], live).0
    ensures (called + c) + Fire(snapshot[i + 1..], Fire([snapshot[i]], live).1).0 == total.0
    ensures Fire(snapshot[i + 1..], Fire([snapshot[i]], live).1).1 == total.1
  {
    var l, rest := snapshot[i], snapshot[i + 1..];
    assert snapshot[i..] == [l] + rest;
    FireCons(l, rest, live);
    var left1 := Fire([l], live).1;
    var whole := Fire([l] + rest, live);
    assert whole.0 == c + Fire(rest, left1).0;
    assert called + whole.0 == (called + c) + Fire(rest, left1).0;
  }

  /** The emitter: a map from event name to listener set, updated in place. */
  class Emitter<H(==,!new)> {
    var listeners: map<string, seq<Listener<H>>>
    /** Once-wrapper closures created so far; each new one gets the next serial. */
    var serials: nat

    ghost predicate Valid()
      reads this
    {
      && (forall e :: e in listeners ==> Distinct(listeners[e]))
      && (forall e, l :: e in listeners && l in listeners[e] && l.OnceWrapper? ==> l.serial < serials)
    }

    constructor()
      ensures Valid() && listeners == map[] && serials == 0
    {
      listeners := map[];
      serials := 0;
    }

    /** `on(event, h)`: adds `h` to the set; the returned unsubscriber deletes it. */
    method On(event: string, h: H) returns (unsubscribe: Listener<H>)
      requires Valid()
      modifies this`listeners
      ensures Valid() && serials == old(serials)
      ensures listeners == old(listeners)[event := Added(Subscribers(old(listeners), event), Callback(h))]
      ensures unsubscribe == Callback(h)
    {
      listeners := listeners[event := Added(Subscribers(listeners, event), Callback(h))];
      unsubscribe := Callback(h);
    }

    /** `once(event, h)`: adds `h`, then a fresh wrapper that deletes both when
        it runs; the wrapper is also the returned unsubscriber. */
    method Once(event: string, h: H) returns (unsubscribe: Listener<H>)
      requires Valid()
      modifies this`listeners, this`serials
      ensures Valid() && serials == old(serials) + 1
      ensures unsubscribe == OnceWrapper(old(serials), h)
      ensures listeners == old(listeners)[event :=
        Added(Subscribers(old(listeners), event), Callback(h)) + [unsubscribe]]
    {
      var _ := On(event, h);
      unsubscribe := OnceWrapper(serials, h);
      assert unsubscribe !in listeners[event];
      listeners := listeners[event := Added(listeners[event], unsubscribe)];
      serials := serials + 1;
    }

    /** `un(event, l)`: deletes `l`; an unknown event or listener changes nothing. */
    method Un(event: string, l: Listener<H>)
      requires Valid()
      modifies this`listeners
      ensures Valid() && serials == old(serials)
      ensures event in old(listeners) ==> listeners == old(listeners)[event := Without(old(listeners)[event], l)]
      ensures event !in old(listeners) || l !in old(listeners)[event] ==> listeners == old(listeners)
    {
      if event in listeners {
        listeners := listeners[event := Without(listeners[event], l)];
      }
    }

    /** Calls an unsubscriber returned by `On` or `Once`; the once-wrapper's
        deletes itself and its target. */
    method Unsubscribe(event: string, unsubscribe: Listener<H>)
      requires Valid()
      modifies this`listeners
      ensures Valid() && serials == old(serials)
      ensures listeners == if event !in old(listeners) then old(listeners)
        else match unsubscribe
          case Callback(_) => old(listeners)[event := Without(old(listeners)[event], unsubscribe)]
          case OnceWrapper(_, h) =>
            old(listeners)[event := Without(Without(old(listeners)[event], unsubscribe), Callback(h))]
    {
      Un(event, unsubscribe);
      if unsubscribe.OnceWrapper? {
        Un(event, Callback(unsubscribe.target));
      }
    }

    /** `unAll()`: forgets every event. */
    method UnAll()
      requires Valid()
      modifies this`listeners
      ensures Valid() && serials == old(serials) && listeners == map[]
    {
      listeners := map[];
    }

    /** The visit of one listener during `emit`: a live callback is
        invoked; a live once-wrapper deletes itself and its target. */
    method Deliver(event: string, l: Listener<H>) returns (called: seq<H>)
      requires Valid() && event in listeners
      modifies this`listeners
      ensures Valid() && event in listeners
      ensures listeners == old(listeners)[event := Fire([l], old(listeners)[event]).1]
      ensures called == Fire([l], old(listeners)[event]).0
    {
      called := [];
      assert [l][1..] == [];
      if l in listeners[event] {
        match l {
          case Callback(h) =>
            called := [h];
          case OnceWrapper(_, h) =>
            Un(event, l);
            Un(event, Callback(h));
        }
      }
    }

    /** `emit(event)`: runs the event's listeners in insertion order and
        returns the client handlers invoked. */
    method Emit(event: string) returns (called: seq<H>)
      requires Valid()
      modifies this`listeners
      ensures Valid() && serials == old(serials)
      ensures event !in old(listeners) ==> called == [] && listeners == old(listeners)
      ensures event in old(listeners) ==>
        var (calls, left) := Fire(old(listeners)[event], old(listeners)[event]);
        called == calls && listeners == old(listeners)[event := left]
    {
      called := [];
      if event !in listeners {
        return;
      }
      var snapshot := listeners[event];
      var i := 0;
      ghost var total := Fire(snapshot, snapshot);
      assert snapshot[0..] == snapshot;
      while i < |snapshot|
        invariant 0 <= i <= |snapshot|
        invariant Valid()
        invariant event in listeners && listeners == old(listeners)[event := listeners[event]]
        invariant called + Fire(snapshot[i..], listeners[event]).0 == total.0
        invariant Fire(snapshot[i..], listeners[event]).1 == total.1
      {
        ghost var live := listeners[event];
        var c := Deliver(event, snapshot[i]);
        EmitStep(snapshot, i, called, c, live, total);
        called := called + c;
        i := i + 1;
      }
      assert snapshot[i..] == [];
    }
  }
}
