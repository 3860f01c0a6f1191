/** Event registry: listeners per event name, persistent (`on`) or fire-once
    (`once`), and dispatch over a snapshot of the list taken when it starts.
    One component, used at class scope and at instance scope. */
module Events {
  import opened Values
  import opened Outcomes

  /** An attribute write a listener performs when it runs. */
  datatype Write = NoWrite | Write(attr: string, value: Value)

  /** What a listener does when it runs: at most one attribute write, the
      validation errors it reports with `error(attr, message)`, and the value
      it hands its continuation (`next()` or `next(err)`). */
  datatype Action = Action(write: Write, report: seq<ValidationError>, outcome: Outcome)

  /** A registered listener; `once` marks a fire-once registration. */
  datatype Listener = Listener(id: nat, once: bool, action: Action)

  /** One call of a listener: the event, the listener's id, the arguments. */
  datatype Firing = Firing(event: string, listener: nat, args: seq<Value>)

  /** The state of a registry: the live listener lists, and every call made so far. */
  datatype Registry = Registry(listeners: map<string, seq<Listener>>, fired: seq<Firing>)

  /** The live listener list for `e`. */
  function Listeners(r: Registry, e: string): seq<Listener>
  {
    if e in r.listeners then r.listeners[e] else []
  }

  /** The list without the first occurrence of `l`. */
  function RemoveFirst(ls: seq<Listener>, l: Listener): seq<Listener>
  {
    if ls == [] then []
    else if ls[0] == l then ls[1..]
    else [ls[0]] + RemoveFirst(ls[1..], l)
  }

  /** Removing the first occurrence takes exactly one copy of `l` out, if any. */
  lemma {:induction false} RemoveFirstCount(ls: seq<Listener>, l: Listener)
    ensures multiset(RemoveFirst(ls, l)) == multiset(ls) - multiset{l}
  {
    if ls != [] {
      assert ls == [ls[0]] + ls[1..];
      if ls[0] != l {
        RemoveFirstCount(ls[1..], l);
      }
    }
  }

  /** The persistent (`on`) registrations of a list, in order. */
  function Persistent(ls: seq<Listener>): seq<Listener>
  {
    if ls == [] then []
    else (if ls[0].once then [] else [ls[0]]) + Persistent(ls[1..])
  }

  /** The ids of the listeners called for event `e`, in call order. */
  function FiredFor(fired: seq<Firing>, e: string): seq<nat>
  {
    if fired == [] then []
    else (if fired[0].event == e then [fired[0].listener] else []) + FiredFor(fired[1..], e)
  }

  /** The ids of a list of listeners. */
  function Ids(ls: seq<Listener>): (ids: seq<nat>)
    ensures |ids| == |ls|
    ensures forall i :: 0 <= i < |ls| ==> ids[i] == ls[i].id
  {
    if ls == [] then [] else [ls[0].id] + Ids(ls[1..])
  }

  /** The registry after calling listener `l` for `e`: the call is recorded and a
      fire-once listener takes itself off the live list. */
  function Fired(r: Registry, e: string, l: Listener, args: seq<Value>): (r': Registry)
    ensures r'.fired == r.fired + [Firing(e, l.id, args)]
    ensures forall e' :: e' != e ==> Listeners(r', e') == Listeners(r, e')
    ensures Listeners(r', e) == if l.once then RemoveFirst(Listeners(r, e), l) else Listeners(r, e)
  {
    var live := if l.once then r.listeners[e := RemoveFirst(Listeners(r, e), l)] else r.listeners;
    Registry(live, r.fired + [Firing(e, l.id, args)])
  }

  /** The calls made when `ls` run one after the other for `e`. */
  function Firings(e: string, ls: seq<Listener>, args: seq<Value>): (fs: seq<Firing>)
    ensures |fs| == |ls|
    ensures forall i :: 0 <= i < |ls| ==> fs[i] == Firing(e, ls[i].id, args)
  {
    seq(|ls|, i requires 0 <= i < |ls| => Firing(e, ls[i].id, args))
  }

  /** Calling the listeners `ls` in order, each as `Fired` does. */
  function FireAll(r: Registry, e: string, ls: seq<Listener>, args: seq<Value>): (r': Registry)
    ensures r'.fired == r.fired + Firings(e, ls, args)
    ensures forall e' :: e' != e ==> Listeners(r', e') == Listeners(r, e')
    decreases |ls|
  {
    if ls == [] then r
    else
      var before := FireAll(r, e, ls[..|ls| - 1], args);
      assert Firings(e, ls, args) == Firings(e, ls[..|ls| - 1], args) + [Firing(e, ls[|ls| - 1].id, args)];
      Fired(before, e, ls[|ls| - 1], args)
  }

  /** Plain emission: every listener in the snapshot of `e` is called, in
      registration order, with the same arguments. */
  function Emitted(r: Registry, e: string, args: seq<Value>): (r': Registry)
    ensures r'.fired == r.fired + Firings(e, Listeners(r, e), args)
    ensures forall e' :: e' != e ==> Listeners(r', e') == Listeners(r, e')
  {
    FireAll(r, e, Listeners(r, e), args)
  }

  /** Running listeners never drops a persistent registration, never reorders
      the persistent ones and never adds a registration: the listener lists of
      `r'` are those of `r` less some fire-once entries. */
  ghost predicate Retains(r: Registry, r': Registry)
  {
    forall e ::
      Persistent(Listeners(r', e)) == Persistent(Listeners(r, e)) &&
      multiset(Listeners(r', e)) <= multiset(Listeners(r, e))
  }

  lemma {:induction false} PersistentConcat(a: seq<Listener>, b: seq<Listener>)
    ensures Persistent(a + b) == Persistent(a) + Persistent(b)
  {
    if a != [] {
      assert (a + b)[0] == a[0];
      assert (a + b)[1..] == a[1..] + b;
      PersistentConcat(a[1..], b);
    } else {
      assert a + b == b;
    }
  }

  lemma {:induction false} PersistentRemoveFirst(ls: seq<Listener>, l: Listener)
    requires l.once
    ensures Persistent(RemoveFirst(ls, l)) == Persistent(ls)
  {
    if ls != [] && ls[0] != l {
      PersistentRemoveFirst(ls[1..], l);
      PersistentConcat([ls[0]], RemoveFirst(ls[1..], l));
    }
  }

  lemma RetainsTransitive(r1: Registry, r2: Registry, r3: Registry)
    requires Retains(r1, r2) && Retains(r2, r3)
    ensures Retains(r1, r3)
  {
    forall e
      ensures Persistent(Listeners(r3, e)) == Persistent(Listeners(r1, e))
      ensures multiset(Listeners(r3, e)) <= multiset(Listeners(r1, e))
    {
      assert Persistent(Listeners(r3, e)) == Persistent(Listeners(r2, e));
      assert multiset(Listeners(r3, e)) <= multiset(Listeners(r2, e));
    }
  }

  /** Calling one listener keeps every persistent registration. */
  lemma FiredRetains(r: Registry, e: string, l: Listener, args: seq<Value>)
    ensures Retains(r, Fired(r, e, l, args))
  {
    if l.once {
      PersistentRemoveFirst(Listeners(r, e), l);
      RemoveFirstCount(Listeners(r, e), l);
    }
  }

  lemma {:induction false} FireAllRetains(r: Registry, e: string, ls: seq<Listener>, args: seq<Value>)
    ensures Retains(r, FireAll(r, e, ls, args))
    decreases |ls|
  {
    if ls != [] {
      var before := FireAll(r, e, ls[..|ls| - 1], args);
      FireAllRetains(r, e, ls[..|ls| - 1], args);
      FiredRetains(before, e, ls[|ls| - 1], args);
      RetainsTransitive(r, before, FireAll(r, e, ls, args));
    }
  }

  /** Emission keeps every persistent listener (the list is not consumed by
      running it). */
  lemma EmittedRetains(r: Registry, e: string, args: seq<Value>)
    ensures Retains(r, Emitted(r, e, args))
  {
    FireAllRetains(r, e, Listeners(r, e), args);
  }

  lemma {:induction false} RemoveFirstAfter(p: seq<Listener>, q: seq<Listener>, l: Listener)
    requires l !in p
    ensures RemoveFirst(p + q, l) == p + RemoveFirst(q, l)
  {
    if p == [] {
      assert p + q == q;
    } else {
      assert (p + q)[0] == p[0] != l;
      assert (p + q)[1..] == p[1..] + q;
      RemoveFirstAfter(p[1..], q, l);
      calc {
        RemoveFirst(p + q, l);
        [p[0]] + RemoveFirst(p[1..] + q, l);
        [p[0]] + (p[1..] + RemoveFirst(q, l));
        { assert [p[0]] + p[1..] == p; }
        p + RemoveFirst(q, l);
      }
    }
  }

  lemma {:induction false} PersistentHasNoOnce(ls: seq<Listener>, l: Listener)
    requires l.once
    ensures l !in Persistent(ls)
  {
    if ls != [] {
      PersistentHasNoOnce(ls[1..], l);
    }
  }

  lemma ConsumeOnce(p: seq<Listener>, l: Listener, q: seq<Listener>)
    requires l.once
    ensures RemoveFirst(Persistent(p) + ([l] + q), l) == Persistent(p + [l]) + q
  {
    PersistentConcat(p, [l]);
    assert [l][1..] == [];
    assert Persistent([l]) == [];
    assert Persistent(p) + [] == Persistent(p);
    PersistentHasNoOnce(p, l);
    RemoveFirstAfter(Persistent(p), [l] + q, l);
    assert ([l] + q)[1..] == q;
  }

  lemma KeepPersistent(p: seq<Listener>, l: Listener, q: seq<Listener>)
    requires !l.once
    ensures Persistent(p) + ([l] + q) == Persistent(p + [l]) + q
  {
    PersistentConcat(p, [l]);
    assert [l][1..] == [];
    assert Persistent([l]) == [l];
  }

  /** One more listener of the snapshot `s` has run: the live list moves on by one. */
  lemma LiveListStep(s: seq<Listener>, i: nat)
    requires 0 < i <= |s|
    ensures (if s[i - 1].once then RemoveFirst(Persistent(s[..i - 1]) + s[i - 1..], s[i - 1])
             else Persistent(s[..i - 1]) + s[i - 1..]) == Persistent(s[..i]) + s[i..]
  {
    var l := s[i - 1];
    assert s[..i] == s[..i - 1] + [l];
    assert s[i - 1..] == [l] + s[i..];
    if l.once {
      ConsumeOnce(s[..i - 1], l, s[i..]);
    } else {
      KeepPersistent(s[..i - 1], l, s[i..]);
    }
  }

  /** After the first `i` listeners of the snapshot have run, the live list is
      the persistent part of those `i` followed by the ones still to run. */
  lemma {:induction false} FireAllPrefix(r: Registry, e: string, args: seq<Value>, i: nat)
    requires i <= |Listeners(r, e)|
    ensures Listeners(FireAll(r, e, Listeners(r, e)[..i], args), e) ==
            Persistent(Listeners(r, e)[..i]) + Listeners(r, e)[i..]
  {
    var s := Listeners(r, e);
    if i == 0 {
      assert s[..0] == [];
      assert s[0..] == s;
    } else {
      FireAllPrefix(r, e, args, i - 1);
      var prev := FireAll(r, e, s[..i - 1], args);
      assert s[..i][..i - 1] == s[..i - 1];
      assert FireAll(r, e, s[..i], args) == Fired(prev, e, s[i - 1], args);
      LiveListStep(s, i);
    }
  }

  /** Emission consumes the fire-once listeners of `e` and keeps the persistent
      ones in order; other events' lists are untouched. */
  lemma EmittedConsumesOnce(r: Registry, e: string, args: seq<Value>)
    ensures Listeners(Emitted(r, e, args), e) == Persistent(Listeners(r, e))
    ensures forall e' :: e' != e ==> Listeners(Emitted(r, e, args), e') == Listeners(r, e')
  {
    var s := Listeners(r, e);
    FireAllPrefix(r, e, args, |s|);
    assert s[..|s|] == s;
    assert s[|s|..] == [];
  }

  lemma {:induction false} FiredForConcat(a: seq<Firing>, b: seq<Firing>, e: string)
    ensures FiredFor(a + b, e) == FiredFor(a, e) + FiredFor(b, e)
  {
    if a != [] {
      assert (a + b)[0] == a[0];
      assert (a + b)[1..] == a[1..] + b;
      FiredForConcat(a[1..], b, e);
    } else {
      assert a + b == b;
    }
  }

  lemma {:induction false} FiredForFirings(e: string, ls: seq<Listener>, args: seq<Value>, e': string)
    ensures FiredFor(Firings(e, ls, args), e') == if e == e' then Ids(ls) else []
  {
    if ls != [] {
      assert Firings(e, ls, args) == [Firing(e, ls[0].id, args)] + Firings(e, ls[1..], args);
      FiredForFirings(e, ls[1..], args, e');
    }
  }

  /** Emitting `e` calls each listener of `e` exactly once, in registration
      order, and calls nothing registered for another event. */
  lemma EmittedCalls(r: Registry, e: string, args: seq<Value>, e': string)
    ensures FiredFor(Emitted(r, e, args).fired, e') ==
            FiredFor(r.fired, e') + (if e == e' then Ids(Listeners(r, e)) else [])
  {
    FiredForConcat(r.fired, Firings(e, Listeners(r, e), args), e');
    FiredForFirings(e, Listeners(r, e), args, e');
  }

  /** The registry object kept by a model class and by each instance. */
  class Emitter {
    var listeners: map<string, seq<Listener>>
    var fired: seq<Firing>
    var nextId: nat

    function State(): Registry
      reads this
    {
      Registry(listeners, fired)
    }

    /** The snapshot a dispatch of `e` iterates over. */
    function Snapshot(e: string): (s: seq<Listener>)
      reads this
      ensures s == Listeners(State(), e)
    {
      if e in listeners then listeners[e] else []
    }

    constructor ()
      ensures State() == Registry(map[], [])
      ensures nextId == 0
    {
      listeners := map[];
      fired := [];
      nextId := 0;
    }

    /** Appends a listener for `e` with id `nextId`, and advances `nextId`. */
    method Subscribe(e: string, action: Action, once: bool) returns (id: nat)
      modifies this
      ensures id == old(nextId) && nextId == id + 1
      ensures listeners == old(listeners)[e := old(Snapshot(e)) + [Listener(id, once, action)]]
      ensures fired == old(fired)
    {
      id := nextId;
      listeners := listeners[e := Snapshot(e) + [Listener(id, once, action)]];
      nextId := nextId + 1;
    }

    /** `on(e, fn)`: a persistent registration. */
    method On(e: string, action: Action) returns (id: nat)
      modifies this
      ensures id == old(nextId) && nextId == id + 1
      ensures listeners == old(listeners)[e := old(Snapshot(e)) + [Listener(id, false, action)]]
      ensures fired == old(fired)
    {
      id := Subscribe(e, action, false);
    }

    /** `once(e, fn)`: a registration removed after its first call. */
    method Once(e: string, action: Action) returns (id: nat)
      modifies this
      ensures id == old(nextId) && nextId == id + 1
      ensures listeners == old(listeners)[e := old(Snapshot(e)) + [Listener(id, true, action)]]
      ensures fired == old(fired)
    {
      id := Subscribe(e, action, true);
    }

    /** Calls one listener for `e`. */
    method Fire(e: string, l: Listener, args: seq<Value>)
      modifies this
      ensures State() == Fired(old(State()), e, l, args)
      ensures nextId == old(nextId)
    {
      if l.once {
        listeners := listeners[e := RemoveFirst(Snapshot(e), l)];
      }
      fired := fired + [Firing(e, l.id, args)];
    }

    /** `emit(e, args...)`: calls every listener of the snapshot of `e`. */
    method Emit(e: string, args: seq<Value>)
      modifies this
      ensures State() == Emitted(old(State()), e, args)
      ensures nextId == old(nextId)
    {
      var snap := Snapshot(e);
      for i := 0 to |snap|
        invariant State() == FireAll(old(State()), e, snap[..i], args)
        invariant nextId == old(nextId)
      {
        assert snap[..i + 1][..i] == snap[..i];
        Fire(e, snap[i], args);
      }
      assert snap[..|snap|] == snap;
    }
  }
}
