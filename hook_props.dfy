/** What emissions and hook chains leave alone and what they record: the
    listener lists and call logs of events they do not fire, the persistent
    registrations, and the calls of a chain's own event. */
module HookProps {
  import opened Values
  import opened Outcomes
  import opened Events
  import opened Validation
  import opened Lifecycle

  /** Nothing happens for event `e` between `w` and `w'`: at both scopes its
      listener list and the calls recorded for it are the same. */
  ghost predicate Quiet(w: World, w': World, e: string)
  {
    && Listeners(w'.cls, e) == Listeners(w.cls, e)
    && Listeners(w'.own, e) == Listeners(w.own, e)
    && FiredFor(w'.cls.fired, e) == FiredFor(w.cls.fired, e)
    && FiredFor(w'.own.fired, e) == FiredFor(w.own.fired, e)
  }

  /** The registrations for `kept` at either scope survive from `w` to `w'`
      as `Retains` describes: the persistent ones stay, in order, and the
      list only loses fire-once entries. */
  ghost predicate Keeps(w: World, w': World, kept: string)
  {
    && Persistent(Listeners(w'.cls, kept)) == Persistent(Listeners(w.cls, kept))
    && multiset(Listeners(w'.cls, kept)) <= multiset(Listeners(w.cls, kept))
    && Persistent(Listeners(w'.own, kept)) == Persistent(Listeners(w.own, kept))
    && multiset(Listeners(w'.own, kept)) <= multiset(Listeners(w.own, kept))
  }

  lemma KeepsTransitive(w1: World, w2: World, w3: World, kept: string)
    requires Keeps(w1, w2, kept) && Keeps(w2, w3, kept)
    ensures Keeps(w1, w3, kept)
  {
  }

  lemma EmittedQuiet(r: Registry, e: string, args: seq<Value>, e': string)
    requires e != e'
    ensures Listeners(Emitted(r, e, args), e') == Listeners(r, e')
    ensures FiredFor(Emitted(r, e, args).fired, e') == FiredFor(r.fired, e')
  {
    EmittedCalls(r, e, args, e');
  }

  /** Announcing `e` leaves every other event alone. */
  lemma AnnounceQuiet(w: World, e: string, args: seq<Value>, e': string)
    requires e != e'
    ensures Quiet(w, Announce(w, e, args), e')
  {
    EmittedQuiet(w.cls, e, args, e');
    EmittedQuiet(w.own, e, args, e');
  }

  lemma AnnounceKeeps(w: World, e: string, args: seq<Value>, kept: string)
    ensures Keeps(w, Announce(w, e, args), kept)
  {
    EmittedRetains(w.cls, e, args);
    EmittedRetains(w.own, e, args);
  }

  /** No lifecycle event is a change event: the second letter of every change
      event is 'h'. */
  lemma NotChange(e: string)
    requires |e| >= 2 && e[1] != 'h'
    ensures !IsChange(e)
  {
    if |e| >= 7 {
      assert e[..7][1] == e[1];
    }
  }

  lemma LifecycleEventsArePlain()
    ensures !IsChange("saving") && !IsChange("creating") && !IsChange("updating")
    ensures !IsChange("create") && !IsChange("update") && !IsChange("save")
    ensures !IsChange("removing") && !IsChange("remove") && !IsChange("error")
    ensures !IsChange("setting") && !IsChange("valid") && !IsChange("invalid")
  {
    NotChange("saving");
    NotChange("creating");
    NotChange("updating");
    NotChange("create");
    NotChange("update");
    NotChange("save");
    NotChange("removing");
    NotChange("remove");
    NotChange("error");
    NotChange("setting");
    NotChange("valid");
    NotChange("invalid");
  }

  /** An attribute write fires change events only. */
  lemma SetAttrQuiet(w: World, name: string, v: Value, e: string)
    requires !IsChange(e)
    ensures Quiet(w, SetAttr(w, name, v), e)
  {
    if v != Get(w.store.attrs, name) {
      var prev := Get(w.store.attrs, name);
      var s := w.store.(attrs := w.store.attrs[name := v], dirty := w.store.dirty[name := v]);
      var w1 := Announce(w.(store := s), ChangeEvent(name), [v, prev]);
      assert ChangeEvent(name)[..7] == "change ";
      AnnounceQuiet(w.(store := s), ChangeEvent(name), [v, prev], e);
      AnnounceQuiet(w1, "change", [Str(name), v, prev], e);
    }
  }

  lemma SetAttrKeeps(w: World, name: string, v: Value, kept: string)
    ensures Keeps(w, SetAttr(w, name, v), kept)
  {
    if v != Get(w.store.attrs, name) {
      var prev := Get(w.store.attrs, name);
      var s := w.store.(attrs := w.store.attrs[name := v], dirty := w.store.dirty[name := v]);
      var w1 := Announce(w.(store := s), ChangeEvent(name), [v, prev]);
      AnnounceKeeps(w.(store := s), ChangeEvent(name), [v, prev], kept);
      AnnounceKeeps(w1, "change", [Str(name), v, prev], kept);
      KeepsTransitive(w, w1, SetAttr(w, name, v), kept);
    }
  }

  lemma PerformQuiet(w: World, a: Action, e: string)
    requires !IsChange(e)
    ensures Quiet(w, Perform(w, a), e)
  {
    if a.write.Write? {
      SetAttrQuiet(w, a.write.attr, a.write.value, e);
    }
  }

  lemma PerformKeeps(w: World, a: Action, kept: string)
    ensures Keeps(w, Perform(w, a), kept)
  {
    if a.write.Write? {
      SetAttrKeeps(w, a.write.attr, a.write.value, kept);
    }
  }

  lemma StepQuiet(w: World, e: string, t: Tagged, e': string)
    requires e != e' && !IsChange(e')
    ensures Quiet(w, Step(w, e, t), e')
  {
    var called :=
      if t.fromClass then w.(cls := Fired(w.cls, e, t.listener, []))
      else w.(own := Fired(w.own, e, t.listener, []));
    FiredForConcat(w.cls.fired, [Firing(e, t.listener.id, [])], e');
    FiredForConcat(w.own.fired, [Firing(e, t.listener.id, [])], e');
    assert Quiet(w, called, e');
    PerformQuiet(called, t.listener.action, e');
  }

  lemma StepKeeps(w: World, e: string, t: Tagged, kept: string)
    ensures Keeps(w, Step(w, e, t), kept)
  {
    var called :=
      if t.fromClass then w.(cls := Fired(w.cls, e, t.listener, []))
      else w.(own := Fired(w.own, e, t.listener, []));
    FiredRetains(w.cls, e, t.listener, []);
    FiredRetains(w.own, e, t.listener, []);
    PerformKeeps(called, t.listener.action, kept);
    KeepsTransitive(w, called, Step(w, e, t), kept);
  }

  /** A chain for `e` fires nothing of another event except change events. */
  lemma {:induction false} ChainQuiet(w: World, e: string, snap: seq<Tagged>, check: bool, e': string)
    requires e != e' && !IsChange(e')
    ensures Quiet(w, Chain(w, e, snap, check).world, e')
    decreases |snap|
  {
    if snap != [] {
      var w1 := Step(w, e, snap[0]);
      StepQuiet(w, e, snap[0], e');
      ChainQuiet(w1, e, snap[1..], check, e');
    }
  }

  lemma KeepsRefl(w: World, kept: string)
    ensures Keeps(w, w, kept)
  {
  }

  /** Running a chain takes no persistent hook off and adds none. */
  lemma {:induction false} ChainKeeps(w: World, e: string, snap: seq<Tagged>, check: bool, kept: string)
    ensures Keeps(w, Chain(w, e, snap, check).world, kept)
    decreases |snap|
  {
    if snap == [] {
      KeepsRefl(w, kept);
    } else {
      var w1 := Step(w, e, snap[0]);
      var r := Chain(w, e, snap, check);
      ChainStep(w, e, snap, check);
      StepKeeps(w, e, snap[0], kept);
      if !Stops(w1, snap[0], check) {
        ChainKeeps(w1, e, snap[1..], check, kept);
        KeepsTransitive(w, w1, r.world, kept);
      }
    }
  }

  /** The ids of the hooks of `snap` registered at one scope, in order. */
  function ScopeIds(snap: seq<Tagged>, fromClass: bool): (ids: seq<nat>)
    ensures |ids| <= |snap|
  {
    if snap == [] then []
    else (if snap[0].fromClass == fromClass then [snap[0].listener.id] else []) + ScopeIds(snap[1..], fromClass)
  }

  lemma {:induction false} ScopeIdsTag(ls: seq<Listener>, fromClass: bool)
    ensures ScopeIds(Tag(ls, fromClass), fromClass) == Ids(ls)
    ensures ScopeIds(Tag(ls, fromClass), !fromClass) == []
  {
    if ls != [] {
      assert Tag(ls, fromClass)[1..] == Tag(ls[1..], fromClass);
      ScopeIdsTag(ls[1..], fromClass);
    }
  }

  lemma {:induction false} ScopeIdsConcat(a: seq<Tagged>, b: seq<Tagged>, fromClass: bool)
    ensures ScopeIds(a + b, fromClass) == ScopeIds(a, fromClass) + ScopeIds(b, fromClass)
  {
    if a == [] {
      assert a + b == b;
    } else {
      var head := if a[0].fromClass == fromClass then [a[0].listener.id] else [];
      assert ScopeIds(a + b, fromClass) == head + ScopeIds(a[1..] + b, fromClass) by {
        assert (a + b)[0] == a[0];
        assert (a + b)[1..] == a[1..] + b;
      }
      ScopeIdsConcat(a[1..], b, fromClass);
      AppendAssoc(head, ScopeIds(a[1..], fromClass), ScopeIds(b, fromClass));
    }
  }

  /** A hook snapshot holds the class-scope hooks and then the instance-scope ones. */
  lemma HookSnapshotIds(w: World, e: string)
    ensures ScopeIds(HookSnapshot(w, e), true) == Ids(Listeners(w.cls, e))
    ensures ScopeIds(HookSnapshot(w, e), false) == Ids(Listeners(w.own, e))
    ensures var snap := HookSnapshot(w, e);
      forall i, j :: 0 <= i < j < |snap| && snap[j].fromClass ==> snap[i].fromClass
  {
    var snap := HookSnapshot(w, e);
    var n := |Listeners(w.cls, e)|;
    forall i, j | 0 <= i < j < |snap| && snap[j].fromClass
      ensures snap[i].fromClass
    {
      assert snap[i] == Tag(Listeners(w.cls, e), true)[i];
    }
    ScopeIdsConcat(Tag(Listeners(w.cls, e), true), Tag(Listeners(w.own, e), false), true);
    ScopeIdsConcat(Tag(Listeners(w.cls, e), true), Tag(Listeners(w.own, e), false), false);
    ScopeIdsTag(Listeners(w.cls, e), true);
    ScopeIdsTag(Listeners(w.own, e), false);
  }

  /** The calls of `e` recorded at one scope. */
  function Calls(w: World, e: string, fromClass: bool): seq<nat>
  {
    FiredFor(if fromClass then w.cls.fired else w.own.fired, e)
  }

  /** Calling one hook records it at the scope it was registered at. */
  lemma StepCalls(w: World, e: string, t: Tagged, fromClass: bool)
    requires !IsChange(e)
    ensures Calls(Step(w, e, t), e, fromClass) == Calls(w, e, fromClass) + ScopeIds([t], fromClass)
  {
    var called :=
      if t.fromClass then w.(cls := Fired(w.cls, e, t.listener, []))
      else w.(own := Fired(w.own, e, t.listener, []));
    var one := [Firing(e, t.listener.id, [])];
    FiredForConcat(w.cls.fired, one, e);
    FiredForConcat(w.own.fired, one, e);
    assert FiredFor(one, e) == [t.listener.id];
    assert [t][1..] == [];
    PerformQuiet(called, t.listener.action, e);
  }

  lemma AppendAssoc<T>(x: seq<T>, a: seq<T>, b: seq<T>)
    ensures (x + a) + b == x + (a + b)
  {
  }

  lemma ScopeIdsPrefix(snap: seq<Tagged>, n: nat, fromClass: bool)
    requires 0 < n <= |snap|
    ensures ScopeIds(snap[..n], fromClass) == ScopeIds([snap[0]], fromClass) + ScopeIds(snap[1..][..n - 1], fromClass)
  {
    assert snap[..n] == [snap[0]] + snap[1..][..n - 1];
    ScopeIdsConcat([snap[0]], snap[1..][..n - 1], fromClass);
  }

  /** A chain for `e` calls, at each scope, exactly the hooks of that scope
      among the first `ran` of the snapshot, once each and in order. */
  lemma {:induction false} ChainCalls(w: World, e: string, snap: seq<Tagged>, check: bool, fromClass: bool)
    requires !IsChange(e)
    ensures var r := Chain(w, e, snap, check);
      r.ran <= |snap| && Calls(r.world, e, fromClass) == Calls(w, e, fromClass) + ScopeIds(snap[..r.ran], fromClass)
    decreases |snap|
  {
    var r := Chain(w, e, snap, check);
    if snap == [] {
      assert snap[..r.ran] == [];
    } else {
      var t := snap[0];
      var w1 := Step(w, e, t);
      var a := ScopeIds([t], fromClass);
      assert Calls(w1, e, fromClass) == Calls(w, e, fromClass) + a by {
        StepCalls(w, e, t, fromClass);
      }
      assert ScopeIds(snap[..r.ran], fromClass) == a + ScopeIds(snap[1..][..r.ran - 1], fromClass) by {
        ScopeIdsPrefix(snap, r.ran, fromClass);
      }
      if Stops(w1, t, check) {
        assert r.world == w1 && r.ran == 1 by {
          ChainStep(w, e, snap, check);
        }
        assert ScopeIds(snap[..r.ran], fromClass) == a by {
          assert snap[1..][..0] == [];
          assert a + [] == a;
        }
        assert Calls(r.world, e, fromClass) == Calls(w, e, fromClass) + a;
      } else {
        var rest := Chain(w1, e, snap[1..], check);
        assert r.world == rest.world && r.ran == rest.ran + 1 by {
          ChainStep(w, e, snap, check);
        }
        var b := ScopeIds(snap[1..][..rest.ran], fromClass);
        assert Calls(rest.world, e, fromClass) == Calls(w1, e, fromClass) + b by {
          ChainCalls(w1, e, snap[1..], check, fromClass);
        }
        assert snap[1..][..r.ran - 1] == snap[1..][..rest.ran];
        assert ScopeIds(snap[..r.ran], fromClass) == a + b;
        AppendAssoc(Calls(w, e, fromClass), a, b);
        assert Calls(r.world, e, fromClass) == (Calls(w, e, fromClass) + a) + b;
      }
    }
  }

  /** Hooks that write nothing leave the attributes and the dirty map alone. */
  predicate Silent(snap: seq<Tagged>)
  {
    forall i :: 0 <= i < |snap| ==> snap[i].listener.action.write.NoWrite?
  }

  lemma {:induction false} ChainSilent(w: World, e: string, snap: seq<Tagged>, check: bool)
    requires Silent(snap)
    ensures Chain(w, e, snap, check).world.store.attrs == w.store.attrs
    ensures Chain(w, e, snap, check).world.store.dirty == w.store.dirty
    decreases |snap|
  {
    if snap != [] {
      ChainSilent(Step(w, e, snap[0]), e, snap[1..], check);
    }
  }

  /** No hook of `snap` unsets attribute `k`. */
  predicate KeepsKey(snap: seq<Tagged>, k: string)
  {
    forall i :: 0 <= i < |snap| ==> snap[i].listener.action.write != Write(k, Undefined)
  }

  lemma {:induction false} ChainKeepsKey(w: World, e: string, snap: seq<Tagged>, check: bool, k: string)
    requires KeepsKey(snap, k) && Has(w.store.attrs, k)
    ensures Has(Chain(w, e, snap, check).world.store.attrs, k)
    decreases |snap|
  {
    if snap != [] {
      ChainKeepsKey(Step(w, e, snap[0]), e, snap[1..], check, k);
    }
  }

  /** The reports of the hooks of `snap`, in call order. */
  function Reports(snap: seq<Tagged>): (errs: seq<ValidationError>)
    ensures snap == [] ==> errs == []
  {
    if snap == [] then [] else snap[0].listener.action.report + Reports(snap[1..])
  }

  /** A chain only ever appends to `errors`: exactly the reports of the hooks
      it called. */
  lemma {:induction false} ChainErrors(w: World, e: string, snap: seq<Tagged>, check: bool)
    ensures var r := Chain(w, e, snap, check);
      r.ran <= |snap| && r.world.store.errors == w.store.errors + Reports(snap[..r.ran])
    decreases |snap|
  {
    var r := Chain(w, e, snap, check);
    if snap == [] {
      assert snap[..r.ran] == [];
    } else {
      var t := snap[0];
      var w1 := Step(w, e, t);
      var a := t.listener.action.report;
      assert w1.store.errors == w.store.errors + a by {
        StepErrors(w, e, t);
      }
      assert Reports(snap[..r.ran]) == a + Reports(snap[1..][..r.ran - 1]) by {
        assert snap[..r.ran] == [t] + snap[1..][..r.ran - 1];
      }
      if Stops(w1, t, check) {
        assert r.world == w1 && r.ran == 1 by {
          ChainStep(w, e, snap, check);
        }
        assert snap[1..][..0] == [];
      } else {
        var rest := Chain(w1, e, snap[1..], check);
        assert r.world == rest.world && r.ran == rest.ran + 1 by {
          ChainStep(w, e, snap, check);
        }
        var b := Reports(snap[1..][..rest.ran]);
        assert rest.world.store.errors == w1.store.errors + b by {
          ChainErrors(w1, e, snap[1..], check);
        }
        assert snap[1..][..r.ran - 1] == snap[1..][..rest.ran];
        AppendAssoc(w.store.errors, a, b);
      }
    }
  }

  /** Calling one hook appends its reports to `errors`. */
  lemma StepErrors(w: World, e: string, t: Tagged)
    ensures Step(w, e, t).store.errors == w.store.errors + t.listener.action.report
  {
  }

  lemma {:induction false} ReportsConcat(a: seq<Tagged>, b: seq<Tagged>)
    ensures Reports(a + b) == Reports(a) + Reports(b)
  {
    if a == [] {
      assert a + b == b;
    } else {
      assert (a + b)[0] == a[0];
      assert (a + b)[1..] == a[1..] + b;
      ReportsConcat(a[1..], b);
      AppendAssoc(a[0].listener.action.report, Reports(a[1..]), Reports(b));
    }
  }

  /** A save chain that starts with no errors stops at the first hook that
      reports anything: every hook called before the last one reported
      nothing, and `errors` ends up holding exactly the last hook's reports. */
  lemma {:induction false} ChainFirstError(w: World, e: string, snap: seq<Tagged>)
    requires w.store.errors == []
    ensures var r := Chain(w, e, snap, true);
      0 < r.ran <= |snap| ==> Reports(snap[..r.ran - 1]) == []
    decreases |snap|
  {
    var r := Chain(w, e, snap, true);
    if snap != [] && 0 < r.ran {
      var t := snap[0];
      var w1 := Step(w, e, t);
      StepErrors(w, e, t);
      ChainStep(w, e, snap, true);
      if Stops(w1, t, true) {
        assert snap[..0] == [];
      } else {
        var rest := Chain(w1, e, snap[1..], true);
        assert t.listener.action.report == [];
        ChainFirstError(w1, e, snap[1..]);
        if rest.ran == 0 {
          assert snap[..r.ran - 1] == [];
        } else {
          assert snap[..r.ran - 1] == [t] + snap[1..][..rest.ran - 1];
          ReportsConcat([t], snap[1..][..rest.ran - 1]);
        }
      }
    }
  }

  /** After a save chain that starts with no errors, `errors` holds exactly
      the reports of the last hook it called. */
  lemma ChainLastReport(w: World, e: string, snap: seq<Tagged>)
    requires w.store.errors == []
    ensures var r := Chain(w, e, snap, true);
      && r.ran <= |snap|
      && (0 < r.ran ==> r.world.store.errors == snap[r.ran - 1].listener.action.report)
      && (r.ran == 0 ==> r.world.store.errors == [])
  {
    var r := Chain(w, e, snap, true);
    ChainErrors(w, e, snap, true);
    ChainFirstError(w, e, snap);
    if 0 < r.ran {
      ReportsUpTo(snap, r.ran);
    } else {
      assert snap[..0] == [];
    }
  }

  lemma ReportsUpTo(snap: seq<Tagged>, n: nat)
    requires 0 < n <= |snap| && Reports(snap[..n - 1]) == []
    ensures Reports(snap[..n]) == snap[n - 1].listener.action.report
  {
    var last := snap[n - 1];
    assert snap[..n] == snap[..n - 1] + [last];
    assert [last][1..] == [];
    ReportsConcat(snap[..n - 1], [last]);
  }

  /** The hook a chain stops at, seen from the hooks before it: when hooks
      `0 .. k-1` go on (and, on a save chain, report nothing) and hook `k`
      hands its continuation an error (or, on a save chain, reports), the run
      calls exactly `k + 1` hooks and ends with that hook's error, or with
      "validation failed" and that hook's reports in `errors`. */
  lemma {:induction false} ChainStopsAt(w: World, e: string, snap: seq<Tagged>, check: bool, k: nat)
    requires k < |snap|
    requires forall i :: 0 <= i < k ==>
      snap[i].listener.action.outcome.Pass? && (check ==> snap[i].listener.action.report == [])
    requires snap[k].listener.action.outcome.Fail? || (check && snap[k].listener.action.report != [])
    requires check ==> w.store.errors == []
    ensures var r := Chain(w, e, snap, check);
      && r.ran == k + 1
      && r.outcome == (if snap[k].listener.action.outcome.Fail? then snap[k].listener.action.outcome
                       else Fail(ValidationFailed))
      && (check ==> r.world.store.errors == snap[k].listener.action.report)
    decreases k
  {
    var t := snap[0];
    var w1 := Step(w, e, t);
    StepErrors(w, e, t);
    ChainStep(w, e, snap, check);
    if k > 0 {
      assert t.listener.action.outcome.Pass?;
      assert !Stops(w1, t, check);
      var tail := snap[1..];
      forall i | 0 <= i < k - 1
        ensures tail[i].listener.action.outcome.Pass? && (check ==> tail[i].listener.action.report == [])
      {
        assert tail[i] == snap[i + 1];
      }
      assert tail[k - 1] == snap[k];
      ChainStopsAt(w1, e, tail, check, k - 1);
    }
  }

  /** Validation emits `valid` or `invalid` only. */
  lemma ValidateQuiet(w: World, vs: seq<Validator>, e: string)
    requires e != "valid" && e != "invalid"
    ensures Quiet(w, Validate(w, vs).0, e)
  {
    var checked := w.(store := w.store.(errors := Failures(vs, w.store.attrs)));
    AnnounceQuiet(checked, "valid", [Null], e);
    AnnounceQuiet(checked, "invalid", [], e);
  }

  lemma ValidateKeeps(w: World, vs: seq<Validator>, kept: string)
    ensures Keeps(w, Validate(w, vs).0, kept)
  {
    var checked := w.(store := w.store.(errors := Failures(vs, w.store.attrs)));
    AnnounceKeeps(checked, "valid", [Null], kept);
    AnnounceKeeps(checked, "invalid", [], kept);
  }
}
