/** What `remove` promises: a new instance is refused with "not saved" and the
    adapter is not called; otherwise the `removing` hooks run at both scopes
    without any validation, the adapter's answer decides the outcome, success
    sets `removed` and emits `remove`, and an error without a callback is
    emitted as `error`. */
module RemoveProps {
  import opened Values
  import opened Outcomes
  import opened Events
  import opened Validation
  import opened Lifecycle
  import opened HookProps

  /** Every hook of `snap` lets the run go on. */
  predicate AllPass(snap: seq<Tagged>)
  {
    forall i :: 0 <= i < |snap| ==> snap[i].listener.action.outcome.Pass?
  }

  /** The registry of one scope. */
  function Scope(w: World, fromClass: bool): Registry
  {
    if fromClass then w.cls else w.own
  }

  /** A new instance cannot be removed: the callback gets "not saved", the
      adapter is not called, the instance is untouched and no `removing` hook
      or `remove` listener runs. */
  lemma RemoveNew(w: World, def: Definition, reply: Outcome, callback: bool)
    requires IsNew(w.store, def.primaryKey)
    ensures var s := Remove(w, def, reply, callback);
      && s.outcome == Fail(NotSaved)
      && Message(s.outcome.error) == "not saved"
      && !s.called
      && s.world.store == w.store
      && Quiet(w, s.world, "removing")
      && Quiet(w, s.world, "remove")
  {
    AnnounceQuiet(w, "error", [Str("not saved")], "removing");
    AnnounceQuiet(w, "error", [Str("not saved")], "remove");
  }

  /** Removal never looks at the validators. */
  lemma RemoveIgnoresValidators(w: World, def: Definition, vs: seq<Validator>, reply: Outcome, callback: bool)
    ensures Remove(w, def.(validators := vs), reply, callback) == Remove(w, def, reply, callback)
  {
  }

  /** The `removing` chain runs without the errors check: when its hooks all
      go on, the adapter is called and its answer is the outcome, whatever
      errors the hooks reported; `errors` holds exactly those reports. */
  lemma RemoveSkipsValidation(w: World, def: Definition, reply: Outcome, callback: bool)
    requires !IsNew(w.store, def.primaryKey)
    requires AllPass(HookSnapshot(w, "removing"))
    ensures var s := Remove(w, def, reply, callback);
      && s.called
      && s.outcome == reply
      && s.world.store.errors == w.store.errors + Reports(HookSnapshot(w, "removing"))
  {
    var snap := HookSnapshot(w, "removing");
    ChainUncheckedPasses(w, "removing", snap);
    ChainErrors(w, "removing", snap, false);
    assert snap[..|snap|] == snap;
  }

  /** A removal the adapter accepts sets `removed`, passes, and calls every
      `removing` hook and then every `remove` listener registered when it
      started, once each, at each scope. */
  lemma RemoveSucceeds(w: World, def: Definition, callback: bool, fromClass: bool)
    requires !IsNew(w.store, def.primaryKey)
    requires AllPass(HookSnapshot(w, "removing"))
    ensures var s := Remove(w, def, Pass, callback);
      && s.outcome == Pass
      && s.called
      && s.world.store.removed
      && Calls(s.world, "removing", fromClass) ==
           Calls(w, "removing", fromClass) + Ids(Listeners(Scope(w, fromClass), "removing"))
      && Calls(s.world, "remove", fromClass) ==
           Calls(w, "remove", fromClass) + Ids(Listeners(Scope(w, fromClass), "remove"))
  {
    LifecycleEventsArePlain();
    var snap := HookSnapshot(w, "removing");
    var hooks := Chain(w, "removing", snap, false);
    ChainUncheckedPasses(w, "removing", snap);
    ChainCalls(w, "removing", snap, false, fromClass);
    assert snap[..hooks.ran] == snap;
    HookSnapshotIds(w, "removing");
    ChainQuiet(w, "removing", snap, false, "remove");
    var done := hooks.world.(store := hooks.world.store.(removed := true));
    AnnounceQuiet(done, "remove", [], "removing");
    EmittedCalls(Scope(done, fromClass), "remove", [], "remove");
  }

  /** An adapter error is the outcome and `removed` stays as it was. Without a
      callback every instance-scope `error` listener is called with the
      error's message, after everything else the removal did; with a callback
      no `error` listener is called. */
  lemma RemoveAdapterError(w: World, def: Definition, err: Error, callback: bool)
    requires !IsNew(w.store, def.primaryKey)
    requires AllPass(HookSnapshot(w, "removing"))
    ensures var s := Remove(w, def, Fail(err), callback);
      && s.outcome == Fail(err)
      && s.called
      && s.world.store.removed == w.store.removed
      && (callback ==> Quiet(w, s.world, "error"))
      && (!callback ==>
            var fs := Firings("error", Listeners(w.own, "error"), [Str(Message(err))]);
            |fs| <= |s.world.own.fired| && s.world.own.fired[|s.world.own.fired| - |fs|..] == fs)
  {
    LifecycleEventsArePlain();
    var snap := HookSnapshot(w, "removing");
    var hooks := Chain(w, "removing", snap, false);
    ChainUncheckedPasses(w, "removing", snap);
    ChainQuiet(w, "removing", snap, false, "error");
    ChainKeepsRemoved(w, "removing", snap, false);
    assert Remove(w, def, Fail(err), callback) == Removal(Report(hooks.world, err, callback), Fail(err), true);
    if !callback {
      var fs := Firings("error", Listeners(w.own, "error"), [Str(Message(err))]);
      var fired := Report(hooks.world, err, callback).own.fired;
      assert fired == hooks.world.own.fired + fs;
      assert fired[|fired| - |fs|..] == fs;
    }
  }

  /** A `removing` hook that hands its continuation an error, after hooks
      that all went on, ends the removal with that error: the adapter is not
      called, `removed` stays as it was, no later hook runs and no `remove`
      listener is called. Without a callback every instance-scope `error`
      listener is called with the error's message, after everything else the
      removal did; with a callback no `error` listener is called. */
  lemma RemoveHookFails(w: World, def: Definition, reply: Outcome, callback: bool, k: nat)
    requires !IsNew(w.store, def.primaryKey)
    requires var snap := HookSnapshot(w, "removing");
      && k < |snap|
      && AllPass(snap[..k])
      && snap[k].listener.action.outcome.Fail?
    ensures var s := Remove(w, def, reply, callback);
      var snap := HookSnapshot(w, "removing");
      var err := snap[k].listener.action.outcome.error;
      && s.outcome == Fail(err)
      && !s.called
      && s.world.store.removed == w.store.removed
      && (forall fromClass: bool ::
            Calls(s.world, "removing", fromClass) == Calls(w, "removing", fromClass) + ScopeIds(snap[..k + 1], fromClass))
      && Quiet(w, s.world, "remove")
      && (callback ==> Quiet(w, s.world, "error"))
      && (!callback ==>
            var fs := Firings("error", Listeners(w.own, "error"), [Str(Message(err))]);
            |fs| <= |s.world.own.fired| && s.world.own.fired[|s.world.own.fired| - |fs|..] == fs)
  {
    LifecycleEventsArePlain();
    var snap := HookSnapshot(w, "removing");
    var err := snap[k].listener.action.outcome.error;
    forall i | 0 <= i < k
      ensures snap[i].listener.action.outcome.Pass?
    {
      assert snap[..k][i] == snap[i];
    }
    ChainStopsAt(w, "removing", snap, false, k);
    var hooks := Chain(w, "removing", snap, false);
    forall fromClass: bool
      ensures Calls(hooks.world, "removing", fromClass) == Calls(w, "removing", fromClass) + ScopeIds(snap[..k + 1], fromClass)
    {
      ChainCalls(w, "removing", snap, false, fromClass);
    }
    ChainQuiet(w, "removing", snap, false, "error");
    ChainQuiet(w, "removing", snap, false, "remove");
    ChainKeepsRemoved(w, "removing", snap, false);
    var msg := [Str(Message(err))];
    AnnounceQuiet(hooks.world, "error", msg, "removing");
    AnnounceQuiet(hooks.world, "error", msg, "remove");
    if !callback {
      var fs := Firings("error", Listeners(w.own, "error"), msg);
      var fired := Emitted(hooks.world.own, "error", msg).fired;
      assert fired == hooks.world.own.fired + fs;
      assert fired[|fired| - |fs|..] == fs;
    }
  }

  /** Hooks never change the `removed` flag. */
  lemma {:induction false} ChainKeepsRemoved(w: World, e: string, snap: seq<Tagged>, check: bool)
    ensures Chain(w, e, snap, check).world.store.removed == w.store.removed
    decreases |snap|
  {
    if snap != [] {
      ChainStep(w, e, snap, check);
      ChainKeepsRemoved(Step(w, e, snap[0]), e, snap[1..], check);
    }
  }
}
