/** What `save` promises: invalid instances never reach the adapter, the
    `saving` chain stops at the first hook that leaves errors, validation runs
    again after it, a saved instance takes the create branch exactly when it
    is new, hooks are called once per save and stay registered, and the
    adapter's answer decides the attributes. */
module SaveProps {
  import opened Values
  import opened Outcomes
  import opened Events
  import opened Validation
  import opened Lifecycle
  import opened HookProps

  lemma CommitQuiet(w: World, resp: Attrs, created: bool, e: string)
    requires e != "save" && e != (if created then "create" else "update")
    ensures Quiet(w, Commit(w, resp, created), e)
  {
    var announced := Announce(w, if created then "create" else "update", []);
    AnnounceQuiet(w, if created then "create" else "update", [], e);
    EmittedQuiet(announced.cls, "save", [], e);
  }

  lemma CommitKeeps(w: World, resp: Attrs, created: bool, kept: string)
    ensures Keeps(w, Commit(w, resp, created), kept)
  {
    var announced := Announce(w, if created then "create" else "update", []);
    AnnounceKeeps(w, if created then "create" else "update", [], kept);
    EmittedRetains(announced.cls, "save", []);
  }

  /** An instance that fails validation is not saved: the callback gets
      "validation failed", no adapter operation is called, and the attributes
      are untouched; `errors` holds the validators' complaints. */
  lemma SaveInvalid(w: World, def: Definition, reply: Reply)
    requires Failures(def.validators, w.store.attrs) != []
    ensures var s := Save(w, def, reply);
      && s.outcome == Fail(ValidationFailed)
      && Message(s.outcome.error) == "validation failed"
      && s.call == NoCall
      && s.world.store.attrs == w.store.attrs
      && s.world.store.errors == Failures(def.validators, w.store.attrs)
  {
  }

  /** Hook `k` of a chain for `e` is where the run stops: the hooks before it
      hand their continuation no error and report nothing, and hook `k`
      hands its continuation an error or reports something. */
  predicate StopsAt(snap: seq<Tagged>, k: nat)
  {
    && k < |snap|
    && (forall i :: 0 <= i < k ==>
          snap[i].listener.action.outcome.Pass? && snap[i].listener.action.report == [])
    && (snap[k].listener.action.outcome.Fail? || snap[k].listener.action.report != [])
  }

  /** What a save chain stopped at hook `k` hands the callback: the hook's own
      error, or "validation failed" when the hook only reported. */
  function StopOutcome(t: Tagged): Outcome
  {
    if t.listener.action.outcome.Fail? then t.listener.action.outcome else Fail(ValidationFailed)
  }

  /** A valid instance whose `saving` chain stops at hook `k` fails with that
      hook's error (or "validation failed" when the hook reported errors);
      `errors` holds exactly that hook's reports, the hooks up to `k` are
      called once each at their scope, no later hook runs and the adapter is
      not called. */
  lemma SavingStopsAt(w: World, def: Definition, reply: Reply, k: nat)
    requires Failures(def.validators, w.store.attrs) == []
    requires StopsAt(HookSnapshot(w, "saving"), k)
    ensures var s := Save(w, def, reply);
      var snap := HookSnapshot(w, "saving");
      && s.outcome == StopOutcome(snap[k])
      && s.call == NoCall
      && s.world.store.errors == snap[k].listener.action.report
      && forall fromClass: bool ::
           Calls(s.world, "saving", fromClass) == Calls(w, "saving", fromClass) + ScopeIds(snap[..k + 1], fromClass)
  {
    LifecycleEventsArePlain();
    var (w1, valid) := Validate(w, def.validators);
    ValidateQuiet(w, def.validators, "saving");
    var snap := HookSnapshot(w1, "saving");
    assert snap == HookSnapshot(w, "saving");
    ChainStopsAt(w1, "saving", snap, true, k);
    var ch := Chain(w1, "saving", snap, true);
    forall fromClass: bool
      ensures Calls(ch.world, "saving", fromClass) == Calls(w, "saving", fromClass) + ScopeIds(snap[..k + 1], fromClass)
    {
      ChainCalls(w1, "saving", snap, true, fromClass);
    }
    assert Prepare(w, def) == RunSaving(w1, def);
  }

  /** A valid instance whose `saving` hooks all pass without writing or
      reporting, and whose `creating` chain (when it is new) or `updating`
      chain (otherwise) stops at hook `k`, fails with that hook's error (or
      "validation failed" when the hook reported errors), `errors` holds
      exactly that hook's reports and the adapter is not called. */
  lemma BranchStopsAt(w: World, def: Definition, reply: Reply, k: nat)
    requires Failures(def.validators, w.store.attrs) == []
    requires Harmless(HookSnapshot(w, "saving"))
    requires StopsAt(HookSnapshot(w, if IsNew(w.store, def.primaryKey) then "creating" else "updating"), k)
    ensures var s := Save(w, def, reply);
      var snap := HookSnapshot(w, if IsNew(w.store, def.primaryKey) then "creating" else "updating");
      && s.outcome == StopOutcome(snap[k])
      && s.call == NoCall
      && s.world.store.errors == snap[k].listener.action.report
  {
    LifecycleEventsArePlain();
    var e := if IsNew(w.store, def.primaryKey) then "creating" else "updating";
    var (w1, valid) := Validate(w, def.validators);
    ValidateQuiet(w, def.validators, "saving");
    ValidateQuiet(w, def.validators, e);
    var saving := Chain(w1, "saving", HookSnapshot(w1, "saving"), true);
    ChainHarmless(w1, "saving", HookSnapshot(w1, "saving"));
    ChainQuiet(w1, "saving", HookSnapshot(w1, "saving"), true, e);
    RecheckStopsAt(saving.world, def, e, k);
    assert Prepare(w, def) == RunSaving(w1, def);
  }

  lemma RecheckStopsAt(ws: World, def: Definition, e: string, k: nat)
    requires Failures(def.validators, ws.store.attrs) == []
    requires e == if IsNew(ws.store, def.primaryKey) then "creating" else "updating"
    requires StopsAt(HookSnapshot(ws, e), k)
    ensures var p := Recheck(ws, def);
      var snap := HookSnapshot(ws, e);
      && p.outcome == StopOutcome(snap[k])
      && p.call == NoCall
      && p.world.store.errors == snap[k].listener.action.report
  {
    LifecycleEventsArePlain();
    var (w2, still) := Validate(ws, def.validators);
    ValidateQuiet(ws, def.validators, e);
    ChainStopsAt(w2, e, HookSnapshot(w2, e), true, k);
  }

  /** Validation runs again after the `saving` chain: a hook that clears a
      required attribute makes the save fail with that attribute's complaint
      only, and the adapter is not called. */
  lemma SavingHookInvalidates(w: World, def: Definition, reply: Reply, l: Listener)
    requires def.validators == [MustBeTruthy("name", "is required"), MustBeTruthy("age", "is required")]
    requires w.store.attrs == map["name" := Str("marie"), "age" := Num(30)]
    requires Listeners(w.cls, "saving") == [l] && Listeners(w.own, "saving") == []
    requires l.action == Action(Write("name", Null), [], Pass)
    ensures var s := Save(w, def, reply);
      && s.outcome == Fail(ValidationFailed)
      && s.call == NoCall
      && s.world.store.errors == [ValidationError("name", "is required")]
  {
    var vs := def.validators;
    assert Passes(vs[0], w.store.attrs) && Passes(vs[1], w.store.attrs);
    var (w1, valid) := Validate(w, vs);
    ValidateQuiet(w, vs, "saving");
    RunSavingInvalidates(w1, def, l);
    assert Prepare(w, def) == RunSaving(w1, def);
  }

  lemma RunSavingInvalidates(w1: World, def: Definition, l: Listener)
    requires def.validators == [MustBeTruthy("name", "is required"), MustBeTruthy("age", "is required")]
    requires w1.store.attrs == map["name" := Str("marie"), "age" := Num(30)] && w1.store.errors == []
    requires Listeners(w1.cls, "saving") == [l] && Listeners(w1.own, "saving") == []
    requires l.action == Action(Write("name", Null), [], Pass)
    ensures var p := RunSaving(w1, def);
      && p.outcome == Fail(ValidationFailed)
      && p.call == NoCall
      && p.world.store.errors == [ValidationError("name", "is required")]
  {
    var snap := HookSnapshot(w1, "saving");
    assert snap == [Tagged(true, l)];
    ChainStep(w1, "saving", snap, true);
    var ch := Chain(w1, "saving", snap, true);
    assert snap[1..] == [];
    var after := ch.world.store.attrs;
    assert Get(after, "name") == Null && Get(after, "age") == Num(30);
    NameCleared(def.validators, after);
    RecheckInvalid(ch.world, def);
    assert ch.outcome == Pass;
    assert RunSaving(w1, def) == Recheck(ch.world, def);
  }

  lemma NameCleared(vs: seq<Validator>, attrs: Attrs)
    requires vs == [MustBeTruthy("name", "is required"), MustBeTruthy("age", "is required")]
    requires Get(attrs, "name") == Null && Get(attrs, "age") == Num(30)
    ensures Failures(vs, attrs) == [ValidationError("name", "is required")]
  {
    assert !Passes(vs[0], attrs) && Passes(vs[1], attrs);
    assert vs[..1] == [vs[0]];
  }

  /** Validation after the `saving` chain fails the save exactly as the first
      validation does. */
  lemma RecheckInvalid(ws: World, def: Definition)
    requires Failures(def.validators, ws.store.attrs) != []
    ensures var p := Recheck(ws, def);
      && p.outcome == Fail(ValidationFailed) && p.call == NoCall
      && p.world.store.errors == Failures(def.validators, ws.store.attrs)
  {
  }

  /** The hooks a save runs and the listeners it calls never take a
      persistent registration off and never add one. */
  lemma PrepareKeeps(w: World, def: Definition, kept: string)
    ensures Keeps(w, Prepare(w, def).world, kept)
  {
    var (w1, valid) := Validate(w, def.validators);
    ValidateKeeps(w, def.validators, kept);
    if valid {
      RunSavingKeeps(w1, def, kept);
      KeepsTransitive(w, w1, RunSaving(w1, def).world, kept);
    }
  }

  lemma RunSavingKeeps(w1: World, def: Definition, kept: string)
    ensures Keeps(w1, RunSaving(w1, def).world, kept)
  {
    var saving := Chain(w1, "saving", HookSnapshot(w1, "saving"), true);
    ChainKeeps(w1, "saving", HookSnapshot(w1, "saving"), true, kept);
    if !saving.outcome.Fail? {
      RecheckKeeps(saving.world, def, kept);
      KeepsTransitive(w1, saving.world, Recheck(saving.world, def).world, kept);
    }
  }

  lemma RecheckKeeps(ws: World, def: Definition, kept: string)
    ensures Keeps(ws, Recheck(ws, def).world, kept)
  {
    var (w2, still) := Validate(ws, def.validators);
    ValidateKeeps(ws, def.validators, kept);
    if still {
      RunBranchKeeps(w2, def, kept);
      KeepsTransitive(ws, w2, RunBranch(w2, def).world, kept);
    }
  }

  lemma RunBranchKeeps(w2: World, def: Definition, kept: string)
    ensures Keeps(w2, RunBranch(w2, def).world, kept)
  {
    if IsNew(w2.store, def.primaryKey) {
      ChainKeeps(w2, "creating", HookSnapshot(w2, "creating"), true, kept);
    } else {
      ChainKeeps(w2, "updating", HookSnapshot(w2, "updating"), true, kept);
    }
  }

  /** Saving does not consume the listeners it runs, except fire-once ones. */
  lemma SaveKeeps(w: World, def: Definition, reply: Reply, kept: string)
    ensures Keeps(w, Save(w, def, reply).world, kept)
  {
    var p := Prepare(w, def);
    PrepareKeeps(w, def, kept);
    if p.call != NoCall && reply.Saved? {
      CommitKeeps(p.world, reply.attrs, p.call == CreateCall, kept);
    }
  }

  /** The save of an instance that is not new, and whose `saving` hooks do not
      unset its primary key, takes the update branch: no `creating` hook runs
      and no `create` listener is called, at either scope. */
  lemma SaveNotNewUpdates(w: World, def: Definition, reply: Reply)
    requires !IsNew(w.store, def.primaryKey)
    requires KeepsKey(HookSnapshot(w, "saving"), def.primaryKey)
    ensures var s := Save(w, def, reply);
      && s.call != CreateCall
      && Quiet(w, s.world, "creating")
      && Quiet(w, s.world, "create")
  {
    var (w1, valid) := Validate(w, def.validators);
    ValidateQuiet(w, def.validators, "saving");
    ValidateQuiet(w, def.validators, "creating");
    ValidateQuiet(w, def.validators, "create");
    if valid {
      RunSavingNoCreate(w1, def);
    }
    var p := Prepare(w, def);
    if p.call != NoCall && reply.Saved? {
      CommitQuiet(p.world, reply.attrs, false, "creating");
      CommitQuiet(p.world, reply.attrs, false, "create");
    }
  }

  /** A stage of `save` that neither takes the create branch nor touches the
      `creating` and `create` registrations. */
  ghost predicate NoCreate(w: World, p: Saving)
  {
    p.call != CreateCall && Quiet(w, p.world, "creating") && Quiet(w, p.world, "create")
  }

  lemma RunSavingNoCreate(w1: World, def: Definition)
    requires !IsNew(w1.store, def.primaryKey)
    requires KeepsKey(HookSnapshot(w1, "saving"), def.primaryKey)
    ensures NoCreate(w1, RunSaving(w1, def))
  {
    LifecycleEventsArePlain();
    var snap := HookSnapshot(w1, "saving");
    var saving := Chain(w1, "saving", snap, true);
    ChainQuiet(w1, "saving", snap, true, "creating");
    ChainQuiet(w1, "saving", snap, true, "create");
    ChainKeepsKey(w1, "saving", snap, true, def.primaryKey);
    if saving.outcome.Pass? {
      RecheckNoCreate(saving.world, def);
    }
  }

  lemma RecheckNoCreate(ws: World, def: Definition)
    requires !IsNew(ws.store, def.primaryKey)
    ensures NoCreate(ws, Recheck(ws, def))
  {
    var (w2, still) := Validate(ws, def.validators);
    ValidateQuiet(ws, def.validators, "creating");
    ValidateQuiet(ws, def.validators, "create");
    if still {
      RunBranchNoCreate(w2, def);
    }
  }

  lemma RunBranchNoCreate(w2: World, def: Definition)
    requires !IsNew(w2.store, def.primaryKey)
    ensures NoCreate(w2, RunBranch(w2, def))
  {
    LifecycleEventsArePlain();
    ChainQuiet(w2, "updating", HookSnapshot(w2, "updating"), true, "creating");
    ChainQuiet(w2, "updating", HookSnapshot(w2, "updating"), true, "create");
  }

  /** A save that reaches the create operation called every `creating` hook
      registered when it started, once each, at each scope; symmetrically
      for `updating`. */
  lemma SaveCallsBranchHooks(w: World, def: Definition, reply: Reply, fromClass: bool)
    ensures var s := Save(w, def, reply);
      var e := if s.call == CreateCall then "creating" else "updating";
      s.call != NoCall ==>
        Calls(s.world, e, fromClass) ==
        Calls(w, e, fromClass) + Ids(Listeners(if fromClass then w.cls else w.own, e))
  {
    var (w1, valid) := Validate(w, def.validators);
    ValidateQuiet(w, def.validators, "creating");
    ValidateQuiet(w, def.validators, "updating");
    if valid {
      RunSavingCallsBranch(w1, def, fromClass);
    }
    var p := Prepare(w, def);
    if p.call != NoCall && reply.Saved? {
      CommitQuiet(p.world, reply.attrs, p.call == CreateCall, "creating");
      CommitQuiet(p.world, reply.attrs, p.call == CreateCall, "updating");
    }
  }

  /** A stage of `save` that reaches an adapter operation called each hook of
      that operation's branch once, at the scope `fromClass` names. */
  ghost predicate CalledBranch(w: World, p: Saving, fromClass: bool)
  {
    var e := if p.call == CreateCall then "creating" else "updating";
    p.call != NoCall ==>
      Calls(p.world, e, fromClass) ==
      Calls(w, e, fromClass) + Ids(Listeners(if fromClass then w.cls else w.own, e))
  }

  lemma RunSavingCallsBranch(w1: World, def: Definition, fromClass: bool)
    ensures CalledBranch(w1, RunSaving(w1, def), fromClass)
  {
    LifecycleEventsArePlain();
    var snap := HookSnapshot(w1, "saving");
    var saving := Chain(w1, "saving", snap, true);
    ChainQuiet(w1, "saving", snap, true, "creating");
    ChainQuiet(w1, "saving", snap, true, "updating");
    if saving.outcome.Pass? {
      RecheckCallsBranch(saving.world, def, fromClass);
    }
  }

  lemma RecheckCallsBranch(ws: World, def: Definition, fromClass: bool)
    ensures CalledBranch(ws, Recheck(ws, def), fromClass)
  {
    var (w2, still) := Validate(ws, def.validators);
    ValidateQuiet(ws, def.validators, "creating");
    ValidateQuiet(ws, def.validators, "updating");
    if still {
      RunBranchCallsBranch(w2, def, fromClass);
    }
  }

  lemma RunBranchCallsBranch(w2: World, def: Definition, fromClass: bool)
    ensures CalledBranch(w2, RunBranch(w2, def), fromClass)
  {
    LifecycleEventsArePlain();
    var e := if IsNew(w2.store, def.primaryKey) then "creating" else "updating";
    var snap := HookSnapshot(w2, e);
    ChainCalls(w2, e, snap, true, fromClass);
    var hooks := Chain(w2, e, snap, true);
    if hooks.outcome.Pass? {
      assert snap[..hooks.ran] == snap;
    }
    HookSnapshotIds(w2, e);
  }

  /** Hooks that write nothing, report nothing and pass. */
  predicate Harmless(snap: seq<Tagged>)
  {
    forall i :: 0 <= i < |snap| ==> snap[i].listener.action == Action(NoWrite, [], Pass)
  }

  lemma {:induction false} ChainHarmless(w: World, e: string, snap: seq<Tagged>)
    requires Harmless(snap) && w.store.errors == []
    ensures Chain(w, e, snap, true).outcome == Pass
    ensures Chain(w, e, snap, true).world.store == w.store
    decreases |snap|
  {
    if snap != [] {
      ChainStep(w, e, snap, true);
      assert Harmless(snap[1..]) by {
        forall i | 0 <= i < |snap[1..]| ensures snap[1..][i] == snap[i + 1] { }
      }
      ChainHarmless(Step(w, e, snap[0]), e, snap[1..]);
    }
  }

  /** A new instance that satisfies its validators and whose `saving` and
      `creating` hooks all pass without reporting or writing reaches the
      create operation. */
  lemma ReachesCreate(w: World, def: Definition)
    requires Failures(def.validators, w.store.attrs) == [] && IsNew(w.store, def.primaryKey)
    requires Harmless(HookSnapshot(w, "saving")) && Harmless(HookSnapshot(w, "creating"))
    ensures Prepare(w, def).call == CreateCall
  {
    LifecycleEventsArePlain();
    var (w1, valid) := Validate(w, def.validators);
    ValidateQuiet(w, def.validators, "saving");
    ValidateQuiet(w, def.validators, "creating");
    var saving := Chain(w1, "saving", HookSnapshot(w1, "saving"), true);
    ChainHarmless(w1, "saving", HookSnapshot(w1, "saving"));
    ChainQuiet(w1, "saving", HookSnapshot(w1, "saving"), true, "creating");
    RecheckCreates(saving.world, def);
    assert RunSaving(w1, def) == Recheck(saving.world, def);
    assert Prepare(w, def) == RunSaving(w1, def);
  }

  lemma RecheckCreates(ws: World, def: Definition)
    requires Failures(def.validators, ws.store.attrs) == [] && IsNew(ws.store, def.primaryKey)
    requires Harmless(HookSnapshot(ws, "creating"))
    ensures Recheck(ws, def).call == CreateCall
  {
    LifecycleEventsArePlain();
    var (w2, still) := Validate(ws, def.validators);
    ValidateQuiet(ws, def.validators, "creating");
    ChainHarmless(w2, "creating", HookSnapshot(w2, "creating"));
  }

  /** An instance that is not new, satisfies its validators and whose
      `saving` and `updating` hooks all pass without reporting or writing
      reaches the update operation. */
  lemma ReachesUpdate(w: World, def: Definition)
    requires Failures(def.validators, w.store.attrs) == [] && !IsNew(w.store, def.primaryKey)
    requires Harmless(HookSnapshot(w, "saving")) && Harmless(HookSnapshot(w, "updating"))
    ensures Prepare(w, def).call == UpdateCall
  {
    LifecycleEventsArePlain();
    var (w1, valid) := Validate(w, def.validators);
    ValidateQuiet(w, def.validators, "saving");
    ValidateQuiet(w, def.validators, "updating");
    var saving := Chain(w1, "saving", HookSnapshot(w1, "saving"), true);
    ChainHarmless(w1, "saving", HookSnapshot(w1, "saving"));
    ChainQuiet(w1, "saving", HookSnapshot(w1, "saving"), true, "updating");
    RecheckUpdates(saving.world, def);
    assert RunSaving(w1, def) == Recheck(saving.world, def);
    assert Prepare(w, def) == RunSaving(w1, def);
  }

  lemma RecheckUpdates(ws: World, def: Definition)
    requires Failures(def.validators, ws.store.attrs) == [] && !IsNew(ws.store, def.primaryKey)
    requires Harmless(HookSnapshot(ws, "updating"))
    ensures Recheck(ws, def).call == UpdateCall
  {
    LifecycleEventsArePlain();
    var (w2, still) := Validate(ws, def.validators);
    ValidateQuiet(ws, def.validators, "updating");
    ChainHarmless(w2, "updating", HookSnapshot(w2, "updating"));
  }

  lemma SubMultisetSize(a: multiset<Listener>, b: multiset<Listener>)
    requires a <= b
    ensures |a| <= |b|
  {
    assert b == a + (b - a);
  }

  /** A list that keeps the persistent part of `[l]` and loses only fire-once
      entries of it is `[l]` itself. */
  lemma RetainsSingle(s: seq<Listener>, s': seq<Listener>, l: Listener)
    requires s == [l] && !l.once
    requires Persistent(s') == Persistent(s) && multiset(s') <= multiset(s)
    ensures s' == [l]
  {
    assert [l][1..] == [];
    assert Persistent(s) == [l];
    SubMultisetSize(multiset(s'), multiset(s));
    assert |s'| <= 1;
    assert s' != [];
    assert s'[0] in multiset(s');
  }

  lemma RetainsNone(s: seq<Listener>, s': seq<Listener>)
    requires s == [] && multiset(s') <= multiset(s)
    ensures s' == []
  {
    SubMultisetSize(multiset(s'), multiset(s));
  }

  /** Running a persistent class-scope `creating` hook does not consume it: two
      new instances that satisfy the class's validators, saved one after the
      other, call it twice. */
  lemma TwoSavesCallCreatingTwice(def: Definition, l: Listener, a: World, b: World, ra: Reply, rb: Reply, s1: Saving, s2: Saving)
    requires Failures(def.validators, a.store.attrs) == [] && Failures(def.validators, b.store.attrs) == []
    requires !l.once && l.action == Action(NoWrite, [], Pass)
    requires Listeners(a.cls, "creating") == [l] && Listeners(a.cls, "saving") == []
    requires a.own == Registry(map[], []) && b.own == Registry(map[], [])
    requires IsNew(a.store, def.primaryKey) && IsNew(b.store, def.primaryKey)
    requires s1 == Save(a, def, ra) && b.cls == s1.world.cls && s2 == Save(b, def, rb)
    ensures s1.call == CreateCall && s2.call == CreateCall
    ensures FiredFor(s2.world.cls.fired, "creating") == FiredFor(a.cls.fired, "creating") + [l.id] + [l.id]
  {
    SaveCreatingOnce(a, def, l, ra);
    SaveCreatingOnce(b, def, l, rb);
  }

  /** One save of a new instance whose only hook is a persistent class-scope
      `creating` hook calls it once and leaves it registered. */
  lemma SaveCreatingOnce(w: World, def: Definition, l: Listener, r: Reply)
    requires Failures(def.validators, w.store.attrs) == [] && IsNew(w.store, def.primaryKey)
    requires !l.once && l.action == Action(NoWrite, [], Pass)
    requires Listeners(w.cls, "creating") == [l] && Listeners(w.cls, "saving") == []
    requires w.own == Registry(map[], [])
    ensures var s := Save(w, def, r);
      && s.call == CreateCall
      && FiredFor(s.world.cls.fired, "creating") == FiredFor(w.cls.fired, "creating") + [l.id]
      && Listeners(s.world.cls, "creating") == [l] && Listeners(s.world.cls, "saving") == []
  {
    assert HookSnapshot(w, "creating") == [Tagged(true, l)];
    assert HookSnapshot(w, "saving") == [];
    ReachesCreate(w, def);
    var s := Save(w, def, r);
    SaveCallsBranchHooks(w, def, r, true);
    SaveKeeps(w, def, r, "creating");
    SaveKeeps(w, def, r, "saving");
    RetainsSingle(Listeners(w.cls, "creating"), Listeners(s.world.cls, "creating"), l);
    RetainsNone(Listeners(w.cls, "saving"), Listeners(s.world.cls, "saving"));
    assert s.call == CreateCall;
    assert Ids([l]) == [l.id];
    assert Calls(s.world, "creating", true) == Calls(w, "creating", true) + [l.id];
  }

  /** The adapter's answer decides the outcome of a save that reaches it: a
      successful answer's attributes replace the current values and nothing is
      dirty any more; a refusal is handed to the callback and leaves the
      attributes as the hooks left them. */
  lemma SaveReply(w: World, def: Definition, reply: Reply)
    ensures var s := Save(w, def, reply);
      var p := Prepare(w, def);
      && (s.outcome.Pass? <==> s.call != NoCall && reply.Saved?)
      && (s.call != NoCall && reply.Refused? ==> s.outcome == Fail(reply.error))
      && (reply.Refused? ==> s.world.store.attrs == p.world.store.attrs)
      && (s.outcome.Pass? ==>
            && (forall k :: k in reply.attrs ==> Get(s.world.store.attrs, k) == reply.attrs[k])
            && (forall k :: k !in reply.attrs ==> Get(s.world.store.attrs, k) == Get(p.world.store.attrs, k))
            && s.world.store.dirty == map[])
  {
  }

  /** With hooks that write nothing, a refused save leaves every attribute as
      it was before the save. */
  lemma SaveRefusedKeepsAttrs(w: World, def: Definition, err: Error)
    requires Silent(HookSnapshot(w, "saving"))
    requires Silent(HookSnapshot(w, "creating")) && Silent(HookSnapshot(w, "updating"))
    ensures Save(w, def, Refused(err)).world.store.attrs == w.store.attrs
  {
    var (w1, valid) := Validate(w, def.validators);
    ValidateQuiet(w, def.validators, "saving");
    ValidateQuiet(w, def.validators, "creating");
    ValidateQuiet(w, def.validators, "updating");
    if valid {
      RunSavingSilent(w1, def);
    }
  }

  lemma RunSavingSilent(w1: World, def: Definition)
    requires Silent(HookSnapshot(w1, "saving"))
    requires Silent(HookSnapshot(w1, "creating")) && Silent(HookSnapshot(w1, "updating"))
    ensures RunSaving(w1, def).world.store.attrs == w1.store.attrs
  {
    LifecycleEventsArePlain();
    var snap := HookSnapshot(w1, "saving");
    var saving := Chain(w1, "saving", snap, true);
    ChainSilent(w1, "saving", snap, true);
    ChainQuiet(w1, "saving", snap, true, "creating");
    ChainQuiet(w1, "saving", snap, true, "updating");
    if saving.outcome.Pass? {
      RecheckSilent(saving.world, def);
    }
  }

  lemma RecheckSilent(ws: World, def: Definition)
    requires Silent(HookSnapshot(ws, "creating")) && Silent(HookSnapshot(ws, "updating"))
    ensures Recheck(ws, def).world.store.attrs == ws.store.attrs
  {
    var (w2, still) := Validate(ws, def.validators);
    ValidateQuiet(ws, def.validators, "creating");
    ValidateQuiet(ws, def.validators, "updating");
    if still {
      var e := if IsNew(w2.store, def.primaryKey) then "creating" else "updating";
      ChainSilent(w2, e, HookSnapshot(w2, e), true);
    }
  }
}
