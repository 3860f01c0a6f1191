/** The listeners a save calls: every `saving` hook once at each scope when
    the save reaches the adapter and, after a successful answer, the `create`
    (or `update`) listeners at both scopes and the `save` listeners at class
    scope. */
module SaveEvents {
  import opened Values
  import opened Outcomes
  import opened Events
  import opened Validation
  import opened Lifecycle
  import opened HookProps
  import opened SaveProps

  /** The events a save fires only once the adapter has answered. */
  predicate AfterEvent(e: string)
  {
    e == "create" || e == "update" || e == "save"
  }

  /** Everything a save does before the adapter is called leaves the
      after-answer events alone. */
  lemma PrepareQuietAfter(w: World, def: Definition, e: string)
    requires AfterEvent(e)
    ensures Quiet(w, Prepare(w, def).world, e)
  {
    var (w1, valid) := Validate(w, def.validators);
    ValidateQuiet(w, def.validators, e);
    if valid {
      RunSavingQuietAfter(w1, def, e);
      assert Prepare(w, def) == RunSaving(w1, def);
    }
  }

  lemma RunSavingQuietAfter(w1: World, def: Definition, e: string)
    requires AfterEvent(e)
    ensures Quiet(w1, RunSaving(w1, def).world, e)
  {
    LifecycleEventsArePlain();
    var snap := HookSnapshot(w1, "saving");
    var saving := Chain(w1, "saving", snap, true);
    ChainQuiet(w1, "saving", snap, true, e);
    if saving.outcome.Pass? {
      RecheckQuiet(saving.world, def, e);
    }
  }

  /** Validation and the branch chain leave every other plain event alone. */
  lemma RecheckQuiet(ws: World, def: Definition, e: string)
    requires e != "valid" && e != "invalid" && e != "creating" && e != "updating" && !IsChange(e)
    ensures Quiet(ws, Recheck(ws, def).world, e)
  {
    var (w2, still) := Validate(ws, def.validators);
    ValidateQuiet(ws, def.validators, e);
    if still {
      RunBranchQuiet(w2, def, e);
    }
  }

  lemma RunBranchQuiet(w2: World, def: Definition, e: string)
    requires e != "creating" && e != "updating" && !IsChange(e)
    ensures Quiet(w2, RunBranch(w2, def).world, e)
  {
    ChainQuiet(w2, "creating", HookSnapshot(w2, "creating"), true, e);
    ChainQuiet(w2, "updating", HookSnapshot(w2, "updating"), true, e);
  }

  /** A stage of `save` that reaches an adapter operation called each
      `saving` hook once, at the scope `fromClass` names. */
  ghost predicate CalledSaving(w: World, p: Saving, fromClass: bool)
  {
    p.call != NoCall ==>
      Calls(p.world, "saving", fromClass) ==
      Calls(w, "saving", fromClass) + Ids(Listeners(if fromClass then w.cls else w.own, "saving"))
  }

  lemma RunSavingCallsSaving(w1: World, def: Definition, fromClass: bool)
    ensures CalledSaving(w1, RunSaving(w1, def), fromClass)
  {
    LifecycleEventsArePlain();
    var snap := HookSnapshot(w1, "saving");
    var saving := Chain(w1, "saving", snap, true);
    if saving.outcome.Pass? {
      ChainCalls(w1, "saving", snap, true, fromClass);
      assert snap[..saving.ran] == snap;
      HookSnapshotIds(w1, "saving");
      RecheckQuiet(saving.world, def, "saving");
    }
  }

  /** A save that reaches the adapter called every `saving` hook registered
      when it started, once each and in registration order, at each scope. */
  lemma SaveCallsSavingHooks(w: World, def: Definition, reply: Reply, fromClass: bool)
    ensures var s := Save(w, def, reply);
      s.call != NoCall ==>
        Calls(s.world, "saving", fromClass) ==
        Calls(w, "saving", fromClass) + Ids(Listeners(if fromClass then w.cls else w.own, "saving"))
  {
    var (w1, valid) := Validate(w, def.validators);
    ValidateQuiet(w, def.validators, "saving");
    if valid {
      RunSavingCallsSaving(w1, def, fromClass);
      assert Prepare(w, def) == RunSaving(w1, def);
    }
    var p := Prepare(w, def);
    if p.call != NoCall && reply.Saved? {
      CommitQuiet(p.world, reply.attrs, p.call == CreateCall, "saving");
    }
  }

  /** A save the adapter accepts passes and calls every `create` listener (or
      every `update` listener, when the instance was not new) registered when
      it started, at each scope, and then every class-scope `save` listener;
      no instance-scope `save` listener is called. */
  lemma SaveAnnounces(w: World, def: Definition, resp: Attrs, fromClass: bool)
    ensures var s := Save(w, def, Saved(resp));
      var done := if s.call == CreateCall then "create" else "update";
      s.call != NoCall ==>
        && s.outcome == Pass
        && Calls(s.world, done, fromClass) ==
           Calls(w, done, fromClass) + Ids(Listeners(if fromClass then w.cls else w.own, done))
        && Calls(s.world, "save", true) == Calls(w, "save", true) + Ids(Listeners(w.cls, "save"))
        && Calls(s.world, "save", false) == Calls(w, "save", false)
  {
    var p := Prepare(w, def);
    PrepareQuietAfter(w, def, "create");
    PrepareQuietAfter(w, def, "update");
    PrepareQuietAfter(w, def, "save");
    if p.call != NoCall {
      CommitCalls(p.world, resp, p.call == CreateCall, fromClass);
    }
  }

  /** What `Commit` records: one call of each `create` (or `update`) listener
      at both scopes, then one of each class-scope `save` listener. */
  lemma CommitCalls(w: World, resp: Attrs, created: bool, fromClass: bool)
    ensures var w' := Commit(w, resp, created);
      var done := if created then "create" else "update";
      && Calls(w', done, fromClass) ==
         Calls(w, done, fromClass) + Ids(Listeners(if fromClass then w.cls else w.own, done))
      && Calls(w', "save", true) == Calls(w, "save", true) + Ids(Listeners(w.cls, "save"))
      && Calls(w', "save", false) == Calls(w, "save", false)
  {
    var done := if created then "create" else "update";
    var announced := Announce(w, done, []);
    EmittedCalls(w.cls, done, [], done);
    EmittedCalls(w.own, done, [], done);
    EmittedCalls(w.own, done, [], "save");
    EmittedCalls(announced.cls, "save", [], done);
    EmittedQuiet(w.cls, done, [], "save");
    EmittedCalls(announced.cls, "save", [], "save");
  }
}
