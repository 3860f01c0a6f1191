/** The instance runtime as transitions on values: the attribute store with
    dirty tracking, bulk assignment, validation, the abortable hook chain, and
    the save and remove state machines. The classes in module Models are
    proved to perform exactly these transitions. */
module Lifecycle {
  import opened Values
  import opened Outcomes
  import opened Events
  import opened Validation

  /** Per-instance state: the attributes, the dirty map (attribute name to the
      value it was last set to), the `errors` list and the `removed` flag. */
  datatype Store = Store(attrs: Attrs, dirty: Attrs, errors: seq<ValidationError>, removed: bool)

  /** One instance together with the class-scope registry it shares with the
      other instances of its class, and its own instance-scope registry. */
  datatype World = World(store: Store, cls: Registry, own: Registry)

  /** What a model class declares: the schema's attribute names, the primary
      key and the validators in registration order. */
  datatype Definition = Definition(schema: set<string>, primaryKey: string, validators: seq<Validator>)

  /** A dirty entry always records the attribute's current value. */
  predicate DirtyAgrees(s: Store)
  {
    forall k :: k in s.dirty ==> k in s.attrs && s.dirty[k] == s.attrs[k]
  }

  /** `isNew()`: the primary key is unset. */
  predicate IsNew(s: Store, pk: string)
  {
    !Has(s.attrs, pk)
  }

  /** The per-attribute change event, `"change " + attr`. */
  function ChangeEvent(name: string): string
  {
    "change " + name
  }

  /** The events an attribute write emits: `change` and the `"change <attr>"` ones. */
  predicate IsChange(e: string)
  {
    e == "change" || (|e| >= 7 && e[..7] == "change ")
  }

  /** Emission of `e` on the class registry and then on the instance registry. */
  function Announce(w: World, e: string, args: seq<Value>): World
  {
    w.(cls := Emitted(w.cls, e, args), own := Emitted(w.own, e, args))
  }

  /** `set(name, v)` (also the attribute accessor `user.name(v)`, and `unset`
      with `v == Undefined`): a different value is stored, recorded as dirty and
      announced with `"change <name>"` (new, old) and `change` (name, new, old);
      the same value changes nothing at all. */
  function SetAttr(w: World, name: string, v: Value): (w': World)
    ensures Get(w'.store.attrs, name) == v
    ensures forall k :: k != name ==> Get(w'.store.attrs, k) == Get(w.store.attrs, k)
    ensures v == Get(w.store.attrs, name) ==> w' == w
    ensures v != Get(w.store.attrs, name) ==> name in w'.store.dirty && w'.store.dirty[name] == v
    ensures forall k :: k != name ==> (k in w'.store.dirty <==> k in w.store.dirty)
    ensures DirtyAgrees(w.store) ==> DirtyAgrees(w'.store)
    ensures w'.store.errors == w.store.errors && w'.store.removed == w.store.removed
  {
    var prev := Get(w.store.attrs, name);
    if v == prev then w
    else
      var s := w.store.(attrs := w.store.attrs[name := v], dirty := w.store.dirty[name := v]);
      Announce(Announce(w.(store := s), ChangeEvent(name), [v, prev]), "change", [Str(name), v, prev])
  }

  /** One bulk-assignment entry; the argument of `set({...})` is a list of them
      in key order. */
  datatype Field = Field(name: string, value: Value)

  /** The value the last entry named `k` carries, or `dflt` when none does. */
  function Lookup(fs: seq<Field>, k: string, dflt: Value): Value
    decreases |fs|
  {
    if fs == [] then dflt
    else if fs[|fs| - 1].name == k then fs[|fs| - 1].value
    else Lookup(fs[..|fs| - 1], k, dflt)
  }

  /** A `setting` listener's `attrs.name = value`: every entry named `name`
      takes the value, or the entry is added at the end. */
  function Override(fs: seq<Field>, wr: Write): (r: seq<Field>)
    ensures forall k, d :: Lookup(r, k, d) == if wr.Write? && k == wr.attr then wr.value else Lookup(fs, k, d)
  {
    match wr
    case NoWrite => fs
    case Write(a, v) =>
      if exists i :: 0 <= i < |fs| && fs[i].name == a then
        var r := seq(|fs|, i requires 0 <= i < |fs| => if fs[i].name == a then Field(a, v) else fs[i]);
        OverrideLookup(fs, r, a, v);
        r
      else
        LookupAppend(fs, a, v);
        fs + [Field(a, v)]
  }

  /** An entry added at the end decides the lookup of its name. */
  lemma LookupAppend(fs: seq<Field>, a: string, v: Value)
    ensures forall k, d :: Lookup(fs + [Field(a, v)], k, d) == if k == a then v else Lookup(fs, k, d)
  {
    var ext := fs + [Field(a, v)];
    assert ext[|ext| - 1] == Field(a, v);
    assert ext[..|ext| - 1] == fs;
  }

  lemma {:induction false} OverrideLookup(fs: seq<Field>, r: seq<Field>, a: string, v: Value)
    requires |r| == |fs|
    requires forall i :: 0 <= i < |fs| ==> r[i] == if fs[i].name == a then Field(a, v) else fs[i]
    requires exists i :: 0 <= i < |fs| && fs[i].name == a
    ensures forall k, d :: Lookup(r, k, d) == if k == a then v else Lookup(fs, k, d)
    decreases |fs|
  {
    var n := |fs| - 1;
    if fs[n].name != a || exists i :: 0 <= i < n && fs[i].name == a {
      assert exists i :: 0 <= i < n && fs[..n][i].name == a;
      OverrideLookup(fs[..n], r[..n], a, v);
      forall k, d
        ensures Lookup(r, k, d) == if k == a then v else Lookup(fs, k, d)
      {
        assert Lookup(r[..n], k, d) == if k == a then v else Lookup(fs[..n], k, d);
      }
    } else {
      assert r[..n] == fs[..n];
    }
  }

  /** Applies the writes of the `setting` listeners that ran, in call order. */
  function Overrides(fs: seq<Field>, ls: seq<Listener>): seq<Field>
    decreases |ls|
  {
    if ls == [] then fs else Overrides(Override(fs, ls[0].action.write), ls[1..])
  }

  /** The entries whose names the schema declares, in order. */
  function InSchema(fs: seq<Field>, schema: set<string>): (r: seq<Field>)
    ensures forall i :: 0 <= i < |r| ==> r[i].name in schema
    ensures forall k, d :: Lookup(r, k, d) == if k in schema then Lookup(fs, k, d) else d
    decreases |fs|
  {
    if fs == [] then []
    else
      var init := fs[..|fs| - 1];
      var last := fs[|fs| - 1];
      var r := InSchema(init, schema);
      if last.name in schema then
        assert (r + [last])[..|r|] == r;
        r + [last]
      else r
  }

  /** Sets the entries one after the other, as `SetAttr` does. */
  function SetAll(w: World, fs: seq<Field>): (w': World)
    ensures forall k :: Get(w'.store.attrs, k) == Lookup(fs, k, Get(w.store.attrs, k))
    ensures DirtyAgrees(w.store) ==> DirtyAgrees(w'.store)
    ensures w'.store.errors == w.store.errors && w'.store.removed == w.store.removed
    decreases |fs|
  {
    if fs == [] then w
    else
      var last := fs[|fs| - 1];
      SetAttr(SetAll(w, fs[..|fs| - 1]), last.name, last.value)
  }

  /** Bulk `set(attrs)`: `setting` is emitted at class scope and then at instance
      scope, the listeners' writes land in the argument, and only the entries
      the schema declares are assigned, each through the setter. */
  function Assign(w: World, def: Definition, fs: seq<Field>): (w': World)
    ensures DirtyAgrees(w.store) ==> DirtyAgrees(w'.store)
    ensures w'.store.errors == w.store.errors && w'.store.removed == w.store.removed
  {
    var clsSnap := Listeners(w.cls, "setting");
    var ownSnap := Listeners(w.own, "setting");
    var w1 := w.(cls := Emitted(w.cls, "setting", []), own := Emitted(w.own, "setting", []));
    SetAll(w1, InSchema(Overrides(Overrides(fs, clsSnap), ownSnap), def.schema))
  }

  /** `isValid()`: `errors` is replaced by what the validators report, in
      registration order, and `invalid` or `valid` is emitted. */
  function Validate(w: World, vs: seq<Validator>): (res: (World, bool))
    ensures res.0.store == w.store.(errors := Failures(vs, w.store.attrs))
    ensures res.1 <==> res.0.store.errors == []
  {
    var errs := Failures(vs, w.store.attrs);
    var checked := w.(store := w.store.(errors := errs));
    if errs == [] then (Announce(checked, "valid", [Null]), true)
    else (Announce(checked, "invalid", []), false)
  }

  /** A hook listener in a chain snapshot, with the scope it was registered at. */
  datatype Tagged = Tagged(fromClass: bool, listener: Listener)

  function Tag(ls: seq<Listener>, fromClass: bool): (ts: seq<Tagged>)
    ensures |ts| == |ls|
    ensures forall i :: 0 <= i < |ls| ==> ts[i] == Tagged(fromClass, ls[i])
  {
    seq(|ls|, i requires 0 <= i < |ls| => Tagged(fromClass, ls[i]))
  }

  /** The snapshot a hook chain for `e` runs over: the class-scope listeners,
      then the instance-scope ones, as registered when the chain starts. */
  function HookSnapshot(w: World, e: string): seq<Tagged>
  {
    Tag(Listeners(w.cls, e), true) + Tag(Listeners(w.own, e), false)
  }

  /** What a hook does to the instance: its write goes through the setter and
      its reports are appended to `errors`. */
  function Perform(w: World, a: Action): World
  {
    var written := match a.write
      case NoWrite => w
      case Write(k, v) => SetAttr(w, k, v);
    written.(store := written.store.(errors := written.store.errors + a.report))
  }

  /** Calling one hook of the chain for `e`. */
  function Step(w: World, e: string, t: Tagged): World
  {
    var called :=
      if t.fromClass then w.(cls := Fired(w.cls, e, t.listener, []))
      else w.(own := Fired(w.own, e, t.listener, []));
    Perform(called, t.listener.action)
  }

  /** The result of a chain run: the final state, what the completion callback
      receives, and how many hooks were called. */
  datatype Run = Run(world: World, outcome: Outcome, ran: nat)

  /** The sequential abortable hook run over `snap`. A hook that hands its
      continuation an error stops the run with that error; with `check` set, a
      hook after which `errors` is non-empty stops it with "validation failed".
      Hooks after the one that stops the run are never called. */
  function Chain(w: World, e: string, snap: seq<Tagged>, check: bool): (r: Run)
    ensures r.ran <= |snap|
    ensures r.outcome.Pass? ==> r.ran == |snap|
    decreases |snap|
  {
    if snap == [] then Run(w, Pass, 0)
    else
      var w1 := Step(w, e, snap[0]);
      var said := snap[0].listener.action.outcome;
      if said.Fail? then Run(w1, said, 1)
      else if check && w1.store.errors != [] then Run(w1, Fail(ValidationFailed), 1)
      else
        var rest := Chain(w1, e, snap[1..], check);
        Run(rest.world, rest.outcome, rest.ran + 1)
  }

  /** Whether the run stops after hook `t`, judged on the state `after` it ran. */
  predicate Stops(after: World, t: Tagged, check: bool)
  {
    t.listener.action.outcome.Fail? || (check && after.store.errors != [])
  }

  /** One step of a chain: the first hook runs, and the run either stops
      there or goes on over the rest of the snapshot. */
  lemma ChainStep(w: World, e: string, snap: seq<Tagged>, check: bool)
    requires snap != []
    ensures var w1 := Step(w, e, snap[0]);
      var said := snap[0].listener.action.outcome;
      var r := Chain(w, e, snap, check);
      if Stops(w1, snap[0], check) then
        r.world == w1 && r.ran == 1 && r.outcome == (if said.Fail? then said else Fail(ValidationFailed))
      else
        var rest := Chain(w1, e, snap[1..], check);
        r.world == rest.world && r.ran == rest.ran + 1 && r.outcome == rest.outcome
  {
  }

  /** A run that fails stops at its last called hook, with that hook's error
      or with "validation failed". */
  lemma {:induction false} ChainFails(w: World, e: string, snap: seq<Tagged>, check: bool)
    ensures var r := Chain(w, e, snap, check);
      r.outcome.Fail? ==>
        && 0 < r.ran <= |snap|
        && Stops(r.world, snap[r.ran - 1], check)
        && r.outcome == (if snap[r.ran - 1].listener.action.outcome.Fail?
                         then snap[r.ran - 1].listener.action.outcome else Fail(ValidationFailed))
    decreases |snap|
  {
    if snap != [] {
      var w1 := Step(w, e, snap[0]);
      ChainStep(w, e, snap, check);
      if !Stops(w1, snap[0], check) {
        var rest := Chain(w1, e, snap[1..], check);
        ChainFails(w1, e, snap[1..], check);
        if rest.outcome.Fail? {
          assert snap[rest.ran] == snap[1..][rest.ran - 1];
        }
      }
    }
  }

  /** Every hook called before the last one handed its continuation no error. */
  lemma {:induction false} ChainPassedBefore(w: World, e: string, snap: seq<Tagged>, check: bool)
    ensures forall i :: 0 <= i < |snap| && i < Chain(w, e, snap, check).ran - 1 ==> snap[i].listener.action.outcome.Pass?
    decreases |snap|
  {
    if snap != [] {
      var w1 := Step(w, e, snap[0]);
      ChainStep(w, e, snap, check);
      if !Stops(w1, snap[0], check) {
        ChainPassedBefore(w1, e, snap[1..], check);
        assert forall i :: 1 <= i < |snap| ==> snap[i] == snap[1..][i - 1];
      }
    }
  }

  /** Without the errors check, a run fails only through a hook's error. */
  lemma {:induction false} ChainUncheckedPasses(w: World, e: string, snap: seq<Tagged>)
    requires forall i :: 0 <= i < |snap| ==> snap[i].listener.action.outcome.Pass?
    ensures Chain(w, e, snap, false).outcome.Pass?
    decreases |snap|
  {
    if snap != [] {
      ChainStep(w, e, snap, false);
      assert forall i :: 0 <= i < |snap[1..]| ==> snap[1..][i] == snap[i + 1];
      ChainUncheckedPasses(Step(w, e, snap[0]), e, snap[1..]);
    }
  }

  /** What the storage adapter answers: `fn(null, attrs)` or `fn(err)`. */
  datatype Reply = Saved(attrs: Attrs) | Refused(error: Error)

  /** Which adapter operation a save called, if any. */
  datatype Call = NoCall | CreateCall | UpdateCall

  /** The result of `save`: final state, callback argument, adapter call made. */
  datatype Saving = Saving(world: World, outcome: Outcome, call: Call)

  /** `save` up to the adapter call: validation, the `saving` chain, validation
      again, then the `creating` chain when the instance is new and the
      `updating` chain otherwise. On success `call` names the adapter
      operation to call next; on failure it is `NoCall`. */
  function Prepare(w: World, def: Definition): (p: Saving)
    ensures p.call == NoCall <==> p.outcome.Fail?
  {
    var (w1, valid) := Validate(w, def.validators);
    if !valid then Saving(w1, Fail(ValidationFailed), NoCall)
    else RunSaving(w1, def)
  }

  /** The `saving` chain of a valid instance, and what follows it. */
  function RunSaving(w1: World, def: Definition): Saving
  {
    var saving := Chain(w1, "saving", HookSnapshot(w1, "saving"), true);
    if saving.outcome.Fail? then Saving(saving.world, saving.outcome, NoCall)
    else Recheck(saving.world, def)
  }

  /** Validation once more, after the `saving` hooks had their say. */
  function Recheck(ws: World, def: Definition): Saving
  {
    var (w2, still) := Validate(ws, def.validators);
    if !still then Saving(w2, Fail(ValidationFailed), NoCall)
    else RunBranch(w2, def)
  }

  /** The `creating` chain of a new instance, the `updating` chain otherwise. */
  function RunBranch(w2: World, def: Definition): Saving
  {
    var creating := IsNew(w2.store, def.primaryKey);
    var e := if creating then "creating" else "updating";
    var hooks := Chain(w2, e, HookSnapshot(w2, e), true);
    if hooks.outcome.Fail? then Saving(hooks.world, hooks.outcome, NoCall)
    else Saving(hooks.world, Pass, if creating then CreateCall else UpdateCall)
  }

  /** A successful adapter answer: its attributes replace the current values,
      nothing is dirty any more, `create` (or `update`) is emitted at both
      scopes and `save` at class scope. */
  function Commit(w: World, resp: Attrs, created: bool): (w': World)
    ensures forall k :: k in resp ==> Get(w'.store.attrs, k) == resp[k]
    ensures forall k :: k !in resp ==> Get(w'.store.attrs, k) == Get(w.store.attrs, k)
    ensures w'.store.dirty == map[]
    ensures w'.store.errors == w.store.errors && w'.store.removed == w.store.removed
  {
    var announced := Announce(w, if created then "create" else "update", []);
    announced.(store := w.store.(attrs := w.store.attrs + resp, dirty := map[]),
               cls := Emitted(announced.cls, "save", []))
  }

  /** `save(fn)` with the adapter answering `reply` when it is called. */
  function Save(w: World, def: Definition, reply: Reply): (s: Saving)
    ensures s.call == Prepare(w, def).call
    ensures s.outcome.Pass? <==> s.call != NoCall && reply.Saved?
    ensures s.call != NoCall && reply.Refused? ==> s.outcome == Fail(reply.error)
  {
    var p := Prepare(w, def);
    if p.call == NoCall then p
    else match reply
      case Refused(err) => Saving(p.world, Fail(err), p.call)
      case Saved(resp) => Saving(Commit(p.world, resp, p.call == CreateCall), Pass, p.call)
  }

  /** The result of `remove`: final state, error delivered, adapter called. */
  datatype Removal = Removal(world: World, outcome: Outcome, called: bool)

  /** An error of `remove()` called without a callback is emitted as `error`. */
  function Report(w: World, err: Error, callback: bool): (w': World)
    ensures w'.store == w.store
    ensures callback ==> w' == w
    ensures !callback ==>
      && w'.cls.fired == w.cls.fired + Firings("error", Listeners(w.cls, "error"), [Str(Message(err))])
      && w'.own.fired == w.own.fired + Firings("error", Listeners(w.own, "error"), [Str(Message(err))])
  {
    if callback then w else Announce(w, "error", [Str(Message(err))])
  }

  /** `remove(fn)` with the adapter answering `reply` when it is called; `callback`
      tells whether `fn` was given. A new instance fails with "not saved";
      otherwise the `removing` chain runs (without validation), then the
      adapter; on success `removed` is set and `remove` is emitted. */
  function Remove(w: World, def: Definition, reply: Outcome, callback: bool): (s: Removal)
    ensures IsNew(w.store, def.primaryKey) ==> s.outcome == Fail(NotSaved) && !s.called
    ensures s.called ==> !IsNew(w.store, def.primaryKey)
    ensures s.outcome.Pass? <==> s.called && reply.Pass?
    ensures s.called && reply.Fail? ==> s.outcome == reply
  {
    if IsNew(w.store, def.primaryKey) then
      Removal(Report(w, NotSaved, callback), Fail(NotSaved), false)
    else
      var hooks := Chain(w, "removing", HookSnapshot(w, "removing"), false);
      if hooks.outcome.Fail? then
        Removal(Report(hooks.world, hooks.outcome.error, callback), hooks.outcome, false)
      else match reply
        case Fail(err) => Removal(Report(hooks.world, err, callback), reply, true)
        case Pass =>
          var done := hooks.world.(store := hooks.world.store.(removed := true));
          Removal(Announce(done, "remove", []), Pass, true)
  }
}
