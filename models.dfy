/** Model classes and their instances as objects updated in place. Every
    method is proved to perform the transition module Lifecycle defines. */
module Models {
  import opened Values
  import opened Outcomes
  import opened Events
  import opened Validation
  import opened Lifecycle

  /** A model class (`model('User').attr(...)`): the schema, the primary key, the
      validators and the class-scope registry every instance shares. */
  class ModelClass {
    const schema: set<string>
    const primaryKey: string
    var validators: seq<Validator>
    const events: Emitter

    constructor (schema: set<string>, primaryKey: string)
      ensures this.schema == schema && this.primaryKey == primaryKey
      ensures validators == []
      ensures fresh(events) && events.State() == Registry(map[], [])
    {
      this.schema := schema;
      this.primaryKey := primaryKey;
      validators := [];
      events := new Emitter();
    }

    function Definition(): Definition
      reads this
    {
      Lifecycle.Definition(schema, primaryKey, validators)
    }

    /** `validate(fn)`: registers a validator after the existing ones. */
    method Validate(v: Validator)
      modifies this
      ensures validators == old(validators) + [v]
    {
      validators := validators + [v];
    }
  }

  /** An instance (`new User(attrs)`). */
  class Instance {
    const model: ModelClass
    const events: Emitter
    var attrs: Attrs
    var dirty: Attrs
    var errors: seq<ValidationError>
    var removed: bool

    ghost predicate Valid()
      reads this
    {
      events != model.events && DirtyAgrees(Store(attrs, dirty, errors, removed))
    }

    /** The instance, its class registry and its own registry, as a value. */
    function State(): World
      reads this, events, model.events
    {
      World(Store(attrs, dirty, errors, removed), model.events.State(), events.State())
    }

    /** `new Model(init)`: the attributes are a copy of `init`, nothing is dirty. */
    constructor (model: ModelClass, init: Attrs)
      ensures Valid() && this.model == model && fresh(events)
      ensures State().store == Store(init, map[], [], false)
      ensures events.State() == Registry(map[], [])
    {
      this.model := model;
      attrs := init;
      dirty := map[];
      errors := [];
      removed := false;
      events := new Emitter();
    }

    /** `get(name)`, and the accessor `user.name()`. */
    function Get(name: string): (v: Value)
      reads this
      ensures name !in attrs ==> v == Undefined
      ensures name in attrs ==> v == attrs[name]
    {
      Values.Get(attrs, name)
    }

    /** `has(name)`. */
    predicate Has(name: string)
      reads this
      ensures Has(name) <==> name in attrs && attrs[name] != Undefined
    {
      Get(name) != Undefined
    }

    /** `changed(name)`. */
    predicate ChangedAttr(name: string)
      reads this
      ensures dirty == map[] ==> !ChangedAttr(name)
      ensures Valid() && ChangedAttr(name) ==> name in dirty && name in attrs && attrs[name] == dirty[name]
    {
      name in dirty
    }

    /** `changed()`: the dirty attributes with their current values, as a value
        of its own. */
    function Changed(): (m: Attrs)
      reads this
      requires Valid()
      ensures forall k :: k in m <==> ChangedAttr(k)
      ensures forall k :: k in m ==> m[k] == Get(k)
    {
      dirty
    }

    /** `isNew()`. */
    predicate IsNew()
      reads this
      ensures IsNew() <==> Get(model.primaryKey) == Undefined
    {
      Lifecycle.IsNew(Store(attrs, dirty, errors, removed), model.primaryKey)
    }

    /** `toJSON()` (alias `json()`). */
    function ToJSON(): (j: map<string, Json>)
      reads this
      ensures j.Keys == Present(attrs)
      ensures forall k :: k in j ==> (j[k] == JNull <==> attrs[k] == Null)
    {
      ToJson(attrs)
    }

    /** `set(name, v)`, the accessor `user.name(v)`. */
    method Set(name: string, v: Value)
      requires Valid()
      modifies this, events, model.events
      ensures Valid()
      ensures State() == SetAttr(old(State()), name, v)
    {
      var prev := Get(name);
      if v != prev {
        attrs := attrs[name := v];
        dirty := dirty[name := v];
        model.events.Emit(ChangeEvent(name), [v, prev]);
        events.Emit(ChangeEvent(name), [v, prev]);
        model.events.Emit("change", [Str(name), v, prev]);
        events.Emit("change", [Str(name), v, prev]);
      }
    }

    /** `unset(name)`. */
    method Unset(name: string)
      requires Valid()
      modifies this, events, model.events
      ensures Valid()
      ensures State() == SetAttr(old(State()), name, Undefined)
    {
      Set(name, Undefined);
    }

    /** `primary(v)`: sets the primary key. */
    method SetPrimary(v: Value)
      requires Valid()
      modifies this, events, model.events
      ensures Valid()
      ensures State() == SetAttr(old(State()), model.primaryKey, v)
    {
      Set(model.primaryKey, v);
    }

    /** Bulk `set(attrs)`. */
    method Assign(fs: seq<Field>)
      requires Valid()
      modifies this, events, model.events
      ensures Valid()
      ensures State() == Lifecycle.Assign(old(State()), model.Definition(), fs)
    {
      ghost var w0 := State();
      var clsSnap := model.events.Snapshot("setting");
      var ownSnap := events.Snapshot("setting");
      model.events.Emit("setting", []);
      events.Emit("setting", []);
      var given := Overrides(Overrides(fs, clsSnap), ownSnap);
      ghost var w1 := State();
      assert w1 == w0.(cls := Emitted(w0.cls, "setting", []), own := Emitted(w0.own, "setting", []));
      for i := 0 to |given|
        invariant Valid()
        invariant State() == SetAll(w1, InSchema(given[..i], model.schema))
      {
        assert given[..i + 1][..i] == given[..i];
        var f := given[i];
        if f.name in model.schema {
          assert InSchema(given[..i + 1], model.schema) == InSchema(given[..i], model.schema) + [f];
          Set(f.name, f.value);
        }
      }
      assert given[..|given|] == given;
    }

    /** `error(attr, message)`. */
    method RecordError(attr: string, message: string)
      requires Valid()
      modifies this
      ensures Valid()
      ensures errors == old(errors) + [ValidationError(attr, message)]
      ensures attrs == old(attrs) && dirty == old(dirty) && removed == old(removed)
    {
      errors := errors + [ValidationError(attr, message)];
    }

    /** `isValid()`. */
    method IsValid() returns (ok: bool)
      requires Valid()
      modifies this, events, model.events
      ensures Valid()
      ensures (State(), ok) == Validate(old(State()), model.validators)
    {
      CollectErrors();
      ok := errors == [];
      if ok {
        model.events.Emit("valid", [Null]);
        events.Emit("valid", [Null]);
      } else {
        model.events.Emit("invalid", []);
        events.Emit("invalid", []);
      }
    }

    /** Runs every validator in registration order; `errors` ends up holding
        the complaints of the failing ones. */
    method CollectErrors()
      requires Valid()
      modifies this
      ensures Valid()
      ensures errors == Failures(model.validators, attrs)
      ensures attrs == old(attrs) && dirty == old(dirty) && removed == old(removed)
    {
      errors := [];
      var vs := model.validators;
      for i := 0 to |vs|
        invariant errors == Failures(vs[..i], attrs)
        invariant attrs == old(attrs) && dirty == old(dirty) && removed == old(removed)
      {
        assert vs[..i + 1][..i] == vs[..i];
        var v := vs[i];
        if !Passes(v, attrs) {
          RecordError(v.attr, v.message);
        }
      }
      assert vs[..|vs|] == vs;
    }

    /** What one hook does to the instance. */
    method Perform(a: Action)
      requires Valid()
      modifies this, events, model.events
      ensures Valid()
      ensures State() == Lifecycle.Perform(old(State()), a)
    {
      match a.write {
        case NoWrite =>
        case Write(k, v) => Set(k, v);
      }
      errors := errors + a.report;
    }

    /** Calls one hook of the chain for `e`: the call is recorded at the scope
        the hook was registered at, and the hook acts on the instance. */
    method CallHook(e: string, t: Tagged)
      requires Valid()
      modifies this, events, model.events
      ensures Valid()
      ensures State() == Step(old(State()), e, t)
    {
      if t.fromClass {
        model.events.Fire(e, t.listener, []);
      } else {
        events.Fire(e, t.listener, []);
      }
      Perform(t.listener.action);
    }

    /** `run(e, done)`: the sequential abortable hook chain for `e`, over the
        snapshot taken when it starts. */
    method RunChain(e: string, check: bool) returns (r: Outcome, ran: nat)
      requires Valid()
      modifies this, events, model.events
      ensures Valid()
      ensures Run(State(), r, ran) == Chain(old(State()), e, HookSnapshot(old(State()), e), check)
    {
      var snap := Tag(model.events.Snapshot(e), true) + Tag(events.Snapshot(e), false);
      r, ran := Advance(e, snap, check);
    }

    /** The runner's `next()`: calls the first hook left in `snap` and, unless
        the run stops there, advances to the rest. */
    method Advance(e: string, snap: seq<Tagged>, check: bool) returns (r: Outcome, ran: nat)
      requires Valid()
      modifies this, events, model.events
      ensures Valid()
      ensures Run(State(), r, ran) == Chain(old(State()), e, snap, check)
      decreases |snap|
    {
      if snap == [] {
        return Pass, 0;
      }
      CallHook(e, snap[0]);
      var said := snap[0].listener.action.outcome;
      if said.Fail? {
        return said, 1;
      }
      if check && errors != [] {
        return Fail(ValidationFailed), 1;
      }
      var rest;
      r, rest := Advance(e, snap[1..], check);
      ran := rest + 1;
    }

    /** `save(fn)`; the adapter answers `reply` if it is called. */
    method Save(reply: Reply) returns (r: Outcome, call: Call)
      requires Valid()
      modifies this, events, model.events
      ensures Valid()
      ensures Saving(State(), r, call) == Lifecycle.Save(old(State()), model.Definition(), reply)
    {
      r, call := PrepareSave();
      if call == NoCall {
        return;
      }
      match reply
      case Refused(err) =>
        r := Fail(err);
      case Saved(resp) =>
        Commit(resp, call == CreateCall);
        r := Pass;
    }

    /** A successful adapter answer: `create` (or `update`) at both scopes,
        `save` at class scope, the answer's attributes merged in, nothing dirty. */
    method Commit(resp: Attrs, created: bool)
      requires Valid()
      modifies this, events, model.events
      ensures Valid()
      ensures State() == Lifecycle.Commit(old(State()), resp, created)
    {
      var done := if created then "create" else "update";
      model.events.Emit(done, []);
      events.Emit(done, []);
      model.events.Emit("save", []);
      attrs := attrs + resp;
      dirty := map[];
    }

    /** `save` up to the adapter call. */
    method PrepareSave() returns (r: Outcome, call: Call)
      requires Valid()
      modifies this, events, model.events
      ensures Valid()
      ensures Saving(State(), r, call) == Prepare(old(State()), model.Definition())
    {
      var valid := IsValid();
      if !valid {
        return Fail(ValidationFailed), NoCall;
      }
      r, call := SavingStage();
    }

    /** The `saving` chain and what follows it. */
    method SavingStage() returns (r: Outcome, call: Call)
      requires Valid()
      modifies this, events, model.events
      ensures Valid()
      ensures Saving(State(), r, call) == RunSaving(old(State()), model.Definition())
    {
      var ran;
      r, ran := RunChain("saving", true);
      if r.Fail? {
        return r, NoCall;
      }
      r, call := RecheckStage();
    }

    /** Validation again, then the branch chain. */
    method RecheckStage() returns (r: Outcome, call: Call)
      requires Valid()
      modifies this, events, model.events
      ensures Valid()
      ensures Saving(State(), r, call) == Recheck(old(State()), model.Definition())
    {
      var valid := IsValid();
      if !valid {
        return Fail(ValidationFailed), NoCall;
      }
      r, call := BranchStage();
    }

    /** The `creating` chain of a new instance, the `updating` chain otherwise. */
    method BranchStage() returns (r: Outcome, call: Call)
      requires Valid()
      modifies this, events, model.events
      ensures Valid()
      ensures Saving(State(), r, call) == RunBranch(old(State()), model.Definition())
    {
      var creating := IsNew();
      var ran;
      r, ran := RunChain(if creating then "creating" else "updating", true);
      call := if r.Fail? then NoCall else if creating then CreateCall else UpdateCall;
    }

    /** `remove(fn)`; `callback` tells whether `fn` was given, and the adapter
        answers `reply` if it is called. */
    method Remove(reply: Outcome, callback: bool) returns (r: Outcome, called: bool)
      requires Valid()
      modifies this, events, model.events
      ensures Valid()
      ensures Removal(State(), r, called) == Lifecycle.Remove(old(State()), model.Definition(), reply, callback)
    {
      if IsNew() {
        r, called := Fail(NotSaved), false;
      } else {
        var ran;
        r, ran := RunChain("removing", false);
        called := r.Pass?;
        if called {
          r := reply;
          if reply.Pass? {
            removed := true;
            model.events.Emit("remove", []);
            events.Emit("remove", []);
          }
        }
      }
      if r.Fail? && !callback {
        model.events.Emit("error", [Str(Message(r.error))]);
        events.Emit("error", [Str(Message(r.error))]);
      }
    }
  }
}
