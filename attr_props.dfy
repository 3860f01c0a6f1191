/** What the attribute store promises: a write of a new value is read back,
    marked dirty and announced to the `change` listeners of both scopes; a
    write of the current value changes nothing; bulk `set` assigns exactly the
    schema's entries, after the `setting` listeners had their say. */
module AttrProps {
  import opened Values
  import opened Outcomes
  import opened Events
  import opened Lifecycle
  import HookProps

  /** The calls an emission of `e` with `args` adds to a registry's log. */
  function Heard(r: Registry, e: string, args: seq<Value>): seq<Firing>
  {
    Firings(e, Listeners(r, e), args)
  }

  /** Setting a different value calls, at each scope, every `"change <name>"`
      listener with (new, old) and then every `change` listener with
      (name, new, old), in registration order. */
  lemma SetAnnounces(w: World, name: string, v: Value)
    requires v != Get(w.store.attrs, name)
    ensures var w' := SetAttr(w, name, v);
      var prev := Get(w.store.attrs, name);
      && w'.cls.fired == w.cls.fired + Heard(w.cls, ChangeEvent(name), [v, prev])
                                     + Heard(w.cls, "change", [Str(name), v, prev])
      && w'.own.fired == w.own.fired + Heard(w.own, ChangeEvent(name), [v, prev])
                                     + Heard(w.own, "change", [Str(name), v, prev])
  {
    var prev := Get(w.store.attrs, name);
    assert ChangeEvent(name) != "change" by {
      assert |ChangeEvent(name)| > |"change"|;
    }
  }

  /** A fresh instance has nothing changed; after a write of a new value,
      `changed()` is exactly that attribute with its new value. */
  lemma ChangedAfterSet(w: World, name: string, v: Value)
    requires w.store.dirty == map[]
    requires v != Get(w.store.attrs, name)
    ensures SetAttr(w, name, v).store.dirty == map[name := v]
  {
    var d := SetAttr(w, name, v).store.dirty;
    assert d.Keys == {name};
  }

  /** `isNew()` holds exactly when the primary key reads as unset. */
  lemma IsNewExactly(s: Store, pk: string)
    ensures IsNew(s, pk) <==> pk !in s.attrs || s.attrs[pk] == Undefined
  {
  }

  /** The entries the writes of `ls` amount to, in call order. */
  function Writes(ls: seq<Listener>): (fs: seq<Field>)
    ensures |fs| <= |ls|
    ensures fs == [] <==> forall j :: 0 <= j < |ls| ==> ls[j].action.write.NoWrite?
  {
    if ls == [] then []
    else
      assert forall j :: 0 <= j < |ls[1..]| ==> ls[1..][j] == ls[j + 1];
      WriteEntry(ls[0].action.write) + Writes(ls[1..])
  }

  /** Every entry of `Writes(ls)` is the write of some listener of `ls`. */
  lemma {:induction false} WritesFrom(ls: seq<Listener>)
    ensures forall i :: 0 <= i < |Writes(ls)| ==>
      exists j :: 0 <= j < |ls| && ls[j].action.write == Write(Writes(ls)[i].name, Writes(ls)[i].value)
  {
    if ls != [] {
      var head := WriteEntry(ls[0].action.write);
      var rest := Writes(ls[1..]);
      WritesFrom(ls[1..]);
      assert Writes(ls) == head + rest;
      forall i | 0 <= i < |Writes(ls)|
        ensures exists j :: 0 <= j < |ls| && ls[j].action.write == Write(Writes(ls)[i].name, Writes(ls)[i].value)
      {
        var f := Writes(ls)[i];
        if i < |head| {
          assert ls[0].action.write == Write(f.name, f.value);
        } else {
          assert f == rest[i - |head|];
          var j :| 0 <= j < |ls[1..]| && ls[1..][j].action.write == Write(f.name, f.value);
          assert ls[j + 1].action.write == Write(f.name, f.value);
        }
      }
    } else {
      assert Writes(ls) == [];
    }
  }

  /** Looking up in a concatenation: the later entries win. */
  lemma {:induction false} LookupConcat(a: seq<Field>, b: seq<Field>, k: string, d: Value)
    ensures Lookup(a + b, k, d) == Lookup(b, k, Lookup(a, k, d))
    decreases |b|
  {
    if b == [] {
      assert a + b == a;
    } else {
      var n := |b| - 1;
      assert (a + b)[..|a + b| - 1] == a + b[..n];
      assert (a + b)[|a + b| - 1] == b[n];
      LookupConcat(a, b[..n], k, d);
    }
  }

  /** The `setting` listeners' writes act as if they were appended to the
      argument of `set`. */
  lemma {:induction false} OverridesLookup(fs: seq<Field>, ls: seq<Listener>, k: string, d: Value)
    ensures Lookup(Overrides(fs, ls), k, d) == Lookup(fs + Writes(ls), k, d)
    decreases |ls|
  {
    if ls == [] {
      assert fs + Writes(ls) == fs;
    } else {
      var wr := ls[0].action.write;
      var head := WriteEntry(wr);
      var fs' := Override(fs, wr);
      var rest := Writes(ls[1..]);
      calc {
        Lookup(Overrides(fs, ls), k, d);
        { OverridesLookup(fs', ls[1..], k, d); }
        Lookup(fs' + rest, k, d);
        { LookupConcat(fs', rest, k, d); }
        Lookup(rest, k, Lookup(fs', k, d));
        { OverrideAppends(fs, wr, k, d); }
        Lookup(rest, k, Lookup(fs + head, k, d));
        { LookupConcat(fs + head, rest, k, d); }
        Lookup(fs + head + rest, k, d);
        { assert Writes(ls) == head + rest; HookProps.AppendAssoc(fs, head, rest); }
        Lookup(fs + Writes(ls), k, d);
      }
    }
  }

  /** The entry a single write amounts to, if any. */
  function WriteEntry(wr: Write): (fs: seq<Field>)
    ensures wr.NoWrite? <==> fs == []
  {
    match wr
    case NoWrite => []
    case Write(a, v) => [Field(a, v)]
  }

  /** One listener's write acts as an entry appended to the argument. */
  lemma OverrideAppends(fs: seq<Field>, wr: Write, k: string, d: Value)
    ensures Lookup(Override(fs, wr), k, d) == Lookup(fs + WriteEntry(wr), k, d)
  {
    if wr.Write? {
      LookupAppend(fs, wr.attr, wr.value);
    } else {
      assert fs + WriteEntry(wr) == fs;
    }
  }

  /** Bulk `set`: a schema attribute ends up with the last value given for it,
      counting the writes of the class-scope and then the instance-scope
      `setting` listeners after the argument's entries; an attribute that no
      entry names, and every attribute outside the schema, keeps its value. */
  lemma AssignLookup(w: World, def: Definition, fs: seq<Field>, k: string)
    ensures Get(Assign(w, def, fs).store.attrs, k) ==
      if k in def.schema then
        Lookup(fs + Writes(Listeners(w.cls, "setting")) + Writes(Listeners(w.own, "setting")), k, Get(w.store.attrs, k))
      else Get(w.store.attrs, k)
  {
    var d := Get(w.store.attrs, k);
    var cw := Writes(Listeners(w.cls, "setting"));
    var once := Overrides(fs, Listeners(w.cls, "setting"));
    OverridesLookup(once, Listeners(w.own, "setting"), k, d);
    LookupConcat(once, Writes(Listeners(w.own, "setting")), k, d);
    OverridesLookup(fs, Listeners(w.cls, "setting"), k, d);
    LookupConcat(fs + cw, Writes(Listeners(w.own, "setting")), k, d);
  }

  /** With no `setting` listener writing, bulk `set` gives every schema
      attribute it names the last value given (`Undefined` unsets it) and
      leaves everything else as it was. */
  lemma AssignNoSetting(w: World, def: Definition, fs: seq<Field>, k: string)
    requires forall l :: l in Listeners(w.cls, "setting") ==> l.action.write.NoWrite?
    requires forall l :: l in Listeners(w.own, "setting") ==> l.action.write.NoWrite?
    ensures Get(Assign(w, def, fs).store.attrs, k) ==
      if k in def.schema then Lookup(fs, k, Get(w.store.attrs, k)) else Get(w.store.attrs, k)
  {
    AssignLookup(w, def, fs, k);
    NoWrites(Listeners(w.cls, "setting"));
    NoWrites(Listeners(w.own, "setting"));
    assert fs + [] + [] == fs;
  }

  lemma {:induction false} NoWrites(ls: seq<Listener>)
    requires forall l :: l in ls ==> l.action.write.NoWrite?
    ensures Writes(ls) == []
  {
    if ls != [] {
      assert ls[0] in ls;
      assert forall l :: l in ls[1..] ==> l in ls;
      NoWrites(ls[1..]);
    }
  }

  /** A `setting` listener's write wins over the argument of `set`. */
  lemma SettingWins(w: World, def: Definition, name: string, given: Value, l: Listener)
    requires name in def.schema
    requires l.action.write == Write(name, given)
    requires Listeners(w.cls, "setting") == [l] || Listeners(w.own, "setting") == [l]
    requires forall m :: m in Listeners(w.cls, "setting") + Listeners(w.own, "setting") ==> m == l
    ensures forall v :: Get(Assign(w, def, [Field(name, v)]).store.attrs, name) == given
  {
    forall v
      ensures Get(Assign(w, def, [Field(name, v)]).store.attrs, name) == given
    {
      var fs := [Field(name, v)];
      AssignLookup(w, def, fs, name);
      var cw := Writes(Listeners(w.cls, "setting"));
      var ow := Writes(Listeners(w.own, "setting"));
      var d := Get(w.store.attrs, name);
      LookupConcat(fs + cw, ow, name, d);
      LookupConcat(fs, cw, name, d);
      assert forall m :: m in Listeners(w.cls, "setting") ==> m in Listeners(w.cls, "setting") + Listeners(w.own, "setting");
      assert forall m :: m in Listeners(w.own, "setting") ==> m in Listeners(w.cls, "setting") + Listeners(w.own, "setting");
      WritesOf(Listeners(w.cls, "setting"), l);
      WritesOf(Listeners(w.own, "setting"), l);
      LookupRepeated(cw, name, given, Lookup(fs, name, d));
      LookupRepeated(ow, name, given, Lookup(fs + cw, name, d));
    }
  }

  /** The writes of a list holding only `l`. */
  lemma {:induction false} WritesOf(ls: seq<Listener>, l: Listener)
    requires forall m :: m in ls ==> m == l
    requires l.action.write.Write?
    ensures forall i :: 0 <= i < |Writes(ls)| ==> Writes(ls)[i] == Field(l.action.write.attr, l.action.write.value)
    ensures ls != [] ==> Writes(ls) != []
  {
    if ls != [] {
      assert ls[0] in ls;
      assert forall m :: m in ls[1..] ==> m in ls;
      WritesOf(ls[1..], l);
    }
  }

  /** Entries all setting `name` to `v`: a lookup finds `v`, or the default
      when there are none. */
  lemma {:induction false} LookupRepeated(fs: seq<Field>, name: string, v: Value, d: Value)
    requires forall i :: 0 <= i < |fs| ==> fs[i] == Field(name, v)
    ensures Lookup(fs, name, d) == if fs == [] then d else v
  {
  }
}
