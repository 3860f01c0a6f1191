/** What `isValid()` promises: `errors` is replaced by the complaints of the
    failing validators in registration order, the answer is whether it ended
    up empty, and `valid` (with a null argument) or `invalid` is emitted at
    both scopes. */
module ValidateProps {
  import opened Values
  import opened Outcomes
  import opened Events
  import opened Validation
  import opened Lifecycle

  /** Whatever `errors` held before, a validation pass leaves exactly the
      current complaints, answers whether there are none, and calls the
      `valid` listeners with `null`, or else the `invalid` listeners, at each
      scope in registration order. */
  lemma ValidateAnnounces(w: World, vs: seq<Validator>)
    ensures var (w', ok) := Validate(w, vs);
      && w'.store.errors == Failures(vs, w.store.attrs)
      && w'.store.attrs == w.store.attrs && w'.store.dirty == w.store.dirty
      && (ok <==> forall i :: 0 <= i < |vs| ==> Passes(vs[i], w.store.attrs))
      && (ok ==>
            && w'.cls.fired == w.cls.fired + Firings("valid", Listeners(w.cls, "valid"), [Null])
            && w'.own.fired == w.own.fired + Firings("valid", Listeners(w.own, "valid"), [Null]))
      && (!ok ==>
            && w'.cls.fired == w.cls.fired + Firings("invalid", Listeners(w.cls, "invalid"), [])
            && w'.own.fired == w.own.fired + Firings("invalid", Listeners(w.own, "invalid"), []))
  {
  }

  /** A class whose validators require `name` and then `email`: an instance
      with neither is invalid, with the `name` complaint first and the
      `email` complaint second. */
  lemma ValidatePopulatesErrors(w: World, vs: seq<Validator>)
    requires vs == [MustHave("name", "name is required"), MustHave("email", "email is required")]
    requires !Has(w.store.attrs, "name") && !Has(w.store.attrs, "email")
    ensures var (w', ok) := Validate(w, vs);
      && !ok
      && w'.store.errors == [ValidationError("name", "name is required"), ValidationError("email", "email is required")]
  {
    FailuresAllFail(vs, w.store.attrs);
  }

  /** The same class: an instance with both attributes is valid and `errors`
      is empty. */
  lemma ValidateAccepts(w: World, vs: seq<Validator>)
    requires vs == [MustHave("name", "name is required"), MustHave("email", "email is required")]
    requires Has(w.store.attrs, "name") && Has(w.store.attrs, "email")
    ensures var (w', ok) := Validate(w, vs);
      ok && w'.store.errors == []
  {
    assert Passes(vs[0], w.store.attrs) && Passes(vs[1], w.store.attrs);
  }
}
