/** Validators registered on a model class with `validate(fn)`. */
module Validation {
  import opened Values
  import opened Outcomes

  /** A validator that calls `error(attr, message)` when its check fails:
      `MustHave` when the attribute is unset (`if (!user.has(attr))`),
      `MustBeTruthy` when its value is falsy (`if (!user.attr())`). */
  datatype Validator =
    | MustHave(attr: string, message: string)
    | MustBeTruthy(attr: string, message: string)

  predicate Passes(v: Validator, attrs: Attrs)
  {
    match v
    case MustHave(a, _) => Has(attrs, a)
    case MustBeTruthy(a, _) => Truthy(Get(attrs, a))
  }

  /** The error a failing validator reports. */
  function Complaint(v: Validator): ValidationError
  {
    ValidationError(v.attr, v.message)
  }

  /** The `errors` list one validation pass builds: the complaint of every
      failing validator, in registration order. */
  function Failures(vs: seq<Validator>, attrs: Attrs): (errs: seq<ValidationError>)
    ensures |errs| <= |vs|
    ensures errs == [] <==> forall i :: 0 <= i < |vs| ==> Passes(vs[i], attrs)
    decreases |vs|
  {
    if vs == [] then []
    else
      var last := vs[|vs| - 1];
      Failures(vs[..|vs| - 1], attrs) + (if Passes(last, attrs) then [] else [Complaint(last)])
  }

  /** Validators run in registration order: the errors of earlier
      registrations come first. */
  lemma {:induction false} FailuresConcat(vs: seq<Validator>, ws: seq<Validator>, attrs: Attrs)
    ensures Failures(vs + ws, attrs) == Failures(vs, attrs) + Failures(ws, attrs)
    decreases |ws|
  {
    if ws == [] {
      assert vs + ws == vs;
    } else {
      var last := ws[|ws| - 1];
      assert (vs + ws)[..|vs + ws| - 1] == vs + ws[..|ws| - 1];
      FailuresConcat(vs, ws[..|ws| - 1], attrs);
    }
  }

  /** When every validator fails, `errors` pairs each one's attribute with its
      message, position by position. */
  lemma {:induction false} FailuresAllFail(vs: seq<Validator>, attrs: Attrs)
    requires forall i :: 0 <= i < |vs| ==> !Passes(vs[i], attrs)
    ensures |Failures(vs, attrs)| == |vs|
    ensures forall i :: 0 <= i < |vs| ==>
              Failures(vs, attrs)[i] == ValidationError(vs[i].attr, vs[i].message)
    decreases |vs|
  {
    if vs != [] {
      FailuresAllFail(vs[..|vs| - 1], attrs);
    }
  }

  /** Every error comes from a failing validator. */
  lemma {:induction false} FailuresFromFailing(vs: seq<Validator>, attrs: Attrs, k: nat)
    requires k < |Failures(vs, attrs)|
    ensures exists i :: 0 <= i < |vs| && !Passes(vs[i], attrs) && Failures(vs, attrs)[k] == Complaint(vs[i])
    decreases |vs|
  {
    var init := vs[..|vs| - 1];
    var last := vs[|vs| - 1];
    if k < |Failures(init, attrs)| {
      FailuresFromFailing(init, attrs, k);
      var i :| 0 <= i < |init| && !Passes(init[i], attrs) && Failures(init, attrs)[k] == Complaint(init[i]);
      assert vs[i] == init[i];
    } else {
      assert !Passes(last, attrs) && Failures(vs, attrs)[k] == Complaint(last);
    }
  }
}
