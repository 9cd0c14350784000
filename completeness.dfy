/** The completeness check of the requirers and of the integrator's configuration: which
    entries of a required list are missing, reported in the order of the list. */
module Completeness {

  /** The entries of `required` that are not in `present`, in list order. */
  function Missing(required: seq<string>, present: set<string>): (r: seq<string>)
    ensures forall x :: x in r <==> x in required && x !in present
    ensures |r| <= |required|
    decreases |required|
  {
    if required == [] then []
    else (if required[0] in present then [] else [required[0]]) + Missing(required[1..], present)
  }

  /** Every required entry is present. */
  predicate Complete(required: seq<string>, present: set<string>)
  {
    forall i :: 0 <= i < |required| ==> required[i] in present
  }

  /** Missing entries of a concatenation are those of the first part followed by those of
      the second: the report keeps the order of the list. */
  lemma {:induction false} MissingAppend(a: seq<string>, b: seq<string>, present: set<string>)
    ensures Missing(a + b, present) == Missing(a, present) + Missing(b, present)
    decreases |a|
  {
    if a == [] {
      assert a + b == b;
    } else {
      assert (a + b)[0] == a[0];
      assert (a + b)[1..] == a[1..] + b;
      MissingAppend(a[1..], b, present);
    }
  }

  /** Nothing is missing exactly when every required entry is present. */
  lemma MissingEmptyIff(required: seq<string>, present: set<string>)
    ensures Missing(required, present) == [] <==> Complete(required, present)
  {
    if Missing(required, present) != [] {
      var x := Missing(required, present)[0];
      assert x in Missing(required, present);
    }
  }

  /** The loop of the handlers: walks the required list once, collecting the absent entries
      and clearing the `contains_required_options` flag on the first one. */
  method CollectMissing(required: seq<string>, present: set<string>)
    returns (missing: seq<string>, complete: bool)
    ensures missing == Missing(required, present)
    ensures complete <==> Complete(required, present)
  {
    complete := true;
    missing := [];
    for i := 0 to |required|
      invariant missing == Missing(required[..i], present)
      invariant complete <==> forall j :: 0 <= j < i ==> required[j] in present
    {
      MissingAppend(required[..i], [required[i]], present);
      assert required[..i + 1] == required[..i] + [required[i]];
      if required[i] !in present {
        complete := false;
        missing := missing + [required[i]];
      }
    }
    assert required[..|required|] == required;
  }
}
