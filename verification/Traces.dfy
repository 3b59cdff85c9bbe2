/** Traces of events in which every event obeys a law that looks at what came before it. */
module Traces {

  ghost predicate Lawful<E(!new)>(law: (seq<E>, E) -> bool, trace: seq<E>) {
    forall i :: 0 <= i < |trace| ==> law(trace[..i], trace[i])
  }

  /** A trace grows lawfully by one lawful event. */
  lemma Extend<E(!new)>(law: (seq<E>, E) -> bool, trace: seq<E>, e: E)
    requires Lawful(law, trace) && law(trace, e)
    ensures Lawful(law, trace + [e])
  {
    var longer := trace + [e];
    forall i | 0 <= i < |longer| ensures law(longer[..i], longer[i]) {
      if i < |trace| {
        assert longer[..i] == trace[..i];
      } else {
        assert longer[..i] == trace;
      }
    }
  }
}
