/** A search that adds to a finite set comes to an end. */
module FiniteSets {
  lemma {:induction false} Shrinks<T>(all: set<T>, some: set<T>, x: T)
    requires x in all && x !in some
    ensures |all - (some + {x})| < |all - some|
  {
    assert all - some == (all - (some + {x})) + {x};
  }
}
