/** What several components share. */
module Basics {
  datatype Option<+T> = None | Some(value: T)

  datatype Result<+T> = Ok(value: T) | Err

  /** A non-empty set of numbers has a least one. */
  lemma {:induction false} LeastExists(s: set<nat>, x: nat)
    requires x in s
    ensures exists least :: least in s && forall r | r in s :: least <= r
    decreases x
  {
    if r :| r in s && r < x {
      LeastExists(s, r);
    }
  }
}
