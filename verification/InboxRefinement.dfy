/** What the inbox's consumer method does when it runs alone is one run of the protocol. */
module InboxRefinement {
  import opened InboxMemory
  import opened InboxProtocol
  import opened InboxInvariants
  import opened InboxWaiters
  import opened InboxTheorems
  import opened Inbox

  /** The goroutine `t` stands where the method's loop stands. */
  ghost predicate Shows(s: Sys, t: Tid, c: Loop) {
    t in s.threads && s.threads[t] == c.pc && s.mem == c.mem && s.hist == c.hist
  }

  ghost predicate SameBut(threads: map<Tid, Pc>, threads': map<Tid, Pc>, t: Tid) {
    forall u | u != t :: (u in threads <==> u in threads') && (u in threads ==> threads'[u] == threads[u])
  }

  lemma CanDeliver(s: Sys, t: Tid, c: Loop, a: DrainAction)
    requires Reachable(s) && Shows(s, t, c) && Fits(c.mem, c.pc, a)
    ensures DrainEnabled(s, t, a)
  {
    if a.DoDeliver? {
      InvReachable(s);
      assert CarriedBy(s.threads, t, c.pc.id);
    }
  }

  lemma OneSection(s: Sys, t: Tid, c: Loop, a: DrainAction) returns (s': Sys)
    requires Reachable(s) && Shows(s, t, c) && Fits(c.mem, c.pc, a)
    ensures Enabled(s, Drain(t, a)) && s' == Apply(s, Drain(t, a))
    ensures Reachable(s') && Shows(s', t, After(c, a))
    ensures SameBut(s.threads, s'.threads, t)
  {
    CanDeliver(s, t, c, a);
    Reach(s, Drain(t, a));
    s' := Apply(s, Drain(t, a));
  }

  ghost function StepsOf(t: Tid, actions: seq<DrainAction>): seq<Step> {
    seq(|actions|, i requires 0 <= i < |actions| => Drain(t, actions[i]))
  }

  lemma OneMoreStep(s: Sys, t: Tid, actions: seq<DrainAction>, front: Sys)
    requires actions != [] && Run(s, StepsOf(t, actions[..|actions| - 1]), front)
    requires Enabled(front, Drain(t, actions[|actions| - 1]))
    ensures Run(s, StepsOf(t, actions), Apply(front, Drain(t, actions[|actions| - 1])))
  {
    var n := |actions| - 1;
    RunSnoc(s, StepsOf(t, actions[..n]), front, Drain(t, actions[n]));
    assert StepsOf(t, actions) == StepsOf(t, actions[..n]) + [Drain(t, actions[n])];
  }

  /** Every path of the consumer's loop is taken by its goroutine in the protocol, from any
      reachable state that shows its start; the other goroutines stay where they are. */
  lemma {:induction false} PathIsARun(s: Sys, t: Tid, c: Loop, actions: seq<DrainAction>, c': Loop) returns (s': Sys)
    requires Reachable(s) && Shows(s, t, c) && Path(c, actions, c')
    ensures Run(s, StepsOf(t, actions), s') && Reachable(s') && Shows(s', t, c') && SameBut(s.threads, s'.threads, t)
    decreases |actions|
  {
    if actions == [] {
      s' := s;
    } else {
      var n := |actions| - 1;
      var mid :| Path(c, actions[..n], mid) && Fits(mid.mem, mid.pc, actions[n]) && c' == After(mid, actions[n]);
      var front := PathIsARun(s, t, c, actions[..n], mid);
      s' := OneSection(front, t, mid, actions[n]);
      OneMoreStep(s, t, actions, front);
    }
  }
}
