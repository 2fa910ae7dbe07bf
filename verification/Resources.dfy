/** Memory pools and heap blocks, as far as obtaining and giving them back goes. */
module Resources {
  import opened Sums

  /** The pools and blocks obtained from the host and not given back. Destroying one needs it to be
      live, so a verified caller never destroys anything twice. */
  class Ledger {
    var live: set<nat>
    var next: nat

    ghost predicate Valid()
      reads this
    {
      forall r :: r in live ==> r < next
    }

    constructor ()
      ensures Valid() && live == {}
    {
      live, next := {}, 0;
    }

    method Acquire(fails: bool) returns (r: Option<nat>)
      requires Valid()
      modifies this
      ensures Valid() && next >= old(next)
      ensures fails ==> r == None && live == old(live)
      ensures !fails ==> r.Some? && r.value !in old(live) && r.value >= old(next) && live == old(live) + {r.value}
    {
      if fails { return None; }
      r := Some(next);
      live := live + {next};
      next := next + 1;
    }

    method Destroy(r: nat)
      requires Valid() && r in live
      modifies this
      ensures Valid() && live == old(live) - {r} && next == old(next)
    {
      live := live - {r};
    }
  }
}
