/** Which running connection a request is to share. */
module Sharing {
  import opened Options
  import opened ConnectionMachine
  import opened Handler

  /** Machine k can serve the type and is in the given phase. */
  predicate Candidate(pool: seq<Machine>, fits: set<nat>, k: nat, p: Phase) {
    k < |pool| && k in fits && pool[k].phase == p
  }

  ghost predicate NoneFrom(pool: seq<Machine>, fits: set<nat>, i: nat, p: Phase) {
    forall k: nat | i <= k < |pool| :: !Candidate(pool, fits, k, p)
  }

  ghost predicate FirstFrom(pool: seq<Machine>, fits: set<nat>, i: nat, p: Phase, k: nat) {
    i <= k && Candidate(pool, fits, k, p) && forall j: nat | i <= j < k :: !Candidate(pool, fits, j, p)
  }

  ghost predicate Last(pool: seq<Machine>, fits: set<nat>, p: Phase, k: nat) {
    Candidate(pool, fits, k, p) && NoneFrom(pool, fits, k + 1, p)
  }

  /** What a scan from i on has to return: the first active machine that serves the type;
      failing that the last activating one; failing that the one already in mind, or the
      first disconnecting one; else none. */
  ghost predicate Chosen(pool: seq<Machine>, fits: set<nat>, i: nat, potential: Option<nat>, c: Option<nat>) {
    if !NoneFrom(pool, fits, i, Active) then c.Some? && FirstFrom(pool, fits, i, Active, c.value)
    else if !NoneFrom(pool, fits, i, Activating) then c.Some? && i <= c.value && Last(pool, fits, Activating, c.value)
    else if potential.Some? then c == potential
    else if !NoneFrom(pool, fits, i, Disconnecting) then c.Some? && FirstFrom(pool, fits, i, Disconnecting, c.value)
    else c.None?
  }

  lemma NoneFromNext(pool: seq<Machine>, fits: set<nat>, i: nat, p: Phase)
    requires i < |pool|
    ensures NoneFrom(pool, fits, i, p) <==> !Candidate(pool, fits, i, p) && NoneFrom(pool, fits, i + 1, p)
  {
  }

  lemma {:induction false} ScanChooses(pool: seq<Machine>, fits: set<nat>, i: nat, potential: Option<nat>)
    requires i <= |pool|
    ensures Chosen(pool, fits, i, potential, FindCompatible(pool, fits, i, potential))
    decreases |pool| - i
  {
    if i < |pool| {
      NoneFromNext(pool, fits, i, Active);
      NoneFromNext(pool, fits, i, Activating);
      NoneFromNext(pool, fits, i, Disconnecting);
      if i !in fits {
        ScanChooses(pool, fits, i + 1, potential);
      } else if pool[i].phase.Activating? || (pool[i].phase.Disconnecting? && potential.None?) {
        ScanChooses(pool, fits, i + 1, Some(i));
      } else if !pool[i].phase.Active? {
        ScanChooses(pool, fits, i + 1, potential);
      }
    }
  }
}
