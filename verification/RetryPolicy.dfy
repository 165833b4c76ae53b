/** Which APN to try next: a round robin over the APNs that are not marked bad, five tries
    each, found by a recursion that changes the position and the counter as it goes. */
module RetryPolicy {
  import opened Options

  const MAX_COUNT: nat := 5

  datatype Apn = Apn(profileId: int, bad: bool, name: string)

  predicate AllBad(apns: seq<Apn>) {
    forall i | 0 <= i < |apns| :: apns[i].bad
  }

  /** Positions of usable APNs from i on. */
  function Goods(apns: seq<Apn>, i: nat): (g: seq<nat>)
    requires i <= |apns|
    ensures forall k | 0 <= k < |g| :: i <= g[k] < |apns| && !apns[g[k]].bad
    ensures g == [] ==> forall k | i <= k < |apns| :: apns[k].bad
    decreases |apns| - i
  {
    if i == |apns| then [] else if apns[i].bad then Goods(apns, i + 1) else [i] + Goods(apns, i + 1)
  }

  predicate InRange(apns: seq<Apn>, index: int) {
    0 <= index < |apns|
  }

  function FirstGood(apns: seq<Apn>, i: nat): (r: nat)
    requires i <= |apns|
    ensures i <= r <= |apns|
  {
    if Goods(apns, i) == [] then |apns| else Goods(apns, i)[0]
  }

  /** Steps from a position to the next usable APN, around the end of the list. */
  function Distance(apns: seq<Apn>, index: int): nat {
    var first := FirstGood(apns, 0);
    if !InRange(apns, index) then first
    else if FirstGood(apns, index) < |apns| then FirstGood(apns, index) - index
    else |apns| - index + first
  }

  function Exhausted(apns: seq<Apn>, index: int, count: nat): nat {
    if InRange(apns, index) && count >= MAX_COUNT then 1 else 0
  }

  datatype Choice = Choice(found: Option<nat>, index: int, count: nat)

  lemma DistanceDrops(apns: seq<Apn>, index: int)
    requires InRange(apns, index) && apns[index].bad && !AllBad(apns)
    ensures Distance(apns, index + 1) < Distance(apns, index)
  {
    assert Goods(apns, index) == Goods(apns, index + 1);
    if index + 1 == |apns| {
      assert Goods(apns, index) == [];
    }
  }

  function Next(apns: seq<Apn>, index: int, count: nat): (r: Choice)
    ensures r.found.None? <==> AllBad(apns)
    ensures r.found.Some? ==>
              && r.found.value < |apns| && !apns[r.found.value].bad
              && r.index == r.found.value && 1 <= r.count <= MAX_COUNT
    decreases Exhausted(apns, index, count), Distance(apns, index)
  {
    if AllBad(apns) then Choice(None, index, count)
    else
      var i := if InRange(apns, index) then index else 0;
      var c := if InRange(apns, index) then count else 0;
      if apns[i].bad || c + 1 > MAX_COUNT then
        assert apns[i].bad ==> Distance(apns, i + 1) < Distance(apns, index) by {
          if apns[i].bad {
            DistanceDrops(apns, i);
          }
        }
        Next(apns, i + 1, 0)
      else Choice(Some(i), i, c + 1)
  }

  function SameIds(a: seq<Apn>, b: seq<Apn>): bool {
    |a| == |b| && forall i | 0 <= i < |a| :: a[i].profileId == b[i].profileId
  }

  class ConnectionRetryPolicy {
    var matchedApns: seq<Apn>
    var tryCount: nat
    var currentApnIndex: int

    constructor ()
      ensures matchedApns == [] && tryCount == 0 && currentApnIndex == 0
    {
      matchedApns, tryCount, currentApnIndex := [], 0, 0;
    }

    method IsAllBadApn() returns (all: bool)
      ensures all == AllBad(matchedApns)
    {
      for i := 0 to |matchedApns|
        invariant forall j | 0 <= j < i :: matchedApns[j].bad
      {
        if !matchedApns[i].bad {
          return false;
        }
      }
      return true;
    }

    method GetNextRetryApnItem() returns (item: Option<Apn>)
      modifies `tryCount, `currentApnIndex
      ensures var r := Next(matchedApns, old(currentApnIndex), old(tryCount));
              && currentApnIndex == r.index && tryCount == r.count
              && item == if r.found.Some? then Some(matchedApns[r.found.value]) else None
      decreases Exhausted(matchedApns, currentApnIndex, tryCount), Distance(matchedApns, currentApnIndex)
    {
      var allBad := IsAllBadApn();
      if matchedApns == [] || allBad {
        return None;
      }
      if currentApnIndex >= |matchedApns| || currentApnIndex < 0 {
        currentApnIndex := 0;
        tryCount := 0;
      }
      item := Some(matchedApns[currentApnIndex]);
      tryCount := tryCount + 1;
      if item.value.bad || tryCount > MAX_COUNT {
        if item.value.bad {
          DistanceDrops(matchedApns, currentApnIndex);
        }
        tryCount := 0;
        currentApnIndex := currentApnIndex + 1;
        item := GetNextRetryApnItem();
      }
    }

    method SetMatchedApns(apns: seq<Apn>)
      modifies `matchedApns, `currentApnIndex
      ensures matchedApns == apns
      ensures currentApnIndex == if SameIds(old(matchedApns), apns) then old(currentApnIndex) else 0
    {
      if |matchedApns| != |apns| {
        currentApnIndex := 0;
      } else {
        var i := 0;
        while i < |apns|
          invariant i <= |apns| && currentApnIndex == old(currentApnIndex)
          invariant forall j | 0 <= j < i :: apns[j].profileId == matchedApns[j].profileId
        {
          if apns[i].profileId != matchedApns[i].profileId {
            currentApnIndex := 0;
            break;
          }
          i := i + 1;
        }
      }
      matchedApns := apns;
    }
  }

  // ---- Rotation ----

  /** The positions that follow the j-th usable one are the rest of the list of usable ones. */
  lemma {:induction false} GoodsAfter(apns: seq<Apn>, i: nat, j: nat)
    requires i <= |apns| && j < |Goods(apns, i)|
    ensures Goods(apns, Goods(apns, i)[j] + 1) == Goods(apns, i)[j + 1..]
    decreases |apns| - i
  {
    if apns[i].bad {
      GoodsAfter(apns, i + 1, j);
    } else if j > 0 {
      GoodsAfter(apns, i + 1, j - 1);
      assert Goods(apns, i)[j + 1..] == Goods(apns, i + 1)[j..];
    }
  }

  /** With a fresh counter the search stops at the first usable position, around the end. */
  lemma {:induction false} FreshSearch(apns: seq<Apn>, i: nat)
    requires i <= |apns| && Goods(apns, 0) != []
    ensures var g := if Goods(apns, i) != [] then Goods(apns, i) else Goods(apns, 0);
            Next(apns, i, 0) == Choice(Some(g[0]), g[0], 1)
    decreases Distance(apns, i)
  {
    assert !AllBad(apns) by {
      assert !apns[Goods(apns, 0)[0]].bad;
    }
    if i == |apns| {
      if apns[0].bad {
        DistanceDrops(apns, 0);
        FreshSearch(apns, 1);
      }
    } else if apns[i].bad {
      DistanceDrops(apns, i);
      FreshSearch(apns, i + 1);
    }
  }

  lemma AtLeastOnce(m: nat, k: nat)
    requires k >= 1
    ensures m * k >= m
  {
    assert m * k == m * (k - 1) + m;
  }

  lemma SameQuotient(m: nat, a: nat, b: nat, c: nat, d: nat)
    requires b < m && d < m && m * a + b == m * c + d
    ensures b == d
  {
    if a > c {
      assert m * (a - c) == m * a - m * c;
      AtLeastOnce(m, a - c);
    } else if a < c {
      assert m * (c - a) == m * c - m * a;
      AtLeastOnce(m, c - a);
    }
  }

  lemma ModUnique(x: nat, m: nat, a: nat, b: nat)
    requires m > 0 && b < m && x == m * a + b
    ensures x % m == b
  {
    SameQuotient(m, a, b, x / m, x % m);
  }

  lemma TurnStep(q: nat, m: nat)
    requires m > 0
    ensures (q + 1) % m == if q % m + 1 == m then 0 else q % m + 1
  {
    var a, b := q / m, q % m;
    if b + 1 == m {
      assert m * (a + 1) == m * a + m;
      ModUnique(q + 1, m, a + 1, 0);
    } else {
      ModUnique(q + 1, m, a, b + 1);
    }
  }

  /** Where the rotation stands after t tries: the usable APN of the current round of five. */
  function Turn(apns: seq<Apn>, t: nat): nat
    requires Goods(apns, 0) != []
  {
    var g := Goods(apns, 0);
    g[(t / MAX_COUNT) % |g|]
  }

  /** One call in the middle of the rotation makes the next try. */
  lemma NextTurn(apns: seq<Apn>, t: nat, count: nat)
    requires Goods(apns, 0) != [] && t > 0 && count == (t - 1) % MAX_COUNT + 1
    ensures Next(apns, Turn(apns, t - 1), count) == Choice(Some(Turn(apns, t)), Turn(apns, t), t % MAX_COUNT + 1)
  {
    var g := Goods(apns, 0);
    var j := ((t - 1) / MAX_COUNT) % |g|;
    assert !AllBad(apns) by {
      assert !apns[g[0]].bad;
    }
    FiveSteps(t);
    if count == MAX_COUNT {
      LastTry(apns, j);
      TurnStep((t - 1) / MAX_COUNT, |g|);
    }
  }

  lemma FiveSteps(t: nat)
    requires t > 0
    ensures (t - 1) % MAX_COUNT + 1 == MAX_COUNT ==> t / MAX_COUNT == (t - 1) / MAX_COUNT + 1 && t % MAX_COUNT == 0
    ensures (t - 1) % MAX_COUNT + 1 < MAX_COUNT ==>
              t / MAX_COUNT == (t - 1) / MAX_COUNT && t % MAX_COUNT == (t - 1) % MAX_COUNT + 1
  {
  }

  /** After its last try the j-th usable APN hands over to the next one, around the end. */
  lemma LastTry(apns: seq<Apn>, j: nat)
    requires j < |Goods(apns, 0)|
    ensures var g := Goods(apns, 0);
            var n := g[if j + 1 == |g| then 0 else j + 1];
            Next(apns, g[j], MAX_COUNT) == Choice(Some(n), n, 1)
  {
    var g := Goods(apns, 0);
    assert !AllBad(apns) by {
      assert !apns[g[0]].bad;
    }
    HandsOver(apns, j);
    assert Next(apns, g[j], MAX_COUNT) == Next(apns, g[j] + 1, 0);
  }

  /** The search behind the j-th usable APN finds the next one, around the end. */
  lemma HandsOver(apns: seq<Apn>, j: nat)
    requires j < |Goods(apns, 0)|
    ensures var g := Goods(apns, 0);
            var n := g[if j + 1 == |g| then 0 else j + 1];
            Next(apns, g[j] + 1, 0) == Choice(Some(n), n, 1)
  {
    var g := Goods(apns, 0);
    var rest := Goods(apns, g[j] + 1);
    GoodsAfter(apns, 0, j);
    FreshSearch(apns, g[j] + 1);
    assert rest == g[j + 1..];
    if j + 1 < |g| {
      assert rest[0] == g[j + 1];
    }
  }

  // ---- Whole runs of calls and list refreshes ----

  datatype Op = Ask | Refresh(apns: seq<Apn>)

  datatype Policy = Policy(apns: seq<Apn>, index: int, count: nat)

  datatype Trace = Trace(state: Policy, answers: seq<Option<nat>>)

  function Do(t: Trace, op: Op): Trace {
    match op
    case Ask =>
      var r := Next(t.state.apns, t.state.index, t.state.count);
      Trace(Policy(t.state.apns, r.index, r.count), t.answers + [r.found])
    case Refresh(apns) =>
      Trace(Policy(apns, if SameIds(t.state.apns, apns) then t.state.index else 0, t.state.count), t.answers)
  }

  function Run(p: Policy, ops: seq<Op>): Trace {
    if ops == [] then Trace(p, []) else Do(Run(p, ops[..|ops| - 1]), ops[|ops| - 1])
  }

  /** Same ids and bad flags, whatever else the items hold. */
  ghost predicate Alike(a: seq<Apn>, b: seq<Apn>) {
    SameIds(a, b) && forall i | 0 <= i < |a| :: a[i].bad == b[i].bad
  }

  lemma {:induction false} AlikeGoods(a: seq<Apn>, b: seq<Apn>, i: nat)
    requires Alike(a, b) && i <= |a|
    ensures Goods(a, i) == Goods(b, i)
    decreases |a| - i
  {
    if i < |a| {
      AlikeGoods(a, b, i + 1);
    }
  }

  /** Position and counter after n answers. */
  ghost predicate Stands(apns: seq<Apn>, p: Policy, n: nat)
    requires Goods(apns, 0) != []
  {
    && Alike(apns, p.apns)
    && if n == 0 then p.index == 0 && p.count == 0
       else p.index == Turn(apns, n - 1) && p.count == (n - 1) % MAX_COUNT + 1
  }

  ghost predicate InTurn(apns: seq<Apn>, answers: seq<Option<nat>>)
    requires Goods(apns, 0) != []
  {
    forall k | 0 <= k < |answers| :: answers[k] == Some(Turn(apns, k))
  }

  lemma AskKeeps(apns: seq<Apn>, p: Policy, n: nat)
    requires Goods(apns, 0) != [] && Stands(apns, p, n)
    ensures Next(p.apns, p.index, p.count) == Choice(Some(Turn(apns, n)), Turn(apns, n), n % MAX_COUNT + 1)
  {
    AlikeGoods(apns, p.apns, 0);
    if n == 0 {
      FreshSearch(p.apns, 0);
      assert Turn(apns, 0) == Goods(apns, 0)[0] by {
        ModUnique(0, |Goods(apns, 0)|, 0, 0);
      }
    } else {
      NextTurn(p.apns, n, p.count);
    }
  }

  lemma DoKeeps(apns: seq<Apn>, t: Trace, op: Op)
    requires Goods(apns, 0) != [] && Stands(apns, t.state, |t.answers|) && InTurn(apns, t.answers)
    requires op.Refresh? ==> Alike(apns, op.apns)
    ensures Stands(apns, Do(t, op).state, |Do(t, op).answers|) && InTurn(apns, Do(t, op).answers)
  {
    if op.Ask? {
      AskKeeps(apns, t.state, |t.answers|);
    }
  }

  /** From position 0 and count 0, through any refreshes that leave ids and bad flags alone,
      call k answers the usable APN number k / 5, counted around. */
  lemma {:induction false} Rotation(apns: seq<Apn>, ops: seq<Op>)
    requires Goods(apns, 0) != []
    requires forall k | 0 <= k < |ops| :: ops[k].Refresh? ==> Alike(apns, ops[k].apns)
    ensures var r := Run(Policy(apns, 0, 0), ops);
            Stands(apns, r.state, |r.answers|) && InTurn(apns, r.answers)
    decreases |ops|
  {
    if ops != [] {
      Rotation(apns, ops[..|ops| - 1]);
      DoKeeps(apns, Run(Policy(apns, 0, 0), ops[..|ops| - 1]), ops[|ops| - 1]);
    }
  }

  /** A list with other ids restarts the position but not the counter: the first APN gets
      only the tries that the old one had left. */
  lemma CounterOutlivesList(p: Policy, apns: seq<Apn>)
    requires !SameIds(p.apns, apns) && apns != [] && !apns[0].bad
    ensures var t := Do(Trace(p, []), Refresh(apns));
            && t.state.index == 0 && t.state.count == p.count
            && (Next(apns, t.state.index, t.state.count) == Choice(Some(0), 0, p.count + 1) <==> p.count < MAX_COUNT)
  {
    if p.count >= MAX_COUNT {
      assert Next(apns, 0, p.count) == Next(apns, 1, 0);
    }
  }
}
