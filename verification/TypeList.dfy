/** Comma-separated APN type lists: splitting, and the test whether an item serves a type. */
module TypeList {
  // ---- Searching ----

  /** The separator occurs in s at position p. */
  predicate OccursAt(s: string, f: string, p: nat) {
    p + |f| <= |s| && s[p..p + |f|] == f
  }

  predicate Contains(s: string, f: string) {
    exists p: nat :: p <= |s| && OccursAt(s, f, p)
  }

  /** First position from p on at which f occurs, or the length of s plus one. */
  function Find(s: string, f: string, p: nat): (r: nat)
    requires p <= |s| + 1
    ensures p <= r && (r + |f| <= |s| || r == |s| + 1)
    decreases |s| + 1 - p
  {
    if p > |s| || OccursAt(s, f, p) then p else Find(s, f, p + 1)
  }

  lemma {:induction false} FindIsFirst(s: string, f: string, p: nat)
    requires p <= |s| + 1
    ensures var r := Find(s, f, p);
            && (r <= |s| ==> OccursAt(s, f, r))
            && (forall q: nat | p <= q < r :: !OccursAt(s, f, q))
    decreases |s| + 1 - p
  {
    if p <= |s| && !OccursAt(s, f, p) {
      FindIsFirst(s, f, p + 1);
    }
  }

  // ---- Splitting ----

  /** The pieces from a start position on; what follows the last separator counts only if
      there is something. */
  function Pieces(s: string, f: string, start: nat): seq<string>
    requires f != "" && start <= |s|
    decreases |s| - start
  {
    var p := Find(s, f, start);
    if p <= |s| then [s[start..p]] + Pieces(s, f, p + |f|)
    else if start == |s| then [] else [s[start..]]
  }

  function Split(s: string, f: string): seq<string>
    requires f != ""
  {
    Pieces(s, f, 0)
  }

  function Join(ps: seq<string>, f: string): string {
    if ps == [] then "" else if |ps| == 1 then ps[0] else ps[0] + f + Join(ps[1..], f)
  }

  lemma Associates<T>(a: seq<T>, b: seq<T>, c: seq<T>)
    ensures (a + b) + c == a + (b + c)
  {
  }

  lemma OnePiece(s: string, f: string, start: nat, done: seq<string>)
    requires f != "" && start <= |s|
    ensures var p := Find(s, f, start);
            p <= |s| ==> (done + [s[start..p]]) + Pieces(s, f, p + |f|) == done + Pieces(s, f, start)
  {
    var p := Find(s, f, start);
    if p <= |s| {
      FirstPiece(s, f, start);
      Prefixed(done, s[start..p], Pieces(s, f, p + |f|), Pieces(s, f, start));
    }
  }

  lemma FirstPiece(s: string, f: string, start: nat)
    requires f != "" && start <= |s|
    ensures var p := Find(s, f, start);
            p <= |s| ==> Pieces(s, f, start) == [s[start..p]] + Pieces(s, f, p + |f|)
  {
  }

  lemma Prefixed(done: seq<string>, x: string, rest: seq<string>, all: seq<string>)
    requires all == [x] + rest
    ensures (done + [x]) + rest == done + all
  {
    Associates(done, [x], rest);
  }

  lemma LastPiece(s: string, f: string, start: nat)
    requires f != "" && start <= |s|
    ensures Find(s, f, start) > |s| ==> Pieces(s, f, start) == if start == |s| then [] else [s[start..]]
  {
  }

  /** The splitting loop: repeated search from a moving start. */
  method SplitLoop(input: string, flag: string) returns (vec: seq<string>)
    requires flag != ""
    ensures vec == Split(input, flag)
  {
    vec := [];
    if input == "" {
      return;
    }
    var start := 0;
    var pos := Find(input, flag, start);
    while pos <= |input|
      invariant start <= |input| && pos == Find(input, flag, start)
      invariant vec + Pieces(input, flag, start) == Split(input, flag)
      decreases |input| - start
    {
      OnePiece(input, flag, start, vec);
      vec := vec + [input[start..pos]];
      start := pos + |flag|;
      pos := Find(input, flag, start);
    }
    LastPiece(input, flag, start);
    if start != |input| {
      vec := vec + [input[start..]];
    }
  }

  lemma SliceOfSlice(s: string, start: nat, end: nat, i: nat, j: nat)
    requires start <= end <= |s| && i <= j <= end - start
    ensures s[start..end][i..j] == s[start + i..start + j]
  {
    var a, b := s[start..end][i..j], s[start + i..start + j];
    assert |a| == |b|;
    forall k | 0 <= k < |a|
      ensures a[k] == b[k]
    {
      assert a[k] == s[start..end][i + k];
    }
  }

  lemma SliceHoldsNone(s: string, f: string, start: nat, end: nat)
    requires start <= end <= |s| && f != "" && forall q: nat | start <= q < end :: !OccursAt(s, f, q)
    ensures !Contains(s[start..end], f)
  {
    var t := s[start..end];
    forall q: nat | q <= |t|
      ensures !OccursAt(t, f, q)
    {
      if q + |f| <= |t| {
        assert !OccursAt(s, f, start + q);
        SliceOfSlice(s, start, end, q, q + |f|);
      }
    }
  }

  lemma {:induction false} PiecesHoldNone(s: string, f: string, start: nat)
    requires f != "" && start <= |s|
    ensures forall i | 0 <= i < |Pieces(s, f, start)| :: !Contains(Pieces(s, f, start)[i], f)
    decreases |s| - start
  {
    var p := Find(s, f, start);
    FindIsFirst(s, f, start);
    SliceHoldsNone(s, f, start, if p <= |s| then p else |s|);
    if p <= |s| {
      PiecesHoldNone(s, f, p + |f|);
    } else {
      assert s[start..|s|] == s[start..];
    }
  }

  lemma {:induction false} JoinPieces(s: string, f: string, start: nat)
    requires f != "" && start <= |s|
    ensures var j := Join(Pieces(s, f, start), f); j == s[start..] || j + f == s[start..]
    decreases |s| - start
  {
    var p := Find(s, f, start);
    FindIsFirst(s, f, start);
    if p <= |s| {
      var piece, rest := s[start..p], Pieces(s, f, p + |f|);
      JoinPieces(s, f, p + |f|);
      assert Pieces(s, f, start) == [piece] + rest;
      JoinCons(piece, rest, f);
      Cut(s, f, start, p);
      var j := Join(rest, f);
      if rest == [] {
        assert p + |f| == |s|;
        assert piece + f + [] == piece + f;
      } else if j + f == s[p + |f|..] {
        Associates(piece + f, j, f);
      }
    }
  }

  lemma JoinCons(x: string, rest: seq<string>, f: string)
    ensures Join([x] + rest, f) == if rest == [] then x else x + f + Join(rest, f)
  {
    assert ([x] + rest)[1..] == rest;
  }

  lemma Cut(s: string, f: string, start: nat, p: nat)
    requires start <= p && OccursAt(s, f, p)
    ensures s[start..] == s[start..p] + f + s[p + |f|..]
  {
    assert s[p..p + |f|] == f;
    assert s[start..] == s[start..p] + s[p..p + |f|] + s[p + |f|..];
  }

  /** No piece contains the separator, and joining the pieces gives the input back, up to
      one separator at its end. */
  lemma JoinUndoesSplit(s: string, f: string)
    requires f != ""
    ensures Join(Split(s, f), f) == s || Join(Split(s, f), f) + f == s
    ensures forall i | 0 <= i < |Split(s, f)| :: !Contains(Split(s, f)[i], f)
  {
    PiecesHoldNone(s, f, 0);
    JoinPieces(s, f, 0);
    assert s[0..] == s;
  }

  // ---- Tokens of a concatenated list ----

  /** A non-empty piece of a comma-separated list. */
  predicate Token(s: string, t: string) {
    t != "" && t in Split(s, ",")
  }

  lemma CommaAt(s: string, p: nat)
    ensures OccursAt(s, ",", p) <==> p < |s| && s[p] == ','
  {
    if p < |s| {
      assert s[p..p + 1] == [s[p]];
    }
  }

  lemma FindComma(s: string, start: nat)
    requires start <= |s|
    ensures var p := Find(s, ",", start);
            && (p <= |s| ==> p < |s| && s[p] == ',')
            && (forall q | start <= q < p && q < |s| :: s[q] != ',')
  {
    var p := Find(s, ",", start);
    FindIsFirst(s, ",", start);
    CommaAt(s, p);
    forall q | start <= q < p && q < |s|
      ensures s[q] != ','
    {
      CommaAt(s, q);
    }
  }

  lemma FirstComma(s: string, start: nat, p: nat)
    requires start <= p < |s| && s[p] == ',' && forall q | start <= q < p :: s[q] != ','
    ensures Find(s, ",", start) == p
  {
    FindComma(s, start);
    FindIsFirst(s, ",", start);
    CommaAt(s, p);
  }

  lemma BehindFound(x: string, b: string, start: nat)
    requires start <= |b|
    ensures var p := Find(b, ",", start);
            p <= |b| ==> Pieces(x + b, ",", |x| + start) == [b[start..p]] + Pieces(x + b, ",", |x| + p + 1)
  {
    FindBehind(x, b, start);
    FirstPiece(x + b, ",", |x| + start);
    if Find(b, ",", start) <= |b| {
      SliceBehind(x, b, start, Find(b, ",", start));
    }
  }

  lemma BehindLast(x: string, b: string, start: nat)
    requires start <= |b| < Find(b, ",", start)
    ensures Pieces(x + b, ",", |x| + start) == Pieces(b, ",", start)
  {
    FindBehind(x, b, start);
    LastPiece(b, ",", start);
    LastPiece(x + b, ",", |x| + start);
    TailBehind(x, b, start);
  }

  /** Pieces behind a prefix do not depend on the prefix. */
  lemma {:induction false} PiecesBehind(x: string, b: string, start: nat)
    requires start <= |b|
    ensures Pieces(x + b, ",", |x| + start) == Pieces(b, ",", start)
    decreases |b| - start
  {
    var p := Find(b, ",", start);
    if p <= |b| {
      PiecesBehind(x, b, p + 1);
      BehindFound(x, b, start);
      FirstPiece(b, ",", start);
    } else {
      BehindLast(x, b, start);
    }
  }

  lemma TailBehind(x: string, b: string, i: nat)
    requires i <= |b|
    ensures (x + b)[|x| + i..] == b[i..]
  {
  }

  lemma SliceBehind(x: string, b: string, i: nat, j: nat)
    requires i <= j <= |b|
    ensures (x + b)[|x| + i..|x| + j] == b[i..j]
  {
  }

  lemma SliceFront(a: string, x: string, i: nat, j: nat)
    requires i <= j <= |a|
    ensures (a + x)[i..j] == a[i..j]
  {
  }

  lemma FindBehind(x: string, b: string, start: nat)
    requires start <= |b|
    ensures Find(x + b, ",", |x| + start) == |x| + Find(b, ",", start)
  {
    var p := Find(b, ",", start);
    FindComma(b, start);
    if p <= |b| {
      FirstComma(x + b, |x| + start, |x| + p);
    } else {
      FindComma(x + b, |x| + start);
    }
  }

  lemma FrontFound(a: string, b: string, start: nat)
    requires start <= |a|
    ensures var p := Find(a, ",", start);
            p <= |a| ==> Pieces(a + "," + b, ",", start) == [a[start..p]] + Pieces(a + "," + b, ",", p + 1)
  {
    var p := Find(a, ",", start);
    FindInConcat(a, b, start);
    FirstPiece(a + "," + b, ",", start);
    if p <= |a| {
      SliceFront(a + ",", b, start, p);
      SliceFront(a, ",", start, p);
    }
  }

  lemma FrontLast(a: string, b: string, start: nat)
    requires start <= |a| < Find(a, ",", start)
    ensures Pieces(a + "," + b, ",", start) == [a[start..]] + Split(b, ",")
  {
    FindInConcat(a, b, start);
    FirstPiece(a + "," + b, ",", start);
    SliceFront(a + ",", b, start, |a|);
    SliceFront(a, ",", start, |a|);
    assert a[start..|a|] == a[start..];
    PiecesBehind(a + ",", b, 0);
  }

  lemma {:induction false} TokensFrom(a: string, b: string, start: nat, t: string)
    requires start <= |a| && t != ""
    ensures t in Pieces(a + "," + b, ",", start) <==> t in Pieces(a, ",", start) || t in Split(b, ",")
    decreases |a| - start
  {
    var p := Find(a, ",", start);
    if p <= |a| {
      FindComma(a, start);
      TokensFrom(a, b, p + 1, t);
      TokensFound(a, b, start, t, p);
    } else {
      TokensLast(a, b, start, t);
    }
  }

  lemma TokensFound(a: string, b: string, start: nat, t: string, p: nat)
    requires start <= |a| && p == Find(a, ",", start) < |a|
    requires t in Pieces(a + "," + b, ",", p + 1) <==> t in Pieces(a, ",", p + 1) || t in Split(b, ",")
    ensures t in Pieces(a + "," + b, ",", start) <==> t in Pieces(a, ",", start) || t in Split(b, ",")
  {
    FrontFound(a, b, start);
    FirstPiece(a, ",", start);
    SameHead(t, a[start..p], Pieces(a + "," + b, ",", p + 1), Pieces(a, ",", p + 1), Split(b, ","),
             Pieces(a + "," + b, ",", start), Pieces(a, ",", start));
  }

  lemma TokensLast(a: string, b: string, start: nat, t: string)
    requires start <= |a| < Find(a, ",", start) && t != ""
    ensures t in Pieces(a + "," + b, ",", start) <==> t in Pieces(a, ",", start) || t in Split(b, ",")
  {
    FrontLast(a, b, start);
    LastPiece(a, ",", start);
    InCons(t, a[start..], Split(b, ","));
  }

  lemma SameHead(t: string, x: string, ps: seq<string>, qs: seq<string>, more: seq<string>,
                 all: seq<string>, front: seq<string>)
    requires (t in ps <==> t in qs || t in more) && all == [x] + ps && front == [x] + qs
    ensures t in all <==> t in front || t in more
  {
    InCons(t, x, ps);
    InCons(t, x, qs);
  }

  lemma FindInConcat(a: string, b: string, start: nat)
    requires start <= |a|
    ensures var p := Find(a, ",", start);
            Find(a + "," + b, ",", start) == if p <= |a| then p else |a|
  {
    FindComma(a, start);
    var p := Find(a, ",", start);
    FirstComma(a + "," + b, start, if p <= |a| then p else |a|);
  }

  lemma InCons(t: string, x: string, rest: seq<string>)
    ensures t in [x] + rest <==> t == x || t in rest
  {
  }

  /** A list made of two lists has the tokens of both. */
  lemma TokensOfConcat(a: string, b: string, t: string)
    ensures Token(a + "," + b, t) <==> Token(a, t) || Token(b, t)
  {
    if t != "" {
      TokensFrom(a, b, 0, t);
    }
  }

  // ---- Serving a type ----

  const ROLE_ALL := "*"
  const ROLE_DEFAULT := "default"
  const ROLE_INTERNAL_DEFAULT := "internal_default"
  const ROLE_IA := "ia"

  function Lower(s: string): string {
    seq(|s|, i requires 0 <= i < |s| => if 'A' <= s[i] <= 'Z' then s[i] + ('a' - 'A') else s[i])
  }

  predicate Serves(apnType: string, t: string) {
    || t == Lower(apnType)
    || (t == ROLE_INTERNAL_DEFAULT && Lower(apnType) == ROLE_DEFAULT)
    || (t != ROLE_IA && Lower(apnType) == ROLE_ALL)
  }

  /** The same letters, upper or lower case. */
  predicate SameLetters(a: string, b: string) {
    |a| == |b| && forall i | 0 <= i < |a| ::
      || a[i] == b[i]
      || ('A' <= a[i] <= 'Z' && a[i] as int + 32 == b[i] as int)
      || ('A' <= b[i] <= 'Z' && b[i] as int + 32 == a[i] as int)
  }

  /** Which entries serve a type: its own name in any case; beside it the wildcard, except for
      initial attach, and "default" for the internal default type. */
  lemma ServesExactly(a: string, t: string)
    requires forall i | 0 <= i < |t| :: !('A' <= t[i] <= 'Z')
    ensures Serves(a, t) <==>
              SameLetters(a, t) || (t != "ia" && a == "*") || (t == "internal_default" && SameLetters(a, "default"))
  {
    LowerMeets(a, t);
    LowerMeets(a, "default");
    LowerMeets(a, "*");
    assert SameLetters(a, "*") <==> a == "*" by {
      if SameLetters(a, "*") {
        assert a[0] == '*';
      }
    }
  }

  lemma LowerMeets(a: string, t: string)
    requires forall i | 0 <= i < |t| :: !('A' <= t[i] <= 'Z')
    ensures Lower(a) == t <==> SameLetters(a, t)
  {
    if Lower(a) == t {
      forall i | 0 <= i < |a|
        ensures a[i] == t[i] || ('A' <= a[i] <= 'Z' && a[i] as int + 32 == t[i] as int)
      {
        assert t[i] == Lower(a)[i];
      }
    }
    if SameLetters(a, t) {
      assert forall i | 0 <= i < |a| :: Lower(a)[i] == t[i];
    }
  }

  /** An item whose type list is the given string can deal with the type. */
  ghost predicate CanDeal(types: string, t: string) {
    exists i :: 0 <= i < |Split(types, ",")| && Serves(Split(types, ",")[i], t)
  }

  method CanDealWithType(apnTypes: seq<string>, t: string) returns (ok: bool)
    ensures ok <==> exists i :: 0 <= i < |apnTypes| && Serves(apnTypes[i], t)
  {
    for i := 0 to |apnTypes|
      invariant forall j | 0 <= j < i :: !Serves(apnTypes[j], t)
    {
      var apnType := Lower(apnTypes[i]);
      if t == apnType {
        return true;
      }
      if t == ROLE_INTERNAL_DEFAULT && apnType == ROLE_DEFAULT {
        return true;
      }
      if t != ROLE_IA && apnType == ROLE_ALL {
        return true;
      }
    }
    return false;
  }

  lemma ServedByToken(types: string, t: string)
    requires t != ""
    ensures CanDeal(types, t) <==> exists k :: Token(types, k) && Serves(k, t)
  {
    var ps := Split(types, ",");
    if CanDeal(types, t) {
      var i :| 0 <= i < |ps| && Serves(ps[i], t);
      assert Lower("") == "";
      assert Token(types, ps[i]);
    }
    if k :| Token(types, k) && Serves(k, t) {
      var i :| 0 <= i < |ps| && ps[i] == k;
      assert Serves(ps[i], t);
    }
  }

  /** An item built from two type lists serves exactly what an item of either one serves. */
  lemma ConcatServesBoth(a: string, b: string, t: string)
    requires t != ""
    ensures CanDeal(a + "," + b, t) <==> CanDeal(a, t) || CanDeal(b, t)
  {
    ServedByToken(a + "," + b, t);
    ServedByToken(a, t);
    ServedByToken(b, t);
    forall k
      ensures Token(a + "," + b, k) <==> Token(a, k) || Token(b, k)
    {
      TokensOfConcat(a, b, k);
    }
  }

  /** The empty type is the exception: an empty piece before the comma serves it. */
  lemma EmptyTypeIsLost()
    ensures CanDeal("" + "," + "mms", "") && !CanDeal("", "") && !CanDeal("mms", "")
  {
    var s := "" + "," + "mms";
    FirstComma(s, 0, 0);
    assert Split(s, ",")[0] == "" && Lower("") == "";
    FindComma("", 0);
    FindComma("mms", 0);
    assert Split("mms", ",") == ["mms"];
    assert |Lower("mms")| == 3;
  }

  /** More tokens serve more types. */
  lemma MoreTokensServeMore(a: string, b: string, t: string)
    requires t != "" && (forall k :: Token(a, k) ==> Token(b, k)) && CanDeal(a, t)
    ensures CanDeal(b, t)
  {
    ServedByToken(a, t);
    ServedByToken(b, t);
  }

  // ---- The word "default" in a type list ----

  predicate Carries(types: string) {
    Contains(types, ROLE_DEFAULT)
  }

  lemma NoCommaInDefault(k: nat)
    requires k < |ROLE_DEFAULT|
    ensures ROLE_DEFAULT[k] != ','
  {
  }

  lemma OccurrenceInConcat(a: string, b: string, f: string, p: nat)
    requires f != "" && forall k | 0 <= k < |f| :: f[k] != ','
    ensures OccursAt(a + "," + b, f, p) <==> OccursAt(a, f, p) || (p > |a| && OccursAt(b, f, p - |a| - 1))
  {
    var s := a + "," + b;
    var n := |f|;
    if p > |a| {
      if p + n <= |s| {
        SliceBehind(a + ",", b, p - |a| - 1, p - |a| - 1 + n);
      }
    } else if p + n <= |a| {
      SliceFront(a + ",", b, p, p + n);
      SliceFront(a, ",", p, p + n);
    } else if p + n <= |s| {
      assert s[p..p + n][|a| - p] == ',' && f[|a| - p] != ',';
    }
  }

  /** The comma creates no new occurrence of the word. */
  lemma CarriesConcat(a: string, b: string)
    ensures Carries(a + "," + b) <==> Carries(a) || Carries(b)
  {
    var s := a + "," + b;
    forall k | 0 <= k < |ROLE_DEFAULT|
      ensures ROLE_DEFAULT[k] != ','
    {
      NoCommaInDefault(k);
    }
    if p: nat :| p <= |s| && OccursAt(s, ROLE_DEFAULT, p) {
      OccurrenceInConcat(a, b, ROLE_DEFAULT, p);
    }
    if p: nat :| p <= |a| && OccursAt(a, ROLE_DEFAULT, p) {
      OccurrenceInConcat(a, b, ROLE_DEFAULT, p);
    }
    if p: nat :| p <= |b| && OccursAt(b, ROLE_DEFAULT, p) {
      OccurrenceInConcat(a, b, ROLE_DEFAULT, p + |a| + 1);
    }
  }
}
