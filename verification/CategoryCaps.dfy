/** The category caps of retrieval (src/assistant/memory/retrieval/service.py). */
module CategoryCaps {
  /** A scored artifact; the score stands for its place in the order of scores. */
  datatype Scored = Scored(id: string, kind: string, score: int)

  function OfKind(scored: seq<Scored>, kind: string): nat {
    if scored == [] then 0
    else OfKind(scored[..|scored| - 1], kind) + if scored[|scored| - 1].kind == kind then 1 else 0
  }

  /** Is the artifact at `i` among the first `cap` of its type? */
  predicate Kept(scored: seq<Scored>, cap: string -> int, i: int)
    requires 0 <= i < |scored|
  {
    OfKind(scored[..i], scored[i].kind) < cap(scored[i].kind)
  }

  /** The first `cap` of each type, in order. */
  function Capped(scored: seq<Scored>, cap: string -> int): seq<Scored> {
    if scored == [] then []
    else Capped(scored[..|scored| - 1], cap)
         + if Kept(scored, cap, |scored| - 1) then [scored[|scored| - 1]] else []
  }

  lemma {:induction false} OneMore(scored: seq<Scored>, s: Scored, kind: string)
    ensures OfKind(scored + [s], kind) == OfKind(scored, kind) + if s.kind == kind then 1 else 0
  {
    assert (scored + [s])[..|scored|] == scored;
  }

  lemma NextCapped(scored: seq<Scored>, cap: string -> int, i: int)
    requires 0 <= i < |scored|
    ensures Capped(scored[..i + 1], cap) == Capped(scored[..i], cap) + if Kept(scored, cap, i) then [scored[i]] else []
    ensures forall k :: OfKind(scored[..i + 1], k) == OfKind(scored[..i], k) + if scored[i].kind == k then 1 else 0
  {
    assert scored[..i + 1][..i] == scored[..i];
  }

  function Least(a: int, b: int): int { if a < b then a else b }

  /** Each type keeps as many as its cap allows; a type without a positive cap keeps none. */
  lemma {:induction false} CapIsMet(scored: seq<Scored>, cap: string -> int, kind: string)
    ensures OfKind(Capped(scored, cap), kind) == Least(OfKind(scored, kind), if cap(kind) < 0 then 0 else cap(kind))
  {
    if scored != [] {
      var n := |scored| - 1;
      var before := Capped(scored[..n], cap);
      CapIsMet(scored[..n], cap, kind);
      OneMore(before, scored[n], kind);
      assert before + [] == before;
    }
  }

  lemma {:induction false} CountGrows(scored: seq<Scored>, kind: string, i: int, j: int)
    requires 0 <= i <= j <= |scored|
    ensures OfKind(scored[..i], kind) <= OfKind(scored[..j], kind)
    decreases j - i
  {
    if i < j {
      CountGrows(scored, kind, i, j - 1);
      assert scored[..j][..j - 1] == scored[..j - 1];
    }
  }

  /** On scores in descending order, nothing dropped outscores what is kept of its type. */
  lemma CapKeepsBest(scored: seq<Scored>, cap: string -> int, i: int, j: int)
    requires forall a, b :: 0 <= a < b < |scored| ==> scored[a].score >= scored[b].score
    requires 0 <= i < |scored| && 0 <= j < |scored| && scored[i].kind == scored[j].kind
    requires Kept(scored, cap, i) && !Kept(scored, cap, j)
    ensures scored[i].score >= scored[j].score
  {
    if j <= i {
      CountGrows(scored, scored[i].kind, j, i);
    }
  }

  /** The loop counts what it has kept, the definition what it has seen: the caps make them agree. */
  method CapCategories(scored: seq<Scored>, cap: string -> int) returns (capped: seq<Scored>)
    ensures capped == Capped(scored, cap)
  {
    capped := [];
    var perCategory: map<string, int> := map[];
    var i := 0;
    while i < |scored|
      invariant 0 <= i <= |scored|
      invariant capped == Capped(scored[..i], cap)
      invariant forall k :: (if k in perCategory then perCategory[k] else 0) == OfKind(capped, k)
    {
      var t := scored[i].kind;
      CapIsMet(scored[..i], cap, t);
      NextCapped(scored, cap, i);
      var count := if t in perCategory then perCategory[t] else 0;
      assert count < cap(t) <==> Kept(scored, cap, i);
      if count < cap(t) {
        forall k ensures OfKind(capped + [scored[i]], k) == OfKind(capped, k) + if t == k then 1 else 0 {
          OneMore(capped, scored[i], k);
        }
        capped := capped + [scored[i]];
        perCategory := perCategory[t := count + 1];
      }
      i := i + 1;
    }
    assert scored[..i] == scored;
  }
}
