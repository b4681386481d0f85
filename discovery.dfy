/**
 * The reflection filter of the type creator: the compiled types that the
 * contract type is assignable from. The decision reads only whether the
 * filtered list is empty, whether it has more than one entry, and its
 * single entry; the lemmas below pin down all three.
 */
module Discovery {
  import opened Compilation

  predicate Matches(t: TypeDesc) {
    t.isAssignableToContract
  }

  /** GetTypes().Where(x => typeof(T).IsAssignableFrom(x)).ToList() */
  function AssignableTypes(types: seq<TypeDesc>): (r: seq<TypeDesc>)
    ensures |r| <= |types|
    ensures forall t :: t in r ==> t in types && Matches(t)
    ensures forall t :: t in types && Matches(t) ==> t in r
  {
    if types == [] then []
    else (if Matches(types[0]) then [types[0]] else []) + AssignableTypes(types[1..])
  }

  /** Some position matches. */
  predicate AnyMatch(types: seq<TypeDesc>) {
    exists k :: 0 <= k < |types| && Matches(types[k])
  }

  /** Two different positions match. */
  predicate TwoMatch(types: seq<TypeDesc>) {
    exists i, j :: 0 <= i < j < |types| && Matches(types[i]) && Matches(types[j])
  }

  /** Some match exactly when some position matches. */
  lemma AnyMatchIff(types: seq<TypeDesc>)
    ensures |AssignableTypes(types)| > 0 <==> AnyMatch(types)
  {
  }

  /** Two matching positions either start at the head or lie in the tail. */
  lemma TwoMatchCons(types: seq<TypeDesc>)
    requires types != []
    ensures TwoMatch(types) <==> (Matches(types[0]) && AnyMatch(types[1..])) || TwoMatch(types[1..])
  {
  }

  /** More than one match exactly when two different positions match. */
  lemma {:induction false} MultipleMatchesIff(types: seq<TypeDesc>)
    ensures |AssignableTypes(types)| > 1 <==> TwoMatch(types)
  {
    if types != [] {
      var tail := types[1..];
      MultipleMatchesIff(tail);
      AnyMatchIff(tail);
      TwoMatchCons(types);
    }
  }

  /** The type at position i is the only one assignable to the contract. */
  predicate OnlyMatchAt(types: seq<TypeDesc>, i: int) {
    0 <= i < |types| && Matches(types[i]) &&
    forall j :: 0 <= j < |types| && j != i ==> !Matches(types[j])
  }

  /** Exactly one match exactly when one position matches and no other
      does; the match is the type at that position. */
  lemma UniqueMatchIff(types: seq<TypeDesc>)
    ensures |AssignableTypes(types)| == 1 <==> exists i :: OnlyMatchAt(types, i)
    ensures forall i :: OnlyMatchAt(types, i) ==> AssignableTypes(types) == [types[i]]
  {
    var r := AssignableTypes(types);
    MultipleMatchesIff(types);
    AnyMatchIff(types);
    if |r| == 1 {
      assert r[0] in r;
      var i :| 0 <= i < |types| && types[i] == r[0];
      assert OnlyMatchAt(types, i);
    }
    forall i | OnlyMatchAt(types, i)
      ensures r == [types[i]]
    {
      assert !TwoMatch(types);
      assert r[0] in r;
    }
  }
}
