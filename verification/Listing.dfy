/** Going once over the keys of a Go map or Python dictionary, in whatever order. */
module Listing {
  predicate Distinct<T(==)>(s: seq<T>) { forall i, j :: 0 <= i < j < |s| ==> s[i] != s[j] }

  lemma Inhabited<T>(s: set<T>)
    requires s != {}
    ensures exists x :: x in s
  {
    if forall x :: x !in s { assert false; }
  }

  method ListOf<T(==)>(s: set<T>) returns (list: seq<T>)
    ensures Distinct(list) && forall x :: x in list <==> x in s
  {
    var todo := s;
    list := [];
    while todo != {}
      invariant Distinct(list) && todo <= s
      invariant forall x :: x in s <==> x in list || x in todo
      invariant forall x :: x in list ==> x !in todo
      decreases |todo|
    {
      Inhabited(todo);
      var x :| x in todo;
      list, todo := list + [x], todo - {x};
    }
  }
}
