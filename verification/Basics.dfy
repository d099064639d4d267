/** Small value types and the slice helpers of broker/utilities.go. */
module Basics {

  datatype Option<+T> = None | Some(value: T)

  datatype Result<+T> = Ok(value: T) | Err(error: string)

  function Max(x: int, y: int): int {
    if x < y then y else x
  }

  function Min(x: int, y: int): int {
    if x < y then x else y
  }

  ghost predicate NoDup<T>(s: seq<T>) {
    forall i, j | 0 <= i < j < |s| :: s[i] != s[j]
  }

  /** The elements of s that satisfy f, in order. */
  function Filter<T>(s: seq<T>, f: T -> bool): seq<T> {
    if s == [] then []
    else
      var last := s[|s| - 1];
      var init := s[..|s| - 1];
      if f(last) then Filter(init, f) + [last] else Filter(init, f)
  }

  lemma {:induction false} FilterMember<T>(s: seq<T>, f: T -> bool, x: T)
    ensures x in Filter(s, f) <==> x in s && f(x)
  {
    if s != [] {
      var init := s[..|s| - 1];
      FilterMember(init, f, x);
      assert s == init + [s[|s| - 1]];
    }
  }

  lemma {:induction false} FilterKeepsNoDup<T>(s: seq<T>, f: T -> bool)
    requires NoDup(s)
    ensures NoDup(Filter(s, f))
  {
    if s != [] {
      var init := s[..|s| - 1];
      FilterKeepsNoDup(init, f);
      FilterMember(init, f, s[|s| - 1]);
    }
  }

  lemma FilterOne<T>(x: T, f: T -> bool)
    ensures Filter([x], f) == if f(x) then [x] else []
  {
    assert [x][..0] == [];
  }

  /** Filtering goes through the list piece by piece and keeps the order. */
  lemma {:induction false} FilterAppends<T>(s: seq<T>, t: seq<T>, f: T -> bool)
    ensures Filter(s + t, f) == Filter(s, f) + Filter(t, f)
  {
    if t == [] {
      assert s + t == s;
    } else {
      FilterAppends(s, t[..|t| - 1], f);
      assert (s + t)[..|s + t| - 1] == s + t[..|t| - 1];
    }
  }

  method FilterSlice<T>(s: seq<T>, f: T -> bool) returns (filtered: seq<T>)
    ensures filtered == Filter(s, f)
  {
    filtered := [];
    for i := 0 to |s|
      invariant filtered == Filter(s[..i], f)
    {
      assert s[..i + 1][..i] == s[..i];
      if f(s[i]) {
        filtered := filtered + [s[i]];
      }
    }
    assert s[..|s|] == s;
  }

  method Contains<T(==)>(s: seq<T>, e: T) returns (found: bool)
    ensures found <==> e in s
  {
    for i := 0 to |s|
      invariant e !in s[..i]
    {
      if s[i] == e {
        return true;
      }
    }
    return false;
  }

  lemma CountAppend<T>(s: seq<T>, x: T, y: T)
    ensures multiset(s + [x])[y] == multiset(s)[y] + (if x == y then 1 else 0)
  {
  }

  /** In a list without repetition every element occurs once. */
  lemma {:induction false} NoDupCount<T>(s: seq<T>, x: T)
    requires NoDup(s)
    ensures multiset(s)[x] == if x in s then 1 else 0
  {
    if s != [] {
      var init, last := s[..|s| - 1], s[|s| - 1];
      assert s == init + [last];
      NoDupCount(init, x);
      CountAppend(init, last, x);
    }
  }
}
