/** Searching sequences: the standard-library searches the logger relies on,
    `std::ranges::find` and `std::ranges::find_if` (first occurrence) and
    `std::string_view::rfind` (last occurrence). A missing element is `None`, where C++ returns the end
    iterator or `npos`. */
module Lookup {

  datatype Option<+T> = None | Some(value: T)

  /** Index of the first element of `s` equal to `x`, as `std::ranges::find`
      finds it. */
  function IndexOf<T(==)>(s: seq<T>, x: T): (r: Option<nat>)
    ensures r.None? <==> x !in s
    ensures r.Some? ==> r.value < |s| && s[r.value] == x && x !in s[..r.value]
  {
    if s == [] then None
    else if s[0] == x then Some(0)
    else
      match IndexOf(s[1..], x)
      case None => None
      case Some(i) =>
        assert s[1..][..i] == s[1..i + 1];
        assert s[..i + 1] == [s[0]] + s[1..i + 1];
        Some(i + 1)
  }

  /** Index of the last element of `s` equal to `x`, as `rfind` finds it. */
  function LastIndexOf<T(==)>(s: seq<T>, x: T): (r: Option<nat>)
    ensures r.None? <==> x !in s
    ensures r.Some? ==> r.value < |s| && s[r.value] == x && x !in s[r.value + 1..]
  {
    if s == [] then None
    else if s[|s| - 1] == x then Some(|s| - 1)
    else
      var init := s[..|s| - 1];
      assert s == init + [s[|s| - 1]];
      match LastIndexOf(init, x)
      case None => None
      case Some(i) =>
        assert s[i + 1..] == init[i + 1..] + [s[|s| - 1]];
        Some(i)
  }

  /** Index of the first pair of `table` whose first component is `key`, as
      `std::ranges::find_if` with the predicate `elem.first == key` finds it. */
  function FindFirstKey<K(==), V>(table: seq<(K, V)>, key: K): (r: Option<nat>)
    ensures r.None? <==> forall i :: 0 <= i < |table| ==> table[i].0 != key
    ensures r.Some? ==>
      r.value < |table| && table[r.value].0 == key &&
      forall j :: 0 <= j < r.value ==> table[j].0 != key
  {
    if table == [] then None
    else if table[0].0 == key then Some(0)
    else
      match FindFirstKey(table[1..], key)
      case None => None
      case Some(i) =>
        assert forall j :: 1 <= j < i + 1 ==> table[j] == table[1..][j - 1];
        Some(i + 1)
  }

  /** The elements of `s` that are equal to `x` are exactly the one at the
      index `IndexOf` returns, when all elements are distinct. */
  lemma {:induction false} IndexOfDistinct<T>(s: seq<T>, i: nat)
    requires i < |s|
    requires forall j, k :: 0 <= j < k < |s| ==> s[j] != s[k]
    ensures IndexOf(s, s[i]) == Some(i)
  {
    assert s[i] in s;
  }
}
