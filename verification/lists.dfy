/** The two array operations the handlers use on their record lists:
    `find` (the first entry that matches) and `filter` with a negated
    predicate (every entry that is not dropped, order kept). */
module Lists {
  import opened Common

  /** `list.find(matches)`: the first entry that matches, if any. */
  function FindFirst<T>(list: seq<T>, matches: T -> bool): (r: Option<T>)
    ensures r.Some? ==> r.value in list && matches(r.value)
    ensures r.Some? ==>
              exists i :: 0 <= i < |list| && list[i] == r.value && matches(list[i])
                          && forall j :: 0 <= j < i ==> !matches(list[j])
    ensures r.None? <==> forall i :: 0 <= i < |list| ==> !matches(list[i])
  {
    if |list| == 0 then None
    else if matches(list[0]) then Some(list[0])
    else
      var rest := FindFirst(list[1..], matches);
      FirstMatchShifted(list, matches, rest);
      rest
  }

  /** A first match found in the tail is the first match of the whole list
      when the head does not match. */
  lemma FirstMatchShifted<T>(list: seq<T>, matches: T -> bool, rest: Option<T>)
    requires |list| > 0 && !matches(list[0])
    requires rest.Some? ==>
               exists i :: 0 <= i < |list[1..]| && list[1..][i] == rest.value && matches(list[1..][i])
                           && forall j :: 0 <= j < i ==> !matches(list[1..][j])
    ensures rest.Some? ==>
              exists i :: 0 <= i < |list| && list[i] == rest.value && matches(list[i])
                          && forall j :: 0 <= j < i ==> !matches(list[j])
  {
    if rest.Some? {
      var i :| 0 <= i < |list[1..]| && list[1..][i] == rest.value && matches(list[1..][i])
               && forall j :: 0 <= j < i ==> !matches(list[1..][j]);
      assert list[i + 1] == rest.value;
      forall j | 0 <= j < i + 1 ensures !matches(list[j]) {
        if j > 0 { assert list[j] == list[1..][j - 1]; }
      }
    }
  }

  /** `list.filter(x => !drop(x))`: the entries that are not dropped, each
      as often as in `list`, in their original order. */
  function Without<T(!new)>(list: seq<T>, drop: T -> bool): (r: seq<T>)
    ensures forall x :: multiset(r)[x] == if drop(x) then 0 else multiset(list)[x]
    ensures |r| <= |list|
  {
    if |list| == 0 then []
    else
      assert list == [list[0]] + list[1..];
      (if drop(list[0]) then [] else [list[0]]) + Without(list[1..], drop)
  }

  /** The entries kept are exactly the entries of `list` that are not
      dropped. */
  lemma WithoutMembers<T(!new)>(list: seq<T>, drop: T -> bool)
    ensures forall x :: x in Without(list, drop) <==> x in list && !drop(x)
  {
    var r := Without(list, drop);
    forall x ensures x in r <==> x in list && !drop(x) {
      assert x in r <==> multiset(r)[x] > 0;
      assert x in list <==> multiset(list)[x] > 0;
    }
  }

  /** Filtering distributes over concatenation, so the kept entries of an
      earlier part come before those of a later part. */
  lemma {:induction false} WithoutAppend<T(!new)>(a: seq<T>, b: seq<T>, drop: T -> bool)
    ensures Without(a + b, drop) == Without(a, drop) + Without(b, drop)
  {
    if |a| == 0 {
      assert a + b == b;
      assert Without(a, drop) == [];
    } else {
      assert (a + b)[1..] == a[1..] + b;
      WithoutAppend(a[1..], b, drop);
      var head := if drop(a[0]) then [] else [a[0]];
      assert Without(a + b, drop) == head + Without(a[1..] + b, drop);
      assert Without(a, drop) == head + Without(a[1..], drop);
      AppendAssociative(head, Without(a[1..], drop), Without(b, drop));
    }
  }

  lemma AppendAssociative<T>(x: seq<T>, y: seq<T>, z: seq<T>)
    ensures x + (y + z) == (x + y) + z
  {
  }

  /** No two entries of the list share a key. */
  ghost predicate KeysDistinct<T, K>(list: seq<T>, key: T -> K)
  {
    forall i, j :: 0 <= i < |list| && 0 <= j < |list| && key(list[i]) == key(list[j]) ==> i == j
  }

  /** Filtering a list whose keys are distinct leaves keys distinct. */
  lemma {:induction false} WithoutKeepsKeysDistinct<T(!new), K>(list: seq<T>, drop: T -> bool, key: T -> K)
    requires KeysDistinct(list, key)
    ensures KeysDistinct(Without(list, drop), key)
  {
    if |list| > 0 {
      var tail := list[1..];
      assert KeysDistinct(tail, key) by {
        forall i, j | 0 <= i < |tail| && 0 <= j < |tail| && key(tail[i]) == key(tail[j])
          ensures i == j
        {
          assert tail[i] == list[i + 1] && tail[j] == list[j + 1];
        }
      }
      WithoutKeepsKeysDistinct(tail, drop, key);
      var rest := Without(tail, drop);
      if drop(list[0]) {
        assert Without(list, drop) == rest;
      } else {
        WithoutMembers(tail, drop);
        forall j | 0 <= j < |rest| ensures key(rest[j]) != key(list[0]) {
          assert rest[j] in tail;
          var k :| 0 <= k < |tail| && tail[k] == rest[j];
          assert list[k + 1] == rest[j];
        }
        var r := [list[0]] + rest;
        assert Without(list, drop) == r;
        assert forall k :: 0 < k < |r| ==> r[k] == rest[k - 1];
      }
    }
  }

  /** When nothing is dropped the list is kept as it is. */
  lemma {:induction false} WithoutNothingDropped<T(!new)>(list: seq<T>, drop: T -> bool)
    requires forall i :: 0 <= i < |list| ==> !drop(list[i])
    ensures Without(list, drop) == list
  {
    if |list| > 0 {
      WithoutNothingDropped(list[1..], drop);
    }
  }
}
