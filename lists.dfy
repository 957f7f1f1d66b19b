/** The id lists the client keeps (`mutedPlayers`, `friends`) and the array
    operations it changes them with: `indexOf`, `includes`, `push` and
    `splice(index, 1)`. */
module Lists {

  predicate NoDup<T(==)>(s: seq<T>)
  {
    forall i, j :: 0 <= i < j < |s| ==> s[i] != s[j]
  }

  /** `Array.prototype.indexOf`: the first position of `x`, or -1. */
  function IndexOf<T(==)>(s: seq<T>, x: T): (r: int)
    ensures -1 <= r < |s|
    ensures r == -1 <==> x !in s
    ensures 0 <= r ==> s[r] == x && forall j :: 0 <= j < r ==> s[j] != x
  {
    if s == [] then -1
    else if s[0] == x then 0
    else
      var i := IndexOf(s[1..], x);
      if i == -1 then -1 else i + 1
  }

  /** `splice(i, 1)`: drop the element at position `i`. */
  function RemoveAt<T>(s: seq<T>, i: nat): seq<T>
    requires i < |s|
  {
    s[..i] + s[i + 1..]
  }

  /** One press of the mute (or friend) button on `x`: `push` it when it is
      not in the list, otherwise `splice` out its first occurrence. */
  function Toggle<T(==)>(s: seq<T>, x: T): seq<T>
  {
    var i := IndexOf(s, x);
    if i == -1 then s + [x] else RemoveAt(s, i)
  }

  /** `s` with every occurrence of `x` left out, the rest in order. */
  function Without<T(==)>(s: seq<T>, x: T): seq<T>
  {
    if s == [] then [] else (if s[0] == x then [] else [s[0]]) + Without(s[1..], x)
  }

  lemma {:induction false} WithoutAppend<T>(a: seq<T>, b: seq<T>, x: T)
    ensures Without(a + b, x) == Without(a, x) + Without(b, x)
  {
    if a == [] {
      assert a + b == b;
    } else {
      assert (a + b)[1..] == a[1..] + b;
      WithoutAppend(a[1..], b, x);
    }
  }

  lemma {:induction false} WithoutAbsent<T>(s: seq<T>, x: T)
    requires x !in s
    ensures Without(s, x) == s
  {
    if s != [] {
      WithoutAbsent(s[1..], x);
    }
  }

  lemma PushSpec<T>(s: seq<T>, x: T)
    requires NoDup(s) && x !in s
    ensures NoDup(s + [x])
    ensures Without(s + [x], x) == Without(s, x)
  {
    WithoutAppend(s, [x], x);
    assert Without([x], x) == [];
  }

  lemma {:induction false} RemoveSpec<T>(s: seq<T>, i: nat)
    requires NoDup(s) && i < |s|
    ensures NoDup(RemoveAt(s, i))
    ensures s[i] !in RemoveAt(s, i)
    ensures Without(RemoveAt(s, i), s[i]) == Without(s, s[i])
  {
    var x, pre, post := s[i], s[..i], s[i + 1..];
    assert s == pre + [x] + post;
    assert RemoveAt(s, i) == pre + post;
    forall j | 0 <= j < |pre + post|
      ensures (pre + post)[j] != x
    {
      if j < i { assert (pre + post)[j] == s[j]; } else { assert (pre + post)[j] == s[j + 1]; }
    }
    forall j, k | 0 <= j < k < |pre + post|
      ensures (pre + post)[j] != (pre + post)[k]
    {
      var j', k' := if j < i then j else j + 1, if k < i then k else k + 1;
      assert (pre + post)[j] == s[j'] && (pre + post)[k] == s[k'];
    }
    WithoutAppend(pre + [x], post, x);
    WithoutAppend(pre, [x], x);
    WithoutAppend(pre, post, x);
    assert Without([x], x) == [];
  }

  /** Toggling `x` adds it exactly when it was missing, never creates a
      duplicate, and leaves every other entry where it was, in order. */
  lemma ToggleSpec<T>(s: seq<T>, x: T)
    requires NoDup(s)
    ensures var t := Toggle(s, x);
      && (x in t <==> x !in s)
      && NoDup(t)
      && Without(t, x) == Without(s, x)
      && (x !in s ==> t == s + [x])
      && (x in s ==> |t| == |s| - 1)
  {
    var i := IndexOf(s, x);
    if i == -1 {
      PushSpec(s, x);
    } else {
      RemoveSpec(s, i);
    }
  }

  /** Muting and unmuting (or befriending and unfriending) a player who was
      not in the list gives back the list as it was. */
  lemma ToggleTwice<T>(s: seq<T>, x: T)
    requires x !in s
    ensures Toggle(Toggle(s, x), x) == s
  {
    var t := s + [x];
    assert IndexOf(t, x) == |s| by {
      assert t[|s|] == x;
      assert t[..|s|] == s;
    }
    assert t[..|s|] == s;
  }
}
