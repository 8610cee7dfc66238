/** Option values and the kernel's intrusive lists, as sequences read from `l_next` on. */
module Lists {

  datatype Option<+T> = None | Some(value: T)

  /** `s` lists every member of `S` exactly once, in some order. */
  ghost predicate Enumerates<T>(s: seq<T>, S: set<T>) {
    multiset(s) == multiset(S)
  }

  /** list_remove: unlinks the first occurrence of `x`. */
  function Unlink<T(==)>(s: seq<T>, x: T): (r: seq<T>) {
    if s == [] then []
    else if s[0] == x then s[1..]
    else [s[0]] + Unlink(s[1..], x)
  }

  lemma {:induction false} UnlinkTakesOne<T>(s: seq<T>, x: T)
    ensures multiset(Unlink(s, x)) == multiset(s) - multiset{x}
    ensures |Unlink(s, x)| == if x in s then |s| - 1 else |s|
  {
    if s != [] {
      var rest := s[1..];
      assert s == [s[0]] + rest;
      if s[0] != x {
        UnlinkTakesOne(rest, x);
        assert multiset(Unlink(s, x)) == multiset{s[0]} + multiset(Unlink(rest, x));
      }
    }
  }

  /** What is before and after `x` stays, in order; a list without `x` stays as it is. */
  lemma {:induction false} UnlinkAt<T>(s: seq<T>, i: nat)
    requires i < |s| && s[i] !in s[..i]
    ensures Unlink(s, s[i]) == s[..i] + s[i + 1..]
  {
    if i > 0 {
      assert s[1..][..i - 1] == s[..i][1..];
      UnlinkAt(s[1..], i - 1);
      assert s[i] == s[1..][i - 1] && s[0] == s[..i][0];
    }
  }

  lemma {:induction false} UnlinkKeeps<T>(s: seq<T>, x: T, y: T)
    ensures y in Unlink(s, x) ==> y in s
    ensures y in s && y != x ==> y in Unlink(s, x)
  {
    if s != [] {
      UnlinkKeeps(s[1..], x, y);
    }
  }

  lemma LinkTail<T>(s: seq<T>, S: set<T>, x: T)
    requires Enumerates(s, S) && x !in S
    ensures Enumerates(s + [x], S + {x})
  {
  }

  lemma LinkHead<T>(s: seq<T>, S: set<T>, x: T)
    requires Enumerates(s, S) && x !in S
    ensures Enumerates([x] + s, S + {x})
  {
  }

  lemma UnlinkMember<T>(s: seq<T>, S: set<T>, x: T)
    requires Enumerates(s, S)
    ensures Enumerates(Unlink(s, x), S - {x})
    ensures |Unlink(s, x)| == if x in S then |s| - 1 else |s|
  {
    UnlinkTakesOne(s, x);
    assert x in s <==> x in multiset(s);
  }

  lemma EnumerationLength<T>(s: seq<T>, S: set<T>)
    requires Enumerates(s, S)
    ensures |s| == |S|
    ensures forall x :: x in s <==> x in S
  {
    assert |s| == |multiset(s)|;
    assert |S| == |multiset(S)|;
    forall x
      ensures x in s <==> x in S
    {
      assert x in s <==> x in multiset(s);
      assert x in S <==> x in multiset(S);
    }
  }

  ghost predicate NoRepeats<T>(s: seq<T>) {
    forall i, j :: 0 <= i < j < |s| ==> s[i] != s[j]
  }

  lemma NoRepeatsHead<T>(s: seq<T>, x: T)
    requires NoRepeats(s) && x !in s
    ensures NoRepeats([x] + s) && forall y :: y in [x] + s <==> y == x || y in s
  {
  }

  lemma NoRepeatsConcat<T>(s: seq<T>, t: seq<T>)
    requires NoRepeats(s) && NoRepeats(t) && forall x :: x in s ==> x !in t
    ensures NoRepeats(s + t) && forall x :: x in s + t <==> x in s || x in t
  {
    var r := s + t;
    forall i, j | 0 <= i < j < |r|
      ensures r[i] != r[j]
    {
      if i < |s| <= j {
        assert s[i] in s && t[j - |s|] in t;
      }
    }
  }

  lemma {:induction false} NoRepeatsUnlink<T>(s: seq<T>, x: T)
    requires NoRepeats(s)
    ensures NoRepeats(Unlink(s, x)) && forall y :: y in Unlink(s, x) <==> y in s && y != x
    ensures x in s ==> |Unlink(s, x)| == |s| - 1
  {
    if s != [] {
      NoRepeatsUnlink(s[1..], x);
      assert s == [s[0]] + s[1..] && s[0] !in s[1..];
      if s[0] != x {
        NoRepeatsHead(Unlink(s[1..], x), s[0]);
      }
    }
  }

  /** Without repeats, unlinking the last entry is dropping it. */
  lemma {:induction false} UnlinkLast<T>(s: seq<T>)
    requires s != [] && NoRepeats(s)
    ensures Unlink(s, s[|s| - 1]) == s[..|s| - 1]
  {
    if |s| > 1 {
      UnlinkLast(s[1..]);
    }
  }

  /** What follows the first `x`: on a queue served from the tail, those served before `x`. */
  function After<T(==)>(s: seq<T>, x: T): (r: seq<T>)
    ensures forall y :: y in r ==> y in s
  {
    if s == [] then [] else if s[0] == x then s[1..] else After(s[1..], x)
  }

  lemma {:induction false} AfterLast<T>(s: seq<T>, x: T)
    requires x in s && s[|s| - 1] != x
    ensures After(s, x) != [] && After(s, x)[|After(s, x)| - 1] == s[|s| - 1]
    ensures x in s[..|s| - 1] && After(s[..|s| - 1], x) == After(s, x)[..|After(s, x)| - 1]
  {
    assert s[..|s| - 1][0] == s[0] && s[..|s| - 1][1..] == s[1..][..|s| - 2];
    if s[0] != x {
      AfterLast(s[1..], x);
    }
  }

  lemma {:induction false} AfterUnlink<T>(s: seq<T>, x: T, y: T)
    requires x in s && y != x
    ensures |After(Unlink(s, y), x)| <= |After(s, x)|
    ensures forall z :: z in After(Unlink(s, y), x) ==> z in After(s, x)
  {
    if s[0] != x {
      if s[0] != y {
        AfterUnlink(s[1..], x, y);
        assert Unlink(s, y) == [s[0]] + Unlink(s[1..], y);
      }
    } else {
      assert Unlink(s, y) == [s[0]] + Unlink(s[1..], y);
      assert After(Unlink(s, y), x) == Unlink(s[1..], y);
      UnlinkTakesOne(s[1..], y);
      forall z ensures z in Unlink(s[1..], y) ==> z in s[1..] { UnlinkKeeps(s[1..], y, z); }
    }
  }
}
