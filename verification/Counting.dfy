/** How many places of a sequence have a property, what they weigh together, and how that changes when one place does. */
module Counting {
  ghost function Where<T(!new)>(s: seq<T>, p: T -> bool): set<int> {
    set i | 0 <= i < |s| && p(s[i])
  }

  function One(b: bool): nat {
    if b then 1 else 0
  }

  lemma SizeWithout<T>(s: set<T>, x: T)
    ensures |s| == |s - {x}| + One(x in s)
  {
    if x in s { assert s == (s - {x}) + {x}; } else { assert s == s - {x}; }
  }

  lemma PlaceMoves<T(!new)>(s: seq<T>, i: nat, x: T, p: T -> bool)
    requires i < |s|
    ensures |Where(s[i := x], p)| + One(p(s[i])) == |Where(s, p)| + One(p(x))
  {
    var moved := s[i := x];
    assert Where(moved, p) - {i} == Where(s, p) - {i};
    SizeWithout(Where(moved, p), i);
    SizeWithout(Where(s, p), i);
  }

  ghost function Total<T>(s: seq<T>, weight: T -> nat): nat {
    if s == [] then 0 else weight(s[0]) + Total(s[1..], weight)
  }

  lemma {:induction false} TotalMoves<T>(s: seq<T>, i: nat, x: T, weight: T -> nat)
    requires i < |s|
    ensures Total(s[i := x], weight) + weight(s[i]) == Total(s, weight) + weight(x)
    decreases |s|
  {
    if i == 0 {
      assert s[0 := x][1..] == s[1..];
    } else {
      assert s[i := x][1..] == s[1..][i - 1 := x];
      TotalMoves(s[1..], i - 1, x, weight);
    }
  }
}
