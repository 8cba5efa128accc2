/** Multiplicity in a sequence, by positions. */
module Counting {

  lemma {:induction false} TwiceIff<T>(s: seq<T>, x: T)
    ensures multiset(s)[x] >= 1 <==> x in s
    ensures multiset(s)[x] >= 2 <==> exists i, j :: 0 <= i < j < |s| && s[i] == x && s[j] == x
  {
    if s == [] {
    } else {
      var rest := s[1..];
      TwiceIff(rest, x);
      assert s == [s[0]] + rest;
      if multiset(rest)[x] >= 2 {
        var i, j :| 0 <= i < j < |rest| && rest[i] == x && rest[j] == x;
        assert s[i + 1] == x && s[j + 1] == x;
      } else if s[0] == x && x in rest {
        var j :| 0 <= j < |rest| && rest[j] == x;
        assert s[0] == x && s[j + 1] == x;
      }
      if i, j :| 0 <= i < j < |s| && s[i] == x && s[j] == x {
        assert rest[j - 1] == x;
        assert i > 0 ==> rest[i - 1] == x;
      }
    }
  }
}
