/** Small shared vocabulary: options, transaction ids and the least element of a finite set. */
module Basics {
  datatype Option<+T> = None | Some(value: T)

  /** Transaction ids are positive; 0 means "nobody" in a block's writer field. */
  type Tid = nat

  lemma NonEmpty(s: set<int>)
    requires s != {}
    ensures exists e :: e in s
  {
    assert (forall e :: e !in s) ==> s == {};
  }

  lemma {:induction false} LeastExists(s: set<int>)
    requires s != {}
    ensures exists m :: m in s && forall x :: x in s ==> m <= x
  {
    NonEmpty(s);
    var e :| e in s;
    if s != {e} {
      LeastExists(s - {e});
      var m :| m in s - {e} && forall x :: x in s - {e} ==> m <= x;
      var least := if e < m then e else m;
      forall x | x in s
        ensures least <= x
      {
        assert x == e || x in s - {e};
      }
    }
  }

  /** The order in which a std::map iterates: always the least remaining key. */
  function Least(s: set<int>): (m: int)
    requires s != {}
    ensures m in s && forall x :: x in s ==> m <= x
  {
    LeastExists(s);
    var m :| m in s && forall x :: x in s ==> m <= x;
    m
  }

  function Reverse<T>(s: seq<T>): (r: seq<T>)
    ensures |r| == |s|
  {
    if s == [] then [] else Reverse(s[1..]) + [s[0]]
  }

  lemma {:induction false} ReverseMembers<T>(s: seq<T>, x: T)
    ensures x in Reverse(s) <==> x in s
  {
    if s != [] {
      ReverseMembers(s[1..], x);
    }
  }

  lemma {:induction false} ReverseSnoc<T>(s: seq<T>, x: T)
    ensures Reverse(s + [x]) == [x] + Reverse(s)
  {
    if s == [] {
    } else {
      assert (s + [x])[1..] == s[1..] + [x];
      ReverseSnoc(s[1..], x);
    }
  }

  lemma {:induction false} ReverseTwice<T>(s: seq<T>)
    ensures Reverse(Reverse(s)) == s
  {
    if s != [] {
      ReverseTwice(s[1..]);
      ReverseSnoc(Reverse(s[1..]), s[0]);
    }
  }
}
