/**
 Sorted lists of names, and lists of names joined into one text.
 */
module Listings {

  predicate Below(a: string, b: string) {
    b != "" && (a == "" || a[0] < b[0] || (a[0] == b[0] && Below(a[1..], b[1..])))
  }

  lemma {:induction false} BelowIsTotal(a: string, b: string)
    ensures a == b || Below(a, b) || Below(b, a)
  {
    if a != "" && b != "" && a[0] == b[0] {
      BelowIsTotal(a[1..], b[1..]);
      assert a == [a[0]] + a[1..] && b == [b[0]] + b[1..];
    }
  }

  lemma {:induction false} BelowIsTransitive(a: string, b: string, c: string)
    requires Below(a, b) && Below(b, c)
    ensures Below(a, c)
  {
    if a != "" && a[0] == b[0] == c[0] {
      BelowIsTransitive(a[1..], b[1..], c[1..]);
    }
  }

  ghost predicate IsFirst(s: set<string>, m: string) {
    m in s && forall n :: n in s && n != m ==> Below(m, n)
  }

  lemma {:induction false} HasFirst(s: set<string>) returns (m: string)
    requires s != {}
    ensures IsFirst(s, m)
    decreases s
  {
    m :| m in s;
    var others := s - {m};
    assert forall k :: k in s ==> k == m || k in others;
    if others != {} {
      var n := HasFirst(others);
      BelowIsTotal(m, n);
      if Below(n, m) {
        m := n;
      } else {
        forall k | k in s && k != m
          ensures Below(m, k)
        {
          if k != n {
            assert k in others;
            BelowIsTransitive(m, n, k);
          }
        }
      }
    }
  }

  lemma FirstExists(s: set<string>)
    ensures s != {} ==> exists m :: IsFirst(s, m)
  {
    if s != {} {
      var m := HasFirst(s);
    }
  }

  /** `sorted(s)`. */
  ghost function Sorted(s: set<string>): (r: seq<string>)
    ensures forall n :: n in r ==> n in s
    ensures forall n :: n in s ==> n in r
    ensures forall i, j :: 0 <= i < j < |r| ==> Below(r[i], r[j])
  {
    if s == {} then [] else
      FirstExists(s);
      var m :| IsFirst(s, m);
      [m] + Sorted(s - {m})
  }

  /** `'\0'.join(names)`. */
  function Joined(names: seq<string>): string {
    if names == [] then ""
    else if |names| == 1 then names[0]
    else names[0] + "\0" + Joined(names[1..])
  }

  /** A tracked file's name: not empty, and without the separator. */
  predicate IsName(n: string) {
    n != "" && '\0' !in n
  }

  /** A text splits in one way into names. */
  lemma {:induction false} JoinedDetermines(a: seq<string>, b: seq<string>)
    requires (forall n :: n in a ==> IsName(n)) && (forall n :: n in b ==> IsName(n))
    requires Joined(a) == Joined(b)
    ensures a == b
  {
    if a == [] || b == [] {
      JoinedIsEmpty(a);
      JoinedIsEmpty(b);
    } else {
      FirstOfJoined(a);
      FirstOfJoined(b);
      FirstPart(a[0], b[0], Joined(a));
      if |a| > 1 || |b| > 1 {
        assert Joined(a)[|a[0]| + 1..] == Joined(a[1..]) && Joined(b)[|b[0]| + 1..] == Joined(b[1..]);
        JoinedDetermines(a[1..], b[1..]);
      }
      assert a == [a[0]] + a[1..] && b == [b[0]] + b[1..];
    }
  }

  lemma JoinedIsEmpty(a: seq<string>)
    requires forall n :: n in a ==> IsName(n)
    ensures Joined(a) == "" <==> a == []
  {
    if a != [] {
      assert a[0] in a;
    }
  }

  ghost predicate EndsAt(x: string, text: string) {
    |x| <= |text| && text[..|x|] == x && (text == x || text[|x|] == '\0')
  }

  lemma FirstOfJoined(a: seq<string>)
    requires a != []
    ensures EndsAt(a[0], Joined(a)) && (Joined(a) == a[0] <==> |a| == 1)
  {
  }

  lemma FirstPart(x: string, y: string, text: string)
    requires IsName(x) && IsName(y) && EndsAt(x, text) && EndsAt(y, text)
    ensures x == y
  {
    assert forall i :: 0 <= i < |x| ==> text[i] == x[i];
    assert forall i :: 0 <= i < |y| ==> text[i] == y[i];
  }
}
