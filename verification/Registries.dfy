/**
 A registry directory of the build guard (tickets, queue heads, waiting, overcommitted, elastic
 and leaf workloads): its held entries, oldest first by name.

 Only live guards hold entries, so an entry of a dead guard is simply not listed
 (`held_entries`). A name is the arrival time, then the guard that published it, then how many
 names that guard took before: two guards may read the same instant, one guard never
 publishes two entries under one name.
 */
module Registries {

  datatype Name = Name(time: nat, pid: nat, serial: nat)

  predicate Before(a: Name, b: Name) {
    || a.time < b.time
    || (a.time == b.time && a.pid < b.pid)
    || (a.time == b.time && a.pid == b.pid && a.serial < b.serial)
  }

  datatype Entry<T> = Entry(name: Name, value: T)

  ghost predicate Sorted<T>(r: seq<Entry<T>>) {
    forall i, j :: 0 <= i < j < |r| ==> Before(r[i].name, r[j].name)
  }

  function Publish<T>(r: seq<Entry<T>>, e: Entry<T>): seq<Entry<T>> {
    if r == [] || Before(e.name, r[0].name) then [e] + r else [r[0]] + Publish(r[1..], e)
  }

  function Unlink<T(==)>(r: seq<Entry<T>>, n: Name): seq<Entry<T>> {
    if r == [] then [] else if r[0].name == n then Unlink(r[1..], n) else [r[0]] + Unlink(r[1..], n)
  }

  function Total(r: seq<Entry<nat>>): nat {
    if r == [] then 0 else r[0].value + Total(r[1..])
  }

  ghost predicate Absent<T>(r: seq<Entry<T>>, n: Name) {
    forall e :: e in r ==> e.name != n
  }

  lemma HeadFirst<T>(r: seq<Entry<T>>, x: Entry<T>)
    requires Sorted(r) && r != [] && x in r[1..]
    ensures Before(r[0].name, x.name)
  {
    var i :| 0 <= i < |r[1..]| && r[1..][i] == x;
    assert r[i + 1] == x;
  }

  lemma SortedFrom<T>(first: Entry<T>, t: seq<Entry<T>>)
    requires Sorted(t) && forall x :: x in t ==> Before(first.name, x.name)
    ensures Sorted([first] + t)
  {
    var s := [first] + t;
    forall i, j | 0 <= i < j < |s|
      ensures Before(s[i].name, s[j].name)
    {
      assert s[j] == t[j - 1] && t[j - 1] in t;
      assert i > 0 ==> s[i] == t[i - 1];
    }
  }

  /** Publishing adds exactly the entry, at its place in name order. */
  lemma {:induction false} PublishAdds<T>(r: seq<Entry<T>>, e: Entry<T>)
    requires Sorted(r) && Absent(r, e.name)
    ensures Sorted(Publish(r, e))
    ensures multiset(Publish(r, e)) == multiset(r) + multiset{e}
    ensures forall x :: x in Publish(r, e) ==> x == e || x in r
    ensures forall x :: x == e || x in r ==> x in Publish(r, e)
  {
    if r == [] || Before(e.name, r[0].name) {
      assert forall x :: x in [e] + r <==> x == e || x in r;
    } else {
      assert r == [r[0]] + r[1..];
      PublishAdds(r[1..], e);
      var t := Publish(r[1..], e);
      assert r[0] in r;
      forall x | x in t
        ensures Before(r[0].name, x.name)
      {
        if x != e {
          HeadFirst(r, x);
        }
      }
      SortedFrom(r[0], t);
      assert forall x :: x in [r[0]] + t <==> x == r[0] || x in t;
      assert forall x :: x in r <==> x == r[0] || x in r[1..];
    }
  }

  /** Unlinking removes exactly the entries of that name and keeps the order. */
  lemma {:induction false} UnlinkRemoves<T>(r: seq<Entry<T>>, n: Name)
    requires Sorted(r)
    ensures Sorted(Unlink(r, n))
    ensures forall x :: x in Unlink(r, n) ==> x in r && x.name != n
    ensures forall x :: x in r && x.name != n ==> x in Unlink(r, n)
  {
    if r != [] {
      UnlinkRemoves(r[1..], n);
      var t := Unlink(r[1..], n);
      assert forall x :: x in r <==> x == r[0] || x in r[1..];
      if r[0].name != n {
        forall i, j | 0 <= i < j < |t| + 1
          ensures Before(([r[0]] + t)[i].name, ([r[0]] + t)[j].name)
        {
          if i == 0 {
            var x := t[j - 1];
            assert x in t;
            HeadFirst(r, x);
          } else {
            assert Before(t[i - 1].name, t[j - 1].name);
          }
        }
        assert forall x :: x in [r[0]] + t <==> x == r[0] || x in t;
      }
    }
  }

  lemma {:induction false} UnlinkAbsent<T>(r: seq<Entry<T>>, n: Name)
    requires Absent(r, n)
    ensures Unlink(r, n) == r
  {
    if r != [] {
      assert r[0] in r;
      UnlinkAbsent(r[1..], n);
    }
  }

  /** What the entries add up to grows by what is published ... */
  lemma {:induction false} TotalPublish(r: seq<Entry<nat>>, e: Entry<nat>)
    ensures Total(Publish(r, e)) == Total(r) + e.value
  {
    if r == [] || Before(e.name, r[0].name) {
      assert ([e] + r)[1..] == r;
    } else {
      TotalPublish(r[1..], e);
      assert ([r[0]] + Publish(r[1..], e))[1..] == Publish(r[1..], e);
    }
  }

  /** ... and shrinks by at least what an unlinked entry held. */
  lemma {:induction false} TotalUnlink(r: seq<Entry<nat>>, n: Name)
    ensures Total(Unlink(r, n)) <= Total(r)
    ensures forall e :: e in r && e.name == n ==> Total(Unlink(r, n)) + e.value <= Total(r)
  {
    if r != [] {
      TotalUnlink(r[1..], n);
      if r[0].name != n {
        assert ([r[0]] + Unlink(r[1..], n))[1..] == Unlink(r[1..], n);
      }
      assert forall e :: e in r ==> e == r[0] || e in r[1..];
    }
  }
}
