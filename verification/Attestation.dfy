/**
 Matching an attestation's subjects with supplied artifacts: each subject takes the first free artifact
 that is the same, and every artifact must be taken.
 */
module Attestation {
  import opened Wrappers

  datatype Digest = Digest(path: string, sha256: string)

  /** Kind, name, digests of the files; a manifest's own digest too. */
  datatype Subject = Subject(kind: string, name: string, files: seq<Digest>, manifest: Option<string>)

  datatype Mismatch = Unmatched(subject: Subject) | Uncovered

  ghost predicate ArePlaces(free: seq<nat>, n: nat) {
    forall j :: 0 <= j < |free| ==> free[j] < n
  }

  /** The artifacts at these places. */
  ghost function At(supplied: seq<Subject>, places: seq<nat>): seq<Subject>
    requires ArePlaces(places, |supplied|)
  {
    seq(|places|, k requires 0 <= k < |places| => supplied[places[k]])
  }

  function Without(free: seq<nat>, k: nat): seq<nat>
    requires k < |free|
  {
    free[..k] + free[k + 1..]
  }

  lemma OneTaken(supplied: seq<Subject>, free: seq<nat>, k: nat)
    requires k < |free| && ArePlaces(free, |supplied|)
    ensures ArePlaces(Without(free, k), |supplied|)
    ensures multiset(At(supplied, free)) == multiset(At(supplied, Without(free, k))) + multiset{supplied[free[k]]}
  {
    var a, b := At(supplied, free), At(supplied, Without(free, k));
    assert a == a[..k] + [a[k]] + a[k + 1..];
    assert b == a[..k] + a[k + 1..];
  }

  /** The matching loop: it accepts exactly if subjects and artifacts are the same, counting repetitions. */
  method Match(subjects: seq<Subject>, supplied: seq<Subject>) returns (r: Option<Mismatch>)
    ensures r.None? <==> multiset(subjects) == multiset(supplied)
    ensures r == Some(Uncovered) ==> multiset(subjects) < multiset(supplied)
    ensures r.Some? && r.value.Unmatched? ==> multiset(subjects)[r.value.subject] > multiset(supplied)[r.value.subject]
  {
    var free: seq<nat> := seq(|supplied|, i requires 0 <= i < |supplied| => i);
    assert At(supplied, free) == supplied;
    for n := 0 to |subjects|
      invariant ArePlaces(free, |supplied|)
      invariant multiset(supplied) == multiset(At(supplied, free)) + multiset(subjects[..n])
    {
      var subject := subjects[n];
      var k := 0;
      while k < |free| && supplied[free[k]] != subject
        invariant k <= |free| && forall j :: 0 <= j < k ==> supplied[free[j]] != subject
      {
        k := k + 1;
      }
      assert subjects[..n + 1] == subjects[..n] + [subject];
      if k == |free| {
        NoneLeft(subjects, supplied, free, n);
        return Some(Unmatched(subject));
      }
      OneTaken(supplied, free, k);
      free := Without(free, k);
    }
    assert subjects[..|subjects|] == subjects;
    r := if free == [] then None else Some(Uncovered);
    assert |At(supplied, free)| == |free|;
  }

  lemma NoneLeft(subjects: seq<Subject>, supplied: seq<Subject>, free: seq<nat>, n: nat)
    requires n < |subjects| && ArePlaces(free, |supplied|)
    requires multiset(supplied) == multiset(At(supplied, free)) + multiset(subjects[..n])
    requires forall j :: 0 <= j < |free| ==> supplied[free[j]] != subjects[n]
    ensures multiset(subjects)[subjects[n]] > multiset(supplied)[subjects[n]]
  {
    var x := subjects[n];
    assert subjects == subjects[..n] + [x] + subjects[n + 1..];
    assert x !in At(supplied, free);
    assert multiset(supplied)[x] == multiset(subjects[..n])[x];
  }
}
