/**
 The artifact manifest's hash chain: each link's record carries the digest of its content, the chain
 binds the records in a fixed order, and its last step binds the inputs and the provenance.
 */
module ManifestChain {
  import opened Wrappers
  import opened Listings

  const FORMAT := "air2lean-artifact-manifest-v1"

  const LINKS := ["source", "compiler_patch", "air", "profile", "translator", "generated", "runtime",
                  "toolchain", "proofs", "theorems", "receipt", "native"]

  /** What a manifest was made from; a receipt and a native binary may be missing. */
  datatype Inputs<I> = Inputs(receipt: Option<I>, native: Option<I>, others: I)

  /** A link's files and value, with the digest recorded for them. */
  datatype Record<L> = Record(content: L, sha256: string)

  datatype Step = Step(link: string, sha256: string, chain: string)

  datatype Manifest<L, I, P> =
    Manifest(format: string, schema: int, links: map<string, Record<L>>, inputs: Inputs<I>, provenance: P,
             chain: seq<Step>, final: string)

  /** SHA-256 on texts, and the canonical texts of a link's content and of inputs with provenance. */
  datatype Hashing<!L, !I, !P> = Hashing(sha: string -> string, link: L -> string, sealed: (Inputs<I>, P) -> string)

  /** Hashes and canonical texts are taken as injective; a digest has no separator in it. */
  ghost predicate IsSound<L(!new), I(!new), P(!new)>(h: Hashing<L, I, P>) {
    && (forall x, y :: h.sha(x) == h.sha(y) ==> x == y)
    && (forall x :: IsName(h.sha(x)))
    && (forall x, y :: h.link(x) == h.link(y) ==> x == y)
    && (forall i, p, j, q :: h.sealed(i, p) == h.sealed(j, q) ==> i == j && p == q)
  }

  // --- The chain ---

  function ChainStep(sha: string -> string, previous: string, name: string, digest: string): string {
    sha(previous + "\0" + name + "\0" + digest)
  }

  /** The links a manifest of these inputs has. */
  function Expected<I>(inputs: Inputs<I>): set<string> {
    (set n | n in LINKS) - (if inputs.receipt.None? then {"receipt"} else {}) - (if inputs.native.None?
        then {"native"} else {})
  }

  /** Ten links are always there; a receipt and a native binary have theirs exactly when they are given. */
  lemma ExpectedMeans<I>(inputs: Inputs<I>, n: string)
    ensures n in Expected(inputs) <==>
              || n in {"source", "compiler_patch", "air", "profile", "translator", "generated", "runtime", "toolchain",
                       "proofs", "theorems"}
              || (n == "receipt" && inputs.receipt.Some?) || (n == "native" && inputs.native.Some?)
  {
    assert n in LINKS <==> exists i :: 0 <= i < 12 && LINKS[i] == n;
  }

  /** The names among these that are linked, with their digests. */
  function Linked<L>(names: seq<string>, links: map<string, Record<L>>): seq<(string, string)> {
    if names == [] then [] else
      (if names[0] in links then [(names[0], links[names[0]].sha256)] else []) + Linked(names[1..], links)
  }

  function StepsOf<L, I, P>(h: Hashing<L, I, P>, links: map<string, Record<L>>, inputs: Inputs<I>,
      provenance: P): seq<(string, string)> {
    Linked(LINKS, links) + [("inputs_provenance", h.sha(h.sealed(inputs, provenance)))]
  }

  /** The chain's digest after these steps. */
  function FinalOf(sha: string -> string, steps: seq<(string, string)>): string {
    if steps == [] then sha(FORMAT) else
      var (name, digest) := steps[|steps| - 1];
      ChainStep(sha, FinalOf(sha, steps[..|steps| - 1]), name, digest)
  }

  function ChainOf(sha: string -> string, steps: seq<(string, string)>): seq<Step> {
    if steps == [] then [] else
      var (name, digest) := steps[|steps| - 1];
      ChainOf(sha, steps[..|steps| - 1]) + [Step(name, digest, FinalOf(sha, steps))]
  }

  method LinkSteps<L>(names: seq<string>, links: map<string, Record<L>>) returns (steps: seq<(string, string)>)
    ensures steps == Linked(names, links)
  {
    steps := [];
    for i := 0 to |names|
      invariant steps + Linked(names[i..], links) == Linked(names, links)
    {
      var name := names[i];
      assert names[i..][1..] == names[i + 1..];
      if name in links {
        steps := steps + [(name, links[name].sha256)];
      }
    }
  }

  method Fold(sha: string -> string, steps: seq<(string, string)>) returns (chain: seq<Step>, current: string)
    ensures chain == ChainOf(sha, steps) && current == FinalOf(sha, steps)
  {
    current := sha(FORMAT);
    chain := [];
    for i := 0 to |steps|
      invariant current == FinalOf(sha, steps[..i]) && chain == ChainOf(sha, steps[..i])
    {
      var (name, digest) := steps[i];
      assert steps[..i + 1][..i] == steps[..i];
      current := ChainStep(sha, current, name, digest);
      chain := chain + [Step(name, digest, current)];
    }
    assert steps[..|steps|] == steps;
  }

  method SealChain<L, I, P>(h: Hashing<L, I, P>, links: map<string, Record<L>>, inputs: Inputs<I>, provenance: P)
    returns (chain: seq<Step>, current: string)
    ensures chain == ChainOf(h.sha, StepsOf(h, links, inputs, provenance))
    ensures current == FinalOf(h.sha, StepsOf(h, links, inputs, provenance))
  {
    var steps := LinkSteps(LINKS, links);
    steps := steps + [("inputs_provenance", h.sha(h.sealed(inputs, provenance)))];
    chain, current := Fold(h.sha, steps);
  }

  // --- Integrity ---

  datatype Defect = Unsupported | WrongLinks | EditedLink(name: string) | EditedChain

  ghost predicate IsIntact<L, I, P>(h: Hashing<L, I, P>, m: Manifest<L, I, P>) {
    && m.format == FORMAT && m.schema == 1 && m.links.Keys == Expected(m.inputs)
    && (forall n :: n in m.links ==> m.links[n].sha256 == h.sha(h.link(m.links[n].content)))
    && var steps := StepsOf(h, m.links, m.inputs, m.provenance);
       m.chain == ChainOf(h.sha, steps) && m.final == FinalOf(h.sha, steps)
  }

  method Integrity<L, I, P>(h: Hashing<L, I, P>, m: Manifest<L, I, P>) returns (defect: Option<Defect>)
    ensures defect.None? <==> IsIntact(h, m)
    ensures defect.Some? && defect.value.EditedLink? ==>
              var n := defect.value.name; n in m.links && m.links[n].sha256 != h.sha(h.link(m.links[n].content))
  {
    if m.format != FORMAT || m.schema != 1 {
      return Some(Unsupported);
    }
    if m.links.Keys != Expected(m.inputs) {
      return Some(WrongLinks);
    }
    var rest := m.links.Keys;
    while rest != {}
      invariant rest <= m.links.Keys
      invariant forall n :: n in m.links.Keys - rest ==> m.links[n].sha256 == h.sha(h.link(m.links[n].content))
      decreases rest
    {
      var name :| name in rest;
      if m.links[name].sha256 != h.sha(h.link(m.links[name].content)) {
        return Some(EditedLink(name));
      }
      rest := rest - {name};
    }
    var chain, final := SealChain(h, m.links, m.inputs, m.provenance);
    defect := if m.chain == chain && m.final == final then None else Some(EditedChain);
  }

  // --- Recording ---

  /** `link_record`: the content with its digest. */
  function Recorded<L, I, P>(h: Hashing<L, I, P>, contents: map<string, L>): map<string, Record<L>> {
    map n | n in contents :: Record(contents[n], h.sha(h.link(contents[n])))
  }

  method Build<L, I, P>(h: Hashing<L, I, P>, contents: map<string, L>, inputs: Inputs<I>, provenance: P)
      returns (m: Manifest<L, I, P>)
    requires contents.Keys == Expected(inputs)
    ensures IsIntact(h, m) && m.inputs == inputs && m.provenance == provenance
    ensures m.links.Keys == contents.Keys && forall n :: n in contents ==> m.links[n].content == contents[n]
  {
    var links := Recorded(h, contents);
    var chain, final := SealChain(h, links, inputs, provenance);
    m := Manifest(FORMAT, 1, links, inputs, provenance, chain, final);
  }

  // --- Tamper evidence ---

  lemma StepDetermines(sha: string -> string, a: string, n: string, d: string, b: string, k: string, e: string)
    requires forall x, y :: sha(x) == sha(y) ==> x == y
    requires IsName(a) && IsName(n) && IsName(d) && IsName(b) && IsName(k) && IsName(e)
    requires ChainStep(sha, a, n, d) == ChainStep(sha, b, k, e)
    ensures a == b && n == k && d == e
  {
    ThreeJoined(a, n, d);
    ThreeJoined(b, k, e);
    JoinedDetermines([a, n, d], [b, k, e]);
    assert [a, n, d][0] == [b, k, e][0] && [a, n, d][1] == [b, k, e][1] && [a, n, d][2] == [b, k, e][2];
  }

  lemma ThreeJoined(a: string, n: string, d: string)
    ensures Joined([a, n, d]) == a + "\0" + n + "\0" + d
  {
    assert [a, n, d][1..] == [n, d] && [n, d][1..] == [d];
    assert Joined([n, d]) == n + "\0" + d;
    assert a + "\0" + (n + "\0" + d) == a + "\0" + n + "\0" + d;
  }

  ghost predicate AreNames(steps: seq<(string, string)>) {
    forall s :: s in steps ==> IsName(s.0) && IsName(s.1)
  }

  /** Back along two chains of one length: equal ends, equal steps. */
  lemma {:induction false} FinalDetermines(sha: string -> string, s: seq<(string, string)>, t: seq<(string, string)>)
    requires (forall x, y :: sha(x) == sha(y) ==> x == y) && (forall x :: IsName(sha(x)))
    requires AreNames(s) && AreNames(t) && |s| == |t| && FinalOf(sha, s) == FinalOf(sha, t)
    ensures s == t
    decreases |s|
  {
    if s != [] {
      var n := |s| - 1;
      assert s[n] in s && t[n] in t;
      FinalIsName(sha, s[..n]);
      FinalIsName(sha, t[..n]);
      StepDetermines(sha, FinalOf(sha, s[..n]), s[n].0, s[n].1, FinalOf(sha, t[..n]), t[n].0, t[n].1);
      FinalDetermines(sha, s[..n], t[..n]);
      assert s == s[..n] + [s[n]] && t == t[..n] + [t[n]];
    }
  }

  lemma FinalIsName(sha: string -> string, s: seq<(string, string)>)
    requires forall x :: IsName(sha(x))
    ensures IsName(FinalOf(sha, s))
  {
    if s == [] {
      assert IsName(sha(FORMAT));
    } else {
      var n := |s| - 1;
      assert IsName(sha(FinalOf(sha, s[..n]) + "\0" + s[n].0 + "\0" + s[n].1));
    }
  }

  /** Links of one set of names, with one list of digests, have the same digests. */
  lemma {:induction false} LinkedDetermines<L>(names: seq<string>, a: map<string, Record<L>>, b: map<string, Record<L>>)
    requires a.Keys == b.Keys
    ensures |Linked(names, a)| == |Linked(names, b)|
    ensures Linked(names, a) == Linked(names, b) ==> forall n :: n in names && n in a ==> a[n].sha256 == b[n].sha256
    decreases |names|
  {
    if names != [] {
      LinkedDetermines(names[1..], a, b);
      assert names == [names[0]] + names[1..];
      if names[0] !in a {
        assert Linked(names, a) == Linked(names[1..], a) && Linked(names, b) == Linked(names[1..], b);
      } else if Linked(names, a) == Linked(names, b) {
        assert Linked(names, a)[0] == Linked(names, b)[0];
        assert Linked(names[1..], a) == Linked(names, a)[1..] && Linked(names[1..], b) == Linked(names, b)[1..];
      }
    }
  }

  lemma {:induction false} LinkedAreNames<L>(names: seq<string>, links: map<string, Record<L>>)
    requires (forall n :: n in names ==> IsName(n)) && forall n :: n in links ==> IsName(links[n].sha256)
    ensures AreNames(Linked(names, links))
    decreases |names|
  {
    if names != [] {
      LinkedAreNames(names[1..], links);
      assert names == [names[0]] + names[1..];
    }
  }

  lemma LinkNamesAreNames()
    ensures (forall n :: n in LINKS ==> IsName(n)) && IsName("inputs_provenance")
  {
    forall n | n in LINKS
      ensures IsName(n)
    {
      var i :| 0 <= i < |LINKS| && LINKS[i] == n;
    }
  }

  /** An intact manifest's steps, and what its last one binds. */
  lemma IntactSteps<L(!new), I(!new), P(!new)>(h: Hashing<L, I, P>, m: Manifest<L, I, P>) returns (n: nat)
    requires IsSound(h) && IsIntact(h, m)
    ensures var steps := StepsOf(h, m.links, m.inputs, m.provenance);
            && AreNames(steps) && n + 1 == |steps| && steps[..n] == Linked(LINKS, m.links)
            && steps[n] == ("inputs_provenance", h.sha(h.sealed(m.inputs, m.provenance)))
  {
    LinkNamesAreNames();
    forall k | k in m.links
      ensures IsName(m.links[k].sha256)
    {
      assert IsName(h.sha(h.link(m.links[k].content)));
    }
    LinkedAreNames(LINKS, m.links);
    n := |Linked(LINKS, m.links)|;
    assert IsName(h.sha(h.sealed(m.inputs, m.provenance)));
  }

  /** Equal inputs expect the same links, so the two chains have one length. */
  lemma SameLength<L>(a: map<string, Record<L>>, b: map<string, Record<L>>)
    requires a.Keys == b.Keys
    ensures |Linked(LINKS, a)| == |Linked(LINKS, b)|
  {
    LinkedDetermines(LINKS, a, b);
  }

  /** The final digest fixes the inputs, the provenance and the digest before it. */
  lemma LastStepDetermines<L(!new), I(!new), P(!new)>(h: Hashing<L, I, P>, m: Manifest<L, I, P>, k: Manifest<L, I, P>)
    requires IsSound(h) && IsIntact(h, m) && IsIntact(h, k) && m.final == k.final
    ensures m.inputs == k.inputs && m.provenance == k.provenance
    ensures FinalOf(h.sha, Linked(LINKS, m.links)) == FinalOf(h.sha, Linked(LINKS, k.links))
  {
    var s, t := StepsOf(h, m.links, m.inputs, m.provenance), StepsOf(h, k.links, k.inputs, k.provenance);
    var i := IntactSteps(h, m);
    var j := IntactSteps(h, k);
    assert s[i] in s && t[j] in t;
    FinalIsName(h.sha, s[..i]);
    FinalIsName(h.sha, t[..j]);
    StepDetermines(h.sha, FinalOf(h.sha, s[..i]), s[i].0, s[i].1, FinalOf(h.sha, t[..j]), t[j].0, t[j].1);
    assert h.sealed(m.inputs, m.provenance) == h.sealed(k.inputs, k.provenance);
  }

  /**
   Tamper evidence: intact manifests with one final digest are of the same inputs and provenance, and
   have the same links with the same contents.
   */
  lemma FinalDigestBindsAll<L(!new), I(!new), P(!new)>(h: Hashing<L, I, P>, m: Manifest<L, I, P>, k: Manifest<L, I, P>)
    requires IsSound(h) && IsIntact(h, m) && IsIntact(h, k) && m.final == k.final
    ensures m.inputs == k.inputs && m.provenance == k.provenance && m.links == k.links
  {
    LastStepDetermines(h, m, k);
    SameLength(m.links, k.links);
    var i := IntactSteps(h, m);
    var j := IntactSteps(h, k);
    forall x | x in Linked(LINKS, m.links)
      ensures x in StepsOf(h, m.links, m.inputs, m.provenance)
    {
    }
    forall x | x in Linked(LINKS, k.links)
      ensures x in StepsOf(h, k.links, k.inputs, k.provenance)
    {
    }
    FinalDetermines(h.sha, Linked(LINKS, m.links), Linked(LINKS, k.links));
    LinkedDetermines(LINKS, m.links, k.links);
    forall n | n in m.links
      ensures m.links[n] == k.links[n]
    {
      assert n in LINKS;
      assert h.link(m.links[n].content) == h.link(k.links[n].content);
    }
  }

  /** And manifests of the same recordings have one final digest. */
  lemma SameRecordingsSameDigest<L, I, P>(h: Hashing<L, I, P>, m: Manifest<L, I, P>, k: Manifest<L, I, P>)
    requires IsIntact(h, m) && IsIntact(h, k)
    requires m.inputs == k.inputs && m.provenance == k.provenance && forall n :: n in m.links && n in k.links ==>
        m.links[n].content == k.links[n].content
    ensures m == k
  {
    forall n | n in m.links
      ensures m.links[n] == k.links[n]
    {
    }
    assert m.links == k.links;
  }
}
