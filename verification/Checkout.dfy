/**
 Reusing a CI part's result: which tracked files are its declared inputs, the key that names them, and
 the restricted checkout in which every other file is withheld.
 */
module Checkout {
  import opened Regexes
  import opened Globs
  import opened Listings

  /** A tracked file: its mode and the identity of its content. */
  datatype Entry = Entry(mode: string, oid: string)

  type Tree = map<string, Entry>

  /** A declared input set. */
  datatype Inputs = Inputs(patterns: set<string>, exclude: set<string>, forced: set<string>) {
    ghost predicate AnyMatches(ps: set<string>, path: string) {
      exists p :: p in ps && FullMatch(Compiled(p), path)
    }

    /** The patterns without wildcards: paths that are inputs whatever is excluded. */
    function Exact(): set<string> {
      set p | p in patterns && IsLiteral(p)
    }

    ghost predicate Content(path: string) {
      || AnyMatches(forced + Exact(), path)
      || (AnyMatches(patterns - Exact(), path) && !AnyMatches(exclude, path))
    }

    ghost function Describe(): (seq<string>, seq<string>, seq<string>) {
      (Sorted(patterns), Sorted(exclude), Sorted(forced))
    }
  }

  /**
   What a part's key is the hash of. `definitions` stands for its job, producers, runner and generated files,
   `names` is a hash already.
   */
  datatype Preimage<D, H> =
    Preimage(definitions: D, declaration: (seq<string>, seq<string>, seq<string>), content: seq<(string, Entry)>,
        names: H)

  ghost function Declared(tree: Tree, inputs: Inputs): set<string> {
    set p | p in tree && inputs.Content(p)
  }

  ghost function Rows(tree: Tree, names: seq<string>): seq<(string, Entry)>
    requires forall n :: n in names ==> n in tree
  {
    seq(|names|, i requires 0 <= i < |names| => (names[i], tree[names[i]]))
  }

  ghost function PreimageOf<D, H>(definitions: D, tree: Tree, inputs: Inputs, hash: string -> H): Preimage<D, H> {
    Preimage(definitions, inputs.Describe(), Rows(tree, Sorted(Declared(tree, inputs))),
        hash(Joined(Sorted(tree.Keys))))
  }

  /** The tree of the restricted checkout: what is no input is the placeholder. */
  ghost function Restricted(tree: Tree, inputs: Inputs, placeholder: string): Tree {
    map p | p in tree :: if inputs.Content(p) then tree[p] else Entry("100644", placeholder)
  }

  /** Git tracks files under names. */
  ghost predicate IsTree(tree: Tree) {
    forall p :: p in tree ==> IsName(p)
  }

  ghost predicate Injective<A(!new), B>(f: A -> B) {
    forall x, y :: f(x) == f(y) ==> x == y
  }

  // --- Inputs ---

  /** A declared path without wildcards is an input of the part, even where it is excluded. */
  lemma ExactPathsAreInputs(inputs: Inputs, p: string)
    requires p in inputs.patterns && IsLiteral(p)
    ensures inputs.Content(p)
  {
    CompiledFits(p, p);
    LiteralFitsItself(p, p, true);
    assert p in inputs.forced + inputs.Exact();
  }

  ghost predicate AnyFits(ps: set<string>, path: string) {
    exists p :: p in ps && Fits(p, path, false)
  }

  /** In terms of paths: forced, declared as such, or below a pattern and not excluded. */
  lemma ContentMeans(inputs: Inputs, path: string)
    requires Without(path, '\n')
    ensures inputs.Content(path) <==>
              (|| AnyFits(inputs.forced, path)
               || (path in inputs.patterns && IsLiteral(path))
               || (AnyFits(inputs.patterns - inputs.Exact(), path) && !AnyFits(inputs.exclude, path)))
  {
    AnyMeans(inputs, inputs.forced + inputs.Exact(), path);
    AnyMeans(inputs, inputs.patterns - inputs.Exact(), path);
    AnyMeans(inputs, inputs.exclude, path);
    assert AnyFits(inputs.forced + inputs.Exact(), path) <==>
        AnyFits(inputs.forced, path) || AnyFits(inputs.Exact(), path);
    ExactMeans(inputs, path);
  }

  lemma AnyMeans(inputs: Inputs, ps: set<string>, path: string)
    requires Without(path, '\n')
    ensures inputs.AnyMatches(ps, path) <==> AnyFits(ps, path)
  {
    forall p | p in ps
      ensures FullMatch(Compiled(p), path) <==> Fits(p, path, false)
    {
      CompiledMeansPattern(p, path);
    }
  }

  lemma ExactMeans(inputs: Inputs, path: string)
    ensures AnyFits(inputs.Exact(), path) <==> path in inputs.patterns && IsLiteral(path)
  {
    forall p | p in inputs.Exact()
      ensures Fits(p, path, false) <==> p == path
    {
      LiteralFitsItself(p, path, false);
    }
    if path in inputs.patterns && IsLiteral(path) {
      assert path in inputs.Exact() && Fits(path, path, false);
    }
  }

  // --- Keys ---

  lemma SortedDetermines(s: set<string>, t: set<string>)
    requires Sorted(s) == Sorted(t)
    ensures s == t
  {
    assert forall n :: n in s <==> n in Sorted(s);
    assert forall n :: n in t <==> n in Sorted(t);
  }

  lemma RowsDetermine(tree: Tree, other: Tree, names: seq<string>, more: seq<string>)
    requires (forall n :: n in names ==> n in tree) && (forall n :: n in more ==> n in other)
    requires Rows(tree, names) == Rows(other, more)
    ensures names == more && forall n :: n in names ==> tree[n] == other[n]
  {
    assert |names| == |Rows(tree, names)| == |more|;
    forall i | 0 <= i < |names|
      ensures names[i] == more[i] && tree[names[i]] == other[names[i]]
    {
      assert Rows(tree, names)[i] == Rows(other, more)[i];
    }
  }

  ghost predicate SameInputs(tree: Tree, other: Tree, inputs: Inputs) {
    && tree.Keys == other.Keys
    && forall p :: p in Declared(tree, inputs) ==> tree[p] == other[p]
  }

  /**
   Two runs have the same preimage exactly when their definitions and declared patterns agree, the same
   names are tracked, and every declared input has the same content.
   */
  lemma PreimagesAgree<D, H>(d: D, e: D, tree: Tree, other: Tree, inputs: Inputs, others: Inputs, hash: string -> H)
    requires IsTree(tree) && IsTree(other) && Injective(hash)
    ensures PreimageOf(d, tree, inputs, hash) == PreimageOf(e, other, others, hash)
            <==> d == e && inputs == others && SameInputs(tree, other, inputs)
  {
    if PreimageOf(d, tree, inputs, hash) == PreimageOf(e, other, others, hash) {
      SortedDetermines(inputs.patterns, others.patterns);
      SortedDetermines(inputs.exclude, others.exclude);
      SortedDetermines(inputs.forced, others.forced);
      assert hash(Joined(Sorted(tree.Keys))) == hash(Joined(Sorted(other.Keys)));
      JoinedDetermines(Sorted(tree.Keys), Sorted(other.Keys));
      SortedDetermines(tree.Keys, other.Keys);
      assert Declared(tree, inputs) == Declared(other, inputs);
      RowsDetermine(tree, other, Sorted(Declared(tree, inputs)), Sorted(Declared(other, inputs)));
    }
    if d == e && inputs == others && SameInputs(tree, other, inputs) {
      assert Declared(tree, inputs) == Declared(other, inputs);
      assert Rows(tree, Sorted(Declared(tree, inputs))) == Rows(other, Sorted(Declared(other, inputs)));
    }
  }

  /** The restricted tree has every input as it is committed, and of the other files only their names. */
  lemma RestrictedKeepsInputs(tree: Tree, inputs: Inputs, placeholder: string)
    ensures SameInputs(tree, Restricted(tree, inputs, placeholder), inputs)
    ensures forall p :: p in tree && !inputs.Content(p) ==>
              Restricted(tree, inputs, placeholder)[p] == Entry("100644", placeholder)
  {
  }

  /** So it has the key of its commit: a part that runs in it runs what its key names. */
  lemma RestrictedHasTheKey<D, H>(d: D, tree: Tree, inputs: Inputs, hash: string -> H, placeholder: string)
    requires IsTree(tree) && Injective(hash)
    ensures PreimageOf(d, Restricted(tree, inputs, placeholder), inputs, hash) == PreimageOf(d, tree, inputs, hash)
  {
    RestrictedKeepsInputs(tree, inputs, placeholder);
    PreimagesAgree(d, d, tree, Restricted(tree, inputs, placeholder), inputs, inputs, hash);
  }

  /** Restricted trees of one declaration are equal exactly if the same names are tracked and the inputs agree. */
  lemma RestrictedDetermines(tree: Tree, other: Tree, inputs: Inputs, placeholder: string)
    ensures Restricted(tree, inputs, placeholder) == Restricted(other, inputs, placeholder)
            <==> SameInputs(tree, other, inputs)
  {
    var r, s := Restricted(tree, inputs, placeholder), Restricted(other, inputs, placeholder);
    assert r.Keys == tree.Keys && s.Keys == other.Keys;
    if SameInputs(tree, other, inputs) {
      forall p | p in r
        ensures p in s && r[p] == s[p]
      {
        assert inputs.Content(p) ==> p in Declared(tree, inputs);
      }
    }
    if r == s {
      forall p | p in Declared(tree, inputs)
        ensures p in other && tree[p] == other[p]
      {
        assert p in r && r[p] == s[p];
      }
    }
  }

  /**
   Equal keys, equal restricted checkouts: what one run tested is what the other one would test. And nothing more
   than that and the declarations goes into a key.
   */
  lemma EqualKeysEqualCheckouts<D(!new), H(!new),
      K>(d: D, e: D, tree: Tree, other: Tree, inputs: Inputs, others: Inputs,
                                         hash: string -> H, key: Preimage<D, H> -> K, placeholder: string)
    requires IsTree(tree) && IsTree(other) && Injective(hash) && Injective(key)
    ensures key(PreimageOf(d, tree, inputs, hash)) == key(PreimageOf(e, other, others, hash))
            <==> d == e && inputs == others
                 && Restricted(tree, inputs, placeholder) == Restricted(other, others, placeholder)
  {
    PreimagesAgree(d, e, tree, other, inputs, others, hash);
    RestrictedDetermines(tree, other, inputs, placeholder);
  }

  /** Other files may change: neither the key nor the checkout notices. */
  lemma UndeclaredChangesAreUnseen<D, H, K>(d: D, tree: Tree, other: Tree, inputs: Inputs,
                                            hash: string -> H, key: Preimage<D, H> -> K, placeholder: string)
    requires IsTree(tree) && IsTree(other) && Injective(hash) && tree.Keys == other.Keys
    requires forall p :: p in tree && tree[p] != other[p] ==> !inputs.Content(p)
    ensures key(PreimageOf(d, tree, inputs, hash)) == key(PreimageOf(d, other, inputs, hash))
    ensures Restricted(tree, inputs, placeholder) == Restricted(other, inputs, placeholder)
  {
    assert SameInputs(tree, other, inputs);
    PreimagesAgree(d, d, tree, other, inputs, inputs, hash);
    RestrictedDetermines(tree, other, inputs, placeholder);
  }

  /** A file that appears, goes, or is a declared input and changes, changes the key. */
  lemma DeclaredChangesAreSeen<D(!new), H(!new), K>(d: D, e: D, tree: Tree, other: Tree, inputs: Inputs, others: Inputs,
                                        hash: string -> H, key: Preimage<D, H> -> K, p: string)
    requires IsTree(tree) && IsTree(other) && Injective(hash) && Injective(key)
    requires (p in tree) != (p in other) || (p in tree && inputs.Content(p) && tree[p] != other[p])
    ensures key(PreimageOf(d, tree, inputs, hash)) != key(PreimageOf(e, other, others, hash))
  {
    PreimagesAgree(d, e, tree, other, inputs, others, hash);
    assert p in tree && inputs.Content(p) ==> p in Declared(tree, inputs);
  }
}
