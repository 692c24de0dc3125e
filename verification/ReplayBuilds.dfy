/**
 The replay cache never mixes builds: whatever audits interleave, it agrees with all cacheable modules of one audit
 of its identity, and an audit reuses a pass only from a cache that agrees with its own build.
 */
module ReplayBuilds {
  import opened Wrappers
  import opened ReplayCache
  import opened ReplayOnce

  /** Every pass of a module that this audit may cache is of the bytes this audit has. */
  ghost predicate Agrees(passed: map<Module, Digest>, a: Audit) {
    forall m :: m in passed && m in a.cacheable && m in a.digests ==> passed[m] == a.digests[m]
  }

  ghost predicate IsOf(file: File, a: Audit) {
    file.identity == a.identity && Agrees(file.passed, a)
  }

  /** The cache is of some audit's build, and so is what a worker has read to merge into. */
  ghost predicate Unmixed(w: World) {
    && (w.file.Some? ==> exists id :: id in w.audits && IsOf(w.file.value, w.audits[id]))
    && forall id, m :: id in w.audits && m in w.audits[id].stages && w.audits[id].stages[m].Loaded? ==>
         Agrees(w.audits[id].stages[m].passed, w.audits[id])
  }

  lemma LoadAgrees(file: Option<File>, a: Audit)
    ensures Agrees(Load(file, a), a)
  {
  }

  lemma StageKeepsUnmixed(w: World, next: World, id: Id, m: Module, s: Stage)
    requires Unmixed(w) && OnlyStage(w, next, id, m, s) && next.file == w.file
    requires s.Loaded? ==> Agrees(s.passed, w.audits[id])
    ensures Unmixed(next)
  {
    hide Agrees;
    forall j | j in w.audits
      ensures forall p :: Agrees(p, w.audits[j]) <==> Agrees(p, next.audits[j])
    {
      SameBuild(w.audits[j], next.audits[j]);
    }
    if w.file.Some? {
      var j :| j in w.audits && IsOf(w.file.value, w.audits[j]);
      assert IsOf(next.file.value, next.audits[j]);
    }
  }

  lemma SameBuild(a: Audit, b: Audit)
    requires a.digests == b.digests && a.cacheable == b.cacheable
    ensures forall p :: Agrees(p, a) <==> Agrees(p, b)
  {
  }

  /** A step that writes nothing: at most the worker's own stage changes. */
  ghost predicate IsOneStage(w: World, next: World, id: Id, m: Module) {
    || next == w
    || (&& next.file == w.file && id in next.audits && m in next.audits[id].stages
        && OnlyStage(w, next, id, m, next.audits[id].stages[m])
        && (next.audits[id].stages[m].Loaded? ==> next.audits[id].stages[m].passed == Load(w.file, w.audits[id])))
  }

  lemma EarlyIsOneStage(w: World, id: Id, m: Module, verdict: bool)
    requires CanMove(w, Act(id, m, verdict)) && w.timeline != []
    requires w.audits[id].stages[m].Todo? || w.audits[id].stages[m].Claimed? || w.audits[id].stages[m].Checking?
    ensures IsOneStage(w, Step(w, id, m, verdict), id, m)
  {
    hide Load;
    match w.audits[id].stages[m]
    case Todo =>
    case Claimed => assert Step(w, id, m, verdict) == StepClaimed(w, id, m);
    case Checking => assert Step(w, id, m, verdict) == StepChecking(w, id, m, verdict);
  }

  lemma LateIsOneStage(w: World, id: Id, m: Module, verdict: bool)
    requires CanMove(w, Act(id, m, verdict)) && w.timeline != [] && !w.audits[id].stages[m].Loaded?
    requires !w.audits[id].stages[m].Todo? && !w.audits[id].stages[m].Claimed? && !w.audits[id].stages[m].Checking?
    ensures IsOneStage(w, Step(w, id, m, verdict), id, m)
  {
    hide Load;
  }

  lemma StepsKeepUnmixed(w: World, id: Id, m: Module, verdict: bool)
    requires Unmixed(w) && CanMove(w, Act(id, m, verdict)) && w.timeline != [] && !w.audits[id].stages[m].Loaded?
    ensures Unmixed(Step(w, id, m, verdict))
  {
    LoadAgrees(w.file, w.audits[id]);
    hide Load, Unmixed, Agrees, Step;
    if w.audits[id].stages[m].Todo? || w.audits[id].stages[m].Claimed? || w.audits[id].stages[m].Checking? {
      EarlyIsOneStage(w, id, m, verdict);
    } else {
      LateIsOneStage(w, id, m, verdict);
    }
    var next := Step(w, id, m, verdict);
    if next != w {
      StageKeepsUnmixed(w, next, id, m, next.audits[id].stages[m]);
    }
  }

  lemma WritingKeepsUnmixed(w: World, id: Id, m: Module, verdict: bool)
    requires Unmixed(w) && CanMove(w, Act(id, m, verdict)) && w.timeline != [] && w.audits[id].stages[m].Loaded?
    ensures Unmixed(Step(w, id, m, verdict))
  {
    var next := Step(w, id, m, verdict);
    assert next.file.value.passed == w.audits[id].stages[m].passed[m := w.audits[id].digests[m]];
    assert IsOf(next.file.value, next.audits[id]);
    forall j | j in w.audits
      ensures forall p :: Agrees(p, w.audits[j]) <==> Agrees(p, next.audits[j])
    {
      SameBuild(w.audits[j], next.audits[j]);
    }
    hide Agrees;
  }

  lemma OtherMovesKeepUnmixed(w: World, v: Move)
    requires Unmixed(w) && CanMove(w, v) && !v.Act? && w.timeline != []
    ensures Unmixed(After(w, v))
  {
    var next := After(w, v);
    if next.file.Some? {
      var j :| j in w.audits && IsOf(w.file.value, w.audits[j]);
      assert IsOf(next.file.value, next.audits[j]);
    }
  }

  lemma MoveKeepsUnmixed(v: World, w: World)
    requires Unmixed(v) && Moves(v, w)
    ensures Unmixed(w)
  {
    var m :| CanMove(v, m) && w == After(v, m);
    hide Unmixed, Step, StepFinish, StepKill;
    if !m.Act? {
      OtherMovesKeepUnmixed(v, m);
    } else if v.audits[m.id].stages[m.m].Loaded? {
      WritingKeepsUnmixed(v, m.id, m.m, m.verdict);
    } else {
      StepsKeepUnmixed(v, m.id, m.m, m.verdict);
    }
  }

  lemma {:induction false} ReachableIsUnmixed(env: Identity, w: World, n: nat)
    requires ReachableIn(env, w, n)
    ensures Unmixed(w)
    decreases n
  {
    hide Unmixed, Moves;
    if n > 0 {
      var v :| ReachableIn(env, v, n - 1) && Moves(v, w);
      ReachableIsUnmixed(env, v, n - 1);
      MoveKeepsUnmixed(v, w);
    } else {
      StartIsUnmixed(env);
    }
  }

  lemma StartIsUnmixed(env: Identity)
    ensures Unmixed(Start(env))
  {
  }

  /** In every reachable state the cache, if there is one, is of one audit's build. */
  lemma NeverMixesBuilds(w: World)
    requires Reachable(w) && w.file.Some?
    ensures exists id :: id in w.audits && IsOf(w.file.value, w.audits[id])
  {
    var env, n: nat :| ReachableIn(env, w, n);
    ReachableIsUnmixed(env, w, n);
  }

  // --- The cache lock ---

  /** Whoever holds the cache lock is a worker about to merge. */
  ghost predicate IsLock(w: World) {
    w.lock.Some? ==>
      && w.lock.value.0 in w.audits && w.lock.value.1 in w.audits[w.lock.value.0].stages
      && AtCache(w.audits[w.lock.value.0].stages[w.lock.value.1])
  }

  lemma MoveKeepsLock(v: World, w: World)
    requires Locked(v) && IsLock(v) && Moves(v, w)
    ensures IsLock(w)
  {
    var m :| CanMove(v, m) && w == After(v, m);
    if m.Act? {
      hide Locked, Step;
      StepOnlyItsLocks(v, m.id, m.m, m.verdict);
    } else if m.Finish? && v.lock.Some? && v.lock.value.0 == m.id {
      hide Locked;
    }
  }

  lemma {:induction false} ReachableLock(env: Identity, w: World, n: nat)
    requires ReachableIn(env, w, n)
    ensures IsLock(w)
    decreases n
  {
    hide Moves, IsLock, Locked, Agree, Once;
    if n > 0 {
      var v :| ReachableIn(env, v, n - 1) && Moves(v, w);
      ReachableLock(env, v, n - 1);
      ReachableOnce(env, v, n - 1, env);
      MoveKeepsLock(v, w);
    } else {
      StartHasNoLock(env);
    }
  }

  lemma StartHasNoLock(env: Identity)
    ensures IsLock(Start(env))
  {
  }

  /**
   No claim and no cache lock is left behind, by kills either: each is held by exactly the one worker that is between
   taking it and giving it back.
   */
  lemma LocksAreHeldByWorkers(w: World)
    requires Reachable(w)
    ensures forall id, m :: id in w.audits && m in w.audits[id].stages ==>
              && (m in w.claims && w.claims[m] == id <==> Holding(w.audits[id].stages[m]))
              && (w.lock == Some((id, m)) <==> AtCache(w.audits[id].stages[m]))
    ensures forall m :: m in w.claims ==> w.claims[m] in w.audits && m in w.audits[w.claims[m]].stages
    ensures w.lock.Some? ==> w.lock.value.0 in w.audits && w.lock.value.1 in w.audits[w.lock.value.0].stages
  {
    hide ReachableIn, Settled;
    var env, n: nat :| ReachableIn(env, w, n);
    ReachableLock(env, w, n);
    ReachableOnce(env, w, n, env);
    forall id, m | id in w.audits && m in w.audits[id].stages
      ensures m in w.claims && w.claims[m] == id <==> Holding(w.audits[id].stages[m])
      ensures w.lock == Some((id, m)) <==> AtCache(w.audits[id].stages[m])
    {
      assert StageLocks(w, id, m, w.audits[id].stages[m]) && IsClaim(w, m);
    }
    assert forall m :: m in w.claims ==> IsClaim(w, m);
  }

  // --- Single steps ---

  /**
   A claimed module is reused exactly if the cache is of the audit's identity, agrees with all of its build and has
   a pass of the module; else it is checked.
   */
  lemma ReusesExactly(w: World, id: Id, m: Module, verdict: bool)
    requires CanMove(w, Act(id, m, verdict)) && w.timeline != [] && w.audits[id].stages[m] == Claimed
    ensures var a := w.audits[id];
            After(w, Act(id, m, verdict)).audits[id].stages[m]
              == if w.file.Some? && IsOf(w.file.value, a) && m in w.file.value.passed
                    && w.file.value.passed[m] == a.digests[m]
                 then Done(true, true) else Checking
  {
  }

  /** The checker decides: for a module that may not be cached at once, for another one under its claim. */
  lemma TheCheckerDecides(w: World, id: Id, m: Module, verdict: bool)
    requires CanMove(w, Act(id, m, verdict)) && w.timeline != []
    ensures var a, s := w.audits[id], After(w, Act(id, m, verdict)).audits[id].stages[m];
            && (a.stages[m] == Todo && m !in a.cacheable ==> s == Done(false, verdict))
            && (a.stages[m] == Checking ==> s == if verdict then Passing else Done(false, false))
  {
  }

  /** A pass is merged only while the inputs are as the audit read them, if it validates them. */
  lemma MergesExactly(w: World, id: Id, m: Module, verdict: bool)
    requires CanMove(w, Act(id, m, verdict)) && w.timeline != [] && w.audits[id].stages[m] == Merging
    ensures After(w, Act(id, m, verdict)).audits[id].stages[m].Loaded?
            <==> !w.audits[id].validates || w.timeline[|w.timeline| - 1].inputs == w.audits[id].identity.inputs
  {
  }

  /**
   An audit passes exactly if none of its merges was refused and the tools and validated inputs are as it read them;
   else it fails, and the cache goes exactly if it had merged a pass.
   */
  lemma PassesExactly(w: World, id: Id)
    requires CanMove(w, Finish(id)) && w.timeline != []
    ensures var a, now, v := w.audits[id], w.timeline[|w.timeline| - 1], After(w, Finish(id));
            if && (forall m :: m in a.stages ==> a.stages[m] != Broken)
               && now.tool == a.identity.tool && (a.validates ==> now.inputs == a.identity.inputs)
            then v.audits[id].status == Passed && v.file == w.file
            else v.audits[id].status == Failed && v.file == if a.published == {} then w.file else None
  {
  }
}
