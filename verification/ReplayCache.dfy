/**
 The kernel replay's cache of passes, shared by concurrent audits. An audit checks each cacheable module
 under that module's claim, reads the cache again under it, and merges a pass in under the cache
 lock. The environment (tools and compiled inputs) may change at any time.
 */
module ReplayCache {
  import opened Wrappers

  type Id = nat
  type Module = nat
  type Digest = nat

  /** What a pass is of, beside the module's own bytes: the checker and its runtime, the compiled inputs. */
  datatype Identity = Identity(tool: nat, inputs: nat)

  datatype File = File(identity: Identity, passed: map<Module, Digest>)

  datatype Stage =
    | Todo
    | Claimed                              // holds the module's claim
    | Checking                             // the cache has no pass for it
    | Passing                              // its checker passed
    | Merging                              // holds the cache lock
    | Loaded(passed: map<Module, Digest>)  // read the cache to merge into
    | Broken                               // the inputs had changed before it could merge
    | Done(reused: bool, passes: bool)

  datatype Status = Working | Passed | Failed | Killed

  datatype Audit = Audit(identity: Identity, start: nat, digests: map<Module, Digest>, cacheable: set<Module>,
      validates: bool,
                         stages: map<Module, Stage>, published: set<Module>, status: Status)

  /** A checker run that passed under a claim. `at` is when, `start` when its audit read its identity. */
  datatype Run = Run(module_: Module, digest: Digest, identity: Identity, start: nat, at: nat)

  /** `timeline` is every environment there was; the last one is there now. */
  datatype World = World(timeline: seq<Identity>, file: Option<File>, claims: map<Module, Id>,
      lock: Option<(Id, Module)>,
                         audits: map<Id, Audit>, runs: seq<Run>)

  datatype Move =
    | Change(to: Identity)
    | Arrive(id: Id, digests: map<Module, Digest>, cacheable: set<Module>, validates: bool)
    | Act(id: Id, m: Module, verdict: bool)  // the checker's verdict matters only where it runs
    | Finish(id: Id)
    | Kill(id: Id)

  function Now(w: World): Identity
    requires w.timeline != []
  {
    w.timeline[|w.timeline| - 1]
  }

  predicate Clashes(passed: map<Module, Digest>, a: Audit) {
    exists m :: m in passed && m in a.cacheable && m in a.digests && passed[m] != a.digests[m]
  }

  /** The cache's passes, if they are of this identity and agree with every cacheable digest here. */
  function Load(file: Option<File>, a: Audit): map<Module, Digest> {
    if file.None? || file.value.identity != a.identity || Clashes(file.value.passed, a) then map[]
        else file.value.passed
  }

  function Without<K, V>(m: map<K, V>, k: K): map<K, V> {
    map j | j in m && j != k :: m[j]
  }

  function SetStage(w: World, id: Id, m: Module, s: Stage): World
    requires id in w.audits
  {
    var a := w.audits[id];
    w.(audits := w.audits[id := a.(stages := a.stages[m := s])])
  }

  function StepClaimed(w: World, id: Id, m: Module): World
    requires id in w.audits && m in w.audits[id].digests
  {
    var a := w.audits[id];
    var passed := Load(w.file, a);
    if m in passed && passed[m] == a.digests[m]
    then SetStage(w, id, m, Done(true, true)).(claims := Without(w.claims, m))
    else SetStage(w, id, m, Checking)
  }

  function StepChecking(w: World, id: Id, m: Module, verdict: bool): World
    requires id in w.audits && m in w.audits[id].digests && w.timeline != []
  {
    var a := w.audits[id];
    if verdict
    then SetStage(w, id, m, Passing).(runs := w.runs + [Run(m, a.digests[m], a.identity, a.start, |w.timeline| - 1)])
    else SetStage(w, id, m, Done(false, false)).(claims := Without(w.claims, m))
  }

  function StepMerging(w: World, id: Id, m: Module): World
    requires id in w.audits && w.timeline != []
  {
    var a := w.audits[id];
    if a.validates && Now(w).inputs != a.identity.inputs
    then SetStage(w, id, m, Broken).(claims := Without(w.claims, m), lock := None)
    else SetStage(w, id, m, Loaded(Load(w.file, a)))
  }

  function StepLoaded(w: World, id: Id, m: Module, passed: map<Module, Digest>): World
    requires id in w.audits && m in w.audits[id].digests
  {
    var a := w.audits[id];
    w.(file := Some(File(a.identity, passed[m := a.digests[m]])), claims := Without(w.claims, m), lock := None,
       audits := w.audits[id := a.(stages := a.stages[m := Done(false, true)], published := a.published + {m})])
  }

  /** The next step of one audit's worker for one module. */
  function Step(w: World, id: Id, m: Module, verdict: bool): World
    requires id in w.audits && m in w.audits[id].stages && m in w.audits[id].digests && w.timeline != []
  {
    match w.audits[id].stages[m]
    case Todo =>
      if m !in w.audits[id].cacheable then SetStage(w, id, m, Done(false, verdict))
      else if m !in w.claims then SetStage(w, id, m, Claimed).(claims := w.claims[m := id])
      else w
    case Claimed => StepClaimed(w, id, m)
    case Checking => StepChecking(w, id, m, verdict)
    case Passing => if w.lock.None? then SetStage(w, id, m, Merging).(lock := Some((id, m))) else w
    case Merging => StepMerging(w, id, m)
    case Loaded(passed) => StepLoaded(w, id, m, passed)
    case Broken => w
    case Done(_, _) => w
  }

  predicate Settled(a: Audit) {
    forall m :: m in a.stages ==> a.stages[m].Done? || a.stages[m].Broken?
  }

  /** An audit passes only if its tools, and its inputs where it validates them, are as it read them. */
  predicate Holds(a: Audit, now: Identity) {
    && (forall m :: m in a.stages ==> !a.stages[m].Broken?)
    && now.tool == a.identity.tool && (a.validates ==> now.inputs == a.identity.inputs)
  }

  /** One that merged passes in and then fails removes the cache. */
  function StepFinish(w: World, id: Id): World
    requires id in w.audits && w.timeline != []
  {
    var a := w.audits[id];
    if Holds(a, Now(w)) then w.(audits := w.audits[id := a.(status := Passed)])
    else w.(audits := w.audits[id := a.(status := Failed)], file := if a.published != {} then None else w.file)
  }

  function StepKill(w: World, id: Id): World
    requires id in w.audits
  {
    w.(audits := w.audits[id := w.audits[id].(status := Killed, stages := map[])],
       claims := map m | m in w.claims && w.claims[m] != id :: w.claims[m],
       lock := if w.lock.Some? && w.lock.value.0 == id then None else w.lock)
  }

  predicate CanMove(w: World, v: Move) {
    match v
    case Change(_) => true
    case Arrive(id, digests, cacheable, _) => id !in w.audits
    case Act(id, m, _) => id in w.audits && w.audits[id].status == Working && m in w.audits[id].stages
        && m in w.audits[id].digests
    case Finish(id) => id in w.audits && w.audits[id].status == Working && Settled(w.audits[id])
    case Kill(id) => id in w.audits && w.audits[id].status == Working
  }

  function After(w: World, v: Move): World
    requires w.timeline != [] && CanMove(w, v)
  {
    match v
    case Change(to) => w.(timeline := w.timeline + [to])
    case Arrive(id, digests, cacheable, validates) =>
      w.(audits := w.audits[id := Audit(Now(w), |w.timeline| - 1, digests, cacheable, validates,
                                        map m | m in digests :: Todo, {}, Working)])
    case Act(id, m, verdict) => Step(w, id, m, verdict)
    case Finish(id) => StepFinish(w, id)
    case Kill(id) => StepKill(w, id)
  }

  function Start(env: Identity): World {
    World([env], None, map[], None, map[], [])
  }

  ghost predicate Moves(v: World, w: World) {
    v.timeline != [] && exists m :: CanMove(v, m) && w == After(v, m)
  }

  ghost predicate ReachableIn(env: Identity, w: World, n: nat)
    decreases n
  {
    if n == 0 then w == Start(env) else exists v :: ReachableIn(env, v, n - 1) && Moves(v, w)
  }

  ghost predicate Reachable(w: World) {
    exists env, n: nat :: ReachableIn(env, w, n)
  }

  // --- Every pass there is was a run ---

  ghost predicate WasRun(runs: seq<Run>, identity: Identity, m: Module, d: Digest) {
    exists r :: r in runs && r.identity == identity && r.module_ == m && r.digest == d
  }

  ghost predicate AllRun(runs: seq<Run>, identity: Identity, passed: map<Module, Digest>) {
    forall m :: m in passed ==> WasRun(runs, identity, m, passed[m])
  }

  ghost predicate StageIsSound(runs: seq<Run>, a: Audit, m: Module, s: Stage) {
    && m in a.digests
    && (s.Passing? || s.Merging? || s.Loaded? || (s.Done? && s.reused) ==> WasRun(runs, a.identity, m, a.digests[m]))
    && (s.Loaded? ==> AllRun(runs, a.identity, s.passed))
  }

  /** Runs and audits are dated: each read its identity at its start, and a run is not before that. */
  ghost predicate IsDated(timeline: seq<Identity>, start: nat, at: nat, identity: Identity) {
    start <= at < |timeline| && timeline[start] == identity
  }

  ghost predicate Sound(w: World) {
    && w.timeline != []
    && (w.file.Some? ==> AllRun(w.runs, w.file.value.identity, w.file.value.passed))
    && (forall r :: r in w.runs ==> IsDated(w.timeline, r.start, r.at, r.identity))
    && (forall id :: id in w.audits ==> AuditIsSound(w, w.audits[id]))
  }

  ghost predicate AuditIsSound(w: World, a: Audit) {
    && a.start < |w.timeline| && w.timeline[a.start] == a.identity
    && forall m :: m in a.stages ==> StageIsSound(w.runs, a, m, a.stages[m])
  }

  /** Passes stay passes as more runs are recorded. */
  lemma SoundStays(v: World, w: World, a: Audit)
    requires AuditIsSound(v, a) && v.runs <= w.runs && v.timeline <= w.timeline
    ensures AuditIsSound(w, a)
  {
    forall m | m in a.stages
      ensures StageIsSound(w.runs, a, m, a.stages[m])
    {
      assert StageIsSound(v.runs, a, m, a.stages[m]);
      MoreRuns(v.runs, w.runs, a.identity, map[m := a.digests[m]]);
      if a.stages[m].Loaded? {
        MoreRuns(v.runs, w.runs, a.identity, a.stages[m].passed);
      }
    }
  }

  lemma MoreRuns(runs: seq<Run>, more: seq<Run>, identity: Identity, passed: map<Module, Digest>)
    requires runs <= more
    ensures forall m :: m in passed && WasRun(runs, identity, m, passed[m]) ==> WasRun(more, identity, m, passed[m])
  {
    assert forall r :: r in runs ==> r in more;
  }

  /** One worker's stage and its audit's published set change; the rest of the audits does not. */
  ghost predicate OnlyStage(w: World, next: World, id: Id, m: Module, s: Stage) {
    && id in w.audits && next.timeline == w.timeline && w.runs <= next.runs && id in next.audits
    && next.audits == w.audits[id := next.audits[id]]
    && next.audits[id] == w.audits[id].(stages := w.audits[id].stages[m := s], published := next.audits[id].published)
  }

  lemma StageKeepsAudits(w: World, next: World, id: Id, m: Module, s: Stage)
    requires Sound(w) && OnlyStage(w, next, id, m, s) && StageIsSound(next.runs, w.audits[id], m, s)
    ensures forall j :: j in next.audits ==> AuditIsSound(next, next.audits[j])
  {
    forall j | j in next.audits
      ensures AuditIsSound(next, next.audits[j])
    {
      SoundStays(w, next, w.audits[j]);
      forall k | k in next.audits[j].stages
        ensures StageIsSound(next.runs, next.audits[j], k, next.audits[j].stages[k])
      {
        assert (j == id && k == m) || StageIsSound(next.runs, w.audits[j], k, w.audits[j].stages[k]);
      }
    }
  }

  lemma StageKeepsSound(w: World, next: World, id: Id, m: Module, s: Stage)
    requires Sound(w) && OnlyStage(w, next, id, m, s) && StageIsSound(next.runs, w.audits[id], m, s)
    requires next.file == w.file && next.runs == w.runs
    ensures Sound(next)
  {
    StageKeepsAudits(w, next, id, m, s);
  }

  lemma LoadIsSound(w: World, a: Audit)
    requires Sound(w)
    ensures AllRun(w.runs, a.identity, Load(w.file, a))
  {
  }

  lemma CheckingKeepsSound(w: World, id: Id, m: Module, verdict: bool)
    requires Sound(w) && CanMove(w, Act(id, m, verdict)) && w.audits[id].stages[m].Checking?
    ensures Sound(StepChecking(w, id, m, verdict))
  {
    var a, next := w.audits[id], StepChecking(w, id, m, verdict);
    assert AuditIsSound(w, a);
    if verdict {
      var r := Run(m, a.digests[m], a.identity, a.start, |w.timeline| - 1);
      assert next.runs == w.runs + [r] && r in next.runs;
      StageKeepsAudits(w, next, id, m, Passing);
      if w.file.Some? {
        MoreRuns(w.runs, next.runs, w.file.value.identity, w.file.value.passed);
      }
    } else {
      StageKeepsSound(w, next, id, m, Done(false, false));
    }
  }

  lemma LoadedKeepsSound(w: World, id: Id, m: Module, passed: map<Module, Digest>)
    requires Sound(w) && id in w.audits && m in w.audits[id].stages && m in w.audits[id].digests
    requires w.audits[id].stages[m] == Loaded(passed)
    ensures Sound(StepLoaded(w, id, m, passed))
  {
    var a, next := w.audits[id], StepLoaded(w, id, m, passed);
    assert AuditIsSound(w, a) && StageIsSound(w.runs, a, m, a.stages[m]);
    StageKeepsAudits(w, next, id, m, Done(false, true));
  }

  lemma EarlyStepKeepsSound(w: World, id: Id, m: Module, verdict: bool)
    requires Sound(w) && CanMove(w, Act(id, m, verdict))
        && (w.audits[id].stages[m].Todo? || w.audits[id].stages[m].Claimed?)
    ensures Sound(Step(w, id, m, verdict))
  {
    hide Load, IsDated, AllRun, StageIsSound;
    var a, next := w.audits[id], Step(w, id, m, verdict);
    assert AuditIsSound(w, a) && StageIsSound(w.runs, a, m, a.stages[m]);
    LoadIsSound(w, a);
    if next != w {
      StageKeepsSound(w, next, id, m, next.audits[id].stages[m]);
    }
  }

  lemma MergingKeepsSound(w: World, id: Id, m: Module, verdict: bool)
    requires Sound(w) && CanMove(w, Act(id, m, verdict))
        && (w.audits[id].stages[m].Passing? || w.audits[id].stages[m].Merging?)
    ensures Sound(Step(w, id, m, verdict))
  {
    var a, next := w.audits[id], Step(w, id, m, verdict);
    assert AuditIsSound(w, a) && StageIsSound(w.runs, a, m, a.stages[m]);
    LoadIsSound(w, a);
    if next != w {
      StageKeepsSound(w, next, id, m, next.audits[id].stages[m]);
    }
  }

  lemma StepKeepsSound(w: World, id: Id, m: Module, verdict: bool)
    requires Sound(w) && CanMove(w, Act(id, m, verdict))
    ensures Sound(Step(w, id, m, verdict))
  {
    match w.audits[id].stages[m]
    case Todo => EarlyStepKeepsSound(w, id, m, verdict);
    case Claimed => EarlyStepKeepsSound(w, id, m, verdict);
    case Checking => CheckingKeepsSound(w, id, m, verdict);
    case Passing => MergingKeepsSound(w, id, m, verdict);
    case Merging => MergingKeepsSound(w, id, m, verdict);
    case Loaded(passed) => LoadedKeepsSound(w, id, m, passed);
    case Broken =>
    case Done(_, _) =>
  }

  lemma OtherMovesKeepSound(w: World, v: Move)
    requires Sound(w) && CanMove(w, v) && !v.Act?
    ensures Sound(After(w, v))
  {
    var next := After(w, v);
    forall j | j in next.audits
      ensures AuditIsSound(next, next.audits[j])
    {
      if j in w.audits {
        SoundStays(w, next, w.audits[j]);
      }
    }
  }

  lemma MoveKeepsSound(v: World, w: World)
    requires Sound(v) && Moves(v, w)
    ensures Sound(w)
  {
    var m :| CanMove(v, m) && w == After(v, m);
    if m.Act? {
      StepKeepsSound(v, m.id, m.m, m.verdict);
    } else {
      OtherMovesKeepSound(v, m);
    }
  }

  lemma {:induction false} ReachableIsSound(env: Identity, w: World, n: nat)
    requires ReachableIn(env, w, n)
    ensures Sound(w)
    decreases n
  {
    if n > 0 {
      var v :| ReachableIn(env, v, n - 1) && Moves(v, w);
      ReachableIsSound(env, v, n - 1);
      MoveKeepsSound(v, w);
    }
  }

  /** A reused verdict: some audit's checker passed on the same bytes, with the same tools and inputs as read. */
  lemma ReusedWasChecked(w: World, id: Id, m: Module)
    requires Reachable(w) && id in w.audits && m in w.audits[id].stages && m in w.audits[id].digests
    requires w.audits[id].stages[m].Done? && w.audits[id].stages[m].reused
    ensures WasRun(w.runs, w.audits[id].identity, m, w.audits[id].digests[m])
  {
    var env, n: nat :| ReachableIn(env, w, n);
    ReachableIsSound(env, w, n);
    assert AuditIsSound(w, w.audits[id]);
  }

  /** No environment comes back after a different one. */
  ghost predicate NoReturn(timeline: seq<Identity>) {
    forall i, j, k :: 0 <= i < j < k < |timeline| && timeline[i] == timeline[k] ==> timeline[j] == timeline[i]
  }

  /**
   And if no environment ever comes back, an audit that validates its inputs and passes reuses only verdicts
   of runs that really had its tools and inputs.
   */
  lemma ReusedRanInThisEnvironment(w: World, id: Id, m: Module)
    requires Reachable(w) && NoReturn(w.timeline) && CanMove(w, Finish(id)) && w.timeline != []
    requires Holds(w.audits[id], Now(w)) && w.audits[id].validates
    requires m in w.audits[id].stages && m in w.audits[id].digests && w.audits[id].stages[m] == Done(true, true)
    ensures exists r :: && r in w.runs && r.module_ == m && r.digest == w.audits[id].digests[m]
                        && r.at < |w.timeline| && w.timeline[r.at] == w.audits[id].identity
  {
    hide ReachableIn, Clashes, Step, After;
    ReusedWasChecked(w, id, m);
    var env, n: nat :| ReachableIn(env, w, n);
    ReachableIsSound(env, w, n);
    var a := w.audits[id];
    var r :| r in w.runs && r.identity == a.identity && r.module_ == m && r.digest == a.digests[m];
    StayedSince(w.timeline, r.start, r.at, r.identity);
  }

  lemma StayedSince(timeline: seq<Identity>, start: nat, at: nat, identity: Identity)
    requires NoReturn(timeline) && IsDated(timeline, start, at, identity) && timeline[|timeline| - 1] == identity
    ensures timeline[at] == identity
  {
    var last := |timeline| - 1;
    assert start < at < last ==> timeline[start] == timeline[last];
  }
}
