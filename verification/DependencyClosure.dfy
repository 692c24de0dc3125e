/**
 The functions a set of roots depends on: a breadth-first closure that expands only functions whose
 body was exported. What `Closure` computes is read off its log, the order in which it
 recorded names; indirect calls, boundaries and reference lists are not part of this model.
 */
module DependencyClosure {
  import opened Wrappers
  import opened Graphs

  /** A call; `worker` is a function it is given at compile time. */
  datatype Call = Call(target: string, noreturn: bool, worker: Option<string>)

  /** One function's references: its calls, then function values and functions in globals. */
  datatype Info = Info(calls: seq<Call>, names: seq<string>)

  datatype Model = Model(rejected: bool, versions: seq<string>)

  datatype Kind = PanicHandler | RejectedModel | NotQualified | AirConflict | StdModel | RegistryBinding | Air | NoAir

  /** What a closure is taken over. `key`, `base` and `handler` are the name rules it is given. */
  datatype Program = Program(functions: map<string, Info>, version: string, models: map<string, Model>,
                             registry: set<string>, key: string -> string, base: string -> string,
                                 handler: string -> bool)

  function Classify(p: Program, name: string, panic: bool): Kind {
    if panic then PanicHandler
    else if p.base(name) in p.models then
      var model := p.models[p.base(name)];
      if model.rejected then RejectedModel
      else if p.version !in model.versions then NotQualified
      else if p.key(name) in p.functions then AirConflict
      else StdModel
    else if name in p.registry then RegistryBinding
    else if p.key(name) in p.functions then Air
    else NoAir
  }

  /** The name's standard-library model, qualified or not, answers for it before anything else does. */
  ghost predicate HasModel(p: Program, name: string) {
    p.base(name) in p.models
  }

  ghost predicate IsQualified(p: Program, name: string) {
    HasModel(p, name) && !p.models[p.base(name)].rejected && p.version in p.models[p.base(name)].versions
  }

  /**
   What a name is, exactly: met as a panic handler that alone counts; a model counts if it is qualified and no body
   was exported beside it; without a model a registry binding goes before a body.
   */
  lemma KindsMean(p: Program, name: string, panic: bool)
    ensures var kind, body := Classify(p, name, panic), p.key(name) in p.functions;
            && (kind == PanicHandler <==> panic)
            && (kind == StdModel <==> !panic && IsQualified(p, name) && !body)
            && (kind == AirConflict <==> !panic && IsQualified(p, name) && body)
            && (kind == RejectedModel <==> !panic && HasModel(p, name) && p.models[p.base(name)].rejected)
            && (kind in {RejectedModel, NotQualified} <==> !panic && HasModel(p, name) && !IsQualified(p, name))
            && (kind == RegistryBinding <==> !panic && !HasModel(p, name) && name in p.registry)
            && (kind == Air <==> !panic && !HasModel(p, name) && name !in p.registry && body)
  {
  }

  type Nodes = map<string, Kind>

  // --- References ---

  /** A call refers to its callee; to a worker only if the callee is recorded without a body. */
  predicate CallRefers(p: Program, c: Call, nodes: Nodes, k: string, panic: bool) {
    if c.noreturn then panic && p.handler(c.target) && k == p.key(c.target)
    else !panic
         && (|| k == p.key(c.target)
             || (&& c.worker.Some? && k == p.key(c.worker.value)
                 && p.key(c.target) in nodes && nodes[p.key(c.target)] != Air))
  }

  ghost predicate Refers(p: Program, f: Info, nodes: Nodes, k: string, panic: bool) {
    || (exists c :: c in f.calls && CallRefers(p, c, nodes, k, panic))
    || (!panic && exists v :: v in f.names && k == p.key(v))
  }

  ghost predicate Covered(p: Program, f: Info, nodes: Nodes) {
    forall k, panic :: Refers(p, f, nodes, k, panic) ==> k in nodes
  }

  ghost predicate Extends(nodes: Nodes, more: Nodes) {
    forall k :: k in nodes ==> k in more && more[k] == nodes[k]
  }

  /** Once a function's references are recorded, later names add none. */
  lemma CoveredStays(p: Program, f: Info, nodes: Nodes, more: Nodes)
    requires Covered(p, f, nodes) && Extends(nodes, more)
    ensures Covered(p, f, more)
  {
    forall c | c in f.calls && !c.noreturn
      ensures p.key(c.target) in nodes
    {
      assert CallRefers(p, c, nodes, p.key(c.target), false);
      assert Refers(p, f, nodes, p.key(c.target), false);
    }
    forall k, panic | Refers(p, f, more, k, panic)
      ensures k in more
    {
      assert Refers(p, f, nodes, k, panic);
    }
  }

  // --- The log ---

  datatype Step = Step(name: string, caller: Option<string>, panic: bool)

  function NodesOf(p: Program, log: seq<Step>): Nodes {
    if log == [] then map[] else
      var last := log[|log| - 1];
      NodesOf(p, log[..|log| - 1])[last.name := Classify(p, last.name, last.panic)]
  }

  /** The recorded names with a body, in order. */
  function QueueOf(p: Program, log: seq<Step>): seq<string> {
    if log == [] then [] else
      var last := log[|log| - 1];
      QueueOf(p, log[..|log| - 1]) + (if Classify(p, last.name, last.panic) == Air then [last.name] else [])
  }

  function ParentsOf(log: seq<Step>): map<string, string> {
    if log == [] then map[] else
      var last := log[|log| - 1];
      var before := ParentsOf(log[..|log| - 1]);
      if last.caller.Some? then before[last.name := last.caller.value] else before
  }

  /** A step after these records a new name: a root's, or one that a recorded body refers to. */
  ghost predicate Justified(p: Program, roots: seq<string>, log: seq<Step>, s: Step) {
    var nodes := NodesOf(p, log);
    && s.name !in nodes
    && match s.caller
       case None => !s.panic && exists r :: r in roots && s.name == p.key(r)
       case Some(c) => c in nodes && nodes[c] == Air && p.key(c) in p.functions
                       && Refers(p, p.functions[p.key(c)], nodes, s.name, s.panic)
  }

  ghost predicate IsLog(p: Program, roots: seq<string>, log: seq<Step>) {
    log == [] || (IsLog(p, roots, log[..|log| - 1]) && Justified(p, roots, log[..|log| - 1], log[|log| - 1]))
  }

  /** All roots and all references of recorded bodies are recorded. */
  ghost predicate IsComplete(p: Program, roots: seq<string>, nodes: Nodes) {
    && (forall r :: r in roots ==> p.key(r) in nodes)
    && (forall c :: c in nodes && nodes[c] == Air ==>
        p.key(c) in p.functions && Covered(p, p.functions[p.key(c)], nodes))
  }

  lemma Logged(p: Program, log: seq<Step>, s: Step)
    ensures NodesOf(p, log + [s]) == NodesOf(p, log)[s.name := Classify(p, s.name, s.panic)]
    ensures QueueOf(p, log + [s]) == QueueOf(p, log) + (if Classify(p, s.name, s.panic) == Air then [s.name] else [])
    ensures ParentsOf(log + [s]) == if s.caller.Some? then ParentsOf(log)[s.name := s.caller.value] else ParentsOf(log)
  {
    assert (log + [s])[..|log|] == log;
  }

  lemma StillALog(p: Program, roots: seq<string>, log: seq<Step>, s: Step)
    requires IsLog(p, roots, log) && Justified(p, roots, log, s)
    ensures IsLog(p, roots, log + [s])
  {
    assert (log + [s])[..|log|] == log;
  }

  /** The queue holds every recorded body once. */
  lemma {:induction false} QueueIsTheBodies(p: Program, roots: seq<string>, log: seq<Step>)
    requires IsLog(p, roots, log)
    ensures Distinct(QueueOf(p, log))
    ensures forall k :: k in QueueOf(p, log) ==> k in NodesOf(p, log) && NodesOf(p, log)[k] == Air
    ensures forall k :: k in NodesOf(p, log) && NodesOf(p, log)[k] == Air ==> k in QueueOf(p, log)
    decreases |log|
  {
    if log != [] {
      QueueIsTheBodies(p, roots, log[..|log| - 1]);
    }
  }

  // --- Parents ---

  /** How early a name was recorded. */
  function Rank(p: Program, log: seq<Step>, k: string): nat
    requires k in NodesOf(p, log)
  {
    if log[|log| - 1].name == k then |log| else Rank(p, log[..|log| - 1], k)
  }

  ghost predicate RealEdge(p: Program, nodes: Nodes, c: string, k: string) {
    && c in nodes && nodes[c] == Air && p.key(c) in p.functions
    && exists panic :: Refers(p, p.functions[p.key(c)], nodes, k, panic)
  }

  lemma RefersStays(p: Program, f: Info, nodes: Nodes, more: Nodes, k: string, panic: bool)
    requires Refers(p, f, nodes, k, panic) && Extends(nodes, more)
    ensures Refers(p, f, more, k, panic)
  {
    if c :| c in f.calls && CallRefers(p, c, nodes, k, panic) {
      assert CallRefers(p, c, more, k, panic);
    }
  }

  lemma {:induction false} RankIsInTheLog(p: Program, log: seq<Step>, k: string)
    requires k in NodesOf(p, log)
    ensures Rank(p, log, k) <= |log|
    decreases |log|
  {
    if log[|log| - 1].name != k {
      RankIsInTheLog(p, log[..|log| - 1], k);
    }
  }

  /** A recorded name is a root's, or its parent was recorded before it and refers to it. */
  lemma {:induction false} ParentsAreReal(p: Program, roots: seq<string>, log: seq<Step>, k: string)
    requires IsLog(p, roots, log) && k in NodesOf(p, log)
    ensures k !in ParentsOf(log) ==> exists r :: r in roots && k == p.key(r)
    ensures k in ParentsOf(log) ==>
              var c := ParentsOf(log)[k];
              RealEdge(p, NodesOf(p, log), c, k) && Rank(p, log, c) < Rank(p, log, k)
    decreases |log|
  {
    var n := |log| - 1;
    var last, before := log[n], log[..n];
    if last.name == k {
      NoParentYet(p, roots, before, k);
      if last.caller.Some? {
        RefersStays(p, p.functions[p.key(last.caller.value)], NodesOf(p, before), NodesOf(p, log), k, last.panic);
        RankIsInTheLog(p, before, last.caller.value);
      }
    } else {
      ParentsAreReal(p, roots, before, k);
      if k in ParentsOf(before) {
        var c := ParentsOf(before)[k];
        var panic :| Refers(p, p.functions[p.key(c)], NodesOf(p, before), k, panic);
        RefersStays(p, p.functions[p.key(c)], NodesOf(p, before), NodesOf(p, log), k, panic);
      }
    }
  }

  lemma {:induction false} NoParentYet(p: Program, roots: seq<string>, log: seq<Step>, k: string)
    requires IsLog(p, roots, log) && k !in NodesOf(p, log)
    ensures k !in ParentsOf(log)
    decreases |log|
  {
    if log != [] {
      NoParentYet(p, roots, log[..|log| - 1], k);
    }
  }

  // --- The order of a run ---

  /** The log after a visit, if the name is new. */
  function Visited(p: Program, log: seq<Step>, caller: Option<string>, name: string, panic: bool): seq<Step> {
    if p.key(name) in NodesOf(p, log) then log else log + [Step(p.key(name), caller, panic)]
  }

  /** The first n roots. */
  function RootsVisited(p: Program, roots: seq<string>, n: nat): seq<Step>
    requires n <= |roots|
  {
    if n == 0 then [] else Visited(p, RootsVisited(p, roots, n - 1), None, roots[n - 1], false)
  }

  /** A call that never returns is visited only as a panic handler; a worker only if its spawner has no body. */
  function CallVisited(p: Program, log: seq<Step>, caller: string, c: Call): seq<Step> {
    if c.noreturn then
      if p.handler(c.target) then Visited(p, log, Some(caller), c.target, true) else log
    else
      var more := Visited(p, log, Some(caller), c.target, false);
      var nodes := NodesOf(p, more);
      if c.worker.Some? && p.key(c.target) in nodes && nodes[p.key(c.target)] != Air
      then Visited(p, more, Some(caller), c.worker.value, false)
      else more
  }

  function CallsVisited(p: Program, log: seq<Step>, caller: string, calls: seq<Call>, n: nat): seq<Step>
    requires n <= |calls|
  {
    if n == 0 then log else CallVisited(p, CallsVisited(p, log, caller, calls, n - 1), caller, calls[n - 1])
  }

  function NamesVisited(p: Program, log: seq<Step>, caller: string, names: seq<string>, n: nat): seq<Step>
    requires n <= |names|
  {
    if n == 0 then log else Visited(p, NamesVisited(p, log, caller, names, n - 1), Some(caller), names[n - 1], false)
  }

  /** A body's calls in order, then the other functions it names. */
  function BodyVisited(p: Program, log: seq<Step>, caller: string): seq<Step> {
    if p.key(caller) !in p.functions then log else
      var f := p.functions[p.key(caller)];
      NamesVisited(p, CallsVisited(p, log, caller, f.calls, |f.calls|), caller, f.names, |f.names|)
  }

  /** The log of a run that has expanded the first n bodies of its queue. */
  function RunLog(p: Program, roots: seq<string>, n: nat): seq<Step> {
    if n == 0 then RootsVisited(p, roots, |roots|) else
      var log := RunLog(p, roots, n - 1);
      var queue := QueueOf(p, log);
      if n - 1 < |queue| then BodyVisited(p, log, queue[n - 1]) else log
  }

  ghost predicate IsRunLog(p: Program, roots: seq<string>, log: seq<Step>, n: nat) {
    log == RunLog(p, roots, n)
  }

  lemma EmptyLog(p: Program, roots: seq<string>)
    ensures IsLog(p, roots, []) && NodesOf(p, []) == map[] && QueueOf(p, []) == [] && ParentsOf([]) == map[]
  {
  }

  lemma RunStarts(p: Program, roots: seq<string>)
    ensures IsRunLog(p, roots, RootsVisited(p, roots, |roots|), 0)
  {
  }

  lemma RunGoesOn(p: Program, roots: seq<string>, log: seq<Step>, queue: seq<string>, n: nat)
    requires IsRunLog(p, roots, log, n) && queue == QueueOf(p, log) && n < |queue|
    ensures IsRunLog(p, roots, BodyVisited(p, log, queue[n]), n + 1)
  {
  }

  // --- The closure ---

  class Closure {
    const program: Program
    var nodes: Nodes
    var parent: map<string, string>
    ghost var log: seq<Step>

    constructor (p: Program)
      ensures program == p && nodes == map[] && parent == map[] && log == []
    {
      program, nodes, parent, log := p, map[], map[], [];
    }

    ghost predicate Valid(roots: seq<string>)
      reads this
    {
      IsLog(program, roots, log) && nodes == NodesOf(program, log) && parent == ParentsOf(log)
    }

    /** Records a name when it is first met; a name with a body joins the queue then. */
    method Visit(caller: Option<string>, name: string, queue: seq<string>, panic: bool, ghost roots: seq<string>)
      returns (queue': seq<string>)
      requires Valid(roots) && queue == QueueOf(program, log)
      requires program.key(name) !in nodes ==> Justified(program, roots, log, Step(program.key(name), caller, panic))
      modifies this
      ensures Valid(roots) && queue' == QueueOf(program, log) && queue <= queue'
      ensures program.key(name) in nodes && Extends(old(nodes), nodes)
      ensures log == Visited(program, old(log), caller, name, panic)
    {
      hide NodesOf, QueueOf, ParentsOf, IsLog;
      var k := program.key(name);
      queue' := queue;
      if k !in nodes {
        var kind := Classify(program, k, panic);
        nodes := nodes[k := kind];
        if caller.Some? {
          parent := parent[k := caller.value];
        }
        if kind == Air {
          queue' := queue' + [k];
        }
        Logged(program, log, Step(k, caller, panic));
        StillALog(program, roots, log, Step(k, caller, panic));
        log := log + [Step(k, caller, panic)];
      }
    }

    ghost predicate Expands(caller: string, info: Info)
      reads this
    {
      && caller in nodes && nodes[caller] == Air
      && program.key(caller) in program.functions && info == program.functions[program.key(caller)]
    }

    /** A call's references; one that never returns and is no panic handler has none. */
    method VisitCall(caller: string, info: Info, call: Call, queue: seq<string>, ghost roots: seq<string>)
      returns (queue': seq<string>)
      requires Valid(roots) && queue == QueueOf(program, log) && Expands(caller, info) && call in info.calls
      modifies this
      ensures Valid(roots) && queue' == QueueOf(program, log) && queue <= queue' && Expands(caller, info)
      ensures Extends(old(nodes), nodes) && Covered(program, Info([call], []), nodes)
      ensures log == CallVisited(program, old(log), caller, call)
    {
      queue' := queue;
      if call.noreturn {
        if program.handler(call.target) {
          CallIsAReference(program, info, call, nodes, program.key(call.target), true);
          queue' := Visit(Some(caller), call.target, queue, true, roots);
        }
      } else {
        CallIsAReference(program, info, call, nodes, program.key(call.target), false);
        queue' := Visit(Some(caller), call.target, queue, false, roots);
        if call.worker.Some? && nodes[program.key(call.target)] != Air {
          CallIsAReference(program, info, call, nodes, program.key(call.worker.value), false);
          queue' := Visit(Some(caller), call.worker.value, queue', false, roots);
        }
      }
      OneCallCovered(program, call, nodes);
    }

    ghost predicate CallsCovered(info: Info, i: nat)
      reads this
    {
      i <= |info.calls| && forall j :: 0 <= j < i ==> Covered(program, Info([info.calls[j]], []), nodes)
    }

    method ExpandCalls(caller: string, info: Info, queue: seq<string>, ghost roots: seq<string>)
        returns (queue': seq<string>)
      requires Valid(roots) && queue == QueueOf(program, log) && Expands(caller, info)
      modifies this
      ensures Valid(roots) && queue' == QueueOf(program, log) && queue <= queue' && Expands(caller, info)
      ensures Extends(old(nodes), nodes) && CallsCovered(info, |info.calls|)
      ensures log == CallsVisited(program, old(log), caller, info.calls, |info.calls|)
    {
      hide NodesOf, QueueOf, ParentsOf, IsLog;
      queue' := queue;
      for i := 0 to |info.calls|
        invariant Valid(roots) && queue' == QueueOf(program, log) && queue <= queue'
        invariant Extends(old(nodes), nodes) && Expands(caller, info) && CallsCovered(info, i)
        invariant log == CallsVisited(program, old(log), caller, info.calls, i)
      {
        ghost var before := nodes;
        queue' := VisitCall(caller, info, info.calls[i], queue', roots);
        CallsStayCovered(info, i, before);
      }
    }

    lemma CallsStayCovered(info: Info, i: nat, before: Nodes)
      requires i <= |info.calls| && Extends(before, nodes)
      requires forall j :: 0 <= j < i ==> Covered(program, Info([info.calls[j]], []), before)
      ensures CallsCovered(info, i)
    {
      forall j | 0 <= j < i
        ensures Covered(program, Info([info.calls[j]], []), nodes)
      {
        CoveredStays(program, Info([info.calls[j]], []), before, nodes);
      }
    }

    method ExpandNames(caller: string, info: Info, queue: seq<string>, ghost roots: seq<string>)
        returns (queue': seq<string>)
      requires Valid(roots) && queue == QueueOf(program, log) && Expands(caller, info)
      modifies this
      ensures Valid(roots) && queue' == QueueOf(program, log) && queue <= queue'
      ensures Extends(old(nodes), nodes) && forall j :: 0 <= j < |info.names| ==> program.key(info.names[j]) in nodes
      ensures log == NamesVisited(program, old(log), caller, info.names, |info.names|)
    {
      hide NodesOf, QueueOf, ParentsOf, IsLog;
      queue' := queue;
      for i := 0 to |info.names|
        invariant Valid(roots) && queue' == QueueOf(program, log) && queue <= queue'
        invariant Extends(old(nodes), nodes) && Expands(caller, info)
        invariant forall j :: 0 <= j < i ==> program.key(info.names[j]) in nodes
        invariant log == NamesVisited(program, old(log), caller, info.names, i)
      {
        assert Refers(program, info, nodes, program.key(info.names[i]), false);
        queue' := Visit(Some(caller), info.names[i], queue', false, roots);
      }
    }

    /** A body's references: its calls in order, then the other functions it names. */
    method Expand(caller: string, queue: seq<string>, ghost roots: seq<string>) returns (queue': seq<string>)
      requires Valid(roots) && queue == QueueOf(program, log) && caller in nodes && nodes[caller] == Air
      requires program.key(caller) in program.functions
      modifies this
      ensures Valid(roots) && queue' == QueueOf(program, log) && queue <= queue'
      ensures Extends(old(nodes), nodes) && Covered(program, program.functions[program.key(caller)], nodes)
      ensures log == BodyVisited(program, old(log), caller)
    {
      var info := program.functions[program.key(caller)];
      queue' := ExpandCalls(caller, info, queue, roots);
      ghost var called := nodes;
      queue' := ExpandNames(caller, info, queue', roots);
      CallsStayCovered(info, |info.calls|, called);
      AllCovered(program, info, nodes);
    }

    method VisitRoots(roots: seq<string>) returns (queue: seq<string>)
      requires nodes == map[] && parent == map[] && log == []
      modifies this
      ensures Valid(roots) && queue == QueueOf(program, log) && log == RootsVisited(program, roots, |roots|)
      ensures forall r :: r in roots ==> program.key(r) in nodes
    {
      hide NodesOf, QueueOf, ParentsOf, IsLog;
      queue := [];
      EmptyLog(program, roots);
      for i := 0 to |roots|
        invariant Valid(roots) && queue == QueueOf(program, log) && log == RootsVisited(program, roots, i)
        invariant forall j :: 0 <= j < i ==> program.key(roots[j]) in nodes
      {
        queue := Visit(None, roots[i], queue, false, roots);
      }
    }

    /** Every recorded body is expanded once, in the order it was met. */
    method Run(roots: seq<string>) returns (expanded: seq<string>)
      requires nodes == map[] && parent == map[] && log == []
      modifies this
      ensures Valid(roots) && IsComplete(program, roots, nodes) && expanded == QueueOf(program, log)
      ensures Distinct(expanded) && IsRunLog(program, roots, log, |expanded|)
      ensures forall k :: k in nodes && nodes[k] == Air ==> k in expanded
      ensures forall k :: k in expanded ==> k in nodes && nodes[k] == Air
    {
      hide NodesOf, QueueOf, ParentsOf, IsLog, IsRunLog, RunLog, Covered, Unexpanded;
      var queue := VisitRoots(roots);
      RunStarts(program, roots);
      var cursor := 0;
      while cursor < |queue|
        invariant Valid(roots) && queue == QueueOf(program, log) && cursor <= |queue|
        invariant forall r :: r in roots ==> program.key(r) in nodes
        invariant forall j :: 0 <= j < cursor ==> IsExpanded(queue[j])
        invariant IsRunLog(program, roots, log, cursor)
        decreases Unexpanded(program, roots, queue, cursor)
      {
        queue := ExpandNext(queue, cursor, roots);
        cursor := cursor + 1;
      }
      QueueIsTheBodies(program, roots, log);
      expanded := queue;
    }

    /** From a root down to the name, each step recorded because the one before refers to it. */
    ghost predicate IsChain(roots: seq<string>, path: seq<string>)
      reads this
    {
      && path != []
      && (exists r :: r in roots && path[0] == program.key(r))
      && forall i :: 0 <= i < |path| - 1 ==> IsLink(path[i], path[i + 1])
    }

    ghost predicate IsLink(c: string, k: string)
      reads this
    {
      k in parent && parent[k] == c && RealEdge(program, nodes, c, k)
    }

    /** Why a name was recorded. */
    method Chain(name: string, ghost roots: seq<string>) returns (path: seq<string>)
      requires Valid(roots) && name in nodes
      ensures IsChain(roots, path) && path[|path| - 1] == name && path[0] !in parent
    {
      var at := name;
      path := [name];
      while at in parent
        invariant at in nodes && path != [] && path[0] == at && path[|path| - 1] == name
        invariant forall i :: 0 <= i < |path| - 1 ==> IsLink(path[i], path[i + 1])
        decreases Rank(program, log, at)
      {
        ParentsAreReal(program, roots, log, at);
        ghost var before := path;
        at := parent[at];
        path := [at] + path;
        forall i | 0 <= i < |path| - 1
          ensures IsLink(path[i], path[i + 1])
        {
          assert i > 0 ==> IsLink(before[i - 1], before[i]);
        }
      }
      ParentsAreReal(program, roots, log, at);
    }

    ghost predicate IsExpanded(k: string)
      reads this
    {
      program.key(k) in program.functions && Covered(program, program.functions[program.key(k)], nodes)
    }

    method ExpandNext(queue: seq<string>, cursor: nat, ghost roots: seq<string>) returns (queue': seq<string>)
      requires Valid(roots) && queue == QueueOf(program, log) && cursor < |queue|
      requires IsRunLog(program, roots, log, cursor) && forall j :: 0 <= j < cursor ==> IsExpanded(queue[j])
      modifies this
      ensures Valid(roots) && queue' == QueueOf(program, log) && queue <= queue' && Extends(old(nodes), nodes)
      ensures forall j :: 0 <= j <= cursor ==> IsExpanded(queue[j])
      ensures IsRunLog(program, roots, log, cursor + 1)
      ensures Unexpanded(program, roots, queue', cursor + 1) < Unexpanded(program, roots, queue, cursor)
    {
      RunGoesOn(program, roots, log, queue, cursor);
      QueueIsTheBodies(program, roots, log);
      var caller := queue[cursor];
      NodesAreClassified(program, log, caller);
      ghost var before := nodes;
      queue' := Expand(caller, queue, roots);
      forall j | 0 <= j < cursor
        ensures IsExpanded(queue[j])
      {
        CoveredStays(program, program.functions[program.key(queue[j])], before, nodes);
      }
      OneMoreExpanded(program, roots, log, queue', cursor);
      assert queue'[..cursor] == queue[..cursor];
    }
  }

  lemma CallIsAReference(p: Program, f: Info, c: Call, nodes: Nodes, k: string, panic: bool)
    requires c in f.calls && CallRefers(p, c, nodes, k, panic)
    ensures Refers(p, f, nodes, k, panic)
  {
  }

  lemma OneCallCovered(p: Program, c: Call, nodes: Nodes)
    requires c.noreturn && p.handler(c.target) ==> p.key(c.target) in nodes
    requires !c.noreturn ==> p.key(c.target) in nodes
    requires !c.noreturn && c.worker.Some? && nodes[p.key(c.target)] != Air ==> p.key(c.worker.value) in nodes
    ensures Covered(p, Info([c], []), nodes)
  {
  }

  lemma {:induction false} NodesAreClassified(p: Program, log: seq<Step>, k: string)
    requires k in NodesOf(p, log)
    ensures exists panic :: NodesOf(p, log)[k] == Classify(p, k, panic)
    decreases |log|
  {
    if log[|log| - 1].name != k {
      NodesAreClassified(p, log[..|log| - 1], k);
    }
  }

  // --- Every name a closure can record is mentioned somewhere ---

  ghost function Mentioned(p: Program, roots: seq<string>): set<string> {
    (set r | r in roots :: p.key(r))
    + (set f, c | f in p.functions && c in p.functions[f].calls :: p.key(c.target))
    + (set f, c | f in p.functions && c in p.functions[f].calls && c.worker.Some? :: p.key(c.worker.value))
    + (set f, v | f in p.functions && v in p.functions[f].names :: p.key(v))
  }

  lemma {:induction false} RecordedIsMentioned(p: Program, roots: seq<string>, log: seq<Step>)
    requires IsLog(p, roots, log)
    ensures NodesOf(p, log).Keys <= Mentioned(p, roots)
    decreases |log|
  {
    if log != [] {
      RecordedIsMentioned(p, roots, log[..|log| - 1]);
    }
  }

  ghost function Unexpanded(p: Program, roots: seq<string>, queue: seq<string>, n: nat): set<string>
    requires n <= |queue|
  {
    Mentioned(p, roots) - Elements(queue[..n])
  }

  lemma OneMoreExpanded(p: Program, roots: seq<string>, log: seq<Step>, queue: seq<string>, cursor: nat)
    requires IsLog(p, roots, log) && queue == QueueOf(p, log) && cursor < |queue|
    ensures Unexpanded(p, roots, queue, cursor + 1) < Unexpanded(p, roots, queue, cursor)
  {
    QueueIsTheBodies(p, roots, log);
    RecordedIsMentioned(p, roots, log);
    var k := queue[cursor];
    assert k in queue && k in Mentioned(p, roots);
    assert k in queue[..cursor + 1] by { assert queue[..cursor + 1][cursor] == k; }
    assert k !in queue[..cursor];
    assert Elements(queue[..cursor]) <= Elements(queue[..cursor + 1]);
    assert k in Mentioned(p, roots) - Elements(queue[..cursor]);
  }

  lemma AllCovered(p: Program, f: Info, nodes: Nodes)
    requires forall j :: 0 <= j < |f.calls| ==> Covered(p, Info([f.calls[j]], []), nodes)
    requires forall j :: 0 <= j < |f.names| ==> p.key(f.names[j]) in nodes
    ensures Covered(p, f, nodes)
  {
    forall k, panic | Refers(p, f, nodes, k, panic)
      ensures k in nodes
    {
      if c :| c in f.calls && CallRefers(p, c, nodes, k, panic) {
        var j :| 0 <= j < |f.calls| && f.calls[j] == c;
        assert c in [f.calls[j]];
        assert Refers(p, Info([f.calls[j]], []), nodes, k, panic);
      }
    }
  }

  // --- The least closure ---

  /** A name with the way it is reached: as a panic handler or otherwise. */
  type Occurrence = (string, bool)

  predicate CallAlwaysRefers(p: Program, c: Call, k: string, panic: bool) {
    if c.noreturn then panic && p.handler(c.target) && k == p.key(c.target)
    else !panic
         && (|| k == p.key(c.target)
             || (c.worker.Some? && k == p.key(c.worker.value) && Classify(p, p.key(c.target), false) != Air))
  }

  /** What a body refers to, whatever was recorded before. */
  ghost predicate AlwaysRefers(p: Program, f: Info, k: string, panic: bool) {
    || (exists c :: c in f.calls && CallAlwaysRefers(p, c, k, panic))
    || (!panic && exists v :: v in f.names && k == p.key(v))
  }

  ghost predicate HoldsReferences(p: Program, k: string, s: set<Occurrence>) {
    (k, false) in s && Classify(p, k, false) == Air ==>
      forall j, panic :: AlwaysRefers(p, p.functions[p.key(k)], j, panic) ==> (j, panic) in s
  }

  /** It holds the roots and what the bodies in it refer to. */
  ghost predicate IsClosure(p: Program, roots: seq<string>, s: set<Occurrence>) {
    && (forall r :: r in roots ==> (p.key(r), false) in s)
    && forall k :: HoldsReferences(p, k, s)
  }

  /** No name is reached both as a panic handler and otherwise. */
  ghost predicate Unmixed(s: set<Occurrence>) {
    forall k :: !((k, true) in s && (k, false) in s)
  }

  ghost function Recorded(log: seq<Step>): set<Occurrence> {
    set s | s in log :: (s.name, s.panic)
  }

  lemma {:induction false} RecordedAsClassified(p: Program, roots: seq<string>, log: seq<Step>, k: string, panic: bool)
    requires IsLog(p, roots, log)
    ensures (k, panic) in Recorded(log) <==> k in NodesOf(p, log) && panic == (NodesOf(p, log)[k] == PanicHandler)
    ensures k in NodesOf(p, log) ==> NodesOf(p, log)[k] == Classify(p, k, NodesOf(p, log)[k] == PanicHandler)
    decreases |log|
  {
    if log != [] {
      var n := |log| - 1;
      RecordedAsClassified(p, roots, log[..n], k, panic);
      assert log == log[..n] + [log[n]];
      RecordedGrows(log[..n], log[n]);
      RecordedLast(p, roots, log[..n], log[n], k, panic);
    }
  }

  lemma RecordedGrows(log: seq<Step>, s: Step)
    ensures Recorded(log + [s]) == Recorded(log) + {(s.name, s.panic)}
  {
  }

  lemma RecordedLast(p: Program, roots: seq<string>, log: seq<Step>, s: Step, k: string, panic: bool)
    requires IsLog(p, roots, log) && Justified(p, roots, log, s)
    requires (k, panic) in Recorded(log) <==> k in NodesOf(p, log) && panic == (NodesOf(p, log)[k] == PanicHandler)
    ensures var nodes := NodesOf(p, log + [s]);
            (k, panic) in Recorded(log) + {(s.name, s.panic)} <==> k in nodes && panic == (nodes[k] == PanicHandler)
  {
    Logged(p, log, s);
  }

  /** Inside a closure without mixed names, what is recorded as a reference always is one. */
  lemma RefersIsStatic(p: Program, roots: seq<string>, log: seq<Step>, t: set<Occurrence>, c: string, k: string,
      panic: bool)
    requires IsLog(p, roots, log) && IsClosure(p, roots, t) && Unmixed(t) && Recorded(log) <= t
    requires c in NodesOf(p, log) && NodesOf(p, log)[c] == Air && p.key(c) in p.functions
    requires Refers(p, p.functions[p.key(c)], NodesOf(p, log), k, panic)
    ensures (c, false) in t && AlwaysRefers(p, p.functions[p.key(c)], k, panic) && (k, panic) in t
  {
    var f := p.functions[p.key(c)];
    RecordedAsClassified(p, roots, log, c, false);
    assert HoldsReferences(p, c, t);
    if call :| call in f.calls && CallRefers(p, call, NodesOf(p, log), k, panic) {
      var target := p.key(call.target);
      if !call.noreturn && target in NodesOf(p, log) {
        assert CallAlwaysRefers(p, call, target, false);
        assert AlwaysRefers(p, f, target, false);
        RecordedAsClassified(p, roots, log, target, true);
      }
      assert CallAlwaysRefers(p, call, k, panic);
    }
  }

  /** A log records nothing outside a closure without mixed names. */
  lemma {:induction false} RecordedInside(p: Program, roots: seq<string>, log: seq<Step>, t: set<Occurrence>)
    requires IsLog(p, roots, log) && IsClosure(p, roots, t) && Unmixed(t)
    ensures Recorded(log) <= t
    decreases |log|
  {
    if log != [] {
      var n := |log| - 1;
      var last, before := log[n], log[..n];
      RecordedInside(p, roots, before, t);
      assert log == before + [last];
      if last.caller.Some? {
        RefersIsStatic(p, roots, before, t, last.caller.value, last.name, last.panic);
      }
    }
  }

  /** And what a complete log records is itself a closure. */
  lemma RecordedIsClosure(p: Program, roots: seq<string>, log: seq<Step>, t: set<Occurrence>)
    requires IsLog(p, roots, log) && IsComplete(p, roots, NodesOf(p, log)) && IsClosure(p, roots, t) && Unmixed(t)
    ensures IsClosure(p, roots, Recorded(log))
  {
    RecordedInside(p, roots, log, t);
    forall r | r in roots
      ensures (p.key(r), false) in Recorded(log)
    {
      RecordedAsClassified(p, roots, log, p.key(r), true);
      RecordedAsClassified(p, roots, log, p.key(r), false);
    }
    forall k
      ensures HoldsReferences(p, k, Recorded(log))
    {
      if (k, false) in Recorded(log) && Classify(p, k, false) == Air {
        RecordedAsClassified(p, roots, log, k, false);
        forall j, panic | AlwaysRefers(p, p.functions[p.key(k)], j, panic)
          ensures (j, panic) in Recorded(log)
        {
          ReferenceIsRecorded(p, roots, log, t, k, j, panic);
        }
      }
    }
  }

  lemma ReferenceIsRecorded(p: Program, roots: seq<string>, log: seq<Step>, t: set<Occurrence>, k: string, j: string,
      panic: bool)
    requires IsLog(p, roots, log) && IsComplete(p, roots, NodesOf(p, log)) && IsClosure(p, roots, t) && Unmixed(t)
    requires Recorded(log) <= t && (k, false) in Recorded(log) && k in NodesOf(p, log) && NodesOf(p, log)[k] == Air
    requires Classify(p, k, false) == Air && AlwaysRefers(p, p.functions[p.key(k)], j, panic)
    ensures (j, panic) in Recorded(log)
  {
    var f, nodes := p.functions[p.key(k)], NodesOf(p, log);
    assert HoldsReferences(p, k, t) && (j, panic) in t;
    if c :| c in f.calls && CallAlwaysRefers(p, c, j, panic) {
      var target := p.key(c.target);
      if !c.noreturn {
        CallIsAReference(p, f, c, nodes, target, false);
        assert CallAlwaysRefers(p, c, target, false) && AlwaysRefers(p, f, target, false);
        RecordedAsClassified(p, roots, log, target, true);
      }
      assert CallRefers(p, c, nodes, j, panic);
    }
    assert Refers(p, f, nodes, j, panic);
    RecordedAsClassified(p, roots, log, j, !panic);
    RecordedAsClassified(p, roots, log, j, panic);
  }

  /** Every closure holds it. */
  ghost predicate IsReached(p: Program, roots: seq<string>, o: Occurrence) {
    forall t :: IsClosure(p, roots, t) ==> o in t
  }

  ghost function Everything(p: Program, roots: seq<string>): set<Occurrence> {
    set k, panic | k in Mentioned(p, roots) && panic in {false, true} :: (k, panic)
  }

  /** What is reached: the least closure. */
  ghost function Reached(p: Program, roots: seq<string>): set<Occurrence> {
    set o | o in Everything(p, roots) && IsReached(p, roots, o)
  }

  lemma ReferencesAreMentioned(p: Program, roots: seq<string>, k: string, j: string, panic: bool)
    requires k in p.functions && AlwaysRefers(p, p.functions[k], j, panic)
    ensures (j, panic) in Everything(p, roots)
  {
    assert j in Mentioned(p, roots);
  }

  lemma EverythingIsClosure(p: Program, roots: seq<string>)
    ensures IsClosure(p, roots, Everything(p, roots))
  {
    forall k
      ensures HoldsReferences(p, k, Everything(p, roots))
    {
      if Classify(p, k, false) == Air {
        forall j, panic | AlwaysRefers(p, p.functions[p.key(k)], j, panic)
          ensures (j, panic) in Everything(p, roots)
        {
          ReferencesAreMentioned(p, roots, p.key(k), j, panic);
        }
      }
    }
  }

  lemma ReachedIsClosure(p: Program, roots: seq<string>)
    ensures IsClosure(p, roots, Reached(p, roots))
    ensures forall t :: IsClosure(p, roots, t) ==> Reached(p, roots) <= t
  {
    EverythingIsClosure(p, roots);
    forall k
      ensures HoldsReferences(p, k, Reached(p, roots))
    {
      forall j, panic, t | HoldsReferences(p, k, t) && IsReached(p, roots, (k, false)) && IsClosure(p, roots, t)
                           && Classify(p, k, false) == Air && AlwaysRefers(p, p.functions[p.key(k)], j, panic)
        ensures (j, panic) in t
      {
      }
      assert HoldsReferences(p, k, Everything(p, roots));
    }
  }

  /** A name is recorded one way only. */
  lemma RecordedIsUnmixed(p: Program, roots: seq<string>, log: seq<Step>)
    requires IsLog(p, roots, log)
    ensures Unmixed(Recorded(log))
  {
    forall k
      ensures !((k, true) in Recorded(log) && (k, false) in Recorded(log))
    {
      RecordedAsClassified(p, roots, log, k, true);
      RecordedAsClassified(p, roots, log, k, false);
    }
  }

  /**
   What a complete log records is what is reached (the roots, what their bodies refer to, and so on, nothing
   else) exactly if no name is reached both as a panic handler and otherwise; else it is no closure at all.
   */
  lemma ClosureIsLeast(p: Program, roots: seq<string>, log: seq<Step>)
    requires IsLog(p, roots, log) && IsComplete(p, roots, NodesOf(p, log))
    ensures Recorded(log) == Reached(p, roots) <==> Unmixed(Reached(p, roots))
    ensures IsClosure(p, roots, Recorded(log)) <==> Unmixed(Reached(p, roots))
  {
    ReachedIsClosure(p, roots);
    RecordedIsUnmixed(p, roots, log);
    if Unmixed(Reached(p, roots)) {
      RecordedIsClosure(p, roots, log, Reached(p, roots));
      RecordedInside(p, roots, log, Reached(p, roots));
    }
  }

  // --- Mixed names ---

  /** `main` calls `h` as a panic handler and as a function; `h` has a body that refers to `x`. */
  function Mixed(): Program {
    Program(map["main" := Info([Call("h", true, None), Call("h", false, None)], []), "h" := Info([], ["x"])], "",
        map[], {},
            k => k, k => k, k => k == "h")
  }

  const MAIN := Step("main", None, false)
  const HANDLER := Step("h", Some("main"), true)

  lemma {:induction false} MixedRun(n: nat)
    ensures RunLog(Mixed(), ["main"], n) == if n == 0 then [MAIN] else [MAIN, HANDLER]
    decreases n
  {
    hide QueueOf, BodyVisited, Classify;
    var p := Mixed();
    if n == 0 {
      assert RootsVisited(p, ["main"], 1) == Visited(p, [], None, "main", false);
    } else {
      MixedRun(n - 1);
      MixedQueue();
      MixedExpands();
      hide NodesOf, QueueOf, BodyVisited;
    }
  }

  lemma MixedQueue()
    ensures NodesOf(Mixed(), [MAIN]) == map["main" := Air] && QueueOf(Mixed(), [MAIN]) == ["main"]
    ensures NodesOf(Mixed(), [MAIN, HANDLER]) == map["main" := Air, "h" := PanicHandler]
    ensures QueueOf(Mixed(), [MAIN, HANDLER]) == ["main"]
  {
    Logged(Mixed(), [], MAIN);
    Logged(Mixed(), [MAIN], HANDLER);
    assert [] + [MAIN] == [MAIN] && [MAIN] + [HANDLER] == [MAIN, HANDLER];
  }

  lemma MixedExpands()
    ensures BodyVisited(Mixed(), [MAIN], "main") == [MAIN, HANDLER]
  {
    var p := Mixed();
    var calls := p.functions["main"].calls;
    MixedQueue();
    assert CallsVisited(p, [MAIN], "main", calls, 1) == CallVisited(p, [MAIN], "main", calls[0]) == [MAIN] + [HANDLER];
    assert CallsVisited(p, [MAIN], "main", calls, 2) == CallVisited(p, [MAIN, HANDLER], "main", calls[1]);
  }

  /**
   A run that misses a name: met first as a panic handler, `h` is recorded without its body, and `x`, which is
   reached, never is, however far the run goes.
   */
  lemma MixedNamesAreMissed(n: nat)
    ensures ("x", false) in Reached(Mixed(), ["main"]) && "x" !in NodesOf(Mixed(), RunLog(Mixed(), ["main"], n))
  {
    var p := Mixed();
    MixedRun(n);
    MixedQueue();
    var f := p.functions["main"];
    assert "x" in p.functions["h"].names && "x" == p.key("x");
    forall t | IsClosure(p, ["main"], t)
      ensures ("x", false) in t
    {
      assert HoldsReferences(p, "main", t) && HoldsReferences(p, "h", t);
      assert CallAlwaysRefers(p, f.calls[1], "h", false) && AlwaysRefers(p, f, "h", false);
    }
    ReferencesAreMentioned(p, ["main"], "h", "x", false);
  }
}
