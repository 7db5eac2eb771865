/** The startup sequencer: the per-chunk runtime-requirements callback of
    lib/runtime/StartupChunkDependenciesPlugin.js and the code its runtime
    module generates. */
module StartupChunkDependencies {
  import opened RuntimeGlobals
  import opened ChunkGraphs
  import opened Template

  /** What the generator takes from outside: the emitted name of each runtime
      global, the JSON serialiser of chunk ids, and the templating helper's
      per-line indentation. */
  datatype Primitives = Primitives(
    globalName: RuntimeGlobal -> string,
    stringify: ChunkId -> string,
    indent: string -> string)

  /** The flags the callback adds for a chunk that has entry-dependent chunks. */
  const StartupFlags: set<RuntimeGlobal> := {Startup, EnsureChunk, EnsureChunkIncludeEntries}

  // ---------------------------------------------------------------------------
  // The runtime module and its generated code
  // ---------------------------------------------------------------------------

  /** The runtime module the callback registers: it remembers the chunk and
      the chunk graph it was created for. */
  datatype StartupChunkDependenciesRuntimeModule =
    StartupChunkDependenciesRuntimeModule(chunk: Chunk, chunkGraph: ChunkGraph)
  {
    /** The name the module hands to its base class. */
    const name: string := "startup chunk dependencies"

    /** The startup wrapper for this module's chunk, as emitted lines. */
    function Generate(p: Primitives): seq<string>
    {
      StartupWrapper(p, chunkGraph.EntryDependentChunks(chunk))
    }
  }

  /** `ensureChunk(<serialised id>)` for one dependent chunk: the emitted
      name of ensureChunk, then the serialised id in parentheses. */
  function EnsureChunkCall(p: Primitives, chunk: Chunk): (r: string)
    ensures var name, id := p.globalName(EnsureChunk), p.stringify(chunk.id);
      && |r| == |name| + |id| + 2
      && r[..|name|] == name
      && r[|name|] == '('
      && r[|name| + 1..|r| - 1] == id
      && r[|r| - 1] == ')'
  {
    p.globalName(EnsureChunk) + "(" + p.stringify(chunk.id) + ")"
  }

  /** One ensureChunk call per dependent chunk, in iteration order, with
      neither sorting nor deduplication. */
  function Promises(p: Primitives, dependents: seq<Chunk>): (r: seq<string>)
    ensures |r| == |dependents|
    ensures forall i :: 0 <= i < |dependents| ==> r[i] == EnsureChunkCall(p, dependents[i])
  {
    if dependents == [] then []
    else [EnsureChunkCall(p, dependents[0])] + Promises(p, dependents[1..])
  }

  /** The body of the new startup function, before the outer indentation. */
  function WrapperBody(p: Primitives, promises: seq<string>): seq<string>
  {
    if |promises| == 1 then ["return " + promises[0] + ".then(next);"]
    else ["return Promise.all(["] + IndentLines(p.indent, CommaJoinedLines(promises)) + ["]).then(next);"]
  }

  /** The capture line every wrapper starts with. */
  function CaptureLine(p: Primitives): string
  {
    "var next = " + p.globalName(Startup) + ";"
  }

  /** The line that replaces the startup routine. */
  function ReassignLine(p: Primitives): string
  {
    p.globalName(Startup) + " = function() {"
  }

  /** The whole wrapper: it always starts by capturing the current startup
      routine and replacing it, and always ends with a closing brace; between
      them is the indented body. */
  function StartupWrapper(p: Primitives, dependents: seq<Chunk>): (r: seq<string>)
    ensures |r| >= 4
    ensures r[0] == "var next = " + p.globalName(Startup) + ";"
    ensures r[1] == p.globalName(Startup) + " = function() {"
    ensures r[|r| - 1] == "}"
    ensures r[2..|r| - 1] == IndentLines(p.indent, WrapperBody(p, Promises(p, dependents)))
  {
    [CaptureLine(p), ReassignLine(p)]
      + IndentLines(p.indent, WrapperBody(p, Promises(p, dependents)))
      + ["}"]
  }

  // ---------------------------------------------------------------------------
  // Properties of the generated code
  // ---------------------------------------------------------------------------

  /** Each ensureChunk call carries its own chunk's id: two calls are the
      same text exactly when the two ids serialise to the same text. */
  lemma EnsureChunkCallInjective(p: Primitives, a: Chunk, b: Chunk)
    ensures EnsureChunkCall(p, a) == EnsureChunkCall(p, b) <==> p.stringify(a.id) == p.stringify(b.id)
  {
    var n, r := p.globalName(EnsureChunk), EnsureChunkCall(p, a);
    if r == EnsureChunkCall(p, b) {
      assert p.stringify(a.id) == r[|n| + 1..|r| - 1] == p.stringify(b.id);
    }
  }

  /** Two promises of one wrapper are the same text exactly when their
      chunks' ids serialise to the same text. */
  lemma PromisesDistinguishIds(p: Primitives, dependents: seq<Chunk>, i: nat, j: nat)
    requires i < |dependents| && j < |dependents|
    ensures Promises(p, dependents)[i] == Promises(p, dependents)[j]
      <==> p.stringify(dependents[i].id) == p.stringify(dependents[j].id)
  {
    EnsureChunkCallInjective(p, dependents[i], dependents[j]);
  }

  /** Concatenating dependent lists concatenates their promise lists: the
      generator keeps the graph's order and every duplicate. */
  lemma PromisesAppend(p: Primitives, a: seq<Chunk>, b: seq<Chunk>)
    ensures Promises(p, a + b) == Promises(p, a) + Promises(p, b)
  {
  }

  /** The body is a single line exactly when there is exactly one promise,
      and it opens with Promise.all exactly when there is not. */
  lemma WrapperBodyShapeIff(p: Primitives, promises: seq<string>)
    ensures |WrapperBody(p, promises)| == 1 <==> |promises| == 1
    ensures WrapperBody(p, promises)[0] == "return Promise.all([" <==> |promises| != 1
  {
    if |promises| == 1 {
      var line := "return " + promises[0] + ".then(next);";
      assert line[|line| - 1] == ';';
      var all := "return Promise.all([";
      assert all[|all| - 1] == '[';
    }
  }

  /** With exactly one dependent chunk the wrapper chains its single
      ensureChunk promise directly, without Promise.all. */
  lemma SingleDependentWrapper(p: Primitives, dependent: Chunk)
    ensures StartupWrapper(p, [dependent]) ==
      [ "var next = " + p.globalName(Startup) + ";",
        p.globalName(Startup) + " = function() {",
        p.indent("return " + EnsureChunkCall(p, dependent) + ".then(next);"),
        "}" ]
  {
  }

  /** The Promise.all body, line by line: the opening line, one line per
      promise (all but the last followed by a comma), the closing line. */
  lemma PromiseAllBody(p: Primitives, promises: seq<string>)
    requires |promises| != 1
    ensures var b := WrapperBody(p, promises);
      var n := if promises == [] then 1 else |promises|;
      && |b| == n + 2
      && b[0] == "return Promise.all(["
      && (forall k :: 0 <= k < |promises| ==>
            b[1 + k] == p.indent(promises[k] + (if k < |promises| - 1 then "," else "")))
      && b[n + 1] == "]).then(next);"
  {
    var joined := IndentLines(p.indent, CommaJoinedLines(promises));
    var b := WrapperBody(p, promises);
    assert b == ["return Promise.all(["] + joined + ["]).then(next);"];
    forall k | 0 <= k < |promises|
      ensures b[1 + k] == p.indent(promises[k] + (if k < |promises| - 1 then "," else ""))
    {
      assert b[1 + k] == joined[k];
      var suffix := if k < |promises| - 1 then "," else "";
      assert CommaJoinedLines(promises)[k] == promises[k] + suffix;
    }
  }

  /** With any count other than one the body waits on Promise.all over the
      comma-joined promises, one promise per line, each indented twice. */
  lemma ManyDependentsWrapper(p: Primitives, dependents: seq<Chunk>)
    requires |dependents| != 1
    ensures var r := StartupWrapper(p, dependents);
      var n := if dependents == [] then 1 else |dependents|;
      && |r| == n + 5
      && r[0] == "var next = " + p.globalName(Startup) + ";"
      && r[1] == p.globalName(Startup) + " = function() {"
      && r[2] == p.indent("return Promise.all([")
      && (forall k :: 0 <= k < |dependents| ==>
            r[3 + k] == p.indent(p.indent(EnsureChunkCall(p, dependents[k])
                                            + (if k < |dependents| - 1 then "," else ""))))
      && r[n + 3] == p.indent("]).then(next);")
      && r[n + 4] == "}"
  {
    var promises := Promises(p, dependents);
    var r := StartupWrapper(p, dependents);
    var body := WrapperBody(p, promises);
    PromiseAllBody(p, promises);
    var indented := IndentLines(p.indent, body);
    assert r[2..|r| - 1] == indented;
    assert r[2] == indented[0];
    assert r[|body| + 1] == indented[|body| - 1];
    forall k | 0 <= k < |dependents|
      ensures r[3 + k] == p.indent(p.indent(EnsureChunkCall(p, dependents[k])
                                            + (if k < |dependents| - 1 then "," else "")))
    {
      var suffix := if k < |dependents| - 1 then "," else "";
      assert r[3 + k] == indented[1 + k];
      assert indented[1 + k] == p.indent(body[1 + k]);
      assert body[1 + k] == p.indent(promises[k] + suffix);
      assert promises[k] == EnsureChunkCall(p, dependents[k]);
    }
  }

  /** With no dependent chunks (a case the callback never registers) the
      Promise.all branch is taken over an empty join, which is one empty line. */
  lemma NoDependentsWrapper(p: Primitives)
    ensures StartupWrapper(p, []) ==
      [ "var next = " + p.globalName(Startup) + ";",
        p.globalName(Startup) + " = function() {",
        p.indent("return Promise.all(["),
        p.indent(p.indent("")),
        p.indent("]).then(next);"),
        "}" ]
  {
  }

  // ---------------------------------------------------------------------------
  // The sequencing decision (the additionalTreeRuntimeRequirements callback)
  // ---------------------------------------------------------------------------

  /** The mutable set of runtime requirements the host passes to the callback. */
  class RuntimeRequirementSet {
    var flags: set<RuntimeGlobal>

    constructor (initial: set<RuntimeGlobal>)
      ensures flags == initial
    {
      flags := initial;
    }

    /** `set.add`. */
    method Add(flag: RuntimeGlobal)
      modifies this
      ensures flags == old(flags) + {flag}
    {
      flags := flags + {flag};
    }
  }

  /** The compilation, as far as the callback uses it: its chunk graph and
      the runtime modules registered so far. */
  class Compilation {
    const chunkGraph: ChunkGraph
    var runtimeModules: seq<(Chunk, StartupChunkDependenciesRuntimeModule)>

    constructor (chunkGraph: ChunkGraph)
      ensures this.chunkGraph == chunkGraph && runtimeModules == []
    {
      this.chunkGraph := chunkGraph;
      runtimeModules := [];
    }

    /** `compilation.addRuntimeModule(chunk, runtimeModule)`: appends the pair. */
    method AddRuntimeModule(chunk: Chunk, runtimeModule: StartupChunkDependenciesRuntimeModule)
      modifies this
      ensures runtimeModules == old(runtimeModules) + [(chunk, runtimeModule)]
    {
      runtimeModules := runtimeModules + [(chunk, runtimeModule)];
    }
  }

  /** The requirement set after the callback for a chunk with `dependents`. */
  function RequirementsAfter(flags: set<RuntimeGlobal>, dependents: seq<Chunk>): set<RuntimeGlobal>
  {
    if dependents == [] then flags else flags + StartupFlags
  }

  /** The registered runtime modules after the callback for `chunk`. */
  function ModulesAfter(
    modules: seq<(Chunk, StartupChunkDependenciesRuntimeModule)>, graph: ChunkGraph, chunk: Chunk)
    : seq<(Chunk, StartupChunkDependenciesRuntimeModule)>
  {
    if graph.EntryDependentChunks(chunk) == [] then modules
    else modules + [(chunk, StartupChunkDependenciesRuntimeModule(chunk, graph))]
  }

  /** The callback body: on the first entry-dependent chunk, add the three
      flags, register one runtime module for the chunk, and stop. */
  method AdditionalTreeRuntimeRequirements(
    compilation: Compilation, chunk: Chunk, requirements: RuntimeRequirementSet)
    modifies compilation, requirements
    ensures requirements.flags
      == RequirementsAfter(old(requirements.flags), compilation.chunkGraph.EntryDependentChunks(chunk))
    ensures compilation.runtimeModules
      == ModulesAfter(old(compilation.runtimeModules), compilation.chunkGraph, chunk)
  {
    var dependents := compilation.chunkGraph.EntryDependentChunks(chunk);
    for i := 0 to |dependents| {
      requirements.Add(Startup);
      requirements.Add(EnsureChunk);
      requirements.Add(EnsureChunkIncludeEntries);
      compilation.AddRuntimeModule(
        chunk, StartupChunkDependenciesRuntimeModule(chunk, compilation.chunkGraph));
      break;
    }
  }

  // ---------------------------------------------------------------------------
  // Properties of the sequencing decision
  // ---------------------------------------------------------------------------

  /** A flag is present afterwards iff it was present before, or it is one of
      the three startup flags and the chunk has entry-dependent chunks; so no
      flag is ever removed and no other flag is added. */
  lemma RequirementsAfterMembership(flags: set<RuntimeGlobal>, dependents: seq<Chunk>, f: RuntimeGlobal)
    ensures f in RequirementsAfter(flags, dependents)
      <==> f in flags || (dependents != [] && f in {Startup, EnsureChunk, EnsureChunkIncludeEntries})
  {
  }

  /** Without entry-dependent chunks the callback leaves the set as it was. */
  lemma NoDependentsNoRequirements(flags: set<RuntimeGlobal>)
    ensures RequirementsAfter(flags, []) == flags
  {
  }

  /** The flag additions are set insertions: running the decision again, or
      on a set that already holds the three flags, changes nothing. */
  lemma RequirementsIdempotent(flags: set<RuntimeGlobal>, dependents: seq<Chunk>)
    ensures RequirementsAfter(RequirementsAfter(flags, dependents), dependents)
      == RequirementsAfter(flags, dependents)
    ensures {Startup, EnsureChunk, EnsureChunkIncludeEntries} <= flags
      ==> RequirementsAfter(flags, dependents) == flags
  {
  }

  /** One call registers exactly one module, for this chunk and graph,
      whether the chunk has one or many entry-dependent chunks, and none when
      it has no entry-dependent chunk; earlier registrations are kept. */
  lemma ExactlyOneModuleRegistered(
    modules: seq<(Chunk, StartupChunkDependenciesRuntimeModule)>, graph: ChunkGraph, chunk: Chunk)
    ensures var r := ModulesAfter(modules, graph, chunk);
      && |r| == |modules| + (if graph.EntryDependentChunks(chunk) == [] then 0 else 1)
      && r[..|modules|] == modules
      && (|r| > |modules| ==>
            r[|modules|].0 == chunk
            && r[|modules|].1.chunk == chunk
            && r[|modules|].1.chunkGraph == graph)
  {
  }

  /** A module the callback registers always has at least one dependent to
      wait for. Its code is the four-line single-promise form for one
      dependent, and otherwise the Promise.all form with one line per
      dependent, in graph order. */
  lemma RegisteredModuleWrapper(
    p: Primitives, modules: seq<(Chunk, StartupChunkDependenciesRuntimeModule)>,
    graph: ChunkGraph, chunk: Chunk)
    requires |ModulesAfter(modules, graph, chunk)| > |modules|
    ensures var m := ModulesAfter(modules, graph, chunk)[|modules|].1;
      var dependents := graph.EntryDependentChunks(chunk);
      var n := |dependents|;
      var r := m.Generate(p);
      && n >= 1
      && (n == 1 ==>
            r == [ "var next = " + p.globalName(Startup) + ";",
                   p.globalName(Startup) + " = function() {",
                   p.indent("return " + EnsureChunkCall(p, dependents[0]) + ".then(next);"),
                   "}" ])
      && (n > 1 ==>
            && |r| == n + 5
            && r[0] == "var next = " + p.globalName(Startup) + ";"
            && r[1] == p.globalName(Startup) + " = function() {"
            && r[2] == p.indent("return Promise.all([")
            && (forall k :: 0 <= k < n ==>
                  r[3 + k] == p.indent(p.indent(EnsureChunkCall(p, dependents[k])
                                                  + (if k < n - 1 then "," else ""))))
            && r[n + 3] == p.indent("]).then(next);")
            && r[n + 4] == "}")
  {
    var dependents := graph.EntryDependentChunks(chunk);
    var m := ModulesAfter(modules, graph, chunk)[|modules|].1;
    assert m == StartupChunkDependenciesRuntimeModule(chunk, graph);
    if |dependents| == 1 {
      assert dependents == [dependents[0]];
      SingleDependentWrapper(p, dependents[0]);
    } else {
      ManyDependentsWrapper(p, dependents);
    }
  }

  /** Unlike the requirements, the module registration is not idempotent:
      running the callback twice for the same chunk registers two modules. */
  lemma RepeatedCallbackRegistersTwice(
    modules: seq<(Chunk, StartupChunkDependenciesRuntimeModule)>, graph: ChunkGraph, chunk: Chunk)
    requires graph.EntryDependentChunks(chunk) != []
    ensures |ModulesAfter(ModulesAfter(modules, graph, chunk), graph, chunk)| == |modules| + 2
  {
  }
}
