# Startup chunk dependencies

This is a Dafny model of webpack's `StartupChunkDependenciesPlugin`. For each
chunk whose entries depend on entries living in other chunks (its
*entry-dependent chunks*), the plugin does two things:

- During the runtime-requirements pass it adds three runtime-requirement flags
  to the chunk's mutable requirement set: `startup`, `ensureChunk` and
  `ensureChunkIncludeEntries`.
- It registers exactly one runtime module for the chunk. The code that module
  generates wraps the bundle's startup routine so that it first loads every
  entry-dependent chunk and only then calls the startup routine it replaced.

Files:

- `runtime_globals.dfy`: the requirement flags, as a closed enumeration. Flags
  that other plugins put in the same set are `Other(name)`, which never stands for one of the three named flags.
- `chunk_graph.dfy`: chunks, chunk ids, and the chunk graph's
  entry-dependent-chunk query, given as a table.
- `template.dfy`: the emitted text as a list of lines. It also has
  `Array.prototype.join` and the line model of `promises.join(",\n")`.
- `startup_chunk_dependencies.dfy`: the runtime module and its `generate`, the
  requirements callback, and their properties.

The callback is imperative, so it is a method over two classes.
`RuntimeRequirementSet` holds the mutable flag set and `Compilation` holds the
list of registered runtime modules. The callback keeps the source's `for … of`
loop with its `break`. Its postconditions tie the new state to two
specification functions, `RequirementsAfter` and `ModulesAfter`, and the
properties are lemmas about those functions. `generate` is pure, so it is a
function from the dependent chunks to lines of text.

What the model takes as parameters (`Primitives`):

- the emitted name of each runtime global;
- `JSON.stringify` on chunk ids;
- the templating helper's indentation, as an arbitrary per-line function.

`Template.asString` is modelled as putting its blocks' lines one after another.

## Model

| member | source | states |
|---|---|---|
| `StartupChunkDependencies.AdditionalTreeRuntimeRequirements` | lib/runtime/StartupChunkDependenciesPlugin.js:24-40 | after the callback, the requirement set and the module list are exactly what `RequirementsAfter` and `ModulesAfter` give for the chunk's entry-dependent chunks; nothing else changes |
| `StartupChunkDependencies.RuntimeRequirementSet.Add` | lib/runtime/StartupChunkDependenciesPlugin.js:28-30 | `set.add`: the new set is the old set plus the flag (unchanged if the flag was already present) |
| `StartupChunkDependencies.Compilation.AddRuntimeModule` | lib/runtime/StartupChunkDependenciesPlugin.js:31-37 | registering a runtime module appends the (chunk, module) pair and keeps earlier registrations |
| `StartupChunkDependencies.RequirementsAfterMembership` | lib/runtime/StartupChunkDependenciesPlugin.js:25-30 | a flag is present afterwards iff it was present before, or it is one of the three startup flags and the chunk has at least one entry-dependent chunk; so no flag is removed and no other flag is added |
| `StartupChunkDependencies.NoDependentsNoRequirements` | lib/runtime/StartupChunkDependenciesPlugin.js:25-39 | with no entry-dependent chunks the loop body never runs, so the requirement set is unchanged |
| `StartupChunkDependencies.RequirementsIdempotent` | lib/runtime/StartupChunkDependenciesPlugin.js:28-30 | the additions are set insertions: a second run changes nothing, and a set that already holds the three flags is left unchanged |
| `StartupChunkDependencies.ExactlyOneModuleRegistered` | lib/runtime/StartupChunkDependenciesPlugin.js:25-38 | one call appends exactly one module, built for this chunk and this graph, when there are one or many dependents (the `break`); it appends none when there are none; earlier modules are kept |
| `StartupChunkDependencies.RepeatedCallbackRegistersTwice` | lib/runtime/StartupChunkDependenciesPlugin.js:31-38 | the registration itself does not deduplicate: a second run for the same chunk appends a second module |
| `StartupChunkDependencies.RegisteredModuleWrapper` | lib/runtime/StartupChunkDependenciesPlugin.js:31-37 | a module the callback registers always has at least one dependent. For one dependent its code is exactly the four lines: capture, reassignment, indented `return <promise>.then(next);`, and `}`. For more it is every line of the `Promise.all` form: capture, reassignment, `return Promise.all([`, one line per dependent in graph order (all but the last with a trailing comma), `]).then(next);`, and `}` |
| `StartupChunkDependencies.StartupWrapper` | lib/runtime/StartupChunkDependenciesPlugin.js:47-75 | the text `generate` emits for a chunk's dependents. The runtime module is the datatype `StartupChunkDependenciesRuntimeModule`: its fields `chunk` and `chunkGraph` are the constructor's arguments, its `name` is `"startup chunk dependencies"`, and its `Generate` is `StartupWrapper` on the graph's dependents of the chunk. Every wrapper has at least four lines. It begins with `var next = <startup>;` then `<startup> = function() {` and ends with `}`, with the indented body in between |
| `StartupChunkDependencies.EnsureChunkCallInjective` | lib/runtime/StartupChunkDependenciesPlugin.js:59 | each `ensureChunk(<serialised id>)` call carries its own chunk's id: two calls are equal exactly when the two ids serialise to the same text |
| `StartupChunkDependencies.PromisesDistinguishIds` | lib/runtime/StartupChunkDependenciesPlugin.js:56-60 | two promises of one wrapper are equal exactly when their chunks' serialised ids are equal |
| `StartupChunkDependencies.PromiseAllBody` | lib/runtime/StartupChunkDependenciesPlugin.js:67-71 | the `Promise.all` body, before the outer indent: the opening line, one indented line per promise (all but the last with a trailing comma), and the closing `]).then(next);` |
| `StartupChunkDependencies.Promises` | lib/runtime/StartupChunkDependenciesPlugin.js:56-60 | one `ensureChunk(<serialised id>)` per dependent chunk, at the same position, so there is no sorting or deduplication |
| `StartupChunkDependencies.PromisesAppend` | lib/runtime/StartupChunkDependenciesPlugin.js:56-60 | the promises of a concatenation are the concatenation of the promises: the graph's order is kept |
| `StartupChunkDependencies.WrapperBodyShapeIff` | lib/runtime/StartupChunkDependenciesPlugin.js:65-71 | the body is one line iff there is exactly one promise, and it opens with `return Promise.all([` iff there is not |
| `StartupChunkDependencies.SingleDependentWrapper` | lib/runtime/StartupChunkDependenciesPlugin.js:65-66 | with exactly one dependent the wrapper is exactly the capture line, the reassignment line, the indented `return <promise>.then(next);`, and `}` |
| `StartupChunkDependencies.ManyDependentsWrapper` | lib/runtime/StartupChunkDependenciesPlugin.js:65-71 | with any count other than one the body is `return Promise.all([`, then the promises one per line (all but the last with a trailing comma, each indented twice), then `]).then(next);` |
| `StartupChunkDependencies.NoDependentsWrapper` | lib/runtime/StartupChunkDependenciesPlugin.js:65-71 | with zero dependents the `Promise.all` branch is taken, and the empty join is a single empty line |
| `Template.CommaJoinedLines` | lib/runtime/StartupChunkDependenciesPlugin.js:69 | the lines of `promises.join(",\n")`: every part but the last gets a trailing comma, the last part stands alone, and no parts give one empty line |
| `Template.CommaJoinedLinesRender` | lib/runtime/StartupChunkDependenciesPlugin.js:69 | joined back with newlines, those lines are exactly the JavaScript string `promises.join(",\n")` |
| `Template.IndentLines` | lib/runtime/StartupChunkDependenciesPlugin.js:64-72 | indentation changes each line separately and keeps the number and order of lines |

## Left out

- Hook registration (`compiler.hooks.thisCompilation.tap` and the `additionalTreeRuntimeRequirements` tap) is the host's callback dispatch. The callback body is a method that callers invoke directly.
- How the chunk graph computes entry-dependent chunks is not modelled. A chunk graph is a table from chunks to their dependents, in iteration order.
- The chunk graph is an immutable value. The source's runtime module keeps a reference to the graph and queries it again in `generate`. The model assumes the graph does not change between the requirements pass and code generation, so `Generate` sees the same dependents as the callback. `RegisteredModuleWrapper` (at least one dependent) rests on this assumption.
- The escaping done by `JSON.stringify`, the string values of the runtime globals, and how `Template.indent` indents are all parameters. No property depends on them.
- `Template.asString` is not modelled as a string. The text is a list of lines, and a block passed to `asString` or `indent` is taken line by line. This matches the source as long as no serialised id or global name contains a newline, which `JSON.stringify` never emits. `CommaJoinedLinesRender` ties the line model back to the real `join` string.
- The `RuntimeModule` base class and what `addRuntimeModule` does beyond recording the module are not modelled. The compilation's module list only holds this plugin's modules, because there is no common base type for runtime modules here.
- A JavaScript `Set` remembers insertion order. The requirement set is a mathematical set, so that order is not modelled.
- The runtime behaviour of the emitted code is not modelled: `Promise.all` concurrency, `.then` chaining, load-failure propagation, and composition with other startup wrappers. That happens in the bundled program, not in this code.

## Behaviour at the edges

- The callback has no guard against a second call for the same chunk. A second call appends a second module, while the requirement set stays the same (`RepeatedCallbackRegistersTwice`, `RequirementsIdempotent`). The model assumes the host calls it at most once per chunk and build.
- `generate` itself does not reject zero dependents. It takes the `Promise.all` branch over an empty list (`NoDependentsWrapper`). The callback never registers a module in that case (`RegisteredModuleWrapper`).
- The callback does not check whether a chunk has entries before it queries the graph. It relies on the query returning no dependents for such a chunk.
