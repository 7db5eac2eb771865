/** The chunks of a compilation and the read-only chunk-graph query the
    sequencer consumes. How the graph computes a chunk's entry-dependent
    chunks is not part of this model: the graph is given as a table. */
module ChunkGraphs {

  /** A chunk id is a number, a string, or null before ids are assigned. */
  datatype ChunkId = NumberId(n: int) | StringId(s: string) | NullId

  /** A chunk is an object, so two chunks may share an id; `debugId` keeps
      them apart. */
  datatype Chunk = Chunk(debugId: nat, id: ChunkId)

  datatype ChunkGraph = ChunkGraph(entryDependents: map<Chunk, seq<Chunk>>) {

    /** The entry-dependent chunks of `chunk`, in the graph's iteration
        order; a chunk the table does not list has none. */
    function EntryDependentChunks(chunk: Chunk): seq<Chunk>
    {
      if chunk in entryDependents then entryDependents[chunk] else []
    }
  }
}
