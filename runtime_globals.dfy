/** The runtime-requirement flags a plugin can declare for a chunk's runtime.
    The three flags the startup sequencer uses are named; every flag that other
    plugins put into the same requirement set is an `Other` flag. The source
    keeps flags as strings, so a plugin adding the string of one of the three
    named globals adds that global itself; `Other` stands only for the other
    strings. */
module RuntimeGlobals {

  datatype RuntimeGlobal =
    | Startup                    // a replaceable "startup" routine exists
    | EnsureChunk                // the "ensure chunk is loaded" primitive exists
    | EnsureChunkIncludeEntries  // ensureChunk also runs the loaded chunk's entries
    | Other(name: string)        // a flag declared by some other plugin; never
                                 // one of the three globals above
}
