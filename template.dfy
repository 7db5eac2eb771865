/** Emitted source text as a list of lines. A block handed to the
    templating helper's `asString` becomes its lines, in order, and its
    `indent` is an arbitrary per-line transformer, so nothing below depends
    on how the helper indents. */
module Template {

  /** `Array.prototype.join`: the parts with `sep` between neighbours; the
      join of no parts is the empty string. */
  function Join(parts: seq<string>, sep: string): string
  {
    if parts == [] then ""
    else if |parts| == 1 then parts[0]
    else parts[0] + sep + Join(parts[1..], sep)
  }

  /** The lines of `parts.join(",\n")`: each part but the last followed by a
      comma, the last on its own; no parts give one empty line. */
  function CommaJoinedLines(parts: seq<string>): (r: seq<string>)
    ensures |r| == if parts == [] then 1 else |parts|
    ensures parts == [] ==> r == [""]
    ensures forall k :: 0 <= k < |parts| - 1 ==> r[k] == parts[k] + ","
    ensures parts != [] ==> r[|parts| - 1] == parts[|parts| - 1]
  {
    if parts == [] then [""]
    else if |parts| == 1 then parts
    else [parts[0] + ","] + CommaJoinedLines(parts[1..])
  }

  /** Joined back with newlines, the lines are exactly the JavaScript string
      `parts.join(",\n")`. */
  lemma {:induction false} CommaJoinedLinesRender(parts: seq<string>)
    ensures Join(CommaJoinedLines(parts), "\n") == Join(parts, ",\n")
  {
    if |parts| >= 2 {
      var rest := CommaJoinedLines(parts[1..]);
      CommaJoinedLinesRender(parts[1..]);
      assert CommaJoinedLines(parts) == [parts[0] + ","] + rest;
      assert ([parts[0] + ","] + rest)[1..] == rest;
      calc {
        Join(CommaJoinedLines(parts), "\n");
        (parts[0] + ",") + "\n" + Join(rest, "\n");
        parts[0] + ",\n" + Join(parts[1..], ",\n");
        Join(parts, ",\n");
      }
    }
  }

  /** `indent` applied to every line of a block. */
  function IndentLines(indent: string -> string, lines: seq<string>): (r: seq<string>)
    ensures |r| == |lines|
    ensures forall k :: 0 <= k < |lines| ==> r[k] == indent(lines[k])
  {
    if lines == [] then [] else [indent(lines[0])] + IndentLines(indent, lines[1..])
  }
}
