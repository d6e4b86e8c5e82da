/**
 * The append-only text buffer of js_bootstrap/string-builder.js, with its
 * indentation counter.
 */
module StringBuilding {

  /** `" ".repeat(n)`. */
  function Spaces(n: nat): (r: string)
    ensures |r| == n
    ensures forall k :: 0 <= k < n ==> r[k] == ' '
  {
    if n == 0 then "" else Spaces(n - 1) + " "
  }

  /** The text `appendLine(s)` adds: `s` and a line feed. */
  function Line(s: string): string {
    s + "\n"
  }

  class StringBuilder {
    const indentLevel: int := 2
    var indent: int
    var buffer: string

    constructor ()
      ensures indent == 0 && buffer == ""
    {
      indent := 0;
      buffer := "";
    }

    /** `repeat` throws on a negative count, so the indent must not be negative here. */
    method ApplyIndent()
      requires indent >= 0
      modifies this
      ensures indent == old(indent)
      ensures buffer == old(buffer) + Spaces(indent)
    {
      buffer := buffer + Spaces(indent);
    }

    method Append(s: string)
      modifies this
      ensures buffer == old(buffer) + s
      ensures indent == old(indent)
    {
      buffer := buffer + s;
    }

    method AppendLine(s: string)
      modifies this
      ensures buffer == old(buffer) + Line(s)
      ensures indent == old(indent)
    {
      buffer := buffer + (s + "\n");
    }

    method IncreaseIndent()
      modifies this
      ensures indent == old(indent) + indentLevel
      ensures buffer == old(buffer)
    {
      indent := indent + indentLevel;
    }

    method DecreaseIndent()
      modifies this
      ensures indent == old(indent) - indentLevel
      ensures buffer == old(buffer)
    {
      indent := indent - indentLevel;
    }

    /** `string()`: the text so far; nothing changes. */
    method ToString() returns (s: string)
      ensures s == buffer
    {
      s := buffer;
    }
  }

  /** Raising then lowering the indent restores it and leaves the text alone. */
  method IndentRoundTrip(b: StringBuilder)
    modifies b
    ensures b.indent == old(b.indent) && b.buffer == old(b.buffer)
  {
    b.IncreaseIndent();
    b.DecreaseIndent();
  }
}
