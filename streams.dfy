/**
 * The process environment that `OutputCapture` works on: writable stream
 * objects and the two process-wide attributes `sys.stdout` and `sys.stderr`.
 */
module Streams {

  /**
   * A writable text stream: a `StringIO` capture buffer, or whatever object
   * the process had installed as its standard output or error. Only what has
   * been written to it so far is modelled.
   */
  class Stream {
    var text: string

    constructor ()
      ensures text == []
    {
      text := [];
    }

    /** `getvalue()`: everything written to the stream so far. */
    function Value(): (r: string)
      reads this
      ensures r == text
    {
      text
    }
  }

  /** The two process-wide output attributes. */
  datatype Slot = StdOut | StdErr

  /**
   * The `sys` module's two stream attributes. A `null` slot is Python's
   * `None`, which is what `disable` installs when nothing was saved.
   */
  class Sys {
    var stdout: Stream?
    var stderr: Stream?

    constructor (out: Stream?, err: Stream?)
      ensures stdout == out && stderr == err
    {
      stdout, stderr := out, err;
    }

    /** The stream a slot refers to at this moment. */
    function Current(slot: Slot): Stream?
      reads this
    {
      match slot
      case StdOut => stdout
      case StdErr => stderr
    }

    /**
     * The stream that `print(s, file=<slot>)` writes to. CPython's `print`
     * reads a `file` of `None` as "the current `sys.stdout`" and writes nothing
     * only when that is `None` as well, so a print to a `None` stderr reaches
     * stdout.
     */
    function Dest(slot: Slot): (d: Stream?)
      reads this
      ensures Current(slot) != null ==> d == Current(slot)
      ensures slot == StdErr && stderr == null ==> d == stdout
      ensures d == null <==> stdout == null && (slot == StdOut || stderr == null)
    {
      if Current(slot) != null then Current(slot) else stdout
    }

    /**
     * `print(s, end='', file=sys.stdout)` (or `sys.stderr`): appends `s` to
     * the stream `Dest` picks at the time of the call, and to nothing else.
     */
    method Write(slot: Slot, s: string)
      modifies Dest(slot)
      ensures Dest(slot) != null ==> Dest(slot).text == old(Dest(slot).text) + s
    {
      var d := Dest(slot);
      if d != null {
        d.text := d.text + s;
      }
    }
  }
}
