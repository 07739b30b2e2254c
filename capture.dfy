/**
 * `OutputCapture` in attribute mode: a context manager that points
 * `sys.stdout` and `sys.stderr` at in-memory buffers, puts back the streams it
 * found, and compares what was captured with what a test expected.
 */
module Capture {
  import opened Text
  import opened Streams
  import opened Redirect

  datatype Option<T> = None | Some(value: T)

  /**
   * The verdict of `compare`: every pair matched, or the `AssertionError` for
   * the first pair that did not, with its prefix label (none for the
   * combined output, "stdout" or "stderr") and the two stripped texts.
   */
  datatype Outcome = Pass | Mismatch(prefix: Option<string>, expected: string, actual: string)

  /** The equality `compare` checks: both texts agree once stripped. */
  predicate Matches(expected: string, actual: string) {
    Strip(expected) == Strip(actual)
  }

  /** An empty expectation, `compare`'s default, matches exactly the all-whitespace texts. */
  lemma EmptyExpectationMatches(actual: string)
    ensures Matches("", actual) <==> AllSpace(actual)
  {
    StripEmptyIffAllSpace(actual);
  }

  class OutputCapture {
    const separate: bool
    /** `original_stdout`/`original_stderr`; `null` is the class-level default `None`. */
    var originalStdout: Stream?
    var originalStderr: Stream?
    /** The buffers; `null` until `__enter__` creates them. */
    var output: Stream?
    var stdout: Stream?
    var stderr: Stream?

    /** `OutputCapture(separate=...)`: nothing saved, no buffers yet. */
    constructor (separate: bool := false)
      ensures this.separate == separate
      ensures originalStdout == null && originalStderr == null
      ensures output == null && stdout == null && stderr == null
    {
      this.separate := separate;
      originalStdout, originalStderr := null, null;
      output, stdout, stderr := null, null, null;
    }

    /** The three buffer attributes exist. */
    predicate HasBuffers()
      reads this
    {
      output != null && stdout != null && stderr != null
    }

    /** `__enter__` has run: three distinct buffers exist. */
    ghost predicate Entered()
      reads this
    {
      HasBuffers() && output != stdout && output != stderr && stdout != stderr
    }

    /** The buffer objects, as a value. */
    function Bufs(): Buffers
      reads this
      requires HasBuffers()
    {
      Buffers(output, stdout, stderr)
    }

    /** The saved originals together with the live slots of `sys`. */
    ghost function Wiring(sys: Sys): Config
      reads this, sys
    {
      Config(Pair(originalStdout, originalStderr), Pair(sys.stdout, sys.stderr))
    }

    /** What the three buffers hold. */
    function Snapshot(): Texts
      reads this, output, stdout, stderr
      requires HasBuffers()
    {
      Texts(output.Value(), stdout.Value(), stderr.Value())
    }

    /**
     * `__enter__`: three fresh empty buffers, then `enable`. The saved
     * originals and the slots change as `Redirect.Enable` says.
     */
    method Enter(sys: Sys)
      modifies this, sys
      ensures Entered() && fresh(output) && fresh(stdout) && fresh(stderr)
      ensures Snapshot() == Texts([], [], [])
      ensures Wiring(sys) == Redirect.Enable(separate, Bufs(), old(Wiring(sys)))
    {
      output := new Stream();
      stdout := new Stream();
      stderr := new Stream();
      Enable(sys);
    }

    /** `__exit__`: `disable`, whatever the block did. */
    method Exit(sys: Sys)
      modifies sys
      ensures Wiring(sys) == Redirect.Disable(old(Wiring(sys)))
    {
      Disable(sys);
    }

    /**
     * `disable`: put the saved originals back into the slots. The saved pair
     * is not cleared, and nothing checks that capture was enabled: before any
     * `enable` this installs `None`.
     */
    method Disable(sys: Sys)
      modifies sys
      ensures Wiring(sys) == Redirect.Disable(old(Wiring(sys)))
    {
      sys.stdout := originalStdout;
      sys.stderr := originalStderr;
    }

    /**
     * `enable`: save the live slots as the originals when `original_stdout`
     * is `None`, then point the slots at the buffers (both at `output`, or
     * each at its own buffer when `separate`).
     */
    method Enable(sys: Sys)
      requires HasBuffers()
      modifies this`originalStdout, this`originalStderr, sys
      ensures Wiring(sys) == Redirect.Enable(separate, Bufs(), old(Wiring(sys)))
    {
      if originalStdout == null {
        originalStdout := sys.stdout;
        originalStderr := sys.stderr;
      }
      if separate {
        sys.stdout := stdout;
        sys.stderr := stderr;
      } else {
        sys.stdout := output;
        sys.stderr := output;
      }
    }

    /** The `captured` property: everything written to the combined buffer so far. */
    function Captured(): (r: string)
      reads this, output
      requires output != null
      ensures r == output.text
      ensures HasBuffers() ==> r == Snapshot().output
    {
      output.Value()
    }

    /**
     * `compare`: check the combined output, then stdout, then stderr, each
     * against its expected text once both are stripped, and stop at the first
     * pair that differs. The default expectations are empty, which
     * `EmptyExpectationMatches` turns into "every buffer holds only whitespace".
     */
    method Compare(expected: string := "", stdoutExpected: string := "", stderrExpected: string := "")
      returns (r: Outcome)
      requires HasBuffers()
      ensures r == Pass <==>
        Matches(expected, output.text) && Matches(stdoutExpected, stdout.text) &&
        Matches(stderrExpected, stderr.text)
      ensures !Matches(expected, output.text) ==>
        r == Mismatch(None, Strip(expected), Strip(output.text))
      ensures Matches(expected, output.text) && !Matches(stdoutExpected, stdout.text) ==>
        r == Mismatch(Some("stdout"), Strip(stdoutExpected), Strip(stdout.text))
      ensures (Matches(expected, output.text) && Matches(stdoutExpected, stdout.text) &&
               !Matches(stderrExpected, stderr.text)) ==>
        r == Mismatch(Some("stderr"), Strip(stderrExpected), Strip(stderr.text))
    {
      var checks := [
        (None, expected, Captured()),
        (Some("stdout"), stdoutExpected, stdout.Value()),
        (Some("stderr"), stderrExpected, stderr.Value())
      ];
      var i := 0;
      while i < |checks|
        invariant 0 <= i <= |checks|
        invariant forall j :: 0 <= j < i ==> Matches(checks[j].1, checks[j].2)
      {
        var (prefix, want, got) := checks[i];
        var w, g := Strip(want), Strip(got);
        if w != g {
          r := Mismatch(prefix, w, g);
          assert checks[0] == (None, expected, output.text);
          if i == 0 {
            assert r == Mismatch(None, Strip(expected), Strip(output.text));
          } else if i == 1 {
            assert Matches(checks[0].1, checks[0].2);
            assert r == Mismatch(Some("stdout"), Strip(stdoutExpected), Strip(stdout.text));
          } else {
            assert Matches(checks[0].1, checks[0].2) && Matches(checks[1].1, checks[1].2);
            assert r == Mismatch(Some("stderr"), Strip(stderrExpected), Strip(stderr.text));
          }
          return;
        }
        i := i + 1;
      }
      assert Matches(checks[0].1, checks[0].2) && Matches(checks[1].1, checks[1].2) && Matches(checks[2].1, checks[2].2);
      r := Pass;
    }
  }
}
