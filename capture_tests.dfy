/**
 * The uses of `OutputCapture` exercised by the test suite, in attribute mode:
 * a `with OutputCapture(...) as o:` block around a run of prints, and the
 * individual tests with what each of them asserts.
 */
module CaptureTests {
  import opened Text
  import opened Streams
  import opened Redirect
  import opened Capture

  /**
   * `with OutputCapture(separate=separate) as o:` around the prints `ws`.
   * Afterwards the buffers hold exactly what `Emit` says: every write in
   * emission order in `output` in combined mode; the stdout writes in
   * `stdout`, the stderr writes in `stderr` and nothing in `output` in
   * separate mode. The slots hold the streams they held before the block.
   */
  method CaptureWrites(sys: Sys, separate: bool, ws: seq<Write>) returns (o: OutputCapture)
    modifies sys
    ensures fresh(o) && o.separate == separate && o.Entered()
    ensures o.Snapshot() == Emit(separate, Texts([], [], []), ws)
    ensures !separate ==> o.Snapshot() == Texts(Joined(ws), [], [])
    ensures separate ==> o.Snapshot() == Texts([], Joined(On(StdOut, ws)), Joined(On(StdErr, ws)))
    ensures o.Captured() == if separate then [] else Joined(ws)
    ensures sys.stdout == old(sys.stdout) && sys.stderr == old(sys.stderr)
  {
    o := new OutputCapture(separate);
    o.Enter(sys);
    ghost var bufs := o.Bufs();
    var i := 0;
    while i < |ws|
      invariant 0 <= i <= |ws|
      invariant o.Entered() && o.Bufs() == bufs
      invariant o.originalStdout == old(sys.stdout) && o.originalStderr == old(sys.stderr)
      invariant sys.stdout == bufs.Get(Route(separate, StdOut))
      invariant sys.stderr == bufs.Get(Route(separate, StdErr))
      invariant Emit(separate, o.Snapshot(), ws[i..]) == Emit(separate, Texts([], [], []), ws)
    {
      ghost var before := o.Snapshot();
      sys.Write(ws[i].slot, ws[i].text);
      assert sys.Dest(ws[i].slot) == bufs.Get(Route(separate, ws[i].slot));
      assert o.Snapshot() == Append(before, Route(separate, ws[i].slot), ws[i].text);
      assert ws[i..][1..] == ws[i + 1..];
      i := i + 1;
    }
    o.Exit(sys);
    assert ws[|ws|..] == [];
    CombinedKeepsOrder(Texts([], [], []), ws);
    SeparateSplits(Texts([], [], []), ws);
  }

  /**
   * `o.compare()` with no arguments: every expectation defaults to the empty
   * string, so it passes exactly when every buffer holds only whitespace, and
   * otherwise reports the first buffer that does not, against "".
   */
  method CompareNoArguments(o: OutputCapture) returns (r: Outcome)
    requires o.HasBuffers()
    ensures r == Pass <==>
      AllSpace(o.output.text) && AllSpace(o.stdout.text) && AllSpace(o.stderr.text)
    ensures !AllSpace(o.output.text) ==> r == Mismatch(None, [], Strip(o.output.text))
    ensures AllSpace(o.output.text) && !AllSpace(o.stdout.text) ==>
      r == Mismatch(Some("stdout"), [], Strip(o.stdout.text))
    ensures AllSpace(o.output.text) && AllSpace(o.stdout.text) && !AllSpace(o.stderr.text) ==>
      r == Mismatch(Some("stderr"), [], Strip(o.stderr.text))
  {
    EmptyExpectationMatches(o.output.text);
    EmptyExpectationMatches(o.stdout.text);
    EmptyExpectationMatches(o.stderr.text);
    r := o.Compare();
  }

  /** test_compare_strips: printing " Bar! " compares equal to "Bar!". */
  method CompareStrips(sys: Sys) returns (r: Outcome)
    modifies sys
    ensures r == Pass
    ensures sys.stdout == old(sys.stdout) && sys.stderr == old(sys.stderr)
  {
    var o := new OutputCapture();
    o.Enter(sys);
    sys.Write(StdOut, " Bar! \n");
    o.Exit(sys);
    assert o.output.text == " " + "Bar!" + " \n";
    StripIgnoresPadding(" ", "Bar!", " \n");
    r := o.Compare("Bar!");
  }

  /** test_stdout_and_stderr: interleaved prints reach the combined buffer in order. */
  method StdoutAndStderr(sys: Sys) returns (r: Outcome)
    modifies sys
    ensures r == Pass
    ensures sys.stdout == old(sys.stdout) && sys.stderr == old(sys.stderr)
  {
    var o := new OutputCapture();
    o.Enter(sys);
    sys.Write(StdOut, "hello\n");
    sys.Write(StdErr, "out\n");
    sys.Write(StdOut, "there\n");
    sys.Write(StdErr, "now\n");
    o.Exit(sys);
    assert o.output.text == "hello\nout\nthere\nnow\n";
    EmptyExpectationMatches(o.stdout.text);
    EmptyExpectationMatches(o.stderr.text);
    r := o.Compare("hello\nout\nthere\nnow\n");
  }

  /** test_unicode: a non-ASCII character is captured and compared unchanged. */
  method UnicodeText(sys: Sys) returns (r: Outcome)
    modifies sys
    ensures r == Pass
    ensures sys.stdout == old(sys.stdout) && sys.stderr == old(sys.stderr)
  {
    var o := new OutputCapture();
    o.Enter(sys);
    sys.Write(StdOut, "\U{65E5}\n");
    o.Exit(sys);
    EmptyExpectationMatches(o.stdout.text);
    EmptyExpectationMatches(o.stderr.text);
    r := o.Compare("\U{65E5}\n");
  }

  /** test_separate_capture: each slot's prints reach its own buffer; the combined one stays empty. */
  method SeparateCapture(sys: Sys) returns (r: Outcome)
    modifies sys
    ensures r == Pass
    ensures sys.stdout == old(sys.stdout) && sys.stderr == old(sys.stderr)
  {
    var o := new OutputCapture(separate := true);
    o.Enter(sys);
    sys.Write(StdOut, "hello\n");
    sys.Write(StdErr, "out\n");
    sys.Write(StdOut, "there\n");
    sys.Write(StdErr, "now\n");
    o.Exit(sys);
    assert o.Captured() == [];
    assert o.stdout.text == "hello\nthere\n";
    assert o.stderr.text == "out\nnow\n";
    EmptyExpectationMatches(o.output.text);
    r := o.Compare(stdoutExpected := "hello\nthere\n", stderrExpected := "out\nnow\n");
  }

  /** test_original_restore: inside the block neither slot is its original; afterwards both are. */
  method OriginalRestore(sys: Sys)
    modifies sys
    ensures sys.stdout == old(sys.stdout) && sys.stderr == old(sys.stderr)
  {
    var oOut, oErr := sys.stdout, sys.stderr;
    var o := new OutputCapture();
    o.Enter(sys);
    assert sys.stdout != oOut && sys.stderr != oErr;
    o.Exit(sys);
  }

  /** test_double_disable: a second `disable` inside the block, and the exit after it, change nothing. */
  method DoubleDisable(sys: Sys)
    modifies sys
    ensures sys.stdout == old(sys.stdout) && sys.stderr == old(sys.stderr)
  {
    var oOut, oErr := sys.stdout, sys.stderr;
    var o := new OutputCapture();
    o.Enter(sys);
    assert sys.stdout != oOut && sys.stderr != oErr;
    o.Disable(sys);
    assert sys.stdout == oOut && sys.stderr == oErr;
    o.Disable(sys);
    assert sys.stdout == oOut && sys.stderr == oErr;
    o.Exit(sys);
  }

  /**
   * test_double_enable: `enable` after `disable`, and again, captures without
   * re-saving, so the exit still restores the pre-block streams. This needs
   * `sys.stdout` to be a stream on entry (see `Redirect.EnableTwiceResaves`).
   */
  method DoubleEnable(sys: Sys)
    requires sys.stdout != null
    modifies sys
    ensures sys.stdout == old(sys.stdout) && sys.stderr == old(sys.stderr)
  {
    var oOut, oErr := sys.stdout, sys.stderr;
    var o := new OutputCapture();
    o.Enter(sys);
    o.Disable(sys);
    assert sys.stdout == oOut && sys.stderr == oErr;
    o.Enable(sys);
    assert sys.stdout != oOut && sys.stderr != oErr;
    o.Enable(sys);
    assert sys.stdout != oOut && sys.stderr != oErr;
    o.Exit(sys);
  }
}
