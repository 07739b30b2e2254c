/**
 * The save/route/restore logic of `OutputCapture` in attribute mode, on values:
 * which stream each of the two slots refers to, which pair of streams is saved
 * as "the originals", and what a run of writes leaves in the three capture
 * buffers. The class in module Capture is proved to follow these functions.
 */
module Redirect {
  import opened Streams

  /** Names the three capture buffers `output`, `stdout` and `stderr`. */
  datatype Buffer = OutputBuf | StdoutBuf | StderrBuf

  /** The three buffer objects allocated by `__enter__`. */
  datatype Buffers = Buffers(output: Stream, stdout: Stream, stderr: Stream) {
    function Get(t: Buffer): Stream {
      match t
      case OutputBuf => output
      case StdoutBuf => stdout
      case StderrBuf => stderr
    }
  }

  /**
   * A pair of stream references, one per slot: either what `sys.stdout` and
   * `sys.stderr` refer to, or the saved `original_stdout`/`original_stderr`
   * (`null` is Python's `None`).
   */
  datatype Pair = Pair(stdout: Stream?, stderr: Stream?)

  /** The saved originals and the live slots. */
  datatype Config = Config(saved: Pair, live: Pair)

  /** The buffer that `enable` wires a slot to. */
  function Route(separate: bool, slot: Slot): Buffer {
    if !separate then OutputBuf
    else match slot
      case StdOut => StdoutBuf
      case StdErr => StderrBuf
  }

  /** The slot contents that `enable` installs. */
  function Routed(separate: bool, bufs: Buffers): Pair {
    Pair(bufs.Get(Route(separate, StdOut)), bufs.Get(Route(separate, StdErr)))
  }

  /**
   * `enable`: save the live slots as the originals when `original_stdout` is
   * still `None` (the test looks at `original_stdout` only), then route both
   * slots to the buffers.
   */
  function Enable(separate: bool, bufs: Buffers, c: Config): (r: Config)
    ensures !separate ==> r.live == Pair(bufs.output, bufs.output)
    ensures separate ==> r.live == Pair(bufs.stdout, bufs.stderr)
    ensures r.live.stdout != null && r.live.stderr != null
    ensures r.saved == c.saved || r.saved == c.live
    ensures r.saved.stdout == null ==> c.saved.stdout == null && c.live.stdout == null
  {
    Config(if c.saved.stdout == null then c.live else c.saved, Routed(separate, bufs))
  }

  /** `disable`: write the saved originals back into the slots; the saved pair is kept. */
  function Disable(c: Config): (r: Config)
    ensures r.live == r.saved
    ensures r.saved == c.saved
  {
    Config(c.saved, c.saved)
  }

  /** Combined mode sends both slots to the one `output` buffer. */
  lemma CombinedRouting(bufs: Buffers)
    ensures Routed(false, bufs) == Pair(bufs.output, bufs.output)
  {
  }

  /** Separate mode sends each slot to its own buffer and leaves `output` unconnected. */
  lemma SeparateRouting(bufs: Buffers, slot: Slot)
    ensures Routed(true, bufs) == Pair(bufs.stdout, bufs.stderr)
    ensures Route(true, slot) != OutputBuf
  {
  }

  /**
   * The originals are saved only while none are saved; otherwise, whether
   * capture is on or was turned off by `disable`, they stay as they were.
   */
  lemma EnableSavesOnce(separate: bool, bufs: Buffers, c: Config)
    ensures c.saved.stdout == null ==> Enable(separate, bufs, c).saved == c.live
    ensures c.saved.stdout != null ==> Enable(separate, bufs, c).saved == c.saved
    ensures c.saved.stdout != null ==> Enable(separate, bufs, Disable(c)).saved == c.saved
  {
  }

  /**
   * Enabling twice gives the routing of enabling once, and the same saved
   * originals unless `sys.stdout` was `None` at the first call.
   */
  lemma EnableTwice(separate: bool, bufs: Buffers, c: Config)
    ensures Enable(separate, bufs, Enable(separate, bufs, c)).live == Enable(separate, bufs, c).live
    ensures Enable(separate, bufs, c).saved.stdout != null ==>
      Enable(separate, bufs, Enable(separate, bufs, c)) == Enable(separate, bufs, c)
  {
  }

  /**
   * If `sys.stdout` was `None` when nothing was saved, a second `enable`
   * saves the capture buffers themselves as the originals, so a later
   * `disable` leaves the slots pointing at the buffers.
   */
  lemma EnableTwiceResaves(separate: bool, bufs: Buffers, c: Config)
    requires c.saved.stdout == null && c.live.stdout == null
    ensures Enable(separate, bufs, Enable(separate, bufs, c)).saved == Routed(separate, bufs)
    ensures Disable(Enable(separate, bufs, Enable(separate, bufs, c))).live == Routed(separate, bufs)
  {
  }

  /** `disable` installs the saved pair, keeps it, and a second `disable` changes nothing. */
  lemma DisableIdempotent(c: Config)
    ensures Disable(c).live == c.saved && Disable(c).saved == c.saved
    ensures Disable(Disable(c)) == Disable(c)
  {
  }

  /**
   * `__enter__` then `__exit__` on a capture with nothing saved puts back
   * exactly the streams that were live before; on a capture that was used
   * before, it puts back the pair saved the first time.
   */
  lemma EnterExitRestores(separate: bool, bufs: Buffers, c: Config)
    ensures c.saved.stdout == null ==> Disable(Enable(separate, bufs, c)).live == c.live
    ensures c.saved.stdout != null ==> Disable(Enable(separate, bufs, c)).live == c.saved
  {
  }

  /** No buffer is any stream that the configuration refers to. */
  predicate Foreign(bufs: Buffers, c: Config) {
    forall t: Buffer :: bufs.Get(t) != c.saved.stdout && bufs.Get(t) != c.saved.stderr &&
                        bufs.Get(t) != c.live.stdout && bufs.Get(t) != c.live.stderr
  }

  /** While capture is enabled with fresh buffers, neither slot refers to its original. */
  lemma EnabledHidesOriginals(separate: bool, bufs: Buffers, c: Config)
    requires Foreign(bufs, c)
    ensures var e := Enable(separate, bufs, c);
      e.live.stdout != e.saved.stdout && e.live.stderr != e.saved.stderr
  {
    var so, se := Route(separate, StdOut), Route(separate, StdErr);
    assert bufs.Get(so) != c.saved.stdout && bufs.Get(so) != c.live.stdout;
    assert bufs.Get(se) != c.saved.stderr && bufs.Get(se) != c.live.stderr;
  }

  /** What the three capture buffers hold. */
  datatype Texts = Texts(output: string, stdout: string, stderr: string)

  /** One `print` of `text` to a slot. */
  datatype Write = Write(slot: Slot, text: string)

  /** The buffer contents after appending `s` to buffer `t`. */
  function Append(c: Texts, t: Buffer, s: string): Texts {
    match t
    case OutputBuf => c.(output := c.output + s)
    case StdoutBuf => c.(stdout := c.stdout + s)
    case StderrBuf => c.(stderr := c.stderr + s)
  }

  /** The buffer contents after the writes `ws`, in order, with capture enabled. */
  function Emit(separate: bool, c: Texts, ws: seq<Write>): Texts
    decreases |ws|
  {
    if ws == [] then c
    else Emit(separate, Append(c, Route(separate, ws[0].slot), ws[0].text), ws[1..])
  }

  /** The texts of `ws` concatenated in emission order. */
  function Joined(ws: seq<Write>): string {
    if ws == [] then [] else ws[0].text + Joined(ws[1..])
  }

  /** The writes of `ws` made to `slot`, in order. */
  function On(slot: Slot, ws: seq<Write>): seq<Write> {
    if ws == [] then []
    else if ws[0].slot == slot then [ws[0]] + On(slot, ws[1..])
    else On(slot, ws[1..])
  }

  /** In combined mode every write, to either slot, lands in `output` in emission order. */
  lemma {:induction false} CombinedKeepsOrder(c: Texts, ws: seq<Write>)
    ensures Emit(false, c, ws) == c.(output := c.output + Joined(ws))
    decreases |ws|
  {
    if ws != [] {
      var c' := Append(c, OutputBuf, ws[0].text);
      CombinedKeepsOrder(c', ws[1..]);
      assert c.output + ws[0].text + Joined(ws[1..]) == c.output + Joined(ws);
    }
  }

  /**
   * In separate mode the stdout writes land in `stdout` and the stderr writes
   * in `stderr`, each in emission order, and `output` receives nothing.
   */
  lemma {:induction false} SeparateSplits(c: Texts, ws: seq<Write>)
    ensures Emit(true, c, ws) ==
      Texts(c.output, c.stdout + Joined(On(StdOut, ws)), c.stderr + Joined(On(StdErr, ws)))
    decreases |ws|
  {
    if ws != [] {
      var w := ws[0];
      var c' := Append(c, Route(true, w.slot), w.text);
      SeparateSplits(c', ws[1..]);
      match w.slot
      case StdOut =>
        assert On(StdOut, ws) == [w] + On(StdOut, ws[1..]);
        assert Joined([w] + On(StdOut, ws[1..])) == w.text + Joined(On(StdOut, ws[1..]));
        assert c.stdout + w.text + Joined(On(StdOut, ws[1..])) == c.stdout + Joined(On(StdOut, ws));
      case StdErr =>
        assert On(StdErr, ws) == [w] + On(StdErr, ws[1..]);
        assert Joined([w] + On(StdErr, ws[1..])) == w.text + Joined(On(StdErr, ws[1..]));
        assert c.stderr + w.text + Joined(On(StdErr, ws[1..])) == c.stderr + Joined(On(StdErr, ws));
    }
  }
}
