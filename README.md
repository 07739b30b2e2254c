# OutputCapture (attribute mode) in Dafny

This project models `OutputCapture` from testfixtures. `OutputCapture` is a
context manager that points `sys.stdout` and `sys.stderr` at in-memory
buffers for the length of a `with` block. On exit it puts back the streams it
found, and afterwards it compares what was printed with what a test expected.
Only attribute mode (`fd=False`) is modelled.

- `text.dfy`, module `Text`: Python's `str.strip()`. `compare` applies it to
  both sides before comparing.
- `streams.dfy`, module `Streams`: stream objects (`Stream`) and the two
  process-wide slots `sys.stdout`/`sys.stderr` (`Sys`). `Sys.Write` stands in
  for `print(..., file=sys.stdout)`: it appends a string to the stream the slot
  refers to at that moment. As in CPython's `print`, a `None` slot falls back
  to `sys.stdout`, and the text is dropped only when that is `None` too.
- `redirect.dfy`, module `Redirect`: the save/route/restore logic on values.
  `Enable` and `Disable` act on a `Config`, which is the saved originals plus
  the live slots. `Emit` gives what a run of writes leaves in the three
  buffers. The lemmas here state the properties.
- `capture.dfy`, module `Capture`: the class `OutputCapture`. Its fields are
  `separate`, `original_stdout`/`original_stderr` and the three buffers.
  `Enter`, `Exit`, `Enable` and `Disable` are proved to change the state
  exactly as `Redirect.Enable`/`Redirect.Disable` say. The function `Captured`
  is the `captured` property. `Stream.Value` is `_read` (`getvalue()`).
  `Compare` is the loop over the three (prefix, expected, captured) triples.
- `capture_tests.dfy`, module `CaptureTests`: `with OutputCapture(...)` blocks
  around prints, one method per attribute-mode test. Each states what the test
  asserts.

Python's `None` is `null`. `OutputCapture` starts with `original_stdout` set
to `None`, and `disable` can install `None` in the slots. `compare` raises
`AssertionError` on a mismatch. The model returns `Mismatch(prefix, expected,
actual)` instead: `prefix` is `None`, `"stdout"` or `"stderr"`, and the two
texts are stripped.

The docstrings of `disable` and `enable` ("Disable the output capture if it
is enabled", "Enable the output capture if it is disabled",
testfixtures/outputcapture.py:51, 65) suggest a plain on/off switch. The code
does more than that: `disable` never clears the saved originals
(testfixtures/outputcapture.py:61-62), and `enable` saves only while
`original_stdout` is `None` (testfixtures/outputcapture.py:66). The model
follows the code. The saved pair is taken once per `OutputCapture` object, at the first `enable`
that finds `original_stdout` still `None`. Every later `disable` restores that
pair, including in a second `with` block on the same object
(`Redirect.EnterExitRestores`). There is one consequence the tests do not
exercise. Suppose `sys.stdout` is `None` when capture first starts. Then
`original_stdout` stays `None`, a second `enable` saves the capture buffers
themselves as the originals, and the exit leaves the slots on the buffers
(`Redirect.EnableTwiceResaves`).

## Model

| member | source | states |
|---|---|---|
| `Text.AsciiSpace` | testfixtures/outputcapture.py:119 | `Text.IsSpace`, the characters `str.strip()` removes, is Python 3's `str.isspace()`; among ASCII characters it holds exactly for space, tab, newline, carriage return, vertical tab, form feed and the four separators U+001C to U+001F |
| `Text.Strip` | testfixtures/outputcapture.py:119 | the stripped text is no longer than the input, and neither of its ends is whitespace |
| `Text.StripIsPadded` | testfixtures/outputcapture.py:119 | stripping removes only whitespace, and only at the two ends: the result occurs in the input between an all-whitespace prefix and an all-whitespace suffix |
| `Text.StripPadded` | testfixtures/outputcapture.py:119 | a text with no whitespace at its ends, padded on both sides with whitespace, strips back to itself |
| `Text.StripIdempotent` | testfixtures/outputcapture.py:119 | stripping twice is stripping once |
| `Text.StripIgnoresPadding` | testfixtures/tests/test_outputcapture.py:12-15 | extra whitespace on either side never changes the stripped text, which is why printing " Bar! " compares equal to "Bar!" |
| `Text.StripEmptyIffAllSpace` | testfixtures/outputcapture.py:119 | a text strips to the empty string exactly when every character is whitespace |
| `Streams.Sys.Write` | testfixtures/tests/test_outputcapture.py:19-22 | a print to a slot appends its text to the stream `Sys.Dest` picks at that moment and touches no other stream; `Sys.Dest` is the slot's stream, or `sys.stdout` when the slot holds None, so the text is dropped only when `sys.stdout` is None too |
| `Streams.Stream.Value` | testfixtures/outputcapture.py:87-92 | `_read` in attribute mode (`getvalue()`) returns the buffer's text; that this is everything written so far is carried by `Streams.Sys.Write`, which appends each print to it, and by `CaptureTests.CaptureWrites` |
| `Redirect.Enable` | testfixtures/outputcapture.py:64-85 | after `enable` both slots refer to `output` in combined mode, and stdout to `stdout` and stderr to `stderr` in separate mode, so never to None; the saved pair is either the one saved before or the slots live at the call; it is still None only if nothing was saved and `sys.stdout` was None |
| `Redirect.Disable` | testfixtures/outputcapture.py:50-62 | after `disable` the slots hold exactly the saved pair, which is not cleared |
| `Redirect.CombinedRouting` | testfixtures/outputcapture.py:84-85 | in combined mode both slots are routed to the single `output` buffer |
| `Redirect.SeparateRouting` | testfixtures/outputcapture.py:77-79 | in separate mode stdout goes to `stdout`, stderr goes to `stderr`, and no slot is routed to `output` |
| `Redirect.EnableSavesOnce` | testfixtures/outputcapture.py:66-72 | `enable` saves the live slots only when `original_stdout` is None; otherwise the saved pair is unchanged, also after a `disable` |
| `Redirect.EnableTwice` | testfixtures/outputcapture.py:64-85 | enabling twice gives the same routing as enabling once, and the same whole state once something non-None is saved |
| `Redirect.EnableTwiceResaves` | testfixtures/outputcapture.py:66-72 | if `sys.stdout` was None at the first `enable`, a second `enable` saves the buffers as originals and a later `disable` leaves the slots on them |
| `Redirect.DisableIdempotent` | testfixtures/outputcapture.py:60-62 | `disable` installs the saved pair, keeps it, and a second `disable` changes nothing |
| `Redirect.EnterExitRestores` | testfixtures/outputcapture.py:35-48 | enter then exit on a fresh capture restores exactly the pre-entry slots; on a reused capture it restores the pair saved the first time |
| `Redirect.EnabledHidesOriginals` | testfixtures/outputcapture.py:64-85 | with buffers distinct from every stream already in use, neither slot refers to its saved original while capture is enabled |
| `Redirect.CombinedKeepsOrder` | testfixtures/outputcapture.py:84-85 | in combined mode every write to either slot lands in `output`, concatenated in emission order, and the other buffers are untouched |
| `Redirect.SeparateSplits` | testfixtures/outputcapture.py:73-79 | in separate mode `stdout` receives exactly the stdout writes and `stderr` exactly the stderr writes, each in order, and `output` receives nothing |
| `Capture.OutputCapture.constructor` | testfixtures/outputcapture.py:28-33 | a new capture records `separate` and has no originals saved and no buffers |
| `Capture.OutputCapture.Enter` | testfixtures/outputcapture.py:35-45 | `__enter__` allocates three fresh, distinct, empty buffers and then changes originals and slots as `enable` does |
| `Capture.OutputCapture.Exit` | testfixtures/outputcapture.py:47-48 | `__exit__` changes the slots as `disable` does |
| `Capture.OutputCapture.Disable` | testfixtures/outputcapture.py:50-62 | the slots become the saved originals, and the saved pair and buffers stay as they are |
| `Capture.OutputCapture.Enable` | testfixtures/outputcapture.py:64-85 | the originals are saved if `original_stdout` is None, and the slots are routed to the buffers by the `separate` flag; the buffers stay as they are |
| `Capture.OutputCapture.Captured` | testfixtures/outputcapture.py:95-98 | the `captured` property returns the combined `output` buffer's text; that this is every print in emission order (empty in separate mode) is proved by `CaptureTests.CaptureWrites` |
| `Capture.OutputCapture.Compare` | testfixtures/outputcapture.py:100-119 | passes exactly when all three stripped pairs are equal; otherwise reports the first mismatching pair, in the order combined (no prefix), "stdout", "stderr", with its stripped texts |
| `Capture.EmptyExpectationMatches` | testfixtures/outputcapture.py:100 | the default expected text "" matches a buffer exactly when the buffer is all whitespace, so `compare()` with no arguments passes exactly when every buffer is |
| `CaptureTests.CompareNoArguments` | testfixtures/outputcapture.py:100-119 | `compare()` with no arguments passes exactly when all three buffers hold only whitespace; otherwise it reports the first buffer that does not, in the order combined, "stdout", "stderr", against the empty expectation |
| `CaptureTests.CaptureWrites` | testfixtures/tests/test_outputcapture.py:17-37 | after a `with` block around any prints, `captured` is every print in emission order (empty in separate mode), each separate buffer holds its own slot's prints, and both slots are back to the pre-block streams |
| `CaptureTests.CompareStrips` | testfixtures/tests/test_outputcapture.py:12-15 | printing " Bar! " and comparing with "Bar!" passes |
| `CaptureTests.StdoutAndStderr` | testfixtures/tests/test_outputcapture.py:17-23 | the four interleaved prints compare equal to "hello\nout\nthere\nnow\n" |
| `CaptureTests.UnicodeText` | testfixtures/tests/test_outputcapture.py:25-28 | a non-ASCII character is captured and compares equal |
| `CaptureTests.SeparateCapture` | testfixtures/tests/test_outputcapture.py:30-37 | separate mode gives stdout "hello\nthere\n", stderr "out\nnow\n" and an empty combined buffer |
| `CaptureTests.OriginalRestore` | testfixtures/tests/test_outputcapture.py:39-45 | inside the block neither slot is its pre-block stream; after it both are |
| `CaptureTests.DoubleDisable` | testfixtures/tests/test_outputcapture.py:47-59 | `disable` restores the pre-block streams, and a second `disable` and the exit keep them |
| `CaptureTests.DoubleEnable` | testfixtures/tests/test_outputcapture.py:61-74 | `enable` after `disable`, twice, captures again without re-saving, so the exit restores the pre-block streams |

## Left out

- Descriptor mode (`fd=True`, testfixtures/outputcapture.py:36-39, 52-58, 67-69, 74-76, 81-83, 88-90, 117-118) is not modelled. It works through `os.dup`, `os.dup2`, `os.close`, `TemporaryFile` and `seek` on the process's descriptor table, which are calls into the operating system.
- The two subprocess tests (testfixtures/tests/test_outputcapture.py:78-90) are not modelled. They rely on child processes writing to inherited descriptors.
- `testfixtures.comparison.compare` is not part of this model. Its diff and message formatting are reduced to the verdict, the prefix and the two stripped texts.
- Python's `print` is reduced to appending a given string. The tests' trailing newlines are written out in the strings, and `sep`/`end` handling is not modelled.
- Text versus bytes (`Unicode`, `.encode()`) is not modelled: all text is `seq<char>`. `Text.IsSpace` is Python 3's `str.isspace()`, not the ASCII-only set of Python 2 byte strings.
- Python's guarantee that `__exit__` runs when the block raises is not modelled. `Enter` and `Exit` are ordinary methods that callers pair explicitly.
- Nested or concurrent captures on the same process are not modelled. The code does not address them.
- Capture.OutputCapture.Enable: requires the buffers to exist. Called before `__enter__`, Python saves the originals and then fails with `AttributeError`; that partial effect is not modelled.
- Capture.OutputCapture.Captured: requires the `output` buffer to exist. Read before `__enter__`, Python raises `AttributeError`.
- Capture.OutputCapture.Compare: requires the buffers to exist. Python raises `AttributeError` before `__enter__`.
- CaptureTests.DoubleEnable: requires `sys.stdout` to be a stream on entry, as it is under a test runner. With `None` there, the test's final check fails (see `Redirect.EnableTwiceResaves`).
- `original_stdout`/`original_stderr` are class attributes in Python and are shadowed per instance on first assignment. They are modelled as instance fields that start as `null`.
