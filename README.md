# Multithreaded video pipeline: source resolution and driver loop

This project models the two sequential pieces of `run.py`, a sample that
captures video on one thread (`VideoGet`), displays it on another
(`VideoShow`) and uses the main thread to pass frames between them.

- `source_resolution.dfy`, module `SourceResolution`: how `main` turns the
  `--source` value into what the capture stage opens. A string of decimal
  digits that names no existing file becomes an integer camera index; the
  integer default 0, file paths and stream URLs are kept as they are. The
  digit test and `int()` are a small verified decimal parser (`IsDigits`,
  `DecimalValue`), checked against the canonical printer `Decimal` (`str(n)`).
  `os.path.isfile` is the oracle parameter `fileExists`.
- `pipeline.dfy`, module `Pipeline`: the `while True` loop of `threadBoth`.
  A `Stage` class holds the fields the driver touches (`stopped`, `frame`),
  a ghost count of `stop()` calls and a ghost role; `stop()` records itself in
  a shared ghost `Log`, so the order of the two calls is part of what is
  proved. The capture and display threads are an
  environment: before each check of the driver, `OtherThreadsRun` applies one
  `Observation` (the newest captured frame, and whether either thread has
  stopped; a stopped flag is never cleared). `ThreadBoth` runs the driver over
  a finite sequence of observations and is proved against `DriverEvents`, the
  trace of the driver's own actions (hand a resized frame over, stop a
  stage) that `log` receives; the lemmas about `DriverEvents` and `FirstStop` state the shutdown
  rules. The image resize is the parameter `resize`, and `Frame` is an opaque
  type. `QuitKeyScenario` and `UnavailableSourceScenario` are two clients that
  show what callers can conclude from these contracts.

`run.py:54` resizes every frame the driver reads, with no check for an empty
frame; `DriverStep` adds no guard either.

## Model

| member | source | states |
|---|---|---|
| SourceResolution.ResolveSource | run.py:67-72 | A non-string source (the default 0) is returned unchanged; a string result is always the input string unchanged; a string becomes an integer exactly when it is non-empty, all digits and names no existing file; that integer is the string's value, whose canonical spelling is the string without leading zeros. |
| SourceResolution.DecimalValue | run.py:72 | `int(s)` of a digit string of length k is below 10^k. |
| SourceResolution.DecimalOfValue | run.py:69-72 | Printing the value of a digit string gives back the string with its leading zeros stripped. |
| SourceResolution.DecimalRoundTrip | run.py:72 | Reading back the canonical decimal spelling of any natural number gives that number. |
| SourceResolution.ResolveCanonical | run.py:67-72 | For every camera index n, the string `str(n)` with no file of that name resolves to `Int(n)`. |
| SourceResolution.LeadingZerosNotKept | run.py:69-72 | "007" with no such file resolves to 7, whose spelling is "7": resolution is not invertible. |
| SourceResolution.SameIndexSameDigits | run.py:67-72 | Two strings that resolve to the same index differ only in leading zeros. |
| SourceResolution.LeadingZeroValue | run.py:72 | A leading '0' does not change the value of a digit string. |
| SourceResolution.CanonicalDigits | run.py:72 | A digit string without leading zeros is the canonical spelling of its value. |
| Pipeline.Stage.Start | run.py:42-44 | A started stage has its role, holds its initial frame and no `stop()` call yet; its initial `stopped` flag is a free input of the environment. |
| Pipeline.Stage.Stop | run.py:48-49 | `stop()` sets the stage's `stopped` flag, counts one call and appends its own stop to the shared log; the stage's frame does not change. |
| Pipeline.OtherThreadsRun | run.py:42-44 | Between two driver checks the capture thread publishes its newest frame and either thread may set its own flag; a set flag stays set. |
| Pipeline.DriverStep | run.py:47-55 | If either flag is set, the step stops the display stage and then the capture stage, once each (the log gains exactly those two stops in that order, from the calls themselves), and writes no frame; otherwise it sets the display frame to `resize(f, 1080)` of the capture frame `f` it read, and changes neither flag nor the capture stage. |
| Pipeline.ThreadBoth | run.py:46-55 | The log gains exactly `DriverEvents` of the initial flags and the environment; it exits exactly when a stop is seen within the environment, then with both stages stopped and each `stop()` called once; otherwise no `stop()` is called, and, when the environment is not empty, neither stage is stopped; the display frame is the seed if the exit is at the first check, else the resized frame read in the last iteration. |
| Pipeline.FirstStopIsFirst | run.py:46-50 | The driver exits at the first iteration at which it reads a set flag, and never at an iteration where both flags read false. |
| Pipeline.DriverEventsShape | run.py:46-55 | Before the exit, iteration j hands over exactly `resize` of the frame read at iteration j (latest wins); the exit appends the display stage's stop followed by the capture stage's stop, and nothing else. |
| Pipeline.StopsOnceAndLast | run.py:47-50 | Each stage is stopped exactly once if the driver exits and never otherwise; the only stop events are the last two of the trace, display stage first. |

## Left out

- The process pool of `main` (run.py:76-82): `threadBoth` is called eagerly and its `None` result is handed to `p.map`, whose failure the bare `except` swallows; the pool does no useful work.
- Threads and memory visibility: `VideoGet` and `VideoShow` are not part of this model; their loops are reduced to the environment step `OtherThreadsRun`, and a finite sequence of observations stands for the scheduler, so `ThreadBoth` also ends without exiting when the sequence runs out.
- Video capture, display, key polling and the resource release inside `stop()`: external capabilities; `Stage.Stop` only sets the flag and counts the call.
- `imutils.resize`: image arithmetic; it is the pure parameter `resize`, so no width or aspect-ratio property of the result is stated.
- Pipeline.DriverStep: takes `resize` to be total. `imutils.resize` reads the frame's `shape`, so on a frame without one (the `None` a failed read leaves) run.py:54 raises; the exception leaves the `while True` loop without calling either `stop()`, which the model does not capture.
- Pipeline.Stage.Start: whether a stage is already stopped when the driver first looks (for instance a capture stage whose source did not open) is an assumption of the environment, not something `run.py` shows.
- `os.path.isfile`: the oracle parameter `fileExists`.
- argparse, the logging setup (run.py:23-31) and `print(__doc__)`.
- SourceResolution.ResolveSource: treats only ASCII '0'..'9' as digits, and differs from run.py:69-72 in three ways. (1) Unicode decimal digits such as Arabic-Indic "٣" or fullwidth "３" pass `str.isdigit` and are read by `int()`, so `run.py` gives `Int(3)` where the model keeps `Str`. (2) Other Unicode digits such as superscript "²" pass `str.isdigit` but make `int()` raise `ValueError`, outside any `try`, which ends `main`; the model keeps `Str`. (3) CPython's `int()` raises `ValueError` on a digit string longer than its integer string conversion limit (4300 digits by default); the model returns `Int`.
