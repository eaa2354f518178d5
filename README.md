# EuroPy capture core in Dafny

EuroPy decorates test functions with labels (bias, fairness, accuracy, ...) and gathers what
they return, together with model details, tunable parameters and figures, into one report that
is written to `.europy/reports/<DDMMYYYY_HHMMSS>_<title>/report.json`. This project models the
capture path of that library in scripted (non-notebook) mode and proves what it promises:

- `result.dfy` (`LifecycleResult`): the nine-member `TestLabel` enumeration, `TestLabel.of`
  (lookup of a marker name among the members' *values*), `__json__`, and the four-field
  `TestResult` record. Python values are a `Value` datatype; a call's outcome is an `Outcome`
  (returned value or propagating exception).
- `reporting.dfy` (`Reporting`): the module-level report (`ReportingModule` with its `const
  report`), `get_report`, `capture`, and `flush`, whose folder and file names are pure string
  functions (`DateStr`, `Underscored`, `FolderName`, `ReportDirectory`, `ReportFile`) and whose
  file-system effect is a `Disk` value (existing folders, file contents).
- `decorators.dfy` (`Decorators`) models `decorators.py`: the label decorators (`Test`, and
  `Labelled` for the nine specialised ones, named by the `Specialised` datatype), the
  scripted-mode wrapper (`ScriptedCall`), the `using_params` overlay (`ApplySection`, a loop proved against `Overlay`; `MergedKeywords`; `UsingParamsCall`),
  `model_details` (`ModelDetailsCall`), `report_plt` (`ReportPltCall`) and the YAML/JSON
  choice (`LoaderFor`).
- `paths.dfy` (`Paths`): the two pieces of `os.path` the core uses: the text after the last
  separator (`os.path.split(p)[-1]`, `s.split('.')[-1]`) and two-argument `os.path.join`.

A decorated function is a `UserFunction`: its `__name__`, its declared argument names (what
`inspect.getfullargspec(func).args` returns) and its behaviour as a function from a `Call`
(positional values and keyword map) to an `Outcome`. `Host.Invoke` runs it and logs the call,
so the wrappers' contracts can say how often and with which arguments the original ran.
Opening and parsing a document is a parameter `load: Loader -> Loaded<T>`; the wrapper picks the
loader with `LoaderFor`, so a wrong format choice would show in the contracts.

Behaviour as written, which the model follows:

- The key of a captured result is the decorator's `name` argument (decorators.py:37); it is not
  the function's name. `test` and the nine specialised decorators default `name` and
  `description` to `None` (decorators.py:44-112); `decorator_factory`, the only way to attach
  several labels, defaults both to `""` (decorators.py:22-24), and so does `capture` for the
  description when it is called directly (reporting.py:20).
- A `TestResult` has exactly `key`, `labels`, `result` and `description`; there is no success
  flag (result.py:27-35).
- When the original returns a `TestResult`, the wrapper records nothing and returns `None`
  (decorators.py:33-37).
- `using_params` reads a top-level `global` section and a section named after the function
  (decorators.py:198-205), not the `a_func.param1` prefixes its docstring describes
  (decorators.py:163-169). Configured values override the caller's keywords of the same name.
- A base name without any '.' is its own extension, so a file called `yml` is read as YAML.
- Two titles give the same report folder name exactly when they differ only in spaces against
  underscores (`model card`, `model_card`).
- `model_details` passes the details object itself; changes the function makes to it are what
  gets recorded, and when the object is the report's own they reach the report at once.

## Model

| member | source | states |
|---|---|---|
| `LifecycleResult.LabelsAreNineDistinctValues` | europy/lifecycle/result.py:8-17 | `TestLabel` has exactly nine members and their string values are pairwise distinct |
| `LifecycleResult.LabelValueInjective` | europy/lifecycle/result.py:8-17 | two members with the same value are the same member |
| `LifecycleResult.FindByValue` | europy/lifecycle/result.py:19-21 | the value lookup finds a candidate whose value is the name, or reports that no candidate has it |
| `LifecycleResult.Of` | europy/lifecycle/result.py:19-21 | `TestLabel.of(mark)` succeeds exactly when some member's value equals `mark.name`, returns that member, and otherwise fails with a `ValueError` naming the value |
| `LifecycleResult.JsonRoundTrip` | europy/lifecycle/result.py:19-24 | `of` applied to a marker named after a member's `__json__` string gives back that member |
| `LifecycleResult.OfRejectsIdentifiers` | europy/lifecycle/result.py:8-21 | member identifiers such as `DATA_BIAS` and the decorator names `data_bias`, `minimum_functionality` are not values, so `of` fails on them |
| `Paths.AfterLast` | europy/decorators.py:192 | the text after the last separator is a suffix of the input, holds no separator, and is the whole input or follows a separator |
| `Paths.JoinRelative` | europy/lifecycle/reporting.py:31 | `os.path.join` of a folder and a relative name inserts one '/' and keeps the name's last segment |
| `Paths.JoinFileName` | europy/lifecycle/reporting.py:38 | `os.path.join` of a non-empty folder and a plain file name keeps the folder as a prefix and makes the name the last path segment |
| `Reporting.Digits` | europy/lifecycle/reporting.py:29 | a zero-padded field has exactly the requested width and only decimal digits |
| `Reporting.DigitsRoundTrip` | europy/lifecycle/reporting.py:29 | reading a zero-padded field back gives the number written |
| `Reporting.Underscored` | europy/lifecycle/reporting.py:30 | `title.replace(' ', '_')` keeps the length and turns every space, and only spaces, into '_' |
| `Reporting.UnderscoredSpaceFree` | europy/lifecycle/reporting.py:30 | the replaced title has no space, the replacement is idempotent, and a title without spaces is kept |
| `Reporting.UnderscoredCollisions` | europy/lifecycle/reporting.py:30 | two titles give the same folder title exactly when they differ only in ' ' against '_' |
| `Reporting.FolderNameTimestamp` | europy/lifecycle/reporting.py:29-31 | the folder name is the `DDMMYYYY_HHMMSS` timestamp, '_', then the title, and the timestamp can be read back from it |
| `Reporting.FolderNameSpaceFree` | europy/lifecycle/reporting.py:29-31 | the last path segment of the report folder contains no space |
| `Reporting.ReportDirectoryShape` | europy/lifecycle/reporting.py:10-31 | the folder is `.europy/reports/` followed by the folder name and contains no space |
| `Reporting.ReportFileName` | europy/lifecycle/reporting.py:37-38 | the output file lies inside the report folder and is always named `report.json` |
| `Reporting.Report.constructor` | europy/lifecycle/reporting.py:9 | a new report has its creation timestamp and initial details, and no parameters, figures or results |
| `Reporting.Report.Capture` | europy/lifecycle/reporting.py:22 | `report.capture` appends one result and changes nothing else |
| `Reporting.Report.CaptureModelDetails` | europy/decorators.py:151 | the details are replaced wholesale; nothing else changes |
| `Reporting.Report.CaptureParameters` | europy/decorators.py:214 | the parameter map recorded for the function name is set, later calls win; nothing else changes |
| `Reporting.Report.CaptureFigure` | europy/decorators.py:245 | one (metadata, figure) pair is appended; nothing else changes |
| `Reporting.ReportingModule.constructor` | europy/lifecycle/reporting.py:9-10 | importing the module creates one fresh, empty report |
| `Reporting.ReportingModule.GetReport` | europy/lifecycle/reporting.py:13-14 | `get_report` returns the module-level instance itself every time |
| `Reporting.ReportingModule.Capture` | europy/lifecycle/reporting.py:17-23 | `capture` returns a `TestResult` whose four fields are exactly its arguments, appends that result once and removes none; `description` defaults to `""` |
| `Reporting.ReportingModule.Flush` | europy/lifecycle/reporting.py:27-40 | `flush` creates the report folder exactly when it is absent, opens `report.json` in it, which empties it, then writes the serialised report, or leaves it empty and fails when serialisation raises; it assigns no report field |
| `Reporting.FlushTwice` | europy/lifecycle/reporting.py:33-34 | a second flush with no capture in between creates no folder and leaves the disk as the first left it |
| `Decorators.Host.Invoke` | europy/decorators.py:31 | the original is called once with the given arguments and its outcome is passed on |
| `Decorators.LabelOfBijective` | europy/decorators.py:52-112 | the nine specialised decorators and the nine members correspond one to one |
| `Decorators.CombinatorLabels` | europy/decorators.py:52-112 | each specialised decorator passes a one-element list whose label is its own member's value, keeps the name and description it is given (`None` by default), and the label, like that of `test` given a member's value, reads back through `of` |
| `Decorators.FactoryDefaults` | europy/decorators.py:22-50 | `decorator_factory` used directly keeps its label list and records key `""` and description `""`; `test` and the specialised decorators default both to `None` |
| `Decorators.DecoratorNamesAsMarkers` | europy/decorators.py:59-63 | a marker named after a one-word decorator converts to its member; `data_bias` and `minimum_functionality` markers raise |
| `Decorators.ScriptedCall` | europy/decorators.py:30-37 | the wrapper calls the original once; a non-`TestResult` value is captured once with the decorator's name, labels and description and the captured result is returned; a `TestResult` is not captured and `None` is returned; an exception propagates uncaptured |
| `Decorators.ScriptedCallTwice` | europy/decorators.py:33-37 | two calls of one wrapper add two results, both carrying the decorator's label list, and keep the earlier ones |
| `Decorators.ExtensionIs` | europy/decorators.py:137 | the text after the last '.' of the base name is `e` exactly when the path ends in `e` preceded by '.', by '/' or by nothing |
| `Decorators.LoaderChoice` | europy/decorators.py:192 | the YAML loader is chosen exactly when the base name's extension is `yml` or `yaml`; JSON otherwise |
| `Decorators.ApplySection` | europy/decorators.py:198-205 | the loop writes exactly the entries whose key is a declared argument and leaves every other keyword as it was |
| `Decorators.OverlayPrecedence` | europy/decorators.py:198-207 | function-specific entries beat global ones, both beat the caller's keyword, undeclared keys are ignored, other caller keywords pass through, and missing sections contribute nothing |
| `Decorators.FunctionSectionWins` | europy/decorators.py:198-205 | with `{global: {x: 1}, f: {x: 2}}` the function `f(x)` receives exactly `x=2` |
| `Decorators.UsingParamsCall` | europy/decorators.py:179-216 | a document that cannot be read raises before the call; otherwise the function runs once on the merged keywords, and only with `report` set and a normal return is the merged map recorded under the function's name |
| `Decorators.ModelDetailsCall` | europy/decorators.py:125-153 | the details are the report's object or the file's; the object is passed as `details` only when declared; the function runs once; after it returns the object, with the function's changes, is recorded and its value is returned unchanged; changes to the report's own object persist even if the function raises |
| `Decorators.ReportPltCall` | europy/decorators.py:233-247 | `img_metadata` is passed only when declared; the function runs once; one (metadata, figure) pair is recorded and `(figure, metadata)` returned, nothing when the call raises or its result does not unpack |

## Left out

- Notebook mode: `isnotebook` inspects the running interpreter for `get_ipython`, and its branch
  registers a `TestPromise` through `put_test`, neither of which is part of this model. The
  model is the scripted branch, where `isnotebook()` is false.
- File I/O: opening files, `os.path.exists`, `os.makedirs`, JSON and YAML parsing. A document
  read is the `load` parameter; the folders and files `flush` touches are a `Disk` value.
- `Reporting.ReportingModule.Flush`: `os.makedirs` also creates missing parent folders
  (`.europy`, `.europy/reports`); the `Disk` records only the report folder. The serialised
  text (or `None` when serialising raises) is a parameter because `Report.to_dictionaries` is
  not part of this model.
- The `Report`, `ModelDetails` and `ReportFigure` classes are not part of this model: `Report`
  is the least class the core needs (each capture method changes only its own field),
  `ModelDetails` is a title plus fields, a `ReportFigure` is its title. The one field
  `Report.details` stands both for `report.details`, whose title `flush` reads
  (reporting.py:30), and for `report.model_card['details']`, which `model_details` reads and
  `capture_model_details` writes (decorators.py:129-153); the model takes the two to be the same
  object, and the link from `ModelDetailsCall` to `Flush` rests on that.
- A title containing '/' names nested folders: `Disk.dirs` compares path strings, so titles
  such as `a` and `a/`, which name one folder, count as two here, and `UnderscoredCollisions`
  speaks of the folder name, not of the folder it resolves to.
- Argument reflection: `inspect.getfullargspec(func).args` is supplied as the `args` list of a
  `UserFunction`; keyword-only parameters, which it does not list, are not injected.
- `Decorators.ScriptedCallTwice`: in Python every call of one wrapper passes the same `labels`
  list object to `capture` (decorators.py:37), and `TestResult` stores it without copying
  (result.py:34), so a caller that appends to `r.labels` of a returned result, or to the list it
  gave `decorator_factory`, changes the labels of every earlier and later result of that
  decorator. Label lists are values here, so the model does not capture this aliasing: its
  results keep the label list the factory was built with.
- Only POSIX paths are modelled: `Paths.Join` inserts '/' and `Paths.AfterLast` splits at '/'
  only, whereas on Windows `os.path.join` inserts '\\' and `os.path.split` also splits at
  '\\'.
- A user function is a pure function of its arguments, except that under `model_details` it may
  change the details object it receives (the `leaves` parameter). Anything it does to the report
  through `get_report` is not modelled, so "the hook runs after the function returns" shows as
  the hook receiving the state after the call, and as no hook running when the function raises.
- A positional argument that clashes with an injected keyword (Python raises `TypeError`) is not
  modelled; positional arguments are passed through untouched.
- Documents whose top level or whose `global`/function section is not a mapping (Python raises
  when it calls `.get` or `.items` on them) are excluded by the `Config` type.
- `Decorators.ReportPltCall`: as written, the wrapper first runs `from europy.lifecycle.reporting
  import report_directory` (decorators.py:235), but `report_directory` is only a local variable
  of `flush` (reporting.py:31), so the import raises `ImportError` before the function runs. The
  model assumes that import succeeds, as it treats `put_test`.
- `Decorators.ReportPltCall`: only a two-element tuple unpacks into `(plt, metadata)`; other
  two-element iterables that Python would also unpack (a list, a two-character string) are
  treated as failing.
- Exceptions are strings; the exception classes are not distinguished.
- `strftime('%Y')` is modelled as four zero-padded digits; platforms that do not pad years
  before 1000 are not modelled.
- `using_params` reads the report's earlier parameters for the function (decorators.py:186-189)
  and computes `file_name` (decorators.py:184) but overwrites or never uses them; these reads
  have no effect and are not modelled.
- `bias` accepts an extra argument `x` that it ignores.
- Floats and pandas `DataFrame`s are opaque values.
- `setup.py` and `tests/conftest.py`: packaging and test configuration, no logic.
