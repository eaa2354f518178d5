/**
 `europy/decorators.py` in scripted (non-notebook) mode: the labelling decorators that run a
 check and capture its return value, `using_params`, which overlays configured values onto the
 call's keyword arguments, `model_details` and `report_plt`, which inject a keyword argument
 and record what the check produced, and the file-extension test that picks YAML or JSON.
 */
module Decorators {
  import opened LifecycleResult
  import opened Paths
  import opened Reporting

  // ---------------------------------------------------------------------------------------
  // Checks and their calls
  // ---------------------------------------------------------------------------------------

  /** The arguments of one call: positional values and the keyword map. */
  datatype Call = Call(positional: seq<Value>, keywords: map<string, Value>)

  /**
   A decorated Python function: its `__name__`, the argument names `getfullargspec(func).args`
   declares, and what calling it does (return a value or raise).
   */
  datatype UserFunction = UserFunction(name: string, args: seq<string>, body: Call -> Outcome)

  /** One call of a decorated function, by name and with the arguments it received. */
  datatype Invocation = Invocation(funcName: string, call: Call)

  /** The interpreter, as far as the wrappers use it: it runs user functions and we log each run. */
  class Host {
    var invocations: seq<Invocation>

    constructor ()
      ensures invocations == []
    {
      invocations := [];
    }

    /** Runs `f` once on `c`. */
    method Invoke(f: UserFunction, c: Call) returns (o: Outcome)
      modifies this
      ensures invocations == old(invocations) + [Invocation(f.name, c)]
      ensures o == f.body(c)
    {
      invocations := invocations + [Invocation(f.name, c)];
      o := f.body(c);
    }
  }

  // ---------------------------------------------------------------------------------------
  // The labelling decorators
  // ---------------------------------------------------------------------------------------

  /** What `decorator_factory` closes over: the label list, the name and the description. */
  datatype Factory = Factory(labels: seq<LabelItem>, name: Option<string>, description: Option<string>)

  /**
   `decorator_factory(labels, name, description)`: the only way to attach several labels. Used
   directly, its name and description default to the empty string, not to `None`.
   */
  function DecoratorFactory(labels: seq<LabelItem>, name: Option<string> := Some(""), description: Option<string> := Some("")): Factory
  {
    Factory(labels, name, description)
  }

  /** `test(label, name, description)`: a one-element list holding the given label string. */
  function Test(text: string := "", name: Option<string> := None, description: Option<string> := None): Factory
  {
    DecoratorFactory([Text(text)], name, description)
  }

  /**
   The nine specialised decorators: `bias`, `data_bias`, `fairness`, `transparency`,
   `accountability`, `accuracy`, `unit`, `integration` and `minimum_functionality`.
   */
  datatype Specialised =
    | BiasDecorator
    | DataBiasDecorator
    | FairnessDecorator
    | TransparencyDecorator
    | AccountabilityDecorator
    | AccuracyDecorator
    | UnitDecorator
    | IntegrationDecorator
    | MinimumFunctionalityDecorator

  /** The Python name each specialised decorator is declared under. */
  function PythonName(d: Specialised): string
  {
    match d
    case BiasDecorator => "bias"
    case DataBiasDecorator => "data_bias"
    case FairnessDecorator => "fairness"
    case TransparencyDecorator => "transparency"
    case AccountabilityDecorator => "accountability"
    case AccuracyDecorator => "accuracy"
    case UnitDecorator => "unit"
    case IntegrationDecorator => "integration"
    case MinimumFunctionalityDecorator => "minimum_functionality"
  }

  /** The one member each specialised decorator puts in its label list. */
  function LabelOf(d: Specialised): TestLabel
  {
    match d
    case BiasDecorator => Bias
    case DataBiasDecorator => DataBias
    case FairnessDecorator => Fairness
    case TransparencyDecorator => Transparency
    case AccountabilityDecorator => Accountability
    case AccuracyDecorator => Accuracy
    case UnitDecorator => Unit
    case IntegrationDecorator => Integration
    case MinimumFunctionalityDecorator => MinimumFunctionality
  }

  /** `bias(name, description)` and its eight siblings. Name and description default to `None`. */
  function Labelled(d: Specialised, name: Option<string> := None, description: Option<string> := None): Factory
  {
    DecoratorFactory([Tag(LabelOf(d))], name, description)
  }

  /** The decorator whose label is `l`. */
  function DecoratorFor(l: TestLabel): Specialised
  {
    match l
    case Bias => BiasDecorator
    case DataBias => DataBiasDecorator
    case Fairness => FairnessDecorator
    case Transparency => TransparencyDecorator
    case Accountability => AccountabilityDecorator
    case Accuracy => AccuracyDecorator
    case Unit => UnitDecorator
    case Integration => IntegrationDecorator
    case MinimumFunctionality => MinimumFunctionalityDecorator
  }

  /** The nine decorators cover the nine members one to one. */
  lemma LabelOfBijective(d: Specialised, e: Specialised, l: TestLabel)
    ensures DecoratorFor(LabelOf(d)) == d && LabelOf(DecoratorFor(l)) == l
    ensures LabelOf(d) == LabelOf(e) ==> d == e
  {
    match d
    case BiasDecorator =>
    case DataBiasDecorator =>
    case FairnessDecorator =>
    case TransparencyDecorator =>
    case AccountabilityDecorator =>
    case AccuracyDecorator =>
    case UnitDecorator =>
    case IntegrationDecorator =>
    case MinimumFunctionalityDecorator =>
    match e
    case BiasDecorator =>
    case DataBiasDecorator =>
    case FairnessDecorator =>
    case TransparencyDecorator =>
    case AccountabilityDecorator =>
    case AccuracyDecorator =>
    case UnitDecorator =>
    case IntegrationDecorator =>
    case MinimumFunctionalityDecorator =>
  }

  /**
   Each specialised decorator passes the one-element list of its own member, with `None` name
   and description by default; the label reads back through `TestLabel.of`, as does the label
   of `test` given a member's value.
   */
  lemma CombinatorLabels(d: Specialised, l: TestLabel, name: Option<string>, description: Option<string>)
    ensures |Labelled(d, name, description).labels| == 1
    ensures LabelText(Labelled(d, name, description).labels[0]) == LabelValue(LabelOf(d))
    ensures Labelled(d, name, description).name == name && Labelled(d, name, description).description == description
    ensures Labelled(d).name == None && Labelled(d).description == None
    ensures Of(Mark(LabelText(Labelled(d).labels[0]))) == Found(LabelOf(d))
    ensures Of(Mark(LabelText(Test(LabelValue(l)).labels[0]))) == Found(l)
  {
    assert LabelText(Labelled(d).labels[0]) == LifecycleResult.Json(LabelOf(d));
    JsonRoundTrip(LabelOf(d));
    assert LabelText(Test(LabelValue(l)).labels[0]) == LifecycleResult.Json(l);
    JsonRoundTrip(l);
  }

  /**
   The defaults differ by entry point: `decorator_factory` called directly records the key `""`
   and the description `""`, while `test` and the specialised decorators pass `None` for both.
   Every entry point keeps the label list it was given.
   */
  lemma FactoryDefaults(labels: seq<LabelItem>, text: string, d: Specialised)
    ensures DecoratorFactory(labels).labels == labels
    ensures DecoratorFactory(labels).name == Some("") && DecoratorFactory(labels).description == Some("")
    ensures Test(text).labels == [Text(text)]
    ensures Test(text).name == None && Test(text).description == None
    ensures Labelled(d).name == None && Labelled(d).description == None
    ensures DecoratorFactory(labels).name != Test(text).name
  {
  }

  /**
   A marker named after a decorator converts through `TestLabel.of` to that decorator's member
   for the seven one-word decorators; `data_bias` and `minimum_functionality` are not values
   (the values use '-'), so such markers raise.
   */
  lemma DecoratorNamesAsMarkers(d: Specialised)
    ensures d != DataBiasDecorator && d != MinimumFunctionalityDecorator ==>
      Of(Mark(PythonName(d))) == Found(LabelOf(d))
    ensures d == DataBiasDecorator || d == MinimumFunctionalityDecorator ==>
      Of(Mark(PythonName(d))).NotFound?
  {
    if d == DataBiasDecorator || d == MinimumFunctionalityDecorator {
      OfRejectsIdentifiers(LabelOf(d));
    } else {
      assert PythonName(d) == LifecycleResult.Json(LabelOf(d)) by {
        match d
        case BiasDecorator =>
        case FairnessDecorator =>
        case TransparencyDecorator =>
        case AccountabilityDecorator =>
        case AccuracyDecorator =>
        case UnitDecorator =>
        case IntegrationDecorator =>
      }
      JsonRoundTrip(LabelOf(d));
    }
  }

  /**
   The wrapper a labelling decorator returns in scripted mode, called once: it runs the
   original once with the same arguments. When that returns a value that is not a `TestResult`,
   it captures exactly one result (key = the decorator's `name`, its label list, the raw value,
   its description) and returns it. When the original returns a `TestResult`, nothing is
   captured and the wrapper returns `None`. An exception from the original propagates and
   nothing is captured.
   */
  method ScriptedCall(m: ReportingModule, host: Host, fac: Factory, func: UserFunction, call: Call)
    returns (out: Outcome)
    modifies host, m.report
    ensures host.invocations == old(host.invocations) + [Invocation(func.name, call)]
    ensures func.body(call).Raised? ==> out == func.body(call) && m.report.results == old(m.report.results)
    ensures func.body(call).Returned? && func.body(call).value.Result? ==>
      out == Returned(NoneValue) && m.report.results == old(m.report.results)
    ensures func.body(call).Returned? && !func.body(call).value.Result? ==>
      var captured := TestResult(fac.name, fac.labels, func.body(call).value, fac.description);
      out == Returned(Result(captured)) && m.report.results == old(m.report.results) + [captured]
    ensures m.report.details == old(m.report.details)
    ensures m.report.parameters == old(m.report.parameters) && m.report.figures == old(m.report.figures)
  {
    out := host.Invoke(func, call);
    if out.Raised? {
      return;
    }
    if !out.value.Result? {
      var r := m.Capture(fac.name, fac.labels, out.value, fac.description);
      out := Returned(Result(r));
    } else {
      out := Returned(NoneValue);
    }
  }

  /** Two calls of one scripted wrapper record two results that share the decorator's label list. */
  method ScriptedCallTwice(m: ReportingModule, host: Host, fac: Factory, func: UserFunction, c1: Call, c2: Call)
    returns (o1: Outcome, o2: Outcome)
    requires func.body(c1).Returned? && !func.body(c1).value.Result?
    requires func.body(c2).Returned? && !func.body(c2).value.Result?
    modifies host, m.report
    ensures |m.report.results| == |old(m.report.results)| + 2
    ensures m.report.results[..|old(m.report.results)|] == old(m.report.results)
    ensures m.report.results[|m.report.results| - 2].labels == fac.labels
    ensures m.report.results[|m.report.results| - 1].labels == fac.labels
    ensures |host.invocations| == |old(host.invocations)| + 2
  {
    o1 := ScriptedCall(m, host, fac, func, c1);
    o2 := ScriptedCall(m, host, fac, func, c2);
  }

  // ---------------------------------------------------------------------------------------
  // Configuration documents
  // ---------------------------------------------------------------------------------------

  datatype Loader = Yaml | Json

  /** `os.path.split(path)[-1].split('.')[-1]`: the text after the last '.' of the base name. */
  function Extension(path: string): string
  {
    AfterLast(AfterLast(path, '/'), '.')
  }

  /** The extension test both `model_details` and `using_params` apply to pick a parser. */
  function LoaderFor(path: string): Loader
  {
    if Extension(path) in {"yml", "yaml"} then Yaml else Json
  }

  /**
   `path` ends in `e`, and `e` is the whole of `path` or is preceded by a '.' or a '/'. A base
   name without any '.' is its own extension, so a file named `yml` also counts.
   */
  predicate NamedWithExtension(path: string, e: string)
  {
    IsSuffix(e, path) && (|path| == |e| || path[|path| - |e| - 1] == '.' || path[|path| - |e| - 1] == '/')
  }

  /** The text after the last '.' of a suffix that holds no '/' ends the whole path. */
  lemma ExtensionSound(path: string, e: string)
    requires Extension(path) == e
    ensures NamedWithExtension(path, e)
  {
    var t := AfterLast(path, '/');
    assert path[|path| - |t|..][|t| - |e|..] == path[|path| - |e|..];
    if |e| < |t| {
      assert t[|t| - |e| - 1] == path[|path| - |e| - 1];
    }
  }

  /** A suffix without '.' or '/' that follows a '.' is the extension. */
  lemma ExtensionAfterDot(path: string, e: string)
    requires '.' !in e && '/' !in e
    requires IsSuffix(e, path) && |e| < |path| && path[|path| - |e| - 1] == '.'
    ensures Extension(path) == e
  {
    var t := AfterLast(path, '/');
    var u := path[|path| - |e| - 1..];
    assert u == "." + e;
    AfterLastLongest(path, '/', u);
    assert t[|t| - |e|..] == e;
    assert t[|t| - |e| - 1] == '.';
    AfterLastUnique(t, '.', e);
  }

  /** Characterises `Extension` without reference to how it is computed. */
  lemma ExtensionIs(path: string, e: string)
    requires '.' !in e && '/' !in e
    ensures Extension(path) == e <==> NamedWithExtension(path, e)
  {
    if Extension(path) == e {
      ExtensionSound(path, e);
    }
    if NamedWithExtension(path, e) {
      if |path| == |e| || path[|path| - |e| - 1] == '/' {
        AfterLastUnique(path, '/', e);
        AfterLastUnique(e, '.', e);
      } else {
        ExtensionAfterDot(path, e);
      }
    }
  }

  /**
   The YAML parser is chosen exactly when the base name ends in `yml` or `yaml` after a '.' (or
   is that word alone); every other path, including `params.yaml.json` and `conf.yml/params`,
   is read as JSON.
   */
  lemma LoaderChoice(path: string)
    ensures LoaderFor(path) == Yaml <==> NamedWithExtension(path, "yml") || NamedWithExtension(path, "yaml")
  {
    ExtensionIs(path, "yml");
    ExtensionIs(path, "yaml");
  }

  /** The outcome of opening and parsing a document with the chosen parser. */
  datatype Loaded<T> = Loaded(document: T) | LoadFailed(error: string)

  /** A parameters document: top-level section name to a map of parameter names to values. */
  type Config = map<string, map<string, Value>>

  /** `params.get(key, {})`. */
  function Section(config: Config, key: string): map<string, Value>
  {
    if key in config then config[key] else map[]
  }

  // ---------------------------------------------------------------------------------------
  // Parameter overlay
  // ---------------------------------------------------------------------------------------

  /** The entries of `section` whose key is a declared argument name. */
  function Matching(section: map<string, Value>, args: seq<string>): map<string, Value>
  {
    map k | k in section && k in args :: section[k]
  }

  /** `kwargs` after `kwargs[key] = value` for every matching entry of `section`. */
  function Overlay(kwargs: map<string, Value>, section: map<string, Value>, args: seq<string>): map<string, Value>
  {
    kwargs + Matching(section, args)
  }

  /**
   One of the `for` loops of `using_params`: writes each entry of `section` whose key is a
   declared argument name into the keyword map and skips the others.
   */
  method ApplySection(kwargs: map<string, Value>, section: map<string, Value>, args: seq<string>)
    returns (out: map<string, Value>)
    ensures out == Overlay(kwargs, section, args)
  {
    out := kwargs;
    var pending := section.Keys;
    while pending != {}
      invariant pending <= section.Keys
      invariant out.Keys == kwargs.Keys + (set k | k in section && k !in pending && k in args)
      invariant forall k :: k in out ==>
        out[k] == if k in section && k !in pending && k in args then section[k] else kwargs[k]
      decreases pending
    {
      var key :| key in pending;
      if key in args {
        out := out[key := section[key]];
      }
      pending := pending - {key};
    }
  }

  /** The keyword map `using_params` passes on: the caller's, then `global`, then the function's section. */
  function MergedKeywords(config: Config, func: UserFunction, kwargs: map<string, Value>): map<string, Value>
  {
    Overlay(Overlay(kwargs, Section(config, "global"), func.args), Section(config, func.name), func.args)
  }

  /**
   The overlay rules: a function-specific entry beats a global one, and either beats the
   caller's keyword of the same name; a caller keyword the document does not set for a
   declared argument passes unchanged; keys that are not declared arguments are ignored, and a
   missing section contributes nothing.
   */
  lemma OverlayPrecedence(config: Config, func: UserFunction, kwargs: map<string, Value>, k: string)
    ensures var merged := MergedKeywords(config, func, kwargs);
      && (k in merged <==> k in kwargs || (k in func.args && (k in Section(config, "global") || k in Section(config, func.name))))
      && (k in func.args && k in Section(config, func.name) ==> merged[k] == Section(config, func.name)[k])
      && (k in func.args && k !in Section(config, func.name) && k in Section(config, "global") ==>
            merged[k] == Section(config, "global")[k])
      && (k in kwargs && (k !in func.args || (k !in Section(config, "global") && k !in Section(config, func.name))) ==>
            merged[k] == kwargs[k])
    ensures "global" !in config && func.name !in config ==> MergedKeywords(config, func, kwargs) == kwargs
    ensures (forall a :: a in func.args ==> a !in Section(config, "global") && a !in Section(config, func.name)) ==>
      MergedKeywords(config, func, kwargs) == kwargs
  {
    if "global" !in config && func.name !in config {
      assert Matching(map[], func.args) == map[];
    }
    if forall a :: a in func.args ==> a !in Section(config, "global") && a !in Section(config, func.name) {
      assert Matching(Section(config, "global"), func.args) == map[];
      assert Matching(Section(config, func.name), func.args) == map[];
    }
  }

  /** With `{global: {x: 1}, f: {x: 2}}` and `f(x)`, calling `f()` passes `x=2`. */
  lemma FunctionSectionWins(body: Call -> Outcome)
    ensures var f := UserFunction("f", ["x"], body);
      MergedKeywords(map["global" := map["x" := Int(1)], "f" := map["x" := Int(2)]], f, map[]) == map["x" := Int(2)]
  {
    var f := UserFunction("f", ["x"], body);
    var config := map["global" := map["x" := Int(1)], "f" := map["x" := Int(2)]];
    OverlayPrecedence(config, f, map[], "x");
    var merged := MergedKeywords(config, f, map[]);
    forall k | k in merged ensures k == "x" {
      OverlayPrecedence(config, f, map[], k);
    }
  }

  /**
   `using_params(file_path, report)` wrapper, called once. The document is read first; a
   failure to open or parse it propagates before the function runs. Otherwise the function runs
   once on the merged keywords (positional arguments unchanged); when it returns and `report`
   is set, the merged map is recorded under the function's name. Nothing else in the report
   changes.
   */
  method UsingParamsCall(m: ReportingModule, host: Host, load: Loader -> Loaded<Config>,
                         func: UserFunction, call: Call, filePath: string, report: bool := true)
    returns (out: Outcome)
    modifies host, m.report
    ensures load(LoaderFor(filePath)).LoadFailed? ==>
      && out == Raised(load(LoaderFor(filePath)).error)
      && host.invocations == old(host.invocations)
      && m.report.parameters == old(m.report.parameters)
    ensures load(LoaderFor(filePath)).Loaded? ==>
      var merged := MergedKeywords(load(LoaderFor(filePath)).document, func, call.keywords);
      && host.invocations == old(host.invocations) + [Invocation(func.name, Call(call.positional, merged))]
      && out == func.body(Call(call.positional, merged))
      && m.report.parameters == (if report && out.Returned? then old(m.report.parameters)[func.name := merged]
                                 else old(m.report.parameters))
    ensures m.report.details == old(m.report.details)
    ensures m.report.results == old(m.report.results) && m.report.figures == old(m.report.figures)
  {
    var funcName := func.name;
    var params: Config;
    match load(LoaderFor(filePath)) {
      case LoadFailed(e) =>
        return Raised(e);
      case Loaded(document) =>
        params := document;
    }
    var kwargs := call.keywords;
    kwargs := ApplySection(kwargs, Section(params, "global"), func.args);
    kwargs := ApplySection(kwargs, Section(params, funcName), func.args);
    out := host.Invoke(func, Call(call.positional, kwargs));
    if out.Raised? {
      return;
    }
    if report {
      m.report.CaptureParameters(funcName, kwargs);
    }
  }

  // ---------------------------------------------------------------------------------------
  // Model details and figures
  // ---------------------------------------------------------------------------------------

  /** `details` is passed as a keyword exactly when the function declares such an argument. */
  function WithDetails(func: UserFunction, call: Call, details: ModelDetails): Call
  {
    if "details" in func.args then Call(call.positional, call.keywords["details" := Details(details)]) else call
  }

  /**
   The details object after the call. A function that declares `details` receives the object
   itself and may change it in place; `leaves` gives what the call leaves in it. A function that
   does not declare it does not receive it.
   */
  function DetailsAfter(func: UserFunction, call: Call, details: ModelDetails,
                        leaves: (Call, ModelDetails) -> ModelDetails): ModelDetails
  {
    if "details" in func.args then leaves(WithDetails(func, call, details), details) else details
  }

  /**
   `model_details(file_path)` wrapper, called once. The details are the report's own object, or,
   when `file_path` is given and non-empty, the record read from that file (a read failure
   propagates before the function runs). The function runs once, receiving the details object
   as `details` only if it declares that argument. After it returns, the object, with whatever
   the function changed in it, replaces the report's details, and the function's value is
   returned unchanged. When the object is the report's own, the function's changes reach the
   report even if it then raises.
   */
  method ModelDetailsCall(m: ReportingModule, host: Host, load: Loader -> Loaded<ModelDetails>,
                          leaves: (Call, ModelDetails) -> ModelDetails, func: UserFunction, call: Call,
                          filePath: Option<string> := None)
    returns (out: Outcome)
    modifies host, m.report
    ensures var fromFile := filePath.Some? && filePath.value != "";
      && (fromFile && load(LoaderFor(filePath.value)).LoadFailed? ==>
            && out == Raised(load(LoaderFor(filePath.value)).error)
            && host.invocations == old(host.invocations)
            && m.report.details == old(m.report.details))
      && (!fromFile || load(LoaderFor(filePath.value)).Loaded? ==>
            var before := if fromFile then load(LoaderFor(filePath.value)).document else old(m.report.details);
            var after := DetailsAfter(func, call, before, leaves);
            && host.invocations == old(host.invocations) + [Invocation(func.name, WithDetails(func, call, before))]
            && out == func.body(WithDetails(func, call, before))
            && m.report.details == (if out.Returned? || !fromFile then after else old(m.report.details)))
    ensures m.report.parameters == old(m.report.parameters)
    ensures m.report.results == old(m.report.results) && m.report.figures == old(m.report.figures)
  {
    var details := m.report.details;
    var sharedWithReport := true;
    if filePath.Some? && filePath.value != "" {
      match load(LoaderFor(filePath.value)) {
        case LoadFailed(e) =>
          return Raised(e);
        case Loaded(d) =>
          details := d;
          sharedWithReport := false;
      }
    }
    var kwargs := call.keywords;
    if "details" in func.args {
      kwargs := kwargs["details" := Details(details)];
    }
    out := host.Invoke(func, Call(call.positional, kwargs));
    if "details" in func.args {
      details := leaves(Call(call.positional, kwargs), details);
      if sharedWithReport {
        // the function changed the report's own details object in place
        m.report.details := details;
      }
    }
    if out.Raised? {
      return;
    }
    m.report.CaptureModelDetails(details);
  }

  /** `img_metadata` is passed as a keyword exactly when the function declares such an argument. */
  function WithFigureMeta(func: UserFunction, call: Call, name: Option<string>): Call
  {
    if "img_metadata" in func.args then Call(call.positional, call.keywords["img_metadata" := FigureMeta(name)])
    else call
  }

  /**
   What `report_plt` records from the function's outcome: without `img_metadata` the value is
   the figure and the metadata is the one built from `name`; with it the function must return
   a pair (figure, metadata), any other value fails to unpack. `None` means the call raised or its result does not unpack.
   */
  function PlottedFigure(func: UserFunction, name: Option<string>, raw: Outcome): Option<(Value, Value)>
  {
    if raw.Raised? then None
    else if "img_metadata" !in func.args then Some((raw.value, FigureMeta(name)))
    else if raw.value.Tuple? && |raw.value.items| == 2 then Some((raw.value.items[0], raw.value.items[1]))
    else None
  }

  /** The error a `report_plt` call raises when its function raised or returned something that is not a pair. */
  function PlotError(raw: Outcome): string
  {
    if raw.Raised? then raw.exception else "cannot unpack the result into (plt, metadata)"
  }

  /**
   `report_plt(name)` wrapper, called once: runs the function once (with `img_metadata` when
   declared), appends exactly one (metadata, figure) pair to the report and returns the pair
   `(figure, metadata)`; if the call raises or its result cannot be unpacked, nothing is
   recorded.
   */
  method ReportPltCall(m: ReportingModule, host: Host, func: UserFunction, call: Call, name: Option<string> := None)
    returns (out: Outcome)
    modifies host, m.report
    ensures host.invocations == old(host.invocations) + [Invocation(func.name, WithFigureMeta(func, call, name))]
    ensures var plotted := PlottedFigure(func, name, func.body(WithFigureMeta(func, call, name)));
      && (plotted.None? ==>
            out == Raised(PlotError(func.body(WithFigureMeta(func, call, name))))
            && m.report.figures == old(m.report.figures))
      && (plotted.Some? ==>
            && out == Returned(Tuple([plotted.value.0, plotted.value.1]))
            && m.report.figures == old(m.report.figures) + [(plotted.value.1, plotted.value.0)])
    ensures m.report.details == old(m.report.details) && m.report.parameters == old(m.report.parameters)
    ensures m.report.results == old(m.report.results)
  {
    var metadata := FigureMeta(name);
    var plt: Value;
    var raw: Outcome;
    if "img_metadata" in func.args {
      raw := host.Invoke(func, Call(call.positional, call.keywords["img_metadata" := metadata]));
      if raw.Raised? {
        return raw;
      }
      if !(raw.value.Tuple? && |raw.value.items| == 2) {
        return Raised(PlotError(raw));
      }
      plt, metadata := raw.value.items[0], raw.value.items[1];
    } else {
      raw := host.Invoke(func, call);
      if raw.Raised? {
        return raw;
      }
      plt := raw.value;
    }
    m.report.CaptureFigure(metadata, plt);
    out := Returned(Tuple([plt, metadata]));
  }
}
