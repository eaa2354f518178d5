/**
 The value types of `europy/lifecycle/result.py`: the closed `TestLabel` enumeration with its
 lookup by value, and the four-field `TestResult` record, together with the Python values a
 check may return or receive as keyword arguments.
 */
module LifecycleResult {

  datatype Option<T> = None | Some(value: T)

  /** The nine members of the `TestLabel` enumeration, in declaration order. */
  datatype TestLabel =
    | Bias
    | DataBias
    | Fairness
    | Transparency
    | Accountability
    | Unit
    | Integration
    | Accuracy
    | MinimumFunctionality

  const AllLabels: seq<TestLabel> :=
    [Bias, DataBias, Fairness, Transparency, Accountability, Unit, Integration, Accuracy, MinimumFunctionality]

  /** The string value of a member (`TestLabel` is a `str` enumeration). */
  function LabelValue(l: TestLabel): string
  {
    match l
    case Bias => "bias"
    case DataBias => "data-bias"
    case Fairness => "fairness"
    case Transparency => "transparency"
    case Accountability => "accountability"
    case Unit => "unit"
    case Integration => "integration"
    case Accuracy => "accuracy"
    case MinimumFunctionality => "minimum-functionality"
  }

  /** The identifier a member is declared under, which is not its value. */
  function MemberName(l: TestLabel): string
  {
    match l
    case Bias => "BIAS"
    case DataBias => "DATA_BIAS"
    case Fairness => "FAIRNESS"
    case Transparency => "TRANSPARENCY"
    case Accountability => "ACCOUNTABILITY"
    case Unit => "UNIT"
    case Integration => "INTEGRATION"
    case Accuracy => "ACCURACY"
    case MinimumFunctionality => "MINIMUM_FUNCTIONALITY"
  }

  /** The enumeration has exactly nine members and their values are pairwise distinct. */
  lemma LabelsAreNineDistinctValues()
    ensures |AllLabels| == 9
    ensures forall l: TestLabel :: l in AllLabels
    ensures forall i, j :: 0 <= i < j < |AllLabels| ==> LabelValue(AllLabels[i]) != LabelValue(AllLabels[j])
  {
    forall l: TestLabel ensures l in AllLabels {
      match l
      case Bias => assert AllLabels[0] == l;
      case DataBias => assert AllLabels[1] == l;
      case Fairness => assert AllLabels[2] == l;
      case Transparency => assert AllLabels[3] == l;
      case Accountability => assert AllLabels[4] == l;
      case Unit => assert AllLabels[5] == l;
      case Integration => assert AllLabels[6] == l;
      case Accuracy => assert AllLabels[7] == l;
      case MinimumFunctionality => assert AllLabels[8] == l;
    }
    forall i, j | 0 <= i < j < |AllLabels|
      ensures LabelValue(AllLabels[i]) != LabelValue(AllLabels[j])
    {
      var a, b := LabelValue(AllLabels[i]), LabelValue(AllLabels[j]);
      assert a[0] != b[0] || a[1] != b[1] || |a| != |b|;
    }
  }

  /** Two members with the same value are the same member. */
  lemma LabelValueInjective(l: TestLabel, m: TestLabel)
    requires LabelValue(l) == LabelValue(m)
    ensures l == m
  {
    LabelsAreNineDistinctValues();
    assert l in AllLabels && m in AllLabels;
    var i :| 0 <= i < |AllLabels| && AllLabels[i] == l;
    var j :| 0 <= j < |AllLabels| && AllLabels[j] == m;
  }

  /** A pytest marker; only its name takes part in the conversion. */
  datatype Mark = Mark(name: string)

  /** `TestLabel(value)` fails with a `ValueError` naming the value it could not find. */
  datatype LabelError = ValueError(notAValue: string)

  datatype LabelLookup = Found(member: TestLabel) | NotFound(error: LabelError)

  /** The first of `candidates` whose value is `name`. */
  function FindByValue(name: string, candidates: seq<TestLabel>): (r: Option<TestLabel>)
    ensures r.Some? ==> r.value in candidates && LabelValue(r.value) == name
    ensures r.None? ==> forall l :: l in candidates ==> LabelValue(l) != name
  {
    if candidates == [] then None
    else if LabelValue(candidates[0]) == name then Some(candidates[0])
    else FindByValue(name, candidates[1..])
  }

  /**
   `TestLabel.of(mark)`: the member whose VALUE equals the marker's name; any other name
   raises.
   */
  function Of(mark: Mark): (r: LabelLookup)
    ensures r.Found? <==> exists l: TestLabel :: LabelValue(l) == mark.name
    ensures r.Found? ==> LabelValue(r.member) == mark.name
    ensures r.NotFound? ==> r.error == ValueError(mark.name)
  {
    LabelsAreNineDistinctValues();
    match FindByValue(mark.name, AllLabels)
    case Some(l) => Found(l)
    case None => NotFound(ValueError(mark.name))
  }

  /** `__json__`: a member serialises as its value. */
  function Json(l: TestLabel): string
  {
    LabelValue(l)
  }

  /** Converting a marker named after a member's serialised value gives back that member. */
  lemma JsonRoundTrip(l: TestLabel)
    ensures Of(Mark(Json(l))) == Found(l)
  {
    var r := Of(Mark(Json(l)));
    assert r.Found?;
    LabelValueInjective(r.member, l);
  }

  /**
   A member's identifier is never a value: `DATA_BIAS` or `MINIMUM_FUNCTIONALITY` raise, and
   so do the decorator names `data_bias` and `minimum_functionality`.
   */
  lemma OfRejectsIdentifiers(l: TestLabel)
    ensures Of(Mark(MemberName(l))).NotFound?
    ensures Of(Mark("data_bias")).NotFound?
    ensures Of(Mark("minimum_functionality")).NotFound?
  {
    forall m: TestLabel ensures LabelValue(m) != MemberName(l) {
      assert LabelValue(m)[0] != MemberName(l)[0];
    }
    assert "data_bias"[4] == '_' && "minimum_functionality"[7] == '_';
    forall m: TestLabel ensures '_' !in LabelValue(m) {
    }
  }

  /** An element of a label list: a plain string or a `TestLabel`. */
  datatype LabelItem = Text(text: string) | Tag(tag: TestLabel)

  /**
   The string a label-list element stands for. `TestLabel` derives from `str`, so a member
   compares and serialises as its value.
   */
  function LabelText(item: LabelItem): string
  {
    match item
    case Text(s) => s
    case Tag(l) => Json(l)
  }

  /**
   The Python values the core passes around. Only the kinds it distinguishes are spelled out;
   other objects are `Object` handles, a pandas `DataFrame` is a `Frame` handle and a float is
   kept as an uninterpreted real.
   */
  datatype Value =
    | NoneValue
    | Bool(b: bool)
    | Int(i: int)
    | Float(x: real)
    | Str(s: string)
    | Frame(frameId: nat)
    | Object(objectId: nat)
    | Tuple(items: seq<Value>)
    | FigureMeta(title: Option<string>)
    | Details(details: ModelDetails)
    | Result(result: TestResult)

  /** A `ModelDetails` record: its title (read when the report is flushed) and its other fields. */
  datatype ModelDetails = ModelDetails(title: string, fields: map<string, Value>)

  /**
   A `TestResult`: the four fields its constructor stores unchanged, and nothing else (there is
   no success flag). `key` and `description` are `None` when a decorator was given no name or
   description.
   */
  datatype TestResult = TestResult(key: Option<string>, labels: seq<LabelItem>, result: Value, description: Option<string>)

  /** The outcome of calling Python code: a returned value or a propagating exception. */
  datatype Outcome = Returned(value: Value) | Raised(exception: string)
}
