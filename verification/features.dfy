/** The 30-slot input of the edge model and how one transaction's slider
    values are placed into it (app.py lines 28-34). */
module Features {
  import opened Wrappers
  import Decimal

  /** Number of columns the edge model was trained on. */
  const FeatureCount: nat := 30

  /** Number of anonymised principal-component columns `V1`..`V28`. */
  const ComponentCount: nat := 28

  /** The column name `V<i>`. */
  function ComponentName(i: nat): string {
    "V" + Decimal.Show(i)
  }

  /** The schema: `V1`..`V28`, then `scaled_amount`, then `scaled_time`. */
  function FeatureNames(): (names: seq<string>)
    ensures |names| == FeatureCount
  {
    seq(ComponentCount, i requires 0 <= i => ComponentName(i + 1))
      + ["scaled_amount", "scaled_time"]
  }

  predicate Distinct<T(==)>(xs: seq<T>) {
    forall i, j :: 0 <= i < j < |xs| ==> xs[i] != xs[j]
  }

  /** Python's `list.index`: the first position holding `x`, or `None`
      where Python raises `ValueError`. */
  function IndexOf<T(==)>(xs: seq<T>, x: T): (r: Option<nat>)
    ensures r.None? <==> x !in xs
    ensures r.Some? ==> r.value < |xs| && xs[r.value] == x
    ensures r.Some? ==> forall j :: 0 <= j < r.value ==> xs[j] != x
  {
    if |xs| == 0 then None
    else if xs[0] == x then Some(0)
    else match IndexOf(xs[1..], x)
      case None => None
      case Some(i) => Some(i + 1)
  }

  /** In a list without repeats, `index` finds the one position holding `x`. */
  lemma IndexOfDistinct<T>(xs: seq<T>, k: nat)
    requires Distinct(xs)
    requires k < |xs|
    ensures IndexOf(xs, xs[k]) == Some(k)
  {
  }

  /** The name at every position of the schema. */
  lemma FeatureNamesAt(i: nat)
    requires i < FeatureCount
    ensures i < ComponentCount ==> FeatureNames()[i] == ComponentName(i + 1)
    ensures i == 28 ==> FeatureNames()[i] == "scaled_amount"
    ensures i == 29 ==> FeatureNames()[i] == "scaled_time"
  {
  }

  /** No column name appears twice in the schema, so every `index` lookup
      on it is well defined. */
  lemma {:induction false} FeatureNamesDistinct()
    ensures Distinct(FeatureNames())
  {
    var names := FeatureNames();
    forall i, j | 0 <= i < j < |names|
      ensures names[i] != names[j]
    {
      FeatureNamesAt(i);
      FeatureNamesAt(j);
      if j < ComponentCount {
        if names[i] == names[j] {
          assert names[i][1..] == Decimal.Show(i + 1);
          assert names[j][1..] == Decimal.Show(j + 1);
          Decimal.ShowInjective(i + 1, j + 1);
        }
      } else if i < ComponentCount {
        assert names[i][0] == 'V';
        assert names[j][0] == 's';
      }
    }
  }

  /** The schema's order, read through `index`: `V<i>` is column i - 1 for
      i in 1..28. */
  lemma ComponentPosition(i: nat)
    requires 1 <= i <= ComponentCount
    ensures IndexOf(FeatureNames(), ComponentName(i)) == Some(i - 1)
  {
    FeatureNamesDistinct();
    FeatureNamesAt(i - 1);
    IndexOfDistinct(FeatureNames(), i - 1);
  }

  /** The two standardised columns come last: `scaled_amount` is column 28
      and `scaled_time` is column 29. */
  lemma ScaledPositions()
    ensures IndexOf(FeatureNames(), "scaled_amount") == Some(28)
    ensures IndexOf(FeatureNames(), "scaled_time") == Some(29)
  {
  }

  /** The four slider columns are the components 17, 14, 12 and 10. */
  lemma SliderNames()
    ensures ComponentName(17) == "V17" && ComponentName(14) == "V14"
    ensures ComponentName(12) == "V12" && ComponentName(10) == "V10"
  {
    assert Decimal.Show(1) == "1";
    assert Decimal.Show(17) == Decimal.Show(1) + [Decimal.DigitChar(7)];
    assert Decimal.Show(14) == Decimal.Show(1) + [Decimal.DigitChar(4)];
    assert Decimal.Show(12) == Decimal.Show(1) + [Decimal.DigitChar(2)];
    assert Decimal.Show(10) == Decimal.Show(1) + [Decimal.DigitChar(0)];
  }

  /** Where the four slider columns sit in the schema. */
  lemma SliderPositions()
    ensures IndexOf(FeatureNames(), "V17") == Some(16)
    ensures IndexOf(FeatureNames(), "V14") == Some(13)
    ensures IndexOf(FeatureNames(), "V12") == Some(11)
    ensures IndexOf(FeatureNames(), "V10") == Some(9)
  {
    SliderNames();
    ComponentPosition(17);
    ComponentPosition(14);
    ComponentPosition(12);
    ComponentPosition(10);
  }

  /** Why `values[names.index(name)] = v` can fail in Python. */
  datatype AssemblyError =
    | UnknownName(name: string)      // `list.index` raises ValueError
    | IndexOutOfRange(index: nat)    // item assignment raises IndexError

  /** `values[names.index(name)] = v`: overwrite the slot of the first
      column called `name`, leaving every other slot as it was. */
  function SetByName(values: seq<real>, names: seq<string>, name: string, v: real)
    : (r: Result<seq<real>, AssemblyError>)
    ensures r == Err(UnknownName(name)) <==> name !in names
    ensures r.Ok? <==> name in names && IndexOf(names, name).value < |values|
    ensures name in names && IndexOf(names, name).value >= |values| ==>
      r == Err(IndexOutOfRange(IndexOf(names, name).value))
    ensures r.Ok? ==> |r.value| == |values|
    ensures r.Ok? ==> forall k :: 0 <= k < |values| ==>
      r.value[k] == (if k == IndexOf(names, name).value then v else values[k])
  {
    match IndexOf(names, name)
    case None => Err(UnknownName(name))
    case Some(k) =>
      if k < |values| then Ok(values[k := v]) else Err(IndexOutOfRange(k))
  }

  /** The four sliders of the transaction form. */
  datatype Sliders = Sliders(v17: real, v14: real, v12: real, v10: real)

  /** A feature vector as handed to the edge model: a one-row table with
      column names and values. */
  datatype FeatureVector = FeatureVector(names: seq<string>, values: seq<real>)

  /** The value each column should hold for the given sliders: the slider
      value for the four slider columns, 0.0 for every other column. */
  function Expected(s: Sliders, name: string): real {
    if name == "V17" then s.v17
    else if name == "V14" then s.v14
    else if name == "V12" then s.v12
    else if name == "V10" then s.v10
    else 0.0
  }

  /** Start from 30 zeros and write V17, V14, V12, V10 in that order into the
      slots found by name in `names`; any failed lookup or assignment aborts. */
  function AssembleOver(names: seq<string>, s: Sliders): (r: Result<seq<real>, AssemblyError>)
    ensures r.Ok? ==> |r.value| == FeatureCount
  {
    var zeros := seq(FeatureCount, _ => 0.0);
    var a :- SetByName(zeros, names, "V17", s.v17);
    var b :- SetByName(a, names, "V14", s.v14);
    var c :- SetByName(b, names, "V12", s.v12);
    SetByName(c, names, "V10", s.v10)
  }

  /** In a schema without repeats, writing by name writes exactly the slot
      holding that name. */
  lemma SetByNameDistinct(values: seq<real>, names: seq<string>, k: nat, v: real)
    requires Distinct(names)
    requires k < |names| && k < |values|
    ensures SetByName(values, names, names[k], v) == Ok(values[k := v])
  {
  }

  /** Thirty zeros with the sliders written into slots 16, 13, 11 and 9. */
  function SliderSlots(s: Sliders): (values: seq<real>)
    ensures |values| == FeatureCount
    ensures values[16] == s.v17 && values[13] == s.v14
    ensures values[11] == s.v12 && values[9] == s.v10
    ensures forall k :: 0 <= k < FeatureCount && k != 16 && k != 13 && k != 11 && k != 9 ==>
      values[k] == 0.0
  {
    seq(FeatureCount, _ => 0.0)[16 := s.v17][13 := s.v14][11 := s.v12][9 := s.v10]
  }

  /** Over the app's schema the four writes all succeed, hitting slots 16,
      13, 11 and 9 in turn. */
  lemma AssembleOverSchema(s: Sliders)
    ensures AssembleOver(FeatureNames(), s) == Ok(SliderSlots(s))
  {
    var names := FeatureNames();
    FeatureNamesDistinct();
    assert names[16] == "V17" && names[13] == "V14" && names[11] == "V12" && names[9] == "V10" by {
      SliderPositions();
    }
    var zeros := seq(FeatureCount, _ => 0.0);
    SetByNameDistinct(zeros, names, 16, s.v17);
    SetByNameDistinct(zeros[16 := s.v17], names, 13, s.v14);
    SetByNameDistinct(zeros[16 := s.v17][13 := s.v14], names, 11, s.v12);
    SetByNameDistinct(zeros[16 := s.v17][13 := s.v14][11 := s.v12], names, 9, s.v10);
  }

  /** Only the four slider positions of the schema carry a slider name. */
  lemma SliderNameAt(k: nat)
    requires k < FeatureCount
    ensures FeatureNames()[k] == "V17" <==> k == 16
    ensures FeatureNames()[k] == "V14" <==> k == 13
    ensures FeatureNames()[k] == "V12" <==> k == 11
    ensures FeatureNames()[k] == "V10" <==> k == 9
  {
    SliderPositions();
    FeatureNamesDistinct();
  }

  /** The slots written by the assembly hold exactly the expected values. */
  lemma AssembledValues(s: Sliders, values: seq<real>)
    requires values == SliderSlots(s)
    ensures forall k :: 0 <= k < FeatureCount ==> values[k] == Expected(s, FeatureNames()[k])
  {
    forall k | 0 <= k < FeatureCount
      ensures values[k] == Expected(s, FeatureNames()[k])
    {
      SliderNameAt(k);
    }
  }

  /** The vector the app builds: the fixed schema never makes the lookups
      fail, every column holds its expected value, and so the four slider
      slots carry the sliders while all other slots (scaled_amount and
      scaled_time included) stay 0.0. */
  function Assemble(s: Sliders): (fv: FeatureVector)
    ensures fv.names == FeatureNames()
    ensures |fv.values| == FeatureCount
    ensures forall k :: 0 <= k < FeatureCount ==> fv.values[k] == Expected(s, fv.names[k])
    ensures fv.values[16] == s.v17 && fv.values[13] == s.v14
    ensures fv.values[11] == s.v12 && fv.values[9] == s.v10
    ensures forall k :: 0 <= k < FeatureCount && k != 16 && k != 13 && k != 11 && k != 9 ==>
      fv.values[k] == 0.0
  {
    var values := SliderSlots(s);
    AssembleOverSchema(s);
    AssembledValues(s, values);
    FeatureVector(FeatureNames(), AssembleOver(FeatureNames(), s).value)
  }
}
