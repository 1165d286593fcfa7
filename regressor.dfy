/** The `FitnessAI` class: the deterministic parts around its regression network.
    The network itself (its weights, the fitting and the forward pass) is not
    modelled; its three raw outputs are a parameter of `Predict`. */
module Regressor {
  import opened JsSemantics

  // ---------------------------------------------------------------------
  // Activity level
  // ---------------------------------------------------------------------

  /** The labels of the activity-level choice, least active first. */
  const ActivityLabels: seq<string> :=
    ["Sedentary", "Lightly Active", "Moderately Active", "Very Active", "Extremely Active"]

  /** The object literal inside `mapActivityLevel`. */
  const ActivityTable: map<string, int> :=
    map["Sedentary" := 1, "Lightly Active" := 2, "Moderately Active" := 3,
        "Very Active" := 4, "Extremely Active" := 5]

  /** What `map[level] || 1` yields as written: an own entry (all of them are
      truthy), the inherited `Object.prototype` member of that name (a function
      or object, also truthy), or the fallback 1 when the lookup is undefined. */
  datatype ActivityFeature = Level(n: int) | PrototypeMember(name: string)

  function MapActivityLevelAsWritten(level: string): (r: ActivityFeature)
    ensures r.PrototypeMember? <==> level !in ActivityTable && level in ObjectPrototypeKeys
  {
    match Get(ActivityTable, level)
    case Own(n) => if n != 0 then Level(n) else Level(1)
    case Inherited(name) => PrototypeMember(name)
    case Undefined => Level(1)
  }

  /** A label such as "toString" is not in the table, yet the lookup finds the
      inherited method, so the fallback to 1 is skipped and no level results. */
  lemma InheritedLabelSkipsFallback()
    ensures MapActivityLevelAsWritten("toString") == PrototypeMember("toString")
    ensures !MapActivityLevelAsWritten("toString").Level?
  {
    assert "toString" !in ActivityTable;
  }

  /** The activity level as intended: the table's own entry, or 1. */
  function MapActivityLevel(level: string): (r: int)
    ensures 1 <= r <= 5
    ensures r != 1 ==> level in ActivityTable
  {
    if level in ActivityTable then ActivityTable[level] else 1
  }

  /** The five labels map to 1..5 in order, and every other string maps to 1. */
  lemma ActivityLevelsInOrder(level: string)
    ensures forall i :: 0 <= i < |ActivityLabels| ==> MapActivityLevel(ActivityLabels[i]) == i + 1
    ensures level !in ActivityLabels ==> MapActivityLevel(level) == 1
  {
    if level in ActivityTable {
      assert level in {ActivityLabels[0], ActivityLabels[1], ActivityLabels[2], ActivityLabels[3], ActivityLabels[4]};
    }
  }

  /** Outside the inherited names, the code as written agrees with the intended lookup. */
  lemma MapActivityLevelAgrees(level: string)
    requires level !in ObjectPrototypeKeys
    ensures MapActivityLevelAsWritten(level) == Level(MapActivityLevel(level))
  {
  }

  // ---------------------------------------------------------------------
  // Prediction
  // ---------------------------------------------------------------------

  /** `Math.min(10, Math.max(1, rounded))`. */
  function ClampIntensity(rounded: int): (r: int)
    ensures 1 <= r <= 10
    ensures 1 <= rounded <= 10 ==> r == rounded
    ensures rounded < 1 ==> r == 1
    ensures rounded > 10 ==> r == 10
  {
    var atLeastOne := if 1 < rounded then rounded else 1;
    if 10 < atLeastOne then 10 else atLeastOne
  }

  /** The three numbers `dataSync()` returns for one input row: calories,
      protein in grams and workout intensity, as the network computed them. */
  datatype RawOutput = RawOutput(calories: real, protein: real, intensity: real)

  datatype Prediction = Prediction(calories: int, protein: int, intensity: int)

  // ---------------------------------------------------------------------
  // Network shape and training cadence
  // ---------------------------------------------------------------------

  datatype Activation = Relu | Linear
  datatype Dense = Dense(units: nat, activation: Activation)
  datatype Loss = MeanSquaredError

  /** The shape and training setup of the network `createModel` builds; its
      weights are chosen at random by the library and are not modelled. */
  datatype Network = Network(inputs: nat, layers: seq<Dense>, adamLearningRate: real, loss: Loss)

  const Architecture: Network :=
    Network(3, [Dense(16, Relu), Dense(8, Relu), Dense(3, Linear)], 0.01, MeanSquaredError)

  const Epochs: nat := 50

  /** The percentage the end of `epoch` (counted from 0) reports:
      `Math.round(((epoch + 1) / 50) * 100)`.
      The rounding is exact: each epoch adds two percent. */
  function Progress(epoch: int): (r: int)
    ensures r == 2 * (epoch + 1)
  {
    Round(((epoch + 1) as real / Epochs as real) * 100.0)
  }

  /** The percentages reported over one training run, one per epoch. */
  function ProgressReports(): seq<int> {
    seq(Epochs, Progress)
  }

  /** Walks the epochs of one `fit` run and collects what `onEpochEnd` reports. */
  method RunEpochs() returns (reports: seq<int>)
    ensures reports == ProgressReports()
    ensures |reports| == Epochs
    ensures forall e :: 0 <= e < Epochs ==> reports[e] == 2 * (e + 1)
  {
    reports := [];
    var epoch := 0;
    while epoch < Epochs
      invariant 0 <= epoch <= Epochs
      invariant reports == ProgressReports()[..epoch]
      invariant forall e :: 0 <= e < epoch ==> reports[e] == 2 * (e + 1)
    {
      reports := reports + [Progress(epoch)];
      epoch := epoch + 1;
    }
  }

  /** The reported percentages lie in [2, 100], grow strictly and end at 100. */
  lemma ProgressReportsShape()
    ensures |ProgressReports()| == Epochs
    ensures forall e :: 0 <= e < Epochs ==> 2 <= ProgressReports()[e] <= 100
    ensures forall e, f :: 0 <= e < f < Epochs ==> ProgressReports()[e] < ProgressReports()[f]
    ensures ProgressReports()[Epochs - 1] == 100
  {
  }

  /** The percentages the form's progress callback passes on to the button
      text: those that are a multiple of 10. */
  function Shown(reports: seq<int>): (shown: seq<int>)
    ensures |shown| <= |reports|
    ensures forall x :: x in shown <==> x in reports && x % 10 == 0
  {
    if reports == [] then []
    else (if reports[0] % 10 == 0 then [reports[0]] else []) + Shown(reports[1..])
  }

  lemma {:induction false} ShownAppend(a: seq<int>, b: seq<int>)
    ensures Shown(a + b) == Shown(a) + Shown(b)
  {
    if a == [] {
      assert a + b == b;
    } else {
      var head := if a[0] % 10 == 0 then [a[0]] else [];
      assert (a + b)[0] == a[0];
      assert (a + b)[1..] == a[1..] + b;
      ShownAppend(a[1..], b);
      calc {
        Shown(a + b);
        head + Shown(a[1..] + b);
        head + (Shown(a[1..]) + Shown(b));
        (head + Shown(a[1..])) + Shown(b);
        Shown(a) + Shown(b);
      }
    }
  }

  /** Five epochs at a time, exactly one report passes the filter. */
  lemma {:induction false} ShownOfEvens(m: nat)
    ensures Shown(seq(5 * m, e => 2 * (e + 1))) == seq(m, k => 10 * (k + 1))
  {
    if m > 0 {
      var whole := seq(5 * m, e => 2 * (e + 1));
      var front := seq(5 * (m - 1), e => 2 * (e + 1));
      var b := 10 * (m - 1);
      var tail := [b + 2, b + 4, b + 6, b + 8, b + 10];
      assert whole == front + tail;
      ShownAppend(front, tail);
      ShownOfEvens(m - 1);
      assert b % 10 == 0;
      assert tail[1..][1..][1..][1..][1..] == [];
      assert Shown(tail[1..][1..][1..][1..]) == [b + 10];
      assert Shown(tail[1..][1..]) == [b + 10];
      assert Shown(tail) == [b + 10];
      assert seq(m, k => 10 * (k + 1)) == seq(m - 1, k => 10 * (k + 1)) + [b + 10];
    }
  }

  /** Of the fifty epochs, exactly ten update the text: at 10, 20, ..., 100 percent. */
  lemma ShownProgress()
    ensures Shown(ProgressReports()) == seq(10, k => 10 * (k + 1))
    ensures |Shown(ProgressReports())| == 10
  {
    assert ProgressReports() == seq(5 * 10, e => 2 * (e + 1));
    ShownOfEvens(10);
  }

  // ---------------------------------------------------------------------
  // The network object and the class
  // ---------------------------------------------------------------------

  /** The network object `createModel` builds: its shape, and how many epochs
      `fit` has trained its weights for (the weights themselves are not modelled). */
  class Model {
    const shape: Network
    var epochsFitted: nat

    constructor (shape: Network)
      ensures this.shape == shape && epochsFitted == 0
    {
      this.shape := shape;
      epochsFitted := 0;
    }

    /** `model.fit(...)` for fifty epochs: the same weights are trained further,
        and the end of each epoch reports a percentage. */
    method Fit() returns (reports: seq<int>)
      modifies this
      ensures epochsFitted == old(epochsFitted) + Epochs
      ensures reports == ProgressReports()
    {
      reports := RunEpochs();
      epochsFitted := epochsFitted + Epochs;
    }
  }

  class FitnessAI {
    /** `this.model`: null until `createModel` has run. */
    var model: Model?
    /** `this.isTrained`: set by the constructor and never changed afterwards. */
    var isTrained: bool

    constructor ()
      ensures model == null && !isTrained
    {
      model := null;
      isTrained := false;
    }

    method CreateModel() returns (m: Model)
      modifies this
      ensures fresh(m) && m.shape == Architecture && m.epochsFitted == 0
      ensures model == m
      ensures isTrained == old(isTrained)
    {
      m := new Model(Architecture);
      model := m;
    }

    /** Builds a network only when there is none yet, then fits the network
        it has for fifty epochs, reporting progress after each. */
    method Train() returns (reports: seq<int>)
      modifies this, model
      ensures model != null
      ensures old(model) == null ==>
                fresh(model) && model.shape == Architecture && model.epochsFitted == Epochs
      ensures old(model) != null ==>
                model == old(model) && model.epochsFitted == old(model.epochsFitted) + Epochs
      ensures isTrained == old(isTrained)
      ensures reports == ProgressReports()
    {
      if model == null {
        var _ := CreateModel();
      }
      reports := model.Fit();
    }

    /** Rounds the network's outputs and clamps the intensity into [1, 10].
        Needs a model: the source dereferences `this.model`. */
    function Predict(raw: RawOutput): (p: Prediction)
      reads this
      requires model != null
      ensures raw.calories - 0.5 < p.calories as real <= raw.calories + 0.5
      ensures raw.protein - 0.5 < p.protein as real <= raw.protein + 0.5
      ensures 1 <= p.intensity <= 10
      ensures 0.5 <= raw.intensity < 10.5 ==>
                raw.intensity - 0.5 < p.intensity as real <= raw.intensity + 0.5
      ensures raw.intensity < 0.5 ==> p.intensity == 1
      ensures raw.intensity >= 10.5 ==> p.intensity == 10
    {
      Prediction(Round(raw.calories), Round(raw.protein), ClampIntensity(Round(raw.intensity)))
    }
  }

  /** A new instance builds its network on the first training run; the second
      run trains that same network further rather than a new one, and both runs
      report the same fifty percentages. */
  method TrainTwice() returns (first: seq<int>, second: seq<int>, sameNetwork: bool, fitted: nat)
    ensures first == second == ProgressReports()
    ensures sameNetwork
    ensures fitted == 2 * Epochs
  {
    var ai := new FitnessAI();
    first := ai.Train();
    var built := ai.model;
    second := ai.Train();
    sameNetwork := ai.model == built;
    fitted := ai.model.epochsFitted;
  }
}
