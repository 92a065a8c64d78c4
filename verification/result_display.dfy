/**
 * The result screen: everything it shows is derived from the prediction
 * payload by expressions — the theme and icon from the risk label, the
 * explanation from the predicted class, the probability gauge, and the
 * "Key Contributing Factors" bars ranked by weight.
 */
module ResultDisplay {
  import opened Wrappers
  import opened Importance

  /** The fields the screen destructures from the payload; a falsy `feature_importance` is `None`. */
  datatype PredictionResult = PredictionResult(
    prediction: int,
    probability: real,
    riskLevel: string,
    featureImportance: Option<seq<Entry>>)

  datatype Icon = AlertTriangle | Info | CheckCircle

  datatype Theme = Theme(color: string, icon: Icon)

  const HighTheme := Theme("#ef4444", AlertTriangle)
  const MediumTheme := Theme("#f59e0b", Info)
  const LowTheme := Theme("#10b981", CheckCircle)

  /** Only the exact labels "High" and "Medium" are recognised; any other string gets the green theme. */
  function ThemeFor(riskLevel: string): (theme: Theme)
    ensures theme == HighTheme <==> riskLevel == "High"
    ensures theme == MediumTheme <==> riskLevel == "Medium"
    ensures theme == LowTheme <==> riskLevel != "High" && riskLevel != "Medium"
  {
    if riskLevel == "High" then HighTheme
    else if riskLevel == "Medium" then MediumTheme
    else LowTheme
  }

  const ConsultMessage :=
    "The model suggests a high probability of diabetes. It is recommended to consult a healthcare professional for further diagnosis."
  const HealthyMessage :=
    "The model suggests a low probability of diabetes. Maintain a healthy lifestyle to keep your risk low."

  /** The explanation paragraph: the consult advice exactly when the predicted class is 1. */
  function Explanation(prediction: int): (text: string)
    ensures text == ConsultMessage <==> prediction == 1
    ensures text == HealthyMessage <==> prediction != 1
  {
    if prediction == 1 then ConsultMessage else HealthyMessage
  }

  /** The value the circular gauge shows, a percentage of the probability. */
  function GaugePercent(probability: real): (percent: real)
    ensures percent / 100.0 == probability
    ensures 0.0 <= probability <= 1.0 ==> 0.0 <= percent <= 100.0
  {
    probability * 100.0
  }

  /**
   * One step of the comparator sort `(a, b) => b - a`: `e` goes in front of
   * the first entry that does not outweigh it, so it stays ahead of later
   * entries of equal weight (the sort is stable).
   */
  function Insert(e: Entry, ranked: seq<Entry>): (r: seq<Entry>)
    ensures |r| == |ranked| + 1
    ensures multiset(r) == multiset(ranked) + multiset{e}
    ensures forall x :: x in r ==> x == e || x in ranked
    ensures NonIncreasing(ranked) ==> NonIncreasing(r)
  {
    if ranked == [] || ranked[0].weight <= e.weight then [e] + ranked
    else
      var rest := Insert(e, ranked[1..]);
      assert ranked == [ranked[0]] + ranked[1..];
      var r := [ranked[0]] + rest;
      assert NonIncreasing(ranked) ==> NonIncreasing(r) by {
        if NonIncreasing(ranked) {
          forall i, j | 0 <= i < j < |r|
            ensures r[i].weight >= r[j].weight
          {
            if i == 0 {
              assert r[j] in rest;
            } else {
              assert r[i] == rest[i - 1] && r[j] == rest[j - 1];
            }
          }
        }
      }
      r
  }

  /** `Object.entries(...).sort(([, a], [, b]) => b - a)`: largest weight first. */
  function RankDescending(entries: seq<Entry>): (ranked: seq<Entry>)
    ensures |ranked| == |entries|
    ensures multiset(ranked) == multiset(entries)
    ensures NonIncreasing(ranked)
  {
    if entries == [] then []
    else
      assert entries == [entries[0]] + entries[1..];
      Insert(entries[0], RankDescending(entries[1..]))
  }

  lemma {:induction false} InsertKeepsTieOrder(e: Entry, ranked: seq<Entry>, w: real)
    ensures WithWeight(Insert(e, ranked), w) ==
            (if e.weight == w then [e] else []) + WithWeight(ranked, w)
  {
    if ranked == [] || ranked[0].weight <= e.weight {
      assert Insert(e, ranked) == [e] + ranked;
      assert ([e] + ranked)[1..] == ranked;
    } else {
      var rest := Insert(e, ranked[1..]);
      assert Insert(e, ranked) == [ranked[0]] + rest;
      assert ([ranked[0]] + rest)[1..] == rest;
      InsertKeepsTieOrder(e, ranked[1..], w);
      if ranked[0].weight == w {
        assert e.weight != w;
      }
    }
  }

  /** Entries of equal weight keep the order `Object.entries` gave them (JavaScript's sort is stable). */
  lemma {:induction false} RankingIsStable(entries: seq<Entry>, w: real)
    ensures WithWeight(RankDescending(entries), w) == WithWeight(entries, w)
  {
    if entries != [] {
      RankingIsStable(entries[1..], w);
      InsertKeepsTieOrder(entries[0], RankDescending(entries[1..]), w);
    }
  }

  /** `sortedFeatures`: the ranked entries, or the empty list when the payload has none. */
  function SortedFeatures(importance: Option<seq<Entry>>): (ranked: seq<Entry>)
    ensures importance.None? ==> ranked == []
    ensures importance.Some? ==> multiset(ranked) == multiset(importance.value)
    ensures NonIncreasing(ranked)
  {
    match importance
    case None => []
    case Some(entries) => RankDescending(entries)
  }

  /** `value / maxVal * 100`; a zero divisor gives no finite width (NaN or an infinity in JavaScript). */
  function WidthPercent(value: real, maxVal: real): (width: Option<real>)
    ensures width.None? <==> maxVal == 0.0
    ensures width.Some? ==> width.value * maxVal == value * 100.0
  {
    if maxVal == 0.0 then None else Some(value / maxVal * 100.0)
  }

  /** The widths of the bars, each relative to the first (largest) entry. */
  function BarWidths(ranked: seq<Entry>): (widths: seq<Option<real>>)
    ensures |widths| == |ranked|
    ensures forall i :: 0 <= i < |ranked| ==> widths[i] == WidthPercent(ranked[i].weight, ranked[0].weight)
  {
    seq(|ranked|, i requires 0 <= i < |ranked| => WidthPercent(ranked[i].weight, ranked[0].weight))
  }

  /** With a non-zero top weight the first bar fills the whole track. */
  lemma TopBarIsFull(ranked: seq<Entry>)
    requires |ranked| > 0 && ranked[0].weight != 0.0
    ensures BarWidths(ranked)[0] == Some(100.0)
  {
    var m := ranked[0].weight;
    assert m / m == 1.0;
  }

  /**
   * With a positive top weight every bar has a width of at most 100, and the
   * width is negative exactly for the negative weights (linear-model coefficients).
   */
  lemma BarsFitTrack(ranked: seq<Entry>, i: nat)
    requires NonIncreasing(ranked) && i < |ranked| && ranked[0].weight > 0.0
    ensures BarWidths(ranked)[i].Some?
    ensures BarWidths(ranked)[i].value <= 100.0
    ensures BarWidths(ranked)[i].value >= 0.0 <==> ranked[i].weight >= 0.0
  {
    var m, v := ranked[0].weight, ranked[i].weight;
    assert v <= m;
    assert v / m <= 1.0 by {
      assert v / m * m == v;
    }
    assert v / m >= 0.0 <==> v >= 0.0 by {
      assert v / m * m == v;
    }
  }

  /** When every weight is negative the top bar is the shortest: every width is at least 100. */
  lemma NegativeTopOverflowsTrack(ranked: seq<Entry>, i: nat)
    requires NonIncreasing(ranked) && i < |ranked| && ranked[0].weight < 0.0
    ensures BarWidths(ranked)[i].Some? && BarWidths(ranked)[i].value >= 100.0
  {
    var m, v := ranked[0].weight, ranked[i].weight;
    assert v <= m;
    assert v / m >= 1.0 by {
      assert v / m * m == v;
    }
  }

  /** Weights 0.1, 0.4, 0.3 are ranked 0.4, 0.3, 0.1 and drawn at 100%, 75% and 25%. */
  lemma RankingExample()
    ensures var ranked := RankDescending([Entry("Age", 0.1), Entry("Glucose", 0.4), Entry("BMI", 0.3)]);
            && ranked == [Entry("Glucose", 0.4), Entry("BMI", 0.3), Entry("Age", 0.1)]
            && BarWidths(ranked) == [Some(100.0), Some(75.0), Some(25.0)]
  {
    var age, glucose, bmi := Entry("Age", 0.1), Entry("Glucose", 0.4), Entry("BMI", 0.3);
    var input := [age, glucose, bmi];
    assert input[1..] == [glucose, bmi];
    assert RankDescending([glucose, bmi]) == [glucose, bmi] by {
      assert [glucose, bmi][1..] == [bmi];
      assert RankDescending([bmi]) == [bmi];
    }
    assert Insert(age, [glucose, bmi]) == [glucose, bmi, age] by {
      assert [glucose, bmi][1..] == [bmi];
      assert Insert(age, [bmi]) == [bmi, age];
    }
    var widths := BarWidths([glucose, bmi, age]);
    assert widths == [Some(100.0), Some(75.0), Some(25.0)] by {
      assert widths[0] == Some(100.0);
      assert widths[1] == Some(75.0);
      assert widths[2] == Some(25.0);
    }
  }

  /** One row of the factors chart. */
  datatype Bar = Bar(name: string, width: Option<real>, percent: real)

  /** What the screen shows; `factors` is `None` when the factors section is hidden. */
  datatype View = View(
    theme: Theme,
    gauge: real,
    heading: string,
    explanation: string,
    factors: Option<seq<Bar>>)

  /** The result screen for one payload. */
  function Render(result: PredictionResult): (view: View)
    ensures view.theme == ThemeFor(result.riskLevel)
    ensures view.gauge == GaugePercent(result.probability)
    ensures view.heading == result.riskLevel + " Risk Level"
    ensures view.explanation == Explanation(result.prediction)
    ensures view.factors.None? <==> result.featureImportance.None? || result.featureImportance.value == []
    ensures view.factors.Some? ==>
      var ranked := SortedFeatures(result.featureImportance);
      && |view.factors.value| == |ranked|
      && forall i :: 0 <= i < |ranked| ==>
           view.factors.value[i] == Bar(ranked[i].name, BarWidths(ranked)[i], ranked[i].weight * 100.0)
  {
    var ranked := SortedFeatures(result.featureImportance);
    var widths := BarWidths(ranked);
    View(
      ThemeFor(result.riskLevel),
      GaugePercent(result.probability),
      result.riskLevel + " Risk Level",
      Explanation(result.prediction),
      if |ranked| > 0
      then Some(seq(|ranked|, i requires 0 <= i < |ranked| => Bar(ranked[i].name, widths[i], ranked[i].weight * 100.0)))
      else None)
  }
}
