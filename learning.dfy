/** The learning model's arithmetic (app.js:22-37, 979-1024, 1066-1075): the default
    weights, their adjustment after repeated failures, the accuracy history kept to its
    newest 50 points, the progress counter, and the merge of an imported model. */
module Learning {
  import opened Common
  import opened Types

  /** The weights a new or cleared analyzer starts with. */
  const DefaultWeights: Weights := Weights(0.25, 0.20, 0.15, 0.15, 0.10, 0.10, 0.05)

  /** The learning model a new or cleared analyzer starts with. */
  const InitialModel: LearningModel := LearningModel(DefaultWeights, [], [], [], 0, 0, 0.0)

  /** `Object.values(weights).reduce((sum, w) => sum + w, 0)` */
  function Total(w: Weights): real {
    w.teamForm + w.headToHead + w.homeAdvantage + w.motivation + w.valueOdds + w.injuries + w.weather
  }

  predicate Positive(w: Weights) {
    && w.teamForm > 0.0 && w.headToHead > 0.0 && w.homeAdvantage > 0.0 && w.motivation > 0.0
    && w.valueOdds > 0.0 && w.injuries > 0.0 && w.weather > 0.0
  }

  /** The weights every reachable state carries: positive and summing to one. */
  predicate Normalised(w: Weights) {
    Positive(w) && Total(w) == 1.0
  }

  /** The four factors scaled before normalisation: team form and home advantage down,
      head to head and odds value up. */
  function Rescaled(w: Weights): (r: Weights)
    ensures Positive(w) ==> Positive(r)
  {
    w.(teamForm := w.teamForm * 0.95, homeAdvantage := w.homeAdvantage * 0.98,
       headToHead := w.headToHead * 1.02, valueOdds := w.valueOdds * 1.03)
  }

  /** Every weight divided by the total. */
  function Divided(w: Weights, t: real): Weights
    requires t != 0.0
  {
    Weights(w.teamForm / t, w.headToHead / t, w.homeAdvantage / t, w.motivation / t,
            w.valueOdds / t, w.injuries / t, w.weather / t)
  }

  /** A positive quotient of a positive dividend by a positive divisor. */
  lemma QuotientPositive(x: real, t: real)
    requires x > 0.0 && t > 0.0
    ensures x / t > 0.0
  {
    assert (x / t) * t == x;
  }

  /** The quotients by the total add up to one. */
  lemma {:induction false} DividedSumsToOne(w: Weights)
    requires Positive(w)
    ensures Total(Divided(w, Total(w))) == 1.0
  {
    var t := Total(w);
    var d := Divided(w, t);
    assert d.teamForm * t == w.teamForm;
    assert d.headToHead * t == w.headToHead;
    assert d.homeAdvantage * t == w.homeAdvantage;
    assert d.motivation * t == w.motivation;
    assert d.valueOdds * t == w.valueOdds;
    assert d.injuries * t == w.injuries;
    assert d.weather * t == w.weather;
    calc {
      Total(d) * t;
    ==
      d.teamForm * t + d.headToHead * t + d.homeAdvantage * t + d.motivation * t
      + d.valueOdds * t + d.injuries * t + d.weather * t;
    ==
      w.teamForm + w.headToHead + w.homeAdvantage + w.motivation + w.valueOdds + w.injuries + w.weather;
    ==
      t;
    }
  }

  /** The body of `adjustModelWeights` once it fires: the result is positive and sums to
      one, and the three weights it does not scale keep their ratios. */
  function AdjustedWeights(w: Weights): (r: Weights)
    requires Positive(w)
    ensures Normalised(r)
    ensures r.motivation * w.injuries == r.injuries * w.motivation
    ensures r.injuries * w.weather == r.weather * w.injuries
  {
    var s := Rescaled(w);
    var t := Total(s);
    DividedSumsToOne(s);
    var r := Divided(s, t);
    QuotientPositive(s.teamForm, t);
    QuotientPositive(s.headToHead, t);
    QuotientPositive(s.homeAdvantage, t);
    QuotientPositive(s.motivation, t);
    QuotientPositive(s.valueOdds, t);
    QuotientPositive(s.injuries, t);
    QuotientPositive(s.weather, t);
    SameDivisor(w.motivation, w.injuries, t);
    SameDivisor(w.injuries, w.weather, t);
    r
  }

  /** Dividing two numbers by the same divisor keeps their cross products equal. */
  lemma SameDivisor(a: real, b: real, t: real)
    requires t != 0.0
    ensures (a / t) * b == (b / t) * a
  {
    assert (a / t) * t == a;
    assert (b / t) * t == b;
    assert (a / t) * b * t == (b / t) * a * t;
  }

  /** `adjustModelWeights()`: adjusts only when the newest ten failure patterns (or all of
      them, when fewer) number at least five. */
  function AdjustModelWeights(w: Weights, failureCount: nat): (r: Weights)
    requires Positive(w)
    ensures Positive(r)
    ensures Min(10, failureCount) >= 5 ==> r == AdjustedWeights(w)
    ensures Min(10, failureCount) < 5 ==> r == w
  {
    if Min(10, failureCount) >= 5 then AdjustedWeights(w) else w
  }

  /** `history.slice(-50)` when the history is longer than 50 points. */
  function Window(h: seq<AccuracyPoint>): (r: seq<AccuracyPoint>)
    ensures |r| == Min(50, |h|)
    ensures r == h[|h| - |r|..]
  {
    if |h| > 50 then h[|h| - 50..] else h
  }

  /** Trimming after every push keeps the same points as trimming once at the end: the
      window always holds the newest points of the whole history, in order. */
  lemma {:induction false} WindowPush(h: seq<AccuracyPoint>, p: AccuracyPoint)
    ensures Window(Window(h) + [p]) == Window(h + [p])
  {
    var w := Window(h);
    var n := |h|;
    if n > 50 {
      assert w + [p] == (h + [p])[n - 50..];
      assert (w + [p])[1..] == (h + [p])[n + 1 - 50..];
    }
  }

  /** The newest 50 points of a history built by pushes alone. */
  function Replay(start: seq<AccuracyPoint>, pushes: seq<AccuracyPoint>): seq<AccuracyPoint>
  {
    if pushes == [] then start
    else Window(Replay(start, pushes[..|pushes| - 1]) + [pushes[|pushes| - 1]])
  }

  /** However many updates run, the history holds the newest 50 points of everything
      pushed, in order. */
  lemma {:induction false} ReplayIsWindow(start: seq<AccuracyPoint>, pushes: seq<AccuracyPoint>)
    requires |start| <= 50
    ensures Replay(start, pushes) == Window(start + pushes)
  {
    if pushes == [] {
      assert start + pushes == start;
    } else {
      var init, p := pushes[..|pushes| - 1], pushes[|pushes| - 1];
      ReplayIsWindow(start, init);
      WindowPush(start + init, p);
      assert start + init + [p] == start + pushes;
    }
  }

  /** The fraction of verified predictions that came true. */
  function Accuracy(correct: nat, total: nat): (r: real)
    requires total > 0
    ensures correct <= total ==> 0.0 <= r <= 1.0
  {
    correct as real / total as real
  }

  /** `updateLearningModel()`: with at least one verified prediction, progress becomes
      min(100, total), the weights adjust when more than five failures are recorded, and
      the accuracy point is pushed onto the history window; otherwise nothing changes. */
  function UpdatedModel(lm: LearningModel): (r: LearningModel)
    requires Positive(lm.weights)
    ensures Positive(r.weights)
    ensures Normalised(lm.weights) ==> Normalised(r.weights)
    ensures lm.totalPredictions == 0 ==> r == lm
    ensures lm.totalPredictions > 0 ==>
      && r.learningProgress == Min(100, lm.totalPredictions) as real
      && |r.accuracyHistory| <= 50
      && r.accuracyHistory == Window(lm.accuracyHistory + [AccuracyPoint(
           Accuracy(lm.correctPredictions, lm.totalPredictions) * 100.0, lm.totalPredictions)])
      && (|lm.failurePatterns| > 5 ==> r.weights == AdjustedWeights(lm.weights))
      && (|lm.failurePatterns| <= 5 ==> r.weights == lm.weights)
    ensures r.successPatterns == lm.successPatterns && r.failurePatterns == lm.failurePatterns
    ensures r.totalPredictions == lm.totalPredictions && r.correctPredictions == lm.correctPredictions
  {
    if lm.totalPredictions == 0 then lm
    else
      var total := lm.totalPredictions;
      var accuracy := Accuracy(lm.correctPredictions, total);
      var progress := MinReal(100.0, (total as real / 100.0) * 100.0);
      var weights := if |lm.failurePatterns| > 5 then AdjustModelWeights(lm.weights, |lm.failurePatterns|)
                     else lm.weights;
      var history := Window(lm.accuracyHistory + [AccuracyPoint(accuracy * 100.0, total)]);
      lm.(learningProgress := progress, weights := weights, accuracyHistory := history)
  }

  /** The `learningModel` part of an imported archive file; absent lists are empty and
      absent counters are zero. */
  datatype ImportedModel = ImportedModel(
    successPatterns: seq<SuccessPattern>,
    failurePatterns: seq<FailurePattern>,
    accuracyHistory: seq<AccuracyPoint>,
    totalPredictions: nat,
    correctPredictions: nat)

  /** The learning-model merge of `importArchive`: lists are appended, counters added;
      weights and progress are kept. */
  function MergeModel(lm: LearningModel, im: ImportedModel): (r: LearningModel)
    ensures r.weights == lm.weights && r.learningProgress == lm.learningProgress
    ensures r.successPatterns == lm.successPatterns + im.successPatterns
    ensures r.failurePatterns == lm.failurePatterns + im.failurePatterns
    ensures r.accuracyHistory == lm.accuracyHistory + im.accuracyHistory
    ensures r.totalPredictions == lm.totalPredictions + im.totalPredictions
    ensures r.correctPredictions == lm.correctPredictions + im.correctPredictions
    ensures r.totalPredictions - r.correctPredictions
            == (lm.totalPredictions - lm.correctPredictions) + (im.totalPredictions - im.correctPredictions)
  {
    lm.(successPatterns := lm.successPatterns + im.successPatterns,
        failurePatterns := lm.failurePatterns + im.failurePatterns,
        accuracyHistory := lm.accuracyHistory + im.accuracyHistory,
        totalPredictions := lm.totalPredictions + im.totalPredictions,
        correctPredictions := lm.correctPredictions + im.correctPredictions)
  }

  /** Merging an empty import changes nothing, and merging two imports one after the other
      is merging their combination. */
  lemma MergeLaws(lm: LearningModel, a: ImportedModel, b: ImportedModel)
    ensures MergeModel(lm, ImportedModel([], [], [], 0, 0)) == lm
    ensures MergeModel(MergeModel(lm, a), b) == MergeModel(lm, ImportedModel(
      a.successPatterns + b.successPatterns, a.failurePatterns + b.failurePatterns,
      a.accuracyHistory + b.accuracyHistory, a.totalPredictions + b.totalPredictions,
      a.correctPredictions + b.correctPredictions))
  {
    assert lm.successPatterns + [] == lm.successPatterns;
    assert lm.failurePatterns + [] == lm.failurePatterns;
    assert lm.accuracyHistory + [] == lm.accuracyHistory;
    assert lm.successPatterns + a.successPatterns + b.successPatterns
        == lm.successPatterns + (a.successPatterns + b.successPatterns);
    assert lm.failurePatterns + a.failurePatterns + b.failurePatterns
        == lm.failurePatterns + (a.failurePatterns + b.failurePatterns);
    assert lm.accuracyHistory + a.accuracyHistory + b.accuracyHistory
        == lm.accuracyHistory + (a.accuracyHistory + b.accuracyHistory);
  }
}
