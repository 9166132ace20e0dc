/** The loop of `startRealAnalysis` (app.js:502-532), stated for any signature function
    `key` and any analysis `analyze`; the analyzer uses `Signature.MatchSignature` and
    `Forecast.Analyze` with its learning model. A match whose signature is cached reuses
    the cached prediction; any other is analysed and its prediction cached; predictions
    at or above the confidence threshold are collected, and a failing analysis ends the
    run. */
module Analysis {
  import opened Common
  import opened Types
  import opened MatchFactors

  /** The cache and the collected predictions after some matches, and whether an analysis
      failed (a failed run stops where it failed). */
  datatype RunState = RunState(cache: map<string, Prediction>, results: seq<Prediction>, failed: bool)

  /** `[p]` when `p` reaches the threshold, else nothing. */
  function Kept(p: Prediction, minConfidence: int): (r: seq<Prediction>)
    ensures r == [p] <==> p.confidence >= minConfidence
    ensures r == [] <==> p.confidence < minConfidence
  {
    if p.confidence >= minConfidence then [p] else []
  }

  /** One iteration of the loop: get or compute the prediction for `m`. */
  function Step(st: RunState, m: Match, analyze: Match -> Result<Prediction, AnalysisError>,
                key: Match -> string, minConfidence: int): RunState
  {
    if st.failed then st
    else if key(m) in st.cache then
      st.(results := st.results + Kept(st.cache[key(m)], minConfidence))
    else match analyze(m)
      case Failure(_) => st.(failed := true)
      case Success(p) => RunState(st.cache[key(m) := p], st.results + Kept(p, minConfidence), false)
  }

  /** The state after the loop has run over `ms`, starting from the cache `cache`. */
  function Run(cache: map<string, Prediction>, ms: seq<Match>, analyze: Match -> Result<Prediction, AnalysisError>,
               key: Match -> string, minConfidence: int): RunState
  {
    if ms == [] then RunState(cache, [], false)
    else Step(Run(cache, ms[..|ms| - 1], analyze, key, minConfidence), ms[|ms| - 1], analyze, key, minConfidence)
  }

  /** The run over one more match. */
  lemma RunPush(cache: map<string, Prediction>, ms: seq<Match>, m: Match,
                analyze: Match -> Result<Prediction, AnalysisError>, key: Match -> string, minConfidence: int)
    ensures Run(cache, ms + [m], analyze, key, minConfidence)
         == Step(Run(cache, ms, analyze, key, minConfidence), m, analyze, key, minConfidence)
  {
    assert (ms + [m])[..|ms + [m]| - 1] == ms;
  }

  /** Once an analysis fails, the rest of the matches change nothing. */
  lemma {:induction false} RunStopsAtFailure(cache: map<string, Prediction>, ms: seq<Match>, rest: seq<Match>,
      analyze: Match -> Result<Prediction, AnalysisError>, key: Match -> string, minConfidence: int)
    requires Run(cache, ms, analyze, key, minConfidence).failed
    ensures Run(cache, ms + rest, analyze, key, minConfidence) == Run(cache, ms, analyze, key, minConfidence)
    decreases |rest|
  {
    if rest == [] {
      assert ms + rest == ms;
    } else {
      var init := rest[..|rest| - 1];
      RunStopsAtFailure(cache, ms, init, analyze, key, minConfidence);
      assert (ms + rest)[..|ms + rest| - 1] == ms + init;
    }
  }

  /** The loop of `startRealAnalysis`: a cached prediction is reused, any other match is
      analysed and its prediction cached, the predictions reaching the threshold are
      collected, and the first failing analysis ends the loop. The cache, the collected
      predictions and the failure are those of `Run`. */
  method RunMatches(cache0: map<string, Prediction>, ms: seq<Match>, analyze: Match -> Result<Prediction, AnalysisError>,
                    key: Match -> string, minConfidence: int)
    returns (cache: map<string, Prediction>, results: seq<Prediction>, failed: bool)
    ensures RunState(cache, results, failed) == Run(cache0, ms, analyze, key, minConfidence)
  {
    cache, results, failed := cache0, [], false;
    var i := 0;
    while i < |ms|
      invariant 0 <= i <= |ms|
      invariant Run(cache0, ms[..i], analyze, key, minConfidence) == RunState(cache, results, false)
    {
      var m := ms[i];
      RunPush(cache0, ms[..i], m, analyze, key, minConfidence);
      assert ms[..i + 1] == ms[..i] + [m];
      var signature := key(m);
      var prediction;
      if signature in cache {
        prediction := cache[signature];
      } else {
        var r := analyze(m);
        if r.Failure? {
          RunStopsAtFailure(cache0, ms[..i + 1], ms[i + 1..], analyze, key, minConfidence);
          assert ms[..i + 1] + ms[i + 1..] == ms;
          return cache, results, true;
        }
        prediction := r.value;
        cache := cache[signature := prediction];
      }
      if prediction.confidence >= minConfidence {
        results := results + [prediction];
      }
      i := i + 1;
    }
    assert ms[..i] == ms;
  }

  /** The cache only grows: no cached prediction is replaced or dropped. */
  lemma {:induction false} RunKeepsCache(cache: map<string, Prediction>, ms: seq<Match>,
      analyze: Match -> Result<Prediction, AnalysisError>, key: Match -> string, minConfidence: int)
    ensures var st := Run(cache, ms, analyze, key, minConfidence);
      forall k :: k in cache ==> k in st.cache && st.cache[k] == cache[k]
  {
    if ms != [] {
      RunKeepsCache(cache, ms[..|ms| - 1], analyze, key, minConfidence);
    }
  }

  /** Every collected prediction reaches the threshold. */
  lemma {:induction false} RunThreshold(cache: map<string, Prediction>, ms: seq<Match>,
      analyze: Match -> Result<Prediction, AnalysisError>, key: Match -> string, minConfidence: int)
    ensures forall p :: p in Run(cache, ms, analyze, key, minConfidence).results ==> p.confidence >= minConfidence
  {
    if ms != [] {
      RunThreshold(cache, ms[..|ms| - 1], analyze, key, minConfidence);
    }
  }

  /** Every prediction the run adds to the cache is the analysis of a match of the run,
      filed under that match's signature. */
  lemma {:induction false} RunCacheEntries(cache: map<string, Prediction>, ms: seq<Match>,
      analyze: Match -> Result<Prediction, AnalysisError>, key: Match -> string, minConfidence: int)
    ensures var st := Run(cache, ms, analyze, key, minConfidence);
      forall k :: k in st.cache && k !in cache ==>
        exists m :: m in ms && key(m) == k && analyze(m) == Success(st.cache[k])
  {
    if ms != [] {
      var init := ms[..|ms| - 1];
      RunCacheEntries(cache, init, analyze, key, minConfidence);
      assert forall m :: m in init ==> m in ms;
      assert ms[|ms| - 1] in ms;
    }
  }

  /** When every analysis succeeds the run does not fail, and afterwards every match of
      the run has its prediction cached. */
  lemma {:induction false} RunCovers(cache: map<string, Prediction>, ms: seq<Match>,
      analyze: Match -> Result<Prediction, AnalysisError>, key: Match -> string, minConfidence: int)
    ensures var st := Run(cache, ms, analyze, key, minConfidence);
      && ((forall m :: m in ms ==> analyze(m).Success?) ==> !st.failed)
      && (!st.failed ==> forall m :: m in ms ==> key(m) in st.cache)
  {
    if ms != [] {
      var init := ms[..|ms| - 1];
      RunCovers(cache, init, analyze, key, minConfidence);
      assert forall m :: m in init ==> m in ms;
      assert ms == init + [ms[|ms| - 1]];
    }
  }

  /** The predictions a run collects from a cache that already holds every match of the
      run. */
  function Hits(cache: map<string, Prediction>, ms: seq<Match>, key: Match -> string, minConfidence: int): seq<Prediction>
    requires forall m :: m in ms ==> key(m) in cache
  {
    if ms == [] then []
    else
      var init := ms[..|ms| - 1];
      assert forall m :: m in init ==> m in ms;
      Hits(cache, init, key, minConfidence) + Kept(cache[key(ms[|ms| - 1])], minConfidence)
  }

  /** With every match cached, the run analyses nothing, leaves the cache alone and
      collects the cached predictions. */
  lemma {:induction false} RunFromCache(cache: map<string, Prediction>, ms: seq<Match>,
      analyze: Match -> Result<Prediction, AnalysisError>, key: Match -> string, minConfidence: int)
    requires forall m :: m in ms ==> key(m) in cache
    ensures Run(cache, ms, analyze, key, minConfidence) == RunState(cache, Hits(cache, ms, key, minConfidence), false)
  {
    if ms != [] {
      var init := ms[..|ms| - 1];
      assert forall m :: m in init ==> m in ms;
      assert ms[|ms| - 1] in ms;
      RunFromCache(cache, init, analyze, key, minConfidence);
    }
  }

  /** Hits read through a larger cache that agrees on the run's matches are the same. */
  lemma {:induction false} HitsStable(c: map<string, Prediction>, d: map<string, Prediction>, ms: seq<Match>,
      key: Match -> string, minConfidence: int)
    requires forall m :: m in ms ==> key(m) in c
    requires forall k :: k in c ==> k in d && d[k] == c[k]
    ensures Hits(c, ms, key, minConfidence) == Hits(d, ms, key, minConfidence)
  {
    if ms != [] {
      var init := ms[..|ms| - 1];
      assert forall m :: m in init ==> m in ms;
      assert ms[|ms| - 1] in ms;
      HitsStable(c, d, init, key, minConfidence);
    }
  }

  /** A successful run collects exactly what its final cache holds for its matches. */
  lemma {:induction false} RunResults(cache: map<string, Prediction>, ms: seq<Match>,
      analyze: Match -> Result<Prediction, AnalysisError>, key: Match -> string, minConfidence: int)
    requires !Run(cache, ms, analyze, key, minConfidence).failed
    ensures var st := Run(cache, ms, analyze, key, minConfidence);
      (forall m :: m in ms ==> key(m) in st.cache) && st.results == Hits(st.cache, ms, key, minConfidence)
  {
    RunCovers(cache, ms, analyze, key, minConfidence);
    if ms != [] {
      var init, m := ms[..|ms| - 1], ms[|ms| - 1];
      var prev := Run(cache, init, analyze, key, minConfidence);
      var st := Run(cache, ms, analyze, key, minConfidence);
      RunResults(cache, init, analyze, key, minConfidence);
      assert st == Step(prev, m, analyze, key, minConfidence);
      assert forall k :: k in prev.cache ==> k in st.cache && st.cache[k] == prev.cache[k];
      HitsStable(prev.cache, st.cache, init, key, minConfidence);
      assert forall x :: x in init ==> x in ms;
      assert m in ms;
    }
  }

  /** Running the same matches again right after a successful run reuses every cached
      prediction: the cache stays as it is and the same predictions are collected, even
      when the analysis itself would now give different ones. */
  lemma RerunIsCached(cache: map<string, Prediction>, ms: seq<Match>,
      first: Match -> Result<Prediction, AnalysisError>, second: Match -> Result<Prediction, AnalysisError>,
      key: Match -> string, minConfidence: int)
    requires !Run(cache, ms, first, key, minConfidence).failed
    ensures var st := Run(cache, ms, first, key, minConfidence);
      Run(st.cache, ms, second, key, minConfidence) == st
  {
    var st := Run(cache, ms, first, key, minConfidence);
    RunResults(cache, ms, first, key, minConfidence);
    RunFromCache(st.cache, ms, second, key, minConfidence);
  }
}
