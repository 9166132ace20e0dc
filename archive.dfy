/** The prediction archive (app.js:884-977, 1052-1090, 1621-1625): predictions are appended
    as pending entries, each pending entry is settled exactly once as correct or incorrect
    and leaves a success or failure pattern behind, an imported archive adds only the
    entries whose ids are unknown, and the overall accuracy is the share of verified
    entries that came true. Which way an entry settles (`Math.random()` in the source) is
    an outcome oracle the caller passes in. */
module Archive {
  import opened Common
  import opened Types

  /** The outcome of settling one pending entry: a hit, or a miss whose actual result is
      the first or the second of the two other bet types. */
  datatype Settlement = Hit | Miss(second: bool)

  const AllBets: seq<BetType> := [Home, Draw, Away]

  /** `s.filter(t => t !== b)` */
  function Without(s: seq<BetType>, b: BetType): (r: seq<BetType>)
    ensures forall x :: x in r <==> x in s && x != b
  {
    if s == [] then [] else (if s[0] == b then [] else [s[0]]) + Without(s[1..], b)
  }

  /** The bet types a missed prediction may have had as its actual result. */
  function Alternatives(b: BetType): (r: seq<BetType>)
    ensures |r| == 2 && r[0] != r[1]
    ensures forall x :: x in r <==> x != b
  {
    Without(AllBets, b)
  }

  /** One pending entry settled: verified, and correct with the predicted result or
      incorrect with another one. */
  function Settle(e: ArchiveEntry, s: Settlement): (r: ArchiveEntry)
    ensures r.id == e.id && r.prediction == e.prediction && r.verified
    ensures r.status == Correct <==> s.Hit?
    ensures r.status == Incorrect <==> s.Miss?
    ensures r.actualResult.Some?
    ensures r.actualResult == Some(e.prediction.betType) <==> s.Hit?
  {
    match s
    case Hit => e.(status := Correct, verified := true, actualResult := Some(e.prediction.betType))
    case Miss(second) =>
      var alternatives := Alternatives(e.prediction.betType);
      e.(status := Incorrect, verified := true, actualResult := Some(alternatives[if second then 1 else 0]))
  }

  predicate IsPending(e: ArchiveEntry) { e.status == Pending }
  predicate IsVerified(e: ArchiveEntry) { e.verified }
  predicate IsCorrect(e: ArchiveEntry) { e.status == Correct }

  /** The number of entries satisfying `p`. */
  function Count(a: seq<ArchiveEntry>, p: ArchiveEntry -> bool): (r: nat)
    ensures r <= |a|
  {
    if a == [] then 0 else Count(a[..|a| - 1], p) + (if p(a[|a| - 1]) then 1 else 0)
  }

  lemma {:induction false} CountConcat(a: seq<ArchiveEntry>, b: seq<ArchiveEntry>, p: ArchiveEntry -> bool)
    ensures Count(a + b, p) == Count(a, p) + Count(b, p)
  {
    if b == [] {
      assert a + b == a;
    } else {
      CountConcat(a, b[..|b| - 1], p);
      assert (a + b)[..|a + b| - 1] == a + b[..|b| - 1];
    }
  }

  /** No entry satisfies `p` exactly when the count is zero. */
  lemma {:induction false} CountZero(a: seq<ArchiveEntry>, p: ArchiveEntry -> bool)
    ensures Count(a, p) == 0 <==> forall i :: 0 <= i < |a| ==> !p(a[i])
  {
    if a != [] {
      CountZero(a[..|a| - 1], p);
    }
  }

  /** Entries for `p` that imply `q` are counted no more often than `q`. */
  lemma {:induction false} CountImplied(a: seq<ArchiveEntry>, p: ArchiveEntry -> bool, q: ArchiveEntry -> bool)
    requires forall i :: 0 <= i < |a| ==> p(a[i]) ==> q(a[i])
    ensures Count(a, p) <= Count(a, q)
  {
    if a != [] {
      CountImplied(a[..|a| - 1], p, q);
    }
  }

  /** The entry at one index, settled with the oracle's answer for its rank among the
      pending entries; other entries are left alone. */
  function SettleOne(e: ArchiveEntry, outcome: nat -> Settlement, rank: nat): ArchiveEntry {
    if IsPending(e) then Settle(e, outcome(rank)) else e
  }

  /** The archive after `verifyResults`: the k-th pending entry is settled with
      `outcome(k)`, every other entry is unchanged. */
  function SettleAll(a: seq<ArchiveEntry>, outcome: nat -> Settlement): (r: seq<ArchiveEntry>)
    ensures |r| == |a|
  {
    if a == [] then []
    else
      var init := a[..|a| - 1];
      SettleAll(init, outcome) + [SettleOne(a[|a| - 1], outcome, Count(init, IsPending))]
  }

  /** The entry at index `i` after a verification: settled with the oracle's answer for the
      number of pending entries before it, when it was pending. */
  lemma {:induction false} SettleAllAt(a: seq<ArchiveEntry>, outcome: nat -> Settlement, i: nat)
    requires i < |a|
    ensures SettleAll(a, outcome)[i] == SettleOne(a[i], outcome, Count(a[..i], IsPending))
  {
    var init := a[..|a| - 1];
    if i < |init| {
      SettleAllAt(init, outcome, i);
      assert init[..i] == a[..i];
    }
  }

  /** The pattern recorded for a prediction that came true. */
  function SuccessOf(e: ArchiveEntry): SuccessPattern {
    var p := e.prediction;
    SuccessPattern(p.fixture, p.betType, p.confidence, p.factors, p.league, p.home, p.odds)
  }

  /** The pattern recorded for a prediction that failed. */
  function FailureOf(e: ArchiveEntry, actual: BetType): FailurePattern {
    var p := e.prediction;
    FailurePattern(p.fixture, p.betType, actual, p.confidence, p.factors)
  }

  /** Entries that were not pending are unchanged; each pending entry keeps its id and
      prediction and ends verified, correct or incorrect. */
  lemma SettledEntries(a: seq<ArchiveEntry>, outcome: nat -> Settlement)
    ensures var r := SettleAll(a, outcome);
      && (forall i :: 0 <= i < |a| && !IsPending(a[i]) ==> r[i] == a[i])
      && (forall i :: 0 <= i < |a| && IsPending(a[i]) ==>
            r[i].verified && r[i].id == a[i].id && r[i].prediction == a[i].prediction
            && (r[i].status == Correct || r[i].status == Incorrect)
            && (r[i].status == Correct <==> r[i].actualResult == Some(a[i].prediction.betType)))
  {
    forall i | 0 <= i < |a| {
      SettleAllAt(a, outcome, i);
    }
  }

  /** The success patterns one verification appends, in archive order. */
  function NewSuccesses(a: seq<ArchiveEntry>, outcome: nat -> Settlement): seq<SuccessPattern> {
    if a == [] then []
    else
      var init, e := a[..|a| - 1], a[|a| - 1];
      NewSuccesses(init, outcome)
      + (if IsPending(e) && outcome(Count(init, IsPending)).Hit? then [SuccessOf(e)] else [])
  }

  /** The failure patterns one verification appends, in archive order. */
  function NewFailures(a: seq<ArchiveEntry>, outcome: nat -> Settlement): seq<FailurePattern> {
    if a == [] then []
    else
      var init, e := a[..|a| - 1], a[|a| - 1];
      var s := SettleOne(e, outcome, Count(init, IsPending));
      NewFailures(init, outcome)
      + (if IsPending(e) && s.status == Incorrect then [FailureOf(e, s.actualResult.value)] else [])
  }

  /** Every pending entry leaves exactly one pattern behind. */
  lemma {:induction false} PatternCount(a: seq<ArchiveEntry>, outcome: nat -> Settlement)
    ensures |NewSuccesses(a, outcome)| + |NewFailures(a, outcome)| == Count(a, IsPending)
  {
    if a != [] {
      PatternCount(a[..|a| - 1], outcome);
    }
  }

  /** The last entry of a settled archive is the last entry settled. */
  lemma SettleLast(a: seq<ArchiveEntry>, outcome: nat -> Settlement)
    requires a != []
    ensures var r := SettleAll(a, outcome); var init := a[..|a| - 1];
      && r[..|r| - 1] == SettleAll(init, outcome)
      && r[|r| - 1] == SettleOne(a[|a| - 1], outcome, Count(init, IsPending))
  {
    var init := a[..|a| - 1];
    assert SettleAll(a, outcome) == SettleAll(init, outcome) + [SettleOne(a[|a| - 1], outcome, Count(init, IsPending))];
  }

  /** The entries that come true are exactly the new successes. */
  lemma {:induction false} CorrectCount(a: seq<ArchiveEntry>, outcome: nat -> Settlement)
    ensures Count(SettleAll(a, outcome), IsCorrect) == Count(a, IsCorrect) + |NewSuccesses(a, outcome)|
  {
    if a != [] {
      CorrectCount(a[..|a| - 1], outcome);
      SettleLast(a, outcome);
    }
  }

  /** No entry is pending after a verification. */
  lemma {:induction false} NonePending(a: seq<ArchiveEntry>, outcome: nat -> Settlement)
    ensures Count(SettleAll(a, outcome), IsPending) == 0
  {
    if a != [] {
      NonePending(a[..|a| - 1], outcome);
      SettleLast(a, outcome);
    }
  }

  /** The bookkeeping the verification loop does for one settled entry: its success or
      failure pattern, and the counters. */
  function RecordOne(lm: LearningModel, e: ArchiveEntry, s: Settlement): LearningModel {
    match s
    case Hit =>
      lm.(successPatterns := lm.successPatterns + [SuccessOf(e)],
          correctPredictions := lm.correctPredictions + 1,
          totalPredictions := lm.totalPredictions + 1)
    case Miss(_) =>
      lm.(failurePatterns := lm.failurePatterns + [FailureOf(e, Settle(e, s).actualResult.value)],
          totalPredictions := lm.totalPredictions + 1)
  }

  /** The learning model once the verification loop has passed over `a`, before
      `updateLearningModel` runs. */
  function Recorded(lm: LearningModel, a: seq<ArchiveEntry>, outcome: nat -> Settlement): (r: LearningModel)
    ensures r.weights == lm.weights
  {
    if a == [] then lm
    else
      var init, e := a[..|a| - 1], a[|a| - 1];
      var prev := Recorded(lm, init, outcome);
      if IsPending(e) then RecordOne(prev, e, outcome(Count(init, IsPending))) else prev
  }

  /** The loop's bookkeeping appends exactly the new patterns, counts every pending entry
      once and every hit once, and touches nothing else. */
  lemma {:induction false} RecordedTotals(lm: LearningModel, a: seq<ArchiveEntry>, outcome: nat -> Settlement)
    ensures var r := Recorded(lm, a, outcome);
      && r.weights == lm.weights && r.learningProgress == lm.learningProgress
      && r.accuracyHistory == lm.accuracyHistory
      && r.successPatterns == lm.successPatterns + NewSuccesses(a, outcome)
      && r.failurePatterns == lm.failurePatterns + NewFailures(a, outcome)
      && r.totalPredictions == lm.totalPredictions + Count(a, IsPending)
      && r.correctPredictions == lm.correctPredictions + |NewSuccesses(a, outcome)|
  {
    if a == [] {
      assert lm.successPatterns + [] == lm.successPatterns;
      assert lm.failurePatterns + [] == lm.failurePatterns;
    } else {
      var init := a[..|a| - 1];
      RecordedTotals(lm, init, outcome);
      assert lm.successPatterns + NewSuccesses(init, outcome) + [SuccessOf(a[|a| - 1])]
          == lm.successPatterns + (NewSuccesses(init, outcome) + [SuccessOf(a[|a| - 1])]);
    }
  }

  /** A verification keeps the counters consistent: no more hits than verified
      predictions. */
  lemma RecordedConsistent(lm: LearningModel, a: seq<ArchiveEntry>, outcome: nat -> Settlement)
    requires lm.correctPredictions <= lm.totalPredictions
    ensures var r := Recorded(lm, a, outcome);
      r.correctPredictions <= r.totalPredictions
      && r.totalPredictions - r.correctPredictions
         == lm.totalPredictions - lm.correctPredictions + |NewFailures(a, outcome)|
  {
    RecordedTotals(lm, a, outcome);
    PatternCount(a, outcome);
  }

  /** One iteration of the verification loop: the entry at `i` is settled with the
      oracle's answer for its rank and its bookkeeping recorded. */
  lemma VerifyStep(a: seq<ArchiveEntry>, i: nat, lm: LearningModel, outcome: nat -> Settlement)
    requires i < |a|
    ensures var k := Count(a[..i], IsPending);
      && SettleAll(a[..i + 1], outcome) + a[i + 1..]
         == (SettleAll(a[..i], outcome) + a[i..])[i := SettleOne(a[i], outcome, k)]
      && Count(a[..i + 1], IsPending) == k + (if IsPending(a[i]) then 1 else 0)
      && Recorded(lm, a[..i + 1], outcome)
         == (if IsPending(a[i]) then RecordOne(Recorded(lm, a[..i], outcome), a[i], outcome(k))
             else Recorded(lm, a[..i], outcome))
      && |NewSuccesses(a[..i + 1], outcome)|
         == |NewSuccesses(a[..i], outcome)| + (if IsPending(a[i]) && outcome(k).Hit? then 1 else 0)
  {
    var k := Count(a[..i], IsPending);
    assert a[..i + 1][..i] == a[..i];
    SettleLast(a[..i + 1], outcome);
    var left := SettleAll(a[..i + 1], outcome) + a[i + 1..];
    var right := (SettleAll(a[..i], outcome) + a[i..])[i := SettleOne(a[i], outcome, k)];
    assert |left| == |right|;
    forall j | 0 <= j < |left| ensures left[j] == right[j] {
      if j < i {
        assert left[j] == SettleAll(a[..i], outcome)[j];
      }
    }
  }

  /** The state of the `verifyResults` loop after the first `i` entries of `a0`: those
      are settled, `k` of them were pending, and the model and the count of correct
      tips have recorded them. */
  predicate Settled(a0: seq<ArchiveEntry>, m0: LearningModel, outcome: nat -> Settlement, i: nat,
                    a: seq<ArchiveEntry>, k: nat, lm: LearningModel, correct: nat)
  {
    && i <= |a0|
    && a == SettleAll(a0[..i], outcome) + a0[i..]
    && k == Count(a0[..i], IsPending)
    && lm == Recorded(m0, a0[..i], outcome)
    && correct == |NewSuccesses(a0[..i], outcome)|
  }

  /** The loop's step at an entry still to settle: it is the original entry, and settling
      and recording it moves the loop on. */
  lemma SettleStep(a0: seq<ArchiveEntry>, m0: LearningModel, outcome: nat -> Settlement, i: nat,
                   a: seq<ArchiveEntry>, k: nat, lm: LearningModel, correct: nat)
    requires i < |a0|
    requires Settled(a0, m0, outcome, i, a, k, lm, correct)
    ensures a[i] == a0[i]
    ensures IsPending(a0[i]) ==> Settled(a0, m0, outcome, i + 1, a[i := Settle(a[i], outcome(k))], k + 1,
                                         RecordOne(lm, a[i], outcome(k)),
                                         correct + (if outcome(k).Hit? then 1 else 0))
    ensures !IsPending(a0[i]) ==> Settled(a0, m0, outcome, i + 1, a, k, lm, correct)
  {
    VerifyStep(a0, i, m0, outcome);
  }

  /** The loop of `verifyResults` over the archive: each pending entry is settled with
      the oracle's answer for its rank among the pending entries, and its pattern and
      counters are recorded in the learning model. */
  method SettleEntries(a0: seq<ArchiveEntry>, m0: LearningModel, outcome: nat -> Settlement)
    returns (a: seq<ArchiveEntry>, lm: LearningModel, correct: nat)
    ensures a == SettleAll(a0, outcome)
    ensures lm == Recorded(m0, a0, outcome)
    ensures correct == |NewSuccesses(a0, outcome)|
  {
    a, lm, correct := a0, m0, 0;
    var i, k := 0, 0;
    while i < |a|
      invariant |a| == |a0|
      invariant Settled(a0, m0, outcome, i, a, k, lm, correct)
    {
      SettleStep(a0, m0, outcome, i, a, k, lm, correct);
      var e := a[i];
      if e.status == Pending {
        var s := outcome(k);
        a := a[i := Settle(e, s)];
        lm := RecordOne(lm, e, s);
        if s.Hit? {
          correct := correct + 1;
        }
        k := k + 1;
      }
      i := i + 1;
    }
    assert a0[..i] == a0;
  }

  /** With nothing pending, a verification changes no entry and records no pattern: a
      second call right after a first one is idle. */
  lemma {:induction false} SettleIdle(a: seq<ArchiveEntry>, outcome: nat -> Settlement)
    requires Count(a, IsPending) == 0
    ensures SettleAll(a, outcome) == a
    ensures NewSuccesses(a, outcome) == [] && NewFailures(a, outcome) == []
  {
    CountZero(a, IsPending);
    if a != [] {
      var init := a[..|a| - 1];
      assert Count(init, IsPending) == 0;
      SettleIdle(init, outcome);
    }
  }

  /** Settling twice is settling once: every transition out of pending happens once. */
  lemma SettleOnce(a: seq<ArchiveEntry>, first: nat -> Settlement, second: nat -> Settlement)
    ensures SettleAll(SettleAll(a, first), second) == SettleAll(a, first)
  {
    NonePending(a, first);
    SettleIdle(SettleAll(a, first), second);
  }

  /** An archive in which every correct entry is verified. */
  predicate Consistent(a: seq<ArchiveEntry>) {
    forall i :: 0 <= i < |a| ==> IsCorrect(a[i]) ==> IsVerified(a[i])
  }

  /** Settling keeps an archive consistent. */
  lemma SettlePreservesConsistency(a: seq<ArchiveEntry>, outcome: nat -> Settlement)
    requires Consistent(a)
    ensures Consistent(SettleAll(a, outcome))
  {
    SettledEntries(a, outcome);
  }

  /** `addPredictionsToArchive`'s entries: each prediction as a pending, unverified entry
      without an actual result, under the fresh id the caller supplies for its position. */
  function NewEntries(ps: seq<Prediction>, freshId: nat -> string, start: nat): (r: seq<ArchiveEntry>)
    ensures |r| == |ps|
    ensures forall k :: 0 <= k < |ps| ==>
      r[k].prediction == ps[k] && r[k].id == freshId(start + k)
      && r[k].status == Pending && !r[k].verified && r[k].actualResult.None?
    ensures Count(r, IsPending) == |ps|
    ensures Consistent(r)
  {
    var r := seq(|ps|, k requires 0 <= k < |ps| => ArchiveEntry(freshId(start + k), ps[k], Pending, false, None));
    AllPending(r);
    r
  }

  lemma {:induction false} AllPending(a: seq<ArchiveEntry>)
    requires forall i :: 0 <= i < |a| ==> IsPending(a[i])
    ensures Count(a, IsPending) == |a|
  {
    if a != [] {
      AllPending(a[..|a| - 1]);
    }
  }

  /** The ids already in an archive. */
  function Ids(a: seq<ArchiveEntry>): set<string> {
    set e | e in a :: e.id
  }

  /** `incoming.filter(p => !ids.has(p.id))`, order kept. */
  function KeepUnknown(ids: set<string>, incoming: seq<ArchiveEntry>): (r: seq<ArchiveEntry>)
    ensures |r| <= |incoming|
    ensures forall e :: e in r <==> e in incoming && e.id !in ids
  {
    if incoming == [] then []
    else (if incoming[0].id in ids then [] else [incoming[0]]) + KeepUnknown(ids, incoming[1..])
  }

  /** Into an empty archive an import adds every entry, in order. */
  lemma {:induction false} KeepAllUnknown(incoming: seq<ArchiveEntry>)
    ensures KeepUnknown({}, incoming) == incoming
  {
    if incoming != [] {
      KeepAllUnknown(incoming[1..]);
    }
  }

  /** When every incoming id is known, nothing is kept. */
  lemma {:induction false} KeepNoneKnown(ids: set<string>, incoming: seq<ArchiveEntry>)
    requires forall e :: e in incoming ==> e.id in ids
    ensures KeepUnknown(ids, incoming) == []
  {
    if incoming != [] {
      assert incoming[0] in incoming;
      assert forall e :: e in incoming[1..] ==> e in incoming;
      KeepNoneKnown(ids, incoming[1..]);
    }
  }

  /** Importing the same archive file twice adds its entries once. */
  lemma ImportTwice(a: seq<ArchiveEntry>, incoming: seq<ArchiveEntry>)
    ensures var once := a + KeepUnknown(Ids(a), incoming);
      KeepUnknown(Ids(once), incoming) == []
  {
    var once := a + KeepUnknown(Ids(a), incoming);
    forall e | e in incoming
      ensures e.id in Ids(once)
    {
      if e.id !in Ids(a) {
        assert e in once;
      } else {
        var x :| x in a && x.id == e.id;
        assert x in once;
      }
    }
    KeepNoneKnown(Ids(once), incoming);
  }

  /** `calculateOverallAccuracy()` before formatting: correct entries per verified entry,
      as a percentage, or 0 with nothing verified. */
  function OverallAccuracy(a: seq<ArchiveEntry>): (r: real)
    ensures Count(a, IsVerified) == 0 ==> r == 0.0
    ensures r >= 0.0
  {
    var verified := Count(a, IsVerified);
    if verified > 0 then Count(a, IsCorrect) as real / verified as real * 100.0 else 0.0
  }

  /** On a consistent archive, where every correct entry is verified, the accuracy is at
      most 100 percent. */
  lemma OverallAccuracyAtMost100(a: seq<ArchiveEntry>)
    requires Consistent(a)
    ensures OverallAccuracy(a) <= 100.0
  {
    var verified := Count(a, IsVerified);
    if verified > 0 {
      CountImplied(a, IsCorrect, IsVerified);
      RatioAtMostOne(Count(a, IsCorrect), verified);
    }
  }

  lemma RatioAtMostOne(c: nat, v: nat)
    requires 0 < v && c <= v
    ensures 0.0 <= c as real / v as real <= 1.0
  {
    assert (c as real / v as real) * v as real == c as real;
  }
}
