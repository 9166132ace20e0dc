/** The bookkeeping of the upload loop (app.js:296-307), stated for any signature function
    `key`; the analyzer uses `Signature.MatchSignature`. The memory of signatures decides
    which incoming matches are stored and which are counted as duplicates. */
module Dedup {
  import opened Types

  /** The signatures of a sequence of matches. */
  function Signatures(key: Match -> string, ms: seq<Match>): (r: set<string>)
    ensures forall k :: 0 <= k < |ms| ==> key(ms[k]) in r
  {
    if ms == [] then {} else Signatures(key, ms[..|ms| - 1]) + {key(ms[|ms| - 1])}
  }

  /** Every remembered signature belongs to one of the matches. */
  lemma {:induction false} SignaturesExact(key: Match -> string, ms: seq<Match>, s: string)
    ensures s in Signatures(key, ms) <==> exists k :: 0 <= k < |ms| && key(ms[k]) == s
  {
    if ms != [] {
      var init := ms[..|ms| - 1];
      SignaturesExact(key, init, s);
      if exists k :: 0 <= k < |init| && key(init[k]) == s {
        var k :| 0 <= k < |init| && key(init[k]) == s;
        assert ms[k] == init[k];
      }
    }
  }

  lemma {:induction false} SignaturesConcat(key: Match -> string, xs: seq<Match>, ys: seq<Match>)
    ensures Signatures(key, xs + ys) == Signatures(key, xs) + Signatures(key, ys)
    decreases |ys|
  {
    if ys == [] {
      assert xs + ys == xs;
    } else {
      var zs := xs + ys;
      assert zs[..|zs| - 1] == xs + ys[..|ys| - 1];
      assert zs[|zs| - 1] == ys[|ys| - 1];
      SignaturesConcat(key, xs, ys[..|ys| - 1]);
    }
  }

  /** No two matches of the sequence share a signature. */
  predicate DistinctSignatures(key: Match -> string, ms: seq<Match>) {
    forall i, j :: 0 <= i < j < |ms| ==> key(ms[i]) != key(ms[j])
  }

  /** The matches of `incoming` that the upload loop stores when it starts with the
      signatures `memory`: each is kept when neither the memory nor an earlier incoming
      match has its signature. */
  function Admit(key: Match -> string, memory: set<string>, incoming: seq<Match>): seq<Match> {
    if incoming == [] then []
    else
      var init := incoming[..|incoming| - 1];
      var m := incoming[|incoming| - 1];
      Admit(key, memory, init) + (if key(m) in memory + Signatures(key, init) then [] else [m])
  }

  /** What the upload loop stores: nothing already remembered, no signature twice, and
      afterwards the memory covers every incoming match. */
  lemma {:induction false} AdmitSpec(key: Match -> string, memory: set<string>, incoming: seq<Match>)
    ensures var r := Admit(key, memory, incoming);
      && Signatures(key, r) == Signatures(key, incoming) - memory
      && DistinctSignatures(key, r)
      && memory + Signatures(key, r) == memory + Signatures(key, incoming)
      && (forall m :: m in r ==> m in incoming)
  {
    if incoming != [] {
      var init := incoming[..|incoming| - 1];
      var m := incoming[|incoming| - 1];
      var prev := Admit(key, memory, init);
      AdmitSpec(key, memory, init);
      if key(m) !in memory + Signatures(key, init) {
        var r := prev + [m];
        assert r[..|r| - 1] == prev && r[|r| - 1] == m;
        assert Admit(key, memory, incoming) == r;
        assert Signatures(key, r) == Signatures(key, prev) + {key(m)};
        assert Signatures(key, incoming) == Signatures(key, init) + {key(m)};
        assert (Signatures(key, init) - memory) + {key(m)} == (Signatures(key, init) + {key(m)}) - memory;
        forall i, j | 0 <= i < j < |r| ensures key(r[i]) != key(r[j]) {
          if j == |r| - 1 {
            assert key(r[i]) in Signatures(key, prev) by {
              assert r[i] == prev[i];
            }
          }
        }
      } else {
        assert Admit(key, memory, incoming) == prev;
        assert Signatures(key, incoming) == Signatures(key, init) + {key(m)};
      }
    }
  }

  /** Distinct signatures are as many as the matches carrying them. */
  lemma {:induction false} DistinctCount(key: Match -> string, ms: seq<Match>)
    requires DistinctSignatures(key, ms)
    ensures |Signatures(key, ms)| == |ms|
  {
    if ms != [] {
      var init := ms[..|ms| - 1];
      DistinctCount(key, init);
      SignaturesExact(key, init, key(ms[|ms| - 1]));
    }
  }

  /** The number of new matches an upload reports: the incoming signatures not yet
      remembered. */
  lemma AdmitCount(key: Match -> string, memory: set<string>, incoming: seq<Match>)
    ensures |Admit(key, memory, incoming)| == |Signatures(key, incoming) - memory|
  {
    AdmitSpec(key, memory, incoming);
    DistinctCount(key, Admit(key, memory, incoming));
  }

  /** Uploading two batches one after the other stores what uploading them together would:
      the second batch is filtered by the memory the first one left behind. */
  lemma {:induction false} AdmitConcat(key: Match -> string, memory: set<string>, xs: seq<Match>, ys: seq<Match>)
    ensures Admit(key, memory, xs + ys) == Admit(key, memory, xs) + Admit(key, memory + Signatures(key, xs), ys)
    decreases |ys|
  {
    if ys == [] {
      assert xs + ys == xs;
    } else {
      var zs := xs + ys;
      var yinit := ys[..|ys| - 1];
      assert zs[..|zs| - 1] == xs + yinit;
      assert zs[|zs| - 1] == ys[|ys| - 1];
      AdmitConcat(key, memory, xs, yinit);
      SignaturesConcat(key, xs, yinit);
    }
  }

  /** A match whose signature was seen before is never stored again: uploading a file a
      second time adds nothing. */
  lemma AdmitRemembered(key: Match -> string, memory: set<string>, incoming: seq<Match>)
    requires Signatures(key, incoming) <= memory
    ensures Admit(key, memory, incoming) == []
  {
    AdmitSpec(key, memory, incoming);
  }

  /** The signatures after one more match. */
  lemma SignaturesPush(key: Match -> string, ms: seq<Match>, m: Match)
    ensures Signatures(key, ms + [m]) == Signatures(key, ms) + {key(m)}
  {
    assert (ms + [m])[..|ms + [m]| - 1] == ms;
  }

  /** The upload loop's step: one more incoming match is stored exactly when neither the
      memory nor an earlier incoming match has its signature. */
  lemma AdmitPush(key: Match -> string, memory: set<string>, incoming: seq<Match>, m: Match)
    ensures Admit(key, memory, incoming + [m])
         == Admit(key, memory, incoming) + (if key(m) in memory + Signatures(key, incoming) then [] else [m])
  {
    assert (incoming + [m])[..|incoming + [m]| - 1] == incoming;
  }

  /** Storing a match with an unseen signature keeps the signatures distinct. */
  lemma DistinctPush(key: Match -> string, ms: seq<Match>, m: Match)
    requires DistinctSignatures(key, ms)
    requires key(m) !in Signatures(key, ms)
    ensures DistinctSignatures(key, ms + [m])
  {
    var r := ms + [m];
    forall i, j | 0 <= i < j < |r| ensures key(r[i]) != key(r[j]) {
      if j == |ms| {
        assert r[i] == ms[i];
      } else {
        assert r[i] == ms[i] && r[j] == ms[j];
      }
    }
  }

  /** An upload never stores more matches than it brings. */
  lemma {:induction false} AdmitLength(key: Match -> string, memory: set<string>, incoming: seq<Match>)
    ensures |Admit(key, memory, incoming)| <= |incoming|
  {
    if incoming != [] {
      AdmitLength(key, memory, incoming[..|incoming| - 1]);
    }
  }

  /** The upload loop's invariant: the stored matches are those already stored plus the
      admitted part of the incoming ones, the memory holds exactly their signatures, and
      those are distinct. */
  predicate Stored(key: Match -> string, memory0: set<string>, stored0: seq<Match>,
                   stored: seq<Match>, memory: set<string>, incoming: seq<Match>)
  {
    && DistinctSignatures(key, stored)
    && stored == stored0 + Admit(key, memory0, incoming)
    && memory == memory0 + Signatures(key, incoming)
    && memory == Signatures(key, stored)
  }

  /** An iteration that meets an unseen signature stores the match and remembers it. */
  lemma StoreNew(key: Match -> string, memory0: set<string>, stored0: seq<Match>,
                 stored: seq<Match>, memory: set<string>, incoming: seq<Match>, i: nat)
    requires i < |incoming|
    requires Stored(key, memory0, stored0, stored, memory, incoming[..i])
    requires key(incoming[i]) !in memory
    ensures Stored(key, memory0, stored0, stored + [incoming[i]], memory + {key(incoming[i])}, incoming[..i + 1])
    ensures |Admit(key, memory0, incoming[..i + 1])| == |Admit(key, memory0, incoming[..i])| + 1
  {
    var m := incoming[i];
    assert incoming[..i + 1] == incoming[..i] + [m];
    AdmitPush(key, memory0, incoming[..i], m);
    SignaturesPush(key, incoming[..i], m);
    DistinctPush(key, stored, m);
    SignaturesPush(key, stored, m);
  }

  /** An iteration that meets a remembered signature changes nothing. */
  lemma StoreDuplicate(key: Match -> string, memory0: set<string>, stored0: seq<Match>,
                       stored: seq<Match>, memory: set<string>, incoming: seq<Match>, i: nat)
    requires i < |incoming|
    requires Stored(key, memory0, stored0, stored, memory, incoming[..i])
    requires key(incoming[i]) in memory
    ensures Stored(key, memory0, stored0, stored, memory, incoming[..i + 1])
    ensures |Admit(key, memory0, incoming[..i + 1])| == |Admit(key, memory0, incoming[..i])|
  {
    var m := incoming[i];
    assert incoming[..i + 1] == incoming[..i] + [m];
    AdmitPush(key, memory0, incoming[..i], m);
    SignaturesPush(key, incoming[..i], m);
  }

  /** The dedup loop of `handleFileUpload` over one file's matches: each match whose
      signature is not yet remembered is stored and its signature remembered; the others
      are counted as duplicates. Starting from a memory that holds exactly the distinct
      signatures of the stored matches, it ends in the same relation, having stored the
      admitted matches. */
  method StoreAll(key: Match -> string, stored0: seq<Match>, memory0: set<string>, incoming: seq<Match>)
    returns (stored: seq<Match>, memory: set<string>, added: nat)
    requires memory0 == Signatures(key, stored0) && DistinctSignatures(key, stored0)
    ensures Stored(key, memory0, stored0, stored, memory, incoming)
    ensures added == |Admit(key, memory0, incoming)| <= |incoming|
  {
    stored, memory, added := stored0, memory0, 0;
    var i := 0;
    while i < |incoming|
      invariant 0 <= i <= |incoming|
      invariant Stored(key, memory0, stored0, stored, memory, incoming[..i])
      invariant added == |Admit(key, memory0, incoming[..i])|
    {
      var m := incoming[i];
      var signature := key(m);
      if signature in memory {
        StoreDuplicate(key, memory0, stored0, stored, memory, incoming, i);
      } else {
        StoreNew(key, memory0, stored0, stored, memory, incoming, i);
        stored := stored + [m];
        memory := memory + {signature};
        added := added + 1;
      }
      i := i + 1;
    }
    assert incoming[..i] == incoming;
    AdmitLength(key, memory0, incoming);
  }
}
