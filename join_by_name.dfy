/**
 The body of the join-by-name tool, statement by statement: load the decoded
 tallies into wrapper records, fill each record's `answers_by_name` in place,
 then build the corrections with three nested loops. Each method is proved to
 compute what the functions of `JoinSpec` describe.
 */
module JoinByName {
  import opened Decimal
  import opened JoinSpec

  /** One loaded result: the wrapper dictionary whose two keys are `data`
      (the decoded tally's `counts`) and `answers_by_name`, which starts empty
      and is filled in place. */
  class TallyResult {
    const data: Tally
    var answersByName: seq<Index>

    constructor (data: Tally)
      ensures this.data == data && answersByName == []
    {
      this.data := data;
      answersByName := [];
    }

    /** Appends the index of every question of the tally, in order. */
    method AddIndexes()
      modifies this
      ensures answersByName == old(answersByName) + IndexTally(data)
    {
      var i := 0;
      while i < |data|
        invariant 0 <= i <= |data|
        invariant answersByName == old(answersByName) + IndexTally(data)[..i]
      {
        answersByName := answersByName + [IndexOf(data[i])];
        i := i + 1;
      }
    }
  }

  /** The decoded tallies held by a list of loaded results. */
  function Tallies(results: seq<TallyResult>): (tallies: seq<Tally>)
    ensures |tallies| == |results|
    ensures forall t :: 0 <= t < |results| ==> tallies[t] == results[t].data
  {
    seq(|results|, t requires 0 <= t < |results| => results[t].data)
  }

  predicate Distinct(results: seq<TallyResult>) {
    forall s, t :: 0 <= s < t < |results| ==> results[s] != results[t]
  }

  /** One fresh wrapper record per decoded tally, in input order. */
  method Load(tallies: seq<Tally>) returns (results: seq<TallyResult>)
    ensures Tallies(results) == tallies && Distinct(results)
    ensures forall t :: 0 <= t < |results| ==> fresh(results[t]) && results[t].answersByName == []
  {
    results := [];
    var t := 0;
    while t < |tallies|
      invariant 0 <= t <= |tallies|
      invariant |results| == t && Distinct(results)
      invariant forall s :: 0 <= s < t ==> results[s].data == tallies[s]
      invariant forall s :: 0 <= s < t ==> fresh(results[s]) && results[s].answersByName == []
    {
      var r := new TallyResult(tallies[t]);
      results := results + [r];
      t := t + 1;
    }
  }

  /** Fills the `answers_by_name` of every loaded result. */
  method BuildAnswersByName(results: seq<TallyResult>)
    requires Distinct(results)
    modifies set r | r in results
    ensures forall t :: 0 <= t < |results| ==>
              results[t].answersByName == old(results[t].answersByName) + IndexTally(results[t].data)
  {
    var t := 0;
    while t < |results|
      invariant 0 <= t <= |results|
      invariant forall s :: 0 <= s < t ==>
                  results[s].answersByName == old(results[s].answersByName) + IndexTally(results[s].data)
      invariant forall s :: t <= s < |results| ==> results[s].answersByName == old(results[s].answersByName)
    {
      results[t].AddIndexes();
      t := t + 1;
    }
  }

  /** The corrections of one answer text of question `i` of the last result:
      one record per scanned earlier result whose question `i` has that text.
      `found` is false where the source raises IndexError, because a scanned
      result has no question `i`. */
  method ScanEarlier(results: seq<TallyResult>, i: nat, value: string)
    returns (found: bool, answerCorrections: seq<Correction>)
    requires |results| > 0
    requires forall t :: 0 <= t < |results| ==> results[t].answersByName == IndexTally(results[t].data)
    ensures var indexes := IndexAll(Tallies(results));
            var k := ScanCount(|results|);
            k <= |indexes| && (found <==> HasQuestion(indexes, i, k))
            && (found ==> answerCorrections == Matches(indexes, i, value, k))
  {
    var n := |results|;
    ghost var indexes := IndexAll(Tallies(results));
    ghost var k := ScanCount(n);
    assert forall t :: 0 <= t < n ==> results[t].answersByName == indexes[t];
    answerCorrections := [];
    var j := 0;
    while j < WrapperFields && j < n - 1
      invariant 0 <= j <= k
      invariant HasQuestion(indexes, i, j)
      invariant answerCorrections == Matches(indexes, i, value, j)
      decreases WrapperFields - j
    {
      var byName := results[j].answersByName;
      if i >= |byName| {
        assert i >= |indexes[j]|;
        return false, answerCorrections;
      }
      if value in byName[i] {
        answerCorrections := answerCorrections + [Correction(j, i, byName[i][value], value)];
      }
      j := j + 1;
    }
    found := true;
  }

  /** The corrections dictionary of question `i` of the last result, filled
      answer by answer. `found` is false where the source raises IndexError:
      the question has an answer and a scanned earlier result has no question
      `i`. */
  method BuildQuestion(results: seq<TallyResult>, i: nat) returns (found: bool, q: QuestionCorrections)
    requires |results| > 0 && i < |results[|results| - 1].data|
    requires forall t :: 0 <= t < |results| ==> results[t].answersByName == IndexTally(results[t].data)
    ensures var indexes := IndexAll(Tallies(results));
            var last := results[|results| - 1].data;
            var k := ScanCount(|results|);
            k <= |indexes|
            && (found <==> (|last[i]| > 0 ==> HasQuestion(indexes, i, k)))
            && (found ==> q == QuestionJoin(indexes, i, last[i], k))
  {
    var n := |results|;
    var last := results[n - 1].data;
    ghost var indexes := IndexAll(Tallies(results));
    ghost var k := ScanCount(n);
    q := map[];
    var a := 0;
    while a < |last[i]|
      invariant 0 <= a <= |last[i]|
      invariant a > 0 ==> HasQuestion(indexes, i, k)
      invariant q == QuestionJoin(indexes, i, last[i][..a], k)
    {
      var answer := last[i][a];
      var scanned, answerCorrections := ScanEarlier(results, i, answer.value);
      if !scanned {
        return false, q;
      }
      QuestionJoinStep(indexes, i, last[i], k, a);
      q := q[IntToString(answer.id) := answerCorrections];
      a := a + 1;
    }
    assert last[i][..a] == last[i];
    found := true;
  }

  /** The loop over the questions of the last result: one corrections
      dictionary per question, in order. `found` is false where the source
      raises IndexError. */
  method BuildCorrections(results: seq<TallyResult>) returns (found: bool, corrections: seq<QuestionCorrections>)
    requires |results| > 0
    requires forall t :: 0 <= t < |results| ==> results[t].answersByName == IndexTally(results[t].data)
    ensures var indexes := IndexAll(Tallies(results));
            var last := results[|results| - 1].data;
            var k := ScanCount(|results|);
            k <= |indexes|
            && (found <==> Scannable(indexes, last, k, |last|))
            && (found ==> |corrections| == |last|
                          && forall i :: 0 <= i < |last| ==> corrections[i] == QuestionJoin(indexes, i, last[i], k))
  {
    var n := |results|;
    var last := results[n - 1].data;
    ghost var indexes := IndexAll(Tallies(results));
    ghost var k := ScanCount(n);
    corrections := [];
    var i := 0;
    while i < |last|
      invariant 0 <= i <= |last|
      invariant Scannable(indexes, last, k, i)
      invariant |corrections| == i
      invariant forall i' :: 0 <= i' < i ==> corrections[i'] == QuestionJoin(indexes, i', last[i'], k)
    {
      var built, q := BuildQuestion(results, i);
      if !built {
        assert |last[i]| > 0 && !HasQuestion(indexes, i, k);
        return false, corrections;
      }
      ghost var before := corrections;
      corrections := corrections + [q];
      forall i' | 0 <= i' <= i
        ensures corrections[i'] == QuestionJoin(indexes, i', last[i'], k)
      {
        if i' < i {
          assert corrections[i'] == before[i'];
        }
      }
      i := i + 1;
    }
    found := true;
  }

  /** The join of the last result's answers against the earlier results. */
  method CreateJoin(results: seq<TallyResult>) returns (r: Outcome)
    requires |results| > 0
    requires forall t :: 0 <= t < |results| ==> results[t].answersByName == IndexTally(results[t].data)
    ensures r == Join(Tallies(results))
  {
    var found, corrections := BuildCorrections(results);
    ghost var tallies := Tallies(results);
    assert results[|results| - 1].data == tallies[|tallies| - 1];
    if found {
      JoinSucceeds(tallies, IndexAll(tallies), tallies[|tallies| - 1], ScanCount(|tallies|), corrections);
      r := Corrections(corrections);
    } else {
      r := IndexError;
    }
  }

  /** The whole tool on already decoded tallies, given in command-line order. */
  method JoinTallies(tallies: seq<Tally>) returns (r: Outcome)
    requires |tallies| > 0
    ensures r == Join(tallies)
  {
    var results := Load(tallies);
    BuildAnswersByName(results);
    r := CreateJoin(results);
  }
}
