/**
 * The joins behind the concept, topic and keyword taggers: each tagger
 * returns predictions (an id and a score), the OpenAlex API returns full
 * records, and the join walks the predictions in order, finds the first
 * record whose id is the prediction's id under the entity's URL prefix,
 * writes the score into that record and appends the record to the output.
 */
module PredictionJoin {
  import opened Wrappers
  import opened Sublists

  const ConceptPrefix: string := "https://openalex.org/C"
  const TopicPrefix: string := "https://openalex.org/T"
  const KeywordPrefix: string := "https://openalex.org/keywords/"

  /** One prediction of a tagger: the entity's short id and its score. */
  datatype Prediction = Prediction(id: string, score: real)

  /**
   * A record as returned by the OpenAlex API. Its id never changes; its
   * score slot is absent until a join writes it. Records are shared: the
   * join's output holds the very objects of the API list.
   */
  class ApiRecord {
    const id: string
    var score: Option<real>

    constructor (id: string)
      ensures this.id == id && score == None
    {
      this.id := id;
      score := None;
    }
  }

  /** The index of the first record whose id is `target`, if any. */
  function FirstMatch(api: seq<ApiRecord>, target: string): (r: Option<nat>)
    ensures r.Some? ==> r.value < |api| && api[r.value].id == target
    ensures r.Some? ==> forall j :: 0 <= j < r.value ==> api[j].id != target
    ensures r.None? <==> forall j :: 0 <= j < |api| ==> api[j].id != target
  {
    if api == [] then None
    else if api[0].id == target then Some(0)
    else
      match FirstMatch(api[1..], target)
      case None => None
      case Some(i) =>
        assert forall j :: 1 <= j < i + 1 ==> api[j] == api[1..][j - 1];
        Some(i + 1)
  }

  /** The predictions that find a record, in prediction order. */
  function Matched(predictions: seq<Prediction>, api: seq<ApiRecord>, prefix: string): (m: seq<Prediction>)
    ensures |m| <= |predictions|
    decreases |predictions|
  {
    if predictions == [] then []
    else
      var init, last := predictions[..|predictions| - 1], predictions[|predictions| - 1];
      Matched(init, api, prefix) + if FirstMatch(api, prefix + last.id).Some? then [last] else []
  }

  /** The specification of the join's output: the first matching record of each matched prediction. */
  function Joined(predictions: seq<Prediction>, api: seq<ApiRecord>, prefix: string): seq<ApiRecord>
    decreases |predictions|
  {
    if predictions == [] then []
    else
      var init, last := predictions[..|predictions| - 1], predictions[|predictions| - 1];
      Joined(init, api, prefix) +
        match FirstMatch(api, prefix + last.id)
        case Some(i) => [api[i]]
        case None => []
  }

  /**
   * The score a record holds after the join has seen `predictions`: the
   * formatted score of the last prediction whose first match is this very
   * record, or `initial` when none is.
   */
  ghost function ScoreAfter(predictions: seq<Prediction>, api: seq<ApiRecord>, prefix: string,
                            formatScore: real -> real, r: ApiRecord, initial: Option<real>): Option<real>
    decreases |predictions|
  {
    if predictions == [] then initial
    else
      var init, last := predictions[..|predictions| - 1], predictions[|predictions| - 1];
      var m := FirstMatch(api, prefix + last.id);
      if m.Some? && api[m.value] == r then Some(formatScore(last.score))
      else ScoreAfter(init, api, prefix, formatScore, r, initial)
  }

  /** No two predictions share an id. */
  predicate DistinctIds(predictions: seq<Prediction>) {
    forall a, b :: 0 <= a < b < |predictions| ==> predictions[a].id != predictions[b].id
  }

  /** `rec` is the first API record whose id is `prefix` followed by the prediction's id. */
  predicate FirstRecordOf(api: seq<ApiRecord>, prefix: string, rec: ApiRecord, p: Prediction) {
    var m := FirstMatch(api, prefix + p.id);
    m.Some? && rec == api[m.value]
  }

  /** The matched predictions keep the order of the predictions, and come from them. */
  lemma {:induction false} MatchedInOrder(predictions: seq<Prediction>, api: seq<ApiRecord>, prefix: string)
    ensures SubsequenceOf(Matched(predictions, api, prefix), predictions)
    ensures forall k :: 0 <= k < |Matched(predictions, api, prefix)| ==> Matched(predictions, api, prefix)[k] in predictions
    decreases |predictions|
  {
    if predictions != [] {
      var init, last := predictions[..|predictions| - 1], predictions[|predictions| - 1];
      MatchedInOrder(init, api, prefix);
      var matched, matched0 := Matched(predictions, api, prefix), Matched(init, api, prefix);
      if FirstMatch(api, prefix + last.id).Some? {
        assert matched == matched0 + [last];
        assert matched[..|matched| - 1] == matched0;
        assert matched[|matched| - 1] == predictions[|predictions| - 1];
        assert SubsequenceOf(matched, predictions);
      } else {
        assert matched == matched0;
        SubsequenceExtend(matched0, init, last);
        assert init + [last] == predictions;
      }
    } else {
      assert Matched(predictions, api, prefix) == [];
    }
    SubsequenceMembers(Matched(predictions, api, prefix), predictions);
  }

  /**
   * The output has one record per matched prediction, and each is the
   * first API record whose id is the prefix followed by that prediction's
   * id.
   */
  lemma {:induction false} JoinedFollowsPredictions(predictions: seq<Prediction>, api: seq<ApiRecord>, prefix: string)
    ensures |Joined(predictions, api, prefix)| == |Matched(predictions, api, prefix)|
    ensures forall k :: 0 <= k < |Joined(predictions, api, prefix)| ==>
      FirstRecordOf(api, prefix, Joined(predictions, api, prefix)[k], Matched(predictions, api, prefix)[k])
    decreases |predictions|
  {
    if predictions != [] {
      var init, last := predictions[..|predictions| - 1], predictions[|predictions| - 1];
      JoinedFollowsPredictions(init, api, prefix);
      var joined, matched := Joined(predictions, api, prefix), Matched(predictions, api, prefix);
      var joined0, matched0 := Joined(init, api, prefix), Matched(init, api, prefix);
      var m := FirstMatch(api, prefix + last.id);
      if m.Some? {
        assert matched == matched0 + [last];
        assert joined == joined0 + [api[m.value]];
        forall k | 0 <= k < |joined|
          ensures FirstRecordOf(api, prefix, joined[k], matched[k])
        {
          if k < |joined0| {
            assert joined[k] == joined0[k] && matched[k] == matched0[k];
          }
        }
      } else {
        assert matched == matched0;
        assert joined == joined0;
      }
    }
  }

  /** Every output record carries the id its prediction asked for. */
  lemma JoinedIds(predictions: seq<Prediction>, api: seq<ApiRecord>, prefix: string)
    ensures |Joined(predictions, api, prefix)| == |Matched(predictions, api, prefix)| <= |predictions|
    ensures forall k :: 0 <= k < |Joined(predictions, api, prefix)| ==>
      Joined(predictions, api, prefix)[k].id == prefix + Matched(predictions, api, prefix)[k].id
  {
    JoinedFollowsPredictions(predictions, api, prefix);
  }

  /** A prediction whose id has a record is never dropped. */
  lemma {:induction false} MatchedKeepsEveryHit(predictions: seq<Prediction>, api: seq<ApiRecord>, prefix: string)
    ensures forall i :: 0 <= i < |predictions| && FirstMatch(api, prefix + predictions[i].id).Some? ==>
      predictions[i] in Matched(predictions, api, prefix)
    decreases |predictions|
  {
    if predictions != [] {
      var init := predictions[..|predictions| - 1];
      MatchedKeepsEveryHit(init, api, prefix);
      forall i | 0 <= i < |init| ensures predictions[i] == init[i] { }
    }
  }

  /** Two matched predictions with the same id yield the same, shared record. */
  lemma RepeatedIdAliases(predictions: seq<Prediction>, api: seq<ApiRecord>, prefix: string, a: nat, b: nat)
    requires a < |Matched(predictions, api, prefix)| && b < |Matched(predictions, api, prefix)|
    requires Matched(predictions, api, prefix)[a].id == Matched(predictions, api, prefix)[b].id
    ensures a < |Joined(predictions, api, prefix)| && b < |Joined(predictions, api, prefix)|
    ensures Joined(predictions, api, prefix)[a] == Joined(predictions, api, prefix)[b]
  {
    JoinedFollowsPredictions(predictions, api, prefix);
  }

  /** `prefix + x` determines `x`. */
  lemma PrefixCancels(prefix: string, x: string, y: string)
    requires prefix + x == prefix + y
    ensures x == y
  {
    assert x == (prefix + x)[|prefix|..];
    assert y == (prefix + y)[|prefix|..];
  }

  /**
   * When no two predictions share an id, every output record ends up with
   * the formatted score of its own prediction, whatever it held before.
   */
  lemma {:induction false} JoinedScores(predictions: seq<Prediction>, api: seq<ApiRecord>, prefix: string,
                                        formatScore: real -> real)
    requires DistinctIds(predictions)
    ensures |Joined(predictions, api, prefix)| == |Matched(predictions, api, prefix)|
    ensures forall k, initial :: 0 <= k < |Joined(predictions, api, prefix)| ==>
      ScoreAfter(predictions, api, prefix, formatScore, Joined(predictions, api, prefix)[k], initial) ==
        Some(formatScore(Matched(predictions, api, prefix)[k].score))
    decreases |predictions|
  {
    JoinedFollowsPredictions(predictions, api, prefix);
    if predictions != [] {
      var init, last := predictions[..|predictions| - 1], predictions[|predictions| - 1];
      assert predictions == init + [last];
      assert DistinctIds(init) by {
        forall a, b | 0 <= a < b < |init| ensures init[a].id != init[b].id {
          assert init[a] == predictions[a] && init[b] == predictions[b];
        }
      }
      JoinedScores(init, api, prefix, formatScore);
      JoinedFollowsPredictions(init, api, prefix);
      MatchedInOrder(init, api, prefix);
      var m := FirstMatch(api, prefix + last.id);
      var joined, matched := Joined(init, api, prefix), Matched(init, api, prefix);
      forall k, initial | 0 <= k < |joined|
        ensures ScoreAfter(predictions, api, prefix, formatScore, joined[k], initial) ==
          ScoreAfter(init, api, prefix, formatScore, joined[k], initial)
      {
        if m.Some? && api[m.value] == joined[k] {
          assert matched[k] in init;
          PrefixCancels(prefix, last.id, matched[k].id);
        }
      }
      if m.Some? {
        assert Matched(predictions, api, prefix) == matched + [last];
        assert Joined(predictions, api, prefix) == joined + [api[m.value]];
      } else {
        assert Matched(predictions, api, prefix) == matched;
        assert Joined(predictions, api, prefix) == joined;
      }
    }
  }

  /**
   * The inner loop of the join: scan the records in order and, at the
   * first whose id is `target`, write `score` into it and stop. Returns
   * the index written, if any; no other record changes.
   */
  method ScoreFirstMatch(api: seq<ApiRecord>, target: string, score: real) returns (hit: Option<nat>)
    modifies set r: ApiRecord | r in api
    ensures hit == FirstMatch(api, target)
    ensures forall r :: r in api ==> r.score == if hit.Some? && r == api[hit.value] then Some(score) else old(r.score)
  {
    hit := None;
    var i := 0;
    while i < |api|
      invariant 0 <= i <= |api| && hit.None?
      invariant forall t :: 0 <= t < i ==> api[t].id != target
      invariant forall r :: r in api ==> r.score == old(r.score)
    {
      if api[i].id == target {
        api[i].score := Some(score);
        hit := Some(i);
        break;
      }
      i := i + 1;
    }
  }

  /**
   * The shared loop of `format_concepts`, `format_topics` and
   * `format_keywords`: for each prediction in order, find the first API
   * record whose id is `prefix + id`, write the formatted score into it
   * and append it to the output.
   */
  method FormatPredictions(predictions: seq<Prediction>, api: seq<ApiRecord>, prefix: string,
                           formatScore: real -> real) returns (ordered: seq<ApiRecord>)
    modifies set r: ApiRecord | r in api
    ensures ordered == Joined(predictions, api, prefix)
    ensures |ordered| == |Matched(predictions, api, prefix)|
    ensures forall r :: r in api ==> r.score == ScoreAfter(predictions, api, prefix, formatScore, r, old(r.score))
    ensures DistinctIds(predictions) ==> forall k :: 0 <= k < |ordered| ==>
      ordered[k].score == Some(formatScore(Matched(predictions, api, prefix)[k].score))
  {
    ordered := [];
    for j := 0 to |predictions|
      invariant ordered == Joined(predictions[..j], api, prefix)
      invariant forall r :: r in api ==> r.score == ScoreAfter(predictions[..j], api, prefix, formatScore, r, old(r.score))
    {
      var p := predictions[j];
      assert predictions[..j + 1] == predictions[..j] + [p];
      var hit := ScoreFirstMatch(api, prefix + p.id, formatScore(p.score));
      if hit.Some? {
        ordered := ordered + [api[hit.value]];
      }
    }
    assert predictions[..|predictions|] == predictions;
    JoinedFollowsPredictions(predictions, api, prefix);
    if DistinctIds(predictions) {
      JoinedScores(predictions, api, prefix, formatScore);
    }
  }

  /** `format_concepts`: the raw tagger score is stored as it is. */
  method FormatConcepts(predictions: seq<Prediction>, api: seq<ApiRecord>) returns (ordered: seq<ApiRecord>)
    modifies set r: ApiRecord | r in api
    ensures ordered == Joined(predictions, api, ConceptPrefix)
    ensures |ordered| == |Matched(predictions, api, ConceptPrefix)|
    ensures forall r :: r in api ==> r.score == ScoreAfter(predictions, api, ConceptPrefix, (x: real) => x, r, old(r.score))
    ensures DistinctIds(predictions) ==> forall k :: 0 <= k < |ordered| ==>
      ordered[k].score == Some(Matched(predictions, api, ConceptPrefix)[k].score)
  {
    ordered := FormatPredictions(predictions, api, ConceptPrefix, (x: real) => x);
  }

  /** `format_topics`: the stored score is `format_score` of the topic score. */
  method FormatTopics(predictions: seq<Prediction>, api: seq<ApiRecord>, formatScore: real -> real)
    returns (ordered: seq<ApiRecord>)
    modifies set r: ApiRecord | r in api
    ensures ordered == Joined(predictions, api, TopicPrefix)
    ensures |ordered| == |Matched(predictions, api, TopicPrefix)|
    ensures forall r :: r in api ==> r.score == ScoreAfter(predictions, api, TopicPrefix, formatScore, r, old(r.score))
    ensures DistinctIds(predictions) ==> forall k :: 0 <= k < |ordered| ==>
      ordered[k].score == Some(formatScore(Matched(predictions, api, TopicPrefix)[k].score))
  {
    ordered := FormatPredictions(predictions, api, TopicPrefix, formatScore);
  }

  /** `format_keywords`: the stored score is `format_score` of the keyword score. */
  method FormatKeywords(predictions: seq<Prediction>, api: seq<ApiRecord>, formatScore: real -> real)
    returns (ordered: seq<ApiRecord>)
    modifies set r: ApiRecord | r in api
    ensures ordered == Joined(predictions, api, KeywordPrefix)
    ensures |ordered| == |Matched(predictions, api, KeywordPrefix)|
    ensures forall r :: r in api ==> r.score == ScoreAfter(predictions, api, KeywordPrefix, formatScore, r, old(r.score))
    ensures DistinctIds(predictions) ==> forall k :: 0 <= k < |ordered| ==>
      ordered[k].score == Some(formatScore(Matched(predictions, api, KeywordPrefix)[k].score))
  {
    ordered := FormatPredictions(predictions, api, KeywordPrefix, formatScore);
  }
}
