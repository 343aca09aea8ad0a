/**
 * The post-processing of the concept tagger's answer: the tag ids are
 * paired with their scores, the pairs are ordered by score from highest to
 * lowest (a stable sort, so tied pairs keep the tagger's order), and only
 * pairs with a positive score are kept. A failed request yields no
 * predictions.
 */
module ConceptScores {
  import opened Sublists
  import opened PredictionJoin

  /** `zip(tag_ids, scores)`: pairs position by position, up to the shorter list. */
  function Zip(ids: seq<string>, scores: seq<real>): (z: seq<Prediction>)
    ensures |z| == if |ids| <= |scores| then |ids| else |scores|
    ensures forall i :: 0 <= i < |z| ==> z[i] == Prediction(ids[i], scores[i])
    decreases |ids|
  {
    if ids == [] || scores == [] then []
    else [Prediction(ids[0], scores[0])] + Zip(ids[1..], scores[1..])
  }

  /** Scores never increase along the list. */
  predicate NonIncreasing(s: seq<Prediction>) {
    forall i, j :: 0 <= i < j < |s| ==> s[i].score >= s[j].score
  }

  /**
   * Places `x` in front of the first element whose score is not above its
   * own: after every higher-scored element and before every element it
   * ties with.
   */
  function Insert(x: Prediction, s: seq<Prediction>): (r: seq<Prediction>)
    ensures multiset(r) == multiset(s) + multiset{x}
    ensures |r| == |s| + 1
    ensures forall y :: y in r ==> y == x || y in s
  {
    if s == [] || s[0].score <= x.score then [x] + s
    else
      assert s == [s[0]] + s[1..];
      [s[0]] + Insert(x, s[1..])
  }

  /** Inserting into a list ordered by score keeps it ordered. */
  lemma {:induction false} InsertOrdered(x: Prediction, s: seq<Prediction>)
    requires NonIncreasing(s)
    ensures NonIncreasing(Insert(x, s))
    decreases |s|
  {
    if s != [] && s[0].score > x.score {
      var rest := s[1..];
      assert NonIncreasing(rest) by {
        forall i, j | 0 <= i < j < |rest| ensures rest[i].score >= rest[j].score {
          assert rest[i] == s[i + 1] && rest[j] == s[j + 1];
        }
      }
      InsertOrdered(x, rest);
      var r := Insert(x, s);
      forall j | 1 <= j < |r| ensures r[0].score >= r[j].score {
        assert r[j] in Insert(x, rest);
        if r[j] != x {
          var k :| 0 <= k < |rest| && rest[k] == r[j];
          assert rest[k] == s[k + 1];
        }
      }
    }
  }

  /** The elements with score `v`. */
  function HasScore(v: real): Prediction -> bool {
    (p: Prediction) => p.score == v
  }

  /**
   * Insertion keeps the tied elements' order: among the elements with any
   * one score, `x` lands exactly where it would at the front.
   */
  lemma {:induction false} InsertStable(x: Prediction, s: seq<Prediction>, v: real)
    ensures Filter(Insert(x, s), HasScore(v)) == Filter([x] + s, HasScore(v))
    decreases |s|
  {
    if s != [] && s[0].score > x.score {
      var rest := s[1..];
      InsertStable(x, rest, v);
      FilterCons(s[0], Insert(x, rest), HasScore(v));
      FilterCons(x, rest, HasScore(v));
      FilterCons(x, s, HasScore(v));
      FilterCons(s[0], rest, HasScore(v));
      assert s == [s[0]] + rest;
    }
  }

  /** `sorted(..., key=score, reverse=True)`: insertion sort from the back. */
  function SortByScore(s: seq<Prediction>): (r: seq<Prediction>)
    ensures multiset(r) == multiset(s)
    ensures |r| == |s|
    decreases |s|
  {
    if s == [] then []
    else
      assert s == [s[0]] + s[1..];
      Insert(s[0], SortByScore(s[1..]))
  }

  /** The sort orders by score, from highest to lowest. */
  lemma {:induction false} SortOrdered(s: seq<Prediction>)
    ensures NonIncreasing(SortByScore(s))
    decreases |s|
  {
    if s != [] {
      SortOrdered(s[1..]);
      InsertOrdered(s[0], SortByScore(s[1..]));
    }
  }

  /** The sort is stable: the elements with any one score keep their order. */
  lemma {:induction false} SortStable(s: seq<Prediction>, v: real)
    ensures Filter(SortByScore(s), HasScore(v)) == Filter(s, HasScore(v))
    decreases |s|
  {
    if s != [] {
      var rest := s[1..];
      SortStable(rest, v);
      InsertStable(s[0], SortByScore(rest), v);
      FilterCons(s[0], SortByScore(rest), HasScore(v));
      FilterCons(s[0], rest, HasScore(v));
      assert s == [s[0]] + rest;
    }
  }

  /** The kept pairs: `x[1] > 0`. */
  predicate Positive(p: Prediction) {
    p.score > 0.0
  }

  /**
   * `get_concept_predictions` after the request: on status 200, the zipped
   * pairs ordered by score with the non-positive ones dropped; otherwise
   * nothing.
   */
  function ConceptPredictions(status: int, ids: seq<string>, scores: seq<real>): (r: seq<Prediction>)
    ensures status != 200 ==> r == []
    ensures forall i :: 0 <= i < |r| ==> r[i].score > 0.0
  {
    if status == 200 then Filter(SortByScore(Zip(ids, scores)), Positive) else []
  }

  /** A filter of a list ordered by score is ordered by score. */
  lemma {:induction false} FilterOrdered(s: seq<Prediction>, p: Prediction -> bool)
    requires NonIncreasing(s)
    ensures NonIncreasing(Filter(s, p))
    decreases |s|
  {
    if s != [] {
      var init, last := s[..|s| - 1], s[|s| - 1];
      assert NonIncreasing(init) by {
        forall i, j | 0 <= i < j < |init| ensures init[i].score >= init[j].score {
          assert init[i] == s[i] && init[j] == s[j];
        }
      }
      FilterOrdered(init, p);
      var f := Filter(init, p);
      forall i | 0 <= i < |f| ensures f[i].score >= last.score {
        var k :| 0 <= k < |init| && init[k] == f[i];
        assert init[k] == s[k];
      }
    }
  }

  /**
   * On success the predictions are ordered by score from highest to
   * lowest; they hold every positive pair of the zip exactly as often as
   * the zip does and nothing else; and pairs with equal scores keep the
   * order the tagger gave them.
   */
  lemma ConceptPredictionsSpec(ids: seq<string>, scores: seq<real>)
    ensures var r := ConceptPredictions(200, ids, scores);
      NonIncreasing(r) &&
      (forall x :: multiset(r)[x] == if x.score > 0.0 then multiset(Zip(ids, scores))[x] else 0) &&
      (forall v :: v > 0.0 ==> Filter(r, HasScore(v)) == Filter(Zip(ids, scores), HasScore(v)))
  {
    var z := Zip(ids, scores);
    var sorted := SortByScore(z);
    SortOrdered(z);
    FilterOrdered(sorted, Positive);
    FilterMultiset(sorted, Positive);
    forall v | v > 0.0
      ensures Filter(Filter(sorted, Positive), HasScore(v)) == Filter(z, HasScore(v))
    {
      FilterNarrow(sorted, Positive, HasScore(v));
      SortStable(z, v);
    }
  }
}
