/**
 * The deterministic clean-up of a validated model answer: empty-string
 * sentinels become null, the aggregation target is renamed, comparison
 * operators are spelled out, work URLs are cut down to their ids, and the
 * filter list is reshaped into branch and leaf nodes under a root branch.
 */
module OutputNormalizer {
  import opened Wrappers
  import opened Strings
  import opened Sublists
  import opened OqlTypes
  import opened OperatorWords

  /** Empty-string `value` and `column_id` become null. */
  function Desentinel(f: FilterObject): (g: FilterObject)
    ensures g.value != Str("") && g.columnId != Some("")
    ensures g.value == (if f.value == Str("") then Null else f.value)
    ensures g.columnId == (if f.columnId == Some("") then None else f.columnId)
    ensures g.id == f.id && g.subjectEntity == f.subjectEntity && g.kind == f.kind
    ensures g.operator == f.operator && g.children == f.children
  {
    var f' := if f.value == Str("") then f.(value := Null) else f;
    if f'.columnId == Some("") then f'.(columnId := None) else f'
  }

  /** `summarize_by`: "" becomes null and "works" becomes "all". */
  function NormalizeSummarizeBy(s: string): (r: Option<string>)
    ensures r.None? <==> s == ""
    ensures r.Some? ==> r.value != ""
    ensures s == "works" ==> r == Some("all")
    ensures s != "" && s != "works" ==> r == Some(s)
  {
    if s == "" then None else if s == "works" then Some("all") else Some(s)
  }

  /** A string value holding a work URL is cut to the text after "works/W". */
  function StripWorkPrefix(v: Value): (r: Value)
    ensures r.Str? <==> v.Str?
    ensures r.Str? ==> !Contains(r.s, "works/W")
    ensures v.Str? && !Contains(v.s, "works/W") ==> r == v
    ensures v.Str? && Contains(v.s, "works/W") ==> r == Str(SplitSecond(v.s, "works/W"))
    ensures !v.Str? ==> r == v
  {
    if v.Str? && Contains(v.s, "works") && Contains(v.s, "works/W") then
      Str(SplitSecond(v.s, "works/W"))
    else if v.Str? then
      WorkUrlMentionsWorks(v.s);
      v
    else v
  }

  /** The outer "works" test never rejects a value the inner "works/W" test accepts. */
  lemma WorkUrlMentionsWorks(s: string)
    ensures Contains(s, "works/W") ==> Contains(s, "works")
  {
    if Contains(s, "works/W") {
      ContainsPrefix(s, "works/W", 5);
      assert "works/W"[..5] == "works";
    }
  }

  /** Normalising a leaf's operator and value twice is the same as once. */
  lemma LeafNormalisationIdempotent(op: string, v: Value)
    ensures RewriteOperator(RewriteOperator(op)) == RewriteOperator(op)
    ensures StripWorkPrefix(StripWorkPrefix(v)) == StripWorkPrefix(v)
  {
    RewriteOperatorResult(op);
    RewriteOperatorResult(RewriteOperator(op));
  }

  /** The filter objects the reshaping keeps. */
  predicate Shaped(f: FilterObject) {
    f.kind == "branch" || f.kind == "leaf"
  }

  /** The kept filter objects, in order. */
  function Kept(fs: seq<FilterObject>): seq<FilterObject> {
    Filter(fs, Shaped)
  }

  /** No branch occurs among the first `i` kept objects. */
  ghost predicate NoBranchBefore(kept: seq<FilterObject>, i: int)
    requires 0 <= i <= |kept|
  {
    forall t :: 0 <= t < i ==> kept[t].kind != "branch"
  }

  /**
   * The node one kept object becomes: a branch loses `value` and
   * `column_id` and, when `relabel` holds, takes "works" as its subject; a
   * leaf loses `children` and has its operator and value normalised.
   */
  function Convert(f: FilterObject, relabel: bool): (n: FilterNode)
    requires Shaped(f)
    ensures n.id == f.id
    ensures n.Branch? <==> f.kind == "branch"
    ensures n.Branch? ==> n.subjectEntity == (if relabel then "works" else f.subjectEntity)
    ensures n.Leaf? ==> n.subjectEntity == f.subjectEntity && n.columnId != Some("")
    ensures n.Leaf? ==> !IsComparison(n.operator)
    ensures n.Leaf? && n.value.Str? ==> !Contains(n.value.s, "works/W")
    ensures n.Branch? ==> n.operator == f.operator && n.children == f.children
    ensures n.Leaf? ==> n.operator == RewriteOperator(f.operator)
    ensures n.Leaf? ==> n.columnId == Desentinel(f).columnId
    ensures n.Leaf? ==> n.value == StripWorkPrefix(Desentinel(f).value)
  {
    RewriteOperatorResult(f.operator);
    var g := Desentinel(f);
    if g.kind == "branch" then
      Branch(g.id, if relabel && g.subjectEntity != "works" then "works" else g.subjectEntity,
             g.operator, g.children)
    else
      Leaf(g.id, g.subjectEntity, g.columnId, RewriteOperator(g.operator), StripWorkPrefix(g.value))
  }

  /** The nodes whose subject is "works". */
  predicate AboutWorks(n: FilterNode) {
    n.subjectEntity == "works"
  }

  /** The ids of `nodes`, in order. */
  function NodeIds(nodes: seq<FilterNode>): (ids: seq<string>)
    ensures |ids| == |nodes|
    ensures forall i :: 0 <= i < |nodes| ==> ids[i] == nodes[i].id
  {
    seq(|nodes|, i requires 0 <= i < |nodes| => nodes[i].id)
  }

  /** The ids of the nodes whose subject is "works", in order. */
  function WorksIds(nodes: seq<FilterNode>): (ids: seq<string>)
    ensures ids == NodeIds(Filter(nodes, AboutWorks))
    ensures |ids| <= |nodes|
    ensures forall i :: 0 <= i < |nodes| && nodes[i].subjectEntity == "works" ==> nodes[i].id in ids
    ensures forall x :: x in ids ==> exists i :: 0 <= i < |nodes| && nodes[i].subjectEntity == "works" && nodes[i].id == x
    decreases |nodes|
  {
    if nodes == [] then []
    else
      var init, last := nodes[..|nodes| - 1], nodes[|nodes| - 1];
      assert forall i :: 0 <= i < |init| ==> init[i] == nodes[i];
      var kept := Filter(init, AboutWorks);
      assert Filter(nodes, AboutWorks) == kept + (if AboutWorks(last) then [last] else []);
      assert AboutWorks(last) ==> NodeIds(kept + [last]) == NodeIds(kept) + [last.id];
      WorksIds(init) + (if last.subjectEntity == "works" then [last.id] else [])
  }

  /** The synthesised root branch over the "works" nodes. */
  function RootBranch(nodes: seq<FilterNode>): FilterNode {
    Branch("branch_work", "works", "and", Some(WorksIds(nodes)))
  }

  /** The kept objects each converted; only a branch with no branch before it may be relabelled. */
  ghost function Reshaped(kept: seq<FilterObject>, relabel: bool): (ns: seq<FilterNode>)
    requires forall i :: 0 <= i < |kept| ==> Shaped(kept[i])
    ensures |ns| == |kept|
  {
    seq(|kept|, i requires 0 <= i < |kept| => Convert(kept[i], relabel && NoBranchBefore(kept, i)))
  }

  /** Converting one more kept object appends one node and leaves the earlier ones alone. */
  lemma ReshapedSnoc(kept: seq<FilterObject>, f: FilterObject, relabel: bool)
    requires forall i :: 0 <= i < |kept| ==> Shaped(kept[i])
    requires Shaped(f)
    ensures Reshaped(kept + [f], relabel)
         == Reshaped(kept, relabel) + [Convert(f, relabel && NoBranchBefore(kept, |kept|))]
  {
    var kept' := kept + [f];
    forall i | 0 <= i <= |kept|
      ensures NoBranchBefore(kept', i) == NoBranchBefore(kept, i)
    {
      assert forall t :: 0 <= t < i ==> kept'[t] == kept[t];
    }
  }

  /** One more kept object: no branch so far exactly when there was none before and it is not one. */
  lemma NoBranchSnoc(kept: seq<FilterObject>, f: FilterObject)
    ensures NoBranchBefore(kept + [f], |kept| + 1) == (NoBranchBefore(kept, |kept|) && f.kind != "branch")
  {
    var kept' := kept + [f];
    assert forall t :: 0 <= t < |kept| ==> kept'[t] == kept[t];
    assert kept'[|kept|] == f;
  }

  /** Filtering one more object keeps it exactly when it is shaped. */
  lemma KeptSnoc(fs: seq<FilterObject>, j: nat)
    requires j < |fs|
    ensures Shaped(fs[j]) ==> Kept(fs[..j + 1]) == Kept(fs[..j]) + [fs[j]]
    ensures !Shaped(fs[j]) ==> Kept(fs[..j + 1]) == Kept(fs[..j])
  {
    assert fs[..j + 1][..j] == fs[..j];
    assert Kept(fs[..j]) + [] == Kept(fs[..j]);
  }

  /** Every kept object converted; only the first branch may be relabelled. */
  ghost function Converted(fs: seq<FilterObject>, relabel: bool): (ns: seq<FilterNode>)
    ensures |ns| == |Kept(fs)|
  {
    Reshaped(Kept(fs), relabel)
  }

  /** The reshaped filter list: a root branch is prepended when only leaves were kept. */
  ghost function FinalFilters(fs: seq<FilterObject>, relabel: bool): seq<FilterNode> {
    var nodes := Converted(fs, relabel);
    if NoBranchBefore(Kept(fs), |Kept(fs)|) && |nodes| >= 1 then [RootBranch(nodes)] + nodes else nodes
  }

  /**
   * The reshaped list follows the kept objects one for one and in order;
   * the kept objects are exactly the branches and leaves of the input, in
   * input order, and anything of another type is dropped.
   */
  lemma ConvertedFollowsKept(fs: seq<FilterObject>, relabel: bool)
    ensures |Converted(fs, relabel)| == |Kept(fs)| <= |fs|
    ensures forall i :: 0 <= i < |Kept(fs)| ==>
      Converted(fs, relabel)[i].id == Kept(fs)[i].id &&
      (Converted(fs, relabel)[i].Branch? <==> Kept(fs)[i].kind == "branch") &&
      (Converted(fs, relabel)[i].Leaf? <==> Kept(fs)[i].kind == "leaf")
    ensures SubsequenceOf(Kept(fs), fs)
    ensures forall i :: 0 <= i < |fs| && Shaped(fs[i]) ==> fs[i] in Kept(fs)
    ensures forall f :: f in Kept(fs) ==> Shaped(f)
  {
    FilterSublist(fs, Shaped);
  }

  /**
   * Only the first branch can be relabelled: a branch takes "works" as its
   * subject instead of its own exactly when the aggregation target is empty
   * and no branch comes before it.
   */
  lemma OnlyFirstBranchRelabelled(fs: seq<FilterObject>, relabel: bool, i: nat)
    requires i < |Kept(fs)| && Kept(fs)[i].kind == "branch"
    ensures Converted(fs, relabel)[i].Branch?
    ensures (relabel && forall t :: 0 <= t < i ==> Kept(fs)[t].kind != "branch") ==>
      Converted(fs, relabel)[i].subjectEntity == "works"
    ensures !(relabel && forall t :: 0 <= t < i ==> Kept(fs)[t].kind != "branch") ==>
      Converted(fs, relabel)[i].subjectEntity == Kept(fs)[i].subjectEntity
  {
  }

  /**
   * A root is synthesised exactly when leaves were kept but no branch: it
   * is the "branch_work" node over "works" joined by "and", its children
   * are the ids of the leaves whose subject is "works", and the converted
   * nodes follow it. Otherwise the reshaped list is the whole result.
   */
  lemma RootSynthesised(fs: seq<FilterObject>, relabel: bool)
    ensures (|Kept(fs)| >= 1 && forall t :: 0 <= t < |Kept(fs)| ==> Kept(fs)[t].kind != "branch") ==>
      FinalFilters(fs, relabel)[0] == Branch("branch_work", "works", "and", Some(WorksIds(Converted(fs, relabel)))) &&
      FinalFilters(fs, relabel)[1..] == Converted(fs, relabel) &&
      forall x :: x in WorksIds(Converted(fs, relabel)) <==>
        exists i :: 0 <= i < |Kept(fs)| && Converted(fs, relabel)[i].Leaf? &&
          Converted(fs, relabel)[i].subjectEntity == "works" && Converted(fs, relabel)[i].id == x
    ensures !(|Kept(fs)| >= 1 && forall t :: 0 <= t < |Kept(fs)| ==> Kept(fs)[t].kind != "branch") ==>
      FinalFilters(fs, relabel) == Converted(fs, relabel)
  {
    ConvertedFollowsKept(fs, relabel);
  }

  /** A non-empty result always holds a branch, synthesised or kept. */
  lemma FinalHasBranch(fs: seq<FilterObject>, relabel: bool)
    ensures |FinalFilters(fs, relabel)| >= 1 ==>
      exists i :: 0 <= i < |FinalFilters(fs, relabel)| && FinalFilters(fs, relabel)[i].Branch?
  {
    var k, nodes, out := Kept(fs), Converted(fs, relabel), FinalFilters(fs, relabel);
    if NoBranchBefore(k, |k|) {
      if |nodes| >= 1 {
        assert out[0].Branch?;
      }
    } else {
      var t :| 0 <= t < |k| && k[t].kind == "branch";
      assert nodes[t].Branch?;
      assert out == nodes;
    }
  }

  /**
   * Every leaf of the result is normalised: no empty column id, no
   * symbolic operator, and no string value still holding "works/W".
   */
  lemma LeavesNormalised(fs: seq<FilterObject>, relabel: bool)
    ensures forall n :: n in FinalFilters(fs, relabel) && n.Leaf? ==>
      n.columnId != Some("") && !IsComparison(n.operator) &&
      (n.value.Str? ==> !Contains(n.value.s, "works/W"))
  {
    var nodes := Converted(fs, relabel);
    forall n | n in FinalFilters(fs, relabel) && n.Leaf?
      ensures n.columnId != Some("") && !IsComparison(n.operator)
      ensures n.value.Str? ==> !Contains(n.value.s, "works/W")
    {
      assert n in nodes;
      var i :| 0 <= i < |nodes| && nodes[i] == n;
    }
  }

  /** The whole normalised object, as `FixOutputForFinal` computes it. */
  ghost function Fixed(m: ModelOutput): FinalObject {
    FinalObject(FinalFilters(m.filters, m.summarizeBy == ""), NormalizeSummarizeBy(m.summarizeBy),
                m.sortBy, m.returnColumns)
  }

  /**
   * Normalises a validated model answer. The sentinel pass rewrites the
   * filter list in place; the reshaping pass is `ReshapeFilters`.
   */
  method FixOutputForFinal(m: ModelOutput) returns (r: FinalObject)
    ensures r == Fixed(m)
    ensures r.filters == FinalFilters(m.filters, m.summarizeBy == "")
    ensures r.summarizeBy == NormalizeSummarizeBy(m.summarizeBy)
    ensures r.sortBy == m.sortBy && r.returnColumns == m.returnColumns
  {
    var filters := m.filters;
    for i := 0 to |filters|
      invariant |filters| == |m.filters|
      invariant forall t :: 0 <= t < i ==> filters[t] == Desentinel(m.filters[t])
      invariant forall t :: i <= t < |filters| ==> filters[t] == m.filters[t]
    {
      var f := filters[i];
      if f.value == Str("") {
        f := f.(value := Null);
      }
      if f.columnId == Some("") {
        f := f.(columnId := None);
      }
      filters := filters[i := f];
    }

    var summarizeBy: Option<string> := Some(m.summarizeBy);
    if m.summarizeBy == "" {
      summarizeBy := None;
    } else if m.summarizeBy == "works" {
      summarizeBy := Some("all");
    }

    var final, branchObjs := ReshapeFilters(m.filters, filters, summarizeBy);
    if branchObjs == 0 && |final| >= 1 {
      final := [Branch("branch_work", "works", "and", Some(WorksIds(final)))] + final;
    }
    r := FinalObject(final, summarizeBy, m.sortBy, m.returnColumns);
  }

  /**
   * The reshaping pass over the filter list once its sentinels are cleared:
   * it counts the branches, relabels the first one when the aggregation
   * target is empty, and appends each branch or leaf in its final shape.
   */
  method ReshapeFilters(ghost original: seq<FilterObject>, filters: seq<FilterObject>,
                        summarizeBy: Option<string>)
    returns (final: seq<FilterNode>, branchObjs: nat)
    requires |filters| == |original|
    requires forall t :: 0 <= t < |filters| ==> filters[t] == Desentinel(original[t])
    ensures final == Converted(original, summarizeBy.None? || summarizeBy.value == "")
    ensures branchObjs == 0 <==> NoBranchBefore(Kept(original), |Kept(original)|)
  {
    ghost var relabel := summarizeBy.None? || summarizeBy.value == "";
    final := [];
    branchObjs := 0;
    for j := 0 to |filters|
      invariant final == Reshaped(Kept(original[..j]), relabel)
      invariant branchObjs == 0 <==> NoBranchBefore(Kept(original[..j]), |final|)
    {
      ghost var kept := Kept(original[..j]);
      KeptSnoc(original, j);
      ghost var flag := relabel && NoBranchBefore(kept, |kept|);
      var f := filters[j];
      if f.kind == "branch" {
        if branchObjs == 0 {
          if f.subjectEntity != "works" && !(summarizeBy.Some? && summarizeBy.value != "") {
            f := f.(subjectEntity := "works");
          }
        }
        branchObjs := branchObjs + 1;
        assert Branch(f.id, f.subjectEntity, f.operator, f.children) == Convert(original[j], flag);
        ReshapedSnoc(kept, original[j], relabel);
        NoBranchSnoc(kept, original[j]);
        final := final + [Branch(f.id, f.subjectEntity, f.operator, f.children)];
      } else if f.kind == "leaf" {
        if IsComparison(f.operator) {
          f := f.(operator := RewriteOperator(f.operator));
        }
        f := f.(value := StripWorkPrefix(f.value));
        assert Leaf(f.id, f.subjectEntity, f.columnId, f.operator, f.value) == Convert(original[j], flag);
        ReshapedSnoc(kept, original[j], relabel);
        NoBranchSnoc(kept, original[j]);
        final := final + [Leaf(f.id, f.subjectEntity, f.columnId, f.operator, f.value)];
      }
    }
    assert original[..|filters|] == original;
  }
}
