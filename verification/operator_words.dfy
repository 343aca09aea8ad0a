/**
 * How a leaf's comparison operator is spelled out for the final query:
 * the source applies four `str.replace` calls in a fixed order.
 */
module OperatorWords {
  import opened Strings

  /** The symbolic comparison operators the model may emit. */
  predicate IsComparison(op: string) {
    op == ">" || op == "<" || op == ">=" || op == "<="
  }

  /** The word form of an operator: the source's chain of `replace` calls. */
  function SpelledOut(op: string): string {
    Replace(Replace(Replace(Replace(op, ">=", "greater than or equal to"),
                            "<=", "less than or equal to"),
                    ">", "greater than"),
            "<", "less than")
  }

  /**
   * A leaf operator: a symbolic comparison becomes "is " followed by its
   * word form; any other operator is left as it is.
   */
  function RewriteOperator(op: string): string {
    if IsComparison(op) then "is " + SpelledOut(op) else op
  }

  // The lemmas below take the expected words as parameters: stated with
  // literal strings on both sides, the verifier unfolds the whole `replace`
  // chain eagerly and runs out of resources.

  lemma SpellGreater(op: string, word: string)
    requires op == ">" && word == "greater than"
    ensures SpelledOut(op) == word
  {
    assert Replace(op, ">=", "greater than or equal to") == op;
    assert Replace(op, "<=", "less than or equal to") == op;
    ReplaceWhole(op, word);
    ReplaceAbsent(word, "<", "less than");
  }

  lemma SpellLess(op: string, word: string)
    requires op == "<" && word == "less than"
    ensures SpelledOut(op) == word
  {
    assert Replace(op, ">=", "greater than or equal to") == op;
    assert Replace(op, "<=", "less than or equal to") == op;
    assert Replace(op[1..], ">", "greater than") == [];
    assert Replace(op, ">", "greater than") == op;
    ReplaceWhole(op, word);
  }

  /**
   * A chain of four replacements whose first pattern is the whole input
   * yields the first replacement, when the later patterns cannot start
   * inside it.
   */
  lemma ChainOnWhole(op: string, w1: string, p2: string, w2: string,
                     p3: string, w3: string, p4: string, w4: string)
    requires op != [] && p2 != [] && p3 != [] && p4 != []
    requires p2[0] !in w1 && p3[0] !in w1 && p4[0] !in w1
    ensures Replace(Replace(Replace(Replace(op, op, w1), p2, w2), p3, w3), p4, w4) == w1
  {
    ReplaceWhole(op, w1);
    ReplaceAbsent(w1, p2, w2);
    ReplaceAbsent(w1, p3, w3);
    ReplaceAbsent(w1, p4, w4);
  }

  lemma SpellGreaterOrEqual(op: string, word: string)
    requires op == ">=" && word == "greater than or equal to"
    ensures SpelledOut(op) == word
  {
    ChainOnWhole(op, word, "<=", "less than or equal to", ">", "greater than", "<", "less than");
  }

  /** The same when the first pattern is absent and the second is the whole input. */
  lemma ChainSkipThenWhole(op: string, p1: string, w1: string, w2: string,
                           p3: string, w3: string, p4: string, w4: string)
    requires op != [] && p1 != [] && p3 != [] && p4 != []
    requires p1[0] !in op && p3[0] !in w2 && p4[0] !in w2
    ensures Replace(Replace(Replace(Replace(op, p1, w1), op, w2), p3, w3), p4, w4) == w2
  {
    ReplaceAbsent(op, p1, w1);
    ReplaceWhole(op, w2);
    ReplaceAbsent(w2, p3, w3);
    ReplaceAbsent(w2, p4, w4);
  }

  lemma SpellLessOrEqual(op: string, word: string)
    requires op == "<=" && word == "less than or equal to"
    ensures SpelledOut(op) == word
  {
    ChainSkipThenWhole(op, ">=", "greater than or equal to", word, ">", "greater than", "<", "less than");
  }

  /** ">" is spelled "is greater than". */
  lemma RowGreater(op: string, word: string, expected: string)
    requires op == ">" && word == "greater than" && expected == "is " + word
    ensures RewriteOperator(op) == expected
  {
    SpellGreater(op, word);
  }

  /** "<" is spelled "is less than". */
  lemma RowLess(op: string, word: string, expected: string)
    requires op == "<" && word == "less than" && expected == "is " + word
    ensures RewriteOperator(op) == expected
  {
    SpellLess(op, word);
  }

  /** ">=" is spelled "is greater than or equal to", not "is greater than=". */
  lemma RowGreaterOrEqual(op: string, word: string, expected: string)
    requires op == ">=" && word == "greater than or equal to" && expected == "is " + word
    ensures RewriteOperator(op) == expected
  {
    SpellGreaterOrEqual(op, word);
  }

  /** "<=" is spelled "is less than or equal to", not "is less than=". */
  lemma RowLessOrEqual(op: string, word: string, expected: string)
    requires op == "<=" && word == "less than or equal to" && expected == "is " + word
    ensures RewriteOperator(op) == expected
  {
    SpellLessOrEqual(op, word);
  }

  /**
   * No rewritten operator is symbolic, and an operator that is not one of
   * the four symbolic comparisons ("is" among them) is left unchanged.
   */
  lemma RewriteOperatorResult(op: string)
    ensures !IsComparison(op) ==> RewriteOperator(op) == op
    ensures !IsComparison(RewriteOperator(op))
  {
    if IsComparison(op) {
      assert RewriteOperator(op)[0] == 'i';
    }
  }
}
