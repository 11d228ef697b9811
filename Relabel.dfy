/**
 * The label consolidation applied to every parsing result before it is
 * saved: sixteen whole-array substitutions `np.where(p == a, b, p)`, run
 * in a fixed order, that merge the twenty raw classes of the parsing model
 * into the coarser label set of the later pipeline stages.
 *
 * Each substitution is elementwise, so the whole chain is a function of
 * one label, the left-to-right composition of the sixteen rules.
 */
module Relabel {

  /** `np.where(p == from, to, p)`. */
  datatype Rule = Rule(from: int, to: int)

  /** One substitution on one label. */
  function Substitute(rule: Rule, x: int): int
  {
    if x == rule.from then rule.to else x
  }

  /** The rules `rules[k]`, `rules[k + 1]`, ... applied to `x` in that order. */
  function Fold(rules: seq<Rule>, k: nat, x: int): int
    decreases |rules| - k
  {
    if k >= |rules| then x else Fold(rules, k + 1, Substitute(rules[k], x))
  }

  /** What the first rule from `k` on that matches `x` maps it to; `x` if none does. */
  function FirstMatch(rules: seq<Rule>, k: nat, x: int): int
    decreases |rules| - k
  {
    if k >= |rules| then x else if rules[k].from == x then rules[k].to else FirstMatch(rules, k + 1, x)
  }

  /** No rule rewrites a label that an earlier rule has produced. */
  predicate NoRewrite(rules: seq<Rule>)
  {
    forall k, m :: 0 <= k < m < |rules| ==> rules[m].from != rules[k].to
  }

  /** `np.asarray(..., dtype=np.uint8)`: integers wrap modulo 256. */
  function Uint8(v: int): int
  {
    v % 256
  }

  /** The sixteen substitutions, in the order the source runs them. */
  const Chain: seq<Rule> := [
    Rule(0, 0),                             // background
    Rule(9, 8), Rule(12, 8),                // pants
    Rule(2, 1),                             // hair
    Rule(4, 12), Rule(13, 12),              // face
    Rule(5, 4), Rule(6, 4), Rule(7, 4), Rule(10, 4),  // upper clothes
    Rule(18, 5),                            // left shoe
    Rule(19, 6),                            // right shoe
    Rule(16, 9),                            // left leg
    Rule(17, 10),                           // right leg
    Rule(14, 11),                           // left arm
    Rule(15, 13)                            // right arm
  ]

  /** Where the chain sends the raw ids `0 .. 19`. */
  const Table: seq<int> := [0, 1, 1, 3, 12, 4, 4, 4, 8, 8, 4, 11, 8, 12, 11, 13, 9, 10, 5, 6]

  /** The chain as one lookup: raw ids outside `0 .. 19` are left alone. */
  function Consolidated(x: int): int
  {
    if 0 <= x < |Table| then Table[x] else x
  }

  /** The labels the chain can produce from a raw id. */
  const Outputs: set<int> := {0, 1, 3, 4, 5, 6, 8, 9, 10, 11, 12, 13}

  // ---------------------------------------------------------------------
  // The chain over a label image
  // ---------------------------------------------------------------------

  /** One `np.where` over the whole image. */
  method ApplyRule(labels: array2<int>, rule: Rule)
    modifies labels
    ensures forall i, j :: 0 <= i < labels.Length0 && 0 <= j < labels.Length1 ==>
      labels[i, j] == Substitute(rule, old(labels[i, j]))
  {
    var i := 0;
    while i < labels.Length0
      invariant 0 <= i <= labels.Length0
      invariant forall i', j :: 0 <= i' < i && 0 <= j < labels.Length1 ==>
        labels[i', j] == Substitute(rule, old(labels[i', j]))
      invariant forall i', j :: i <= i' < labels.Length0 && 0 <= j < labels.Length1 ==>
        labels[i', j] == old(labels[i', j])
    {
      var j := 0;
      while j < labels.Length1
        invariant 0 <= j <= labels.Length1
        invariant forall i', j' :: 0 <= i' < i && 0 <= j' < labels.Length1 ==>
          labels[i', j'] == Substitute(rule, old(labels[i', j']))
        invariant forall j' :: 0 <= j' < j ==> labels[i, j'] == Substitute(rule, old(labels[i, j']))
        invariant forall i', j' :: i <= i' < labels.Length0 && 0 <= j' < labels.Length1 && (i' > i || j' >= j) ==>
          labels[i', j'] == old(labels[i', j'])
      {
        labels[i, j] := Substitute(rule, labels[i, j]);
        j := j + 1;
      }
      i := i + 1;
    }
  }

  /** The substitutions of `rules`, one whole-image pass each, in order. */
  method Consolidate(labels: array2<int>, rules: seq<Rule>)
    modifies labels
    ensures forall i, j :: 0 <= i < labels.Length0 && 0 <= j < labels.Length1 ==>
      labels[i, j] == Fold(rules, 0, old(labels[i, j]))
  {
    var k := 0;
    while k < |rules|
      invariant 0 <= k <= |rules|
      invariant forall i, j :: 0 <= i < labels.Length0 && 0 <= j < labels.Length1 ==>
        Fold(rules, k, labels[i, j]) == Fold(rules, 0, old(labels[i, j]))
    {
      ApplyRule(labels, rules[k]);
      k := k + 1;
    }
  }

  /** The consolidation step of the extractor: every pixel through the table. */
  method ConsolidateParsing(labels: array2<int>)
    modifies labels
    ensures forall i, j :: 0 <= i < labels.Length0 && 0 <= j < labels.Length1 ==>
      labels[i, j] == Consolidated(old(labels[i, j]))
  {
    Consolidate(labels, Chain);
    forall x: int ensures Fold(Chain, 0, x) == Consolidated(x) {
      ChainIsTable(x);
    }
  }

  // ---------------------------------------------------------------------
  // Properties of the chain
  // ---------------------------------------------------------------------

  /** The sixteen ordered substitutions compose to the lookup table. */
  lemma ChainIsTable(x: int)
    ensures Fold(Chain, 0, x) == Consolidated(x)
  {
    var y0 := x;
    var y1 := Substitute(Chain[0], y0);
    var y2 := Substitute(Chain[1], y1);
    var y3 := Substitute(Chain[2], y2);
    var y4 := Substitute(Chain[3], y3);
    var y5 := Substitute(Chain[4], y4);
    var y6 := Substitute(Chain[5], y5);
    var y7 := Substitute(Chain[6], y6);
    var y8 := Substitute(Chain[7], y7);
    var y9 := Substitute(Chain[8], y8);
    var y10 := Substitute(Chain[9], y9);
    var y11 := Substitute(Chain[10], y10);
    var y12 := Substitute(Chain[11], y11);
    var y13 := Substitute(Chain[12], y12);
    var y14 := Substitute(Chain[13], y13);
    var y15 := Substitute(Chain[14], y14);
    var y16 := Substitute(Chain[15], y15);
    ChainStep(0, y0);
    ChainStep(1, y1);
    ChainStep(2, y2);
    ChainStep(3, y3);
    ChainStep(4, y4);
    ChainStep(5, y5);
    ChainStep(6, y6);
    ChainStep(7, y7);
    ChainStep(8, y8);
    ChainStep(9, y9);
    ChainStep(10, y10);
    ChainStep(11, y11);
    ChainStep(12, y12);
    ChainStep(13, y13);
    ChainStep(14, y14);
    ChainStep(15, y15);
  }

  /** Step `k` of the chain, for the proof above. */
  lemma ChainStep(k: nat, y: int)
    requires k < 16
    ensures Fold(Chain, k, y) == Fold(Chain, k + 1, Substitute(Chain[k], y))
  {
  }

  /** Running one list of rules and then another is running the two in sequence. */
  lemma {:induction false} FoldAppend(a: seq<Rule>, b: seq<Rule>, k: nat, x: int)
    requires k <= |a|
    ensures Fold(a + b, k, x) == Fold(b, 0, Fold(a, k, x))
    decreases |a| - k
  {
    if k < |a| {
      assert (a + b)[k] == a[k];
      FoldAppend(a, b, k + 1, Substitute(a[k], x));
    } else {
      FoldShift(a, b, 0, x);
    }
  }

  /** The rules of `b` sit at `|a| + m` in `a + b`. */
  lemma {:induction false} FoldShift(a: seq<Rule>, b: seq<Rule>, m: nat, x: int)
    requires m <= |b|
    ensures Fold(a + b, |a| + m, x) == Fold(b, m, x)
    decreases |b| - m
  {
    if m < |b| {
      assert (a + b)[|a| + m] == b[m];
      FoldShift(a, b, m + 1, Substitute(b[m], x));
    }
  }

  /** A label that no remaining rule matches comes through unchanged. */
  lemma {:induction false} FoldUntouched(rules: seq<Rule>, k: nat, x: int)
    requires forall m :: k <= m < |rules| ==> rules[m].from != x
    ensures Fold(rules, k, x) == x
    decreases |rules| - k
  {
    if k < |rules| {
      FoldUntouched(rules, k + 1, x);
    }
  }

  /**
   * When no rule rewrites the output of an earlier one, the whole chain is
   * a single lookup: the first rule whose source label matches decides.
   */
  lemma {:induction false} FoldIsFirstMatch(rules: seq<Rule>, k: nat, x: int)
    requires NoRewrite(rules)
    ensures Fold(rules, k, x) == FirstMatch(rules, k, x)
    decreases |rules| - k
  {
    if k < |rules| {
      if rules[k].from == x {
        FoldUntouched(rules, k + 1, rules[k].to);
      } else {
        FoldIsFirstMatch(rules, k + 1, x);
      }
    }
  }

  /** The source order of the chain never rewrites a label it has produced. */
  lemma ChainNoRewrite()
    ensures NoRewrite(Chain)
  {
    // naming each rule keeps the solver from re-deriving them pair by pair
    assert Chain[0] == Rule(0, 0);
    assert Chain[1] == Rule(9, 8);
    assert Chain[2] == Rule(12, 8);
    assert Chain[3] == Rule(2, 1);
    assert Chain[4] == Rule(4, 12);
    assert Chain[5] == Rule(13, 12);
    assert Chain[6] == Rule(5, 4);
    assert Chain[7] == Rule(6, 4);
    assert Chain[8] == Rule(7, 4);
    assert Chain[9] == Rule(10, 4);
    assert Chain[10] == Rule(18, 5);
    assert Chain[11] == Rule(19, 6);
    assert Chain[12] == Rule(16, 9);
    assert Chain[13] == Rule(17, 10);
    assert Chain[14] == Rule(14, 11);
    assert Chain[15] == Rule(15, 13);
  }

  /** So the sixteen passes act as one lookup in which the first matching rule decides. */
  lemma ChainIsFirstMatch(x: int)
    ensures Fold(Chain, 0, x) == FirstMatch(Chain, 0, x)
  {
    ChainNoRewrite();
    FoldIsFirstMatch(Chain, 0, x);
  }

  /**
   * Every raw id of the parsing model lands in the consolidated label set,
   * and keeps its value through the `uint8` cast of the saved image.
   */
  lemma ConsolidatedRange(x: int)
    requires 0 <= x < 20
    ensures Consolidated(x) in Outputs
    ensures Uint8(Consolidated(x)) == Consolidated(x)
  {
  }

  /** Every label of the consolidated set is the image of some raw id. */
  lemma OutputsReached(y: int)
    requires y in Outputs
    ensures exists x :: 0 <= x < 20 && Consolidated(x) == y
  {
    var source := map[0 := 0, 1 := 1, 3 := 3, 4 := 5, 5 := 18, 6 := 19, 8 := 8, 9 := 16, 10 := 17, 11 := 11, 12 := 4, 13 := 15];
    assert y in source;
    assert Consolidated(source[y]) == y;
  }

  /** Left and right body parts keep distinct labels. */
  lemma SidesDistinct()
    ensures Consolidated(16) == 9 && Consolidated(17) == 10
    ensures Consolidated(18) == 5 && Consolidated(19) == 6
    ensures Consolidated(14) == 11 && Consolidated(15) == 13
  {
  }

  lemma Example()
    ensures [Consolidated(0), Consolidated(2), Consolidated(4), Consolidated(5), Consolidated(9), Consolidated(18)]
         == [0, 1, 12, 4, 8, 5]
  {
  }

  /**
   * The order of the passes matters: pants (`12 -> 8`) run before face
   * (`4 -> 12`), so a raw 4 ends as 12; in the other order it would end as 8.
   */
  lemma OrderMatters()
    ensures Fold([Rule(12, 8), Rule(4, 12)], 0, 4) == 12
    ensures Fold([Rule(4, 12), Rule(12, 8)], 0, 4) == 8
    ensures !NoRewrite([Rule(4, 12), Rule(12, 8)])
  {
    var swapped := [Rule(4, 12), Rule(12, 8)];
    assert swapped[1].from == swapped[0].to;
  }

  /** A second consolidation pass would change labels: the chain is not idempotent. */
  lemma NotIdempotent()
    ensures Consolidated(Consolidated(4)) != Consolidated(4)
    ensures Consolidated(Consolidated(5)) != Consolidated(5)
    ensures Fold(Chain + Chain, 0, 4) == 8 != Fold(Chain, 0, 4)
  {
    FoldAppend(Chain, Chain, 0, 4);
    ChainIsTable(4);
    ChainIsTable(12);
  }
}
