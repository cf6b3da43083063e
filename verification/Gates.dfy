/**
 The gate engine: trees of rules under AND and OR, the failures that count, and the action they call
 for. `test` stands for looking a rule's field up in the context and applying its operator.
 */
module Gates {
  import opened Wrappers

  datatype Severity = Block | Required | Warn
  datatype Action = Proceed | Hold | Rework | Abort | Notify | Escalate
  datatype Rule = Rule(field: string, operator: string, value: string, severity: Severity, onFail: Action)

  datatype Logic = And | Or
  datatype Item = Leaf(rule: Rule) | Group(logic: Logic, items: seq<Item>)

  datatype Outcome =
    | RuleResult(rule: Rule, passed: bool)
    | GroupResult(logic: Logic, passed: bool, results: seq<Outcome>)

  datatype Mode = Auto | Rules | HoldMode | Manual | Skip
  datatype Verdict = Go | Held | Redo | Stop
  datatype Evaluation = Evaluation(
    verdict: Verdict, passed: bool, worstAction: Option<Action>, ruleResults: seq<Outcome>, groupResult: Option<Outcome>)

  datatype Error = TooDeep

  const MAX_NESTING_DEPTH := 3

  // ---------------------------------------------------------------- what evaluation gives

  /** A block rule fails whatever its test says. */
  function EvaluateRule(test: Rule -> bool, rule: Rule): Outcome {
    RuleResult(rule, rule.severity != Block && test(rule))
  }

  predicate Combine(logic: Logic, results: seq<Outcome>) {
    if logic == And then forall i | 0 <= i < |results| :: results[i].passed
    else exists i | 0 <= i < |results| :: results[i].passed
  }

  function Evaluate(test: Rule -> bool, item: Item): (r: Outcome)
    ensures r.RuleResult? <==> item.Leaf?
  {
    match item
    case Leaf(rule) => EvaluateRule(test, rule)
    case Group(logic, items) =>
      var results := seq(|items|, i requires 0 <= i < |items| => Evaluate(test, items[i]));
      GroupResult(logic, Combine(logic, results), results)
  }

  /** How deep groups nest; a rule has height 0. */
  function Height(item: Item): nat {
    if item.Leaf? then 0 else 1 + HeightTo(item, |item.items|)
  }

  function HeightTo(group: Item, k: nat): (h: nat)
    requires group.Group? && k <= |group.items|
    decreases group, k
  {
    if k == 0 then 0
    else
      var h := HeightTo(group, k - 1);
      if Height(group.items[k - 1]) > h then Height(group.items[k - 1]) else h
  }

  /** The rule results of a tree, in order. */
  function Flatten(r: Outcome): seq<Outcome>
    decreases r, 1, 0
  {
    if r.RuleResult? then [r] else FlattenTo(r, |r.results|)
  }

  function FlattenTo(r: Outcome, k: nat): seq<Outcome>
    requires r.GroupResult? && k <= |r.results|
    decreases r, 0, k
  {
    if k == 0 then [] else FlattenTo(r, k - 1) + Flatten(r.results[k - 1])
  }

  /** The failed rules that count: nothing below a group that passed does. */
  function Effective(r: Outcome): seq<Outcome>
    decreases r, 1, 0
  {
    if r.passed then [] else if r.RuleResult? then [r] else EffectiveTo(r, |r.results|)
  }

  function EffectiveTo(r: Outcome, k: nat): seq<Outcome>
    requires r.GroupResult? && k <= |r.results|
    decreases r, 0, k
  {
    if k == 0 then [] else EffectiveTo(r, k - 1) + Effective(r.results[k - 1])
  }

  // ---------------------------------------------------------------- the engine's loops

  class Collector {
    var results: seq<Outcome>

    constructor ()
      ensures results == []
    {
      results := [];
    }
  }

  /** Throws exactly when some group is nested beyond the limit; otherwise gives the result tree and
      collects its rule results in order. */
  method EvaluateGroup(test: Rule -> bool, group: Item, depth: nat, collector: Collector) returns (r: Result<Outcome, Error>)
    requires group.Group?
    modifies collector
    ensures r.Ok? <==> depth + Height(group) <= 3
    ensures r.Ok? ==> r.value == Evaluate(test, group)
    ensures r.Ok? ==> collector.results == old(collector.results) + Flatten(Evaluate(test, group))
    decreases group
  {
    if depth >= MAX_NESTING_DEPTH {
      return Err(TooDeep);
    }
    ghost var tree := Evaluate(test, group);
    Children(test, group);
    hide Evaluate, Height, HeightTo, Flatten, FlattenTo, Combine;
    Prefix(group, tree, 0);
    var results := [];
    for i := 0 to |group.items|
      invariant depth + 1 + HeightTo(group, i) <= MAX_NESTING_DEPTH
      invariant results == tree.results[..i]
      invariant collector.results == old(collector.results) + FlattenTo(tree, i)
    {
      var item := group.items[i];
      Prefix(group, tree, i + 1);
      if item.Group? {
        var sub := EvaluateGroup(test, item, depth + 1, collector);
        if sub.Err? {
          HeightTop(group, i);
          return Err(TooDeep);
        }
        results := results + [sub.value];
      } else {
        var result := EvaluateRule(test, item.rule);
        LeafResult(test, item);
        collector.results := collector.results + [result];
        results := results + [result];
      }
    }
    HeightIs(group);
    FlattenIs(tree);
    assert tree.results[..|group.items|] == tree.results;
    return Ok(GroupResult(group.logic, Combine(group.logic, results), results));
  }

  lemma LeafResult(test: Rule -> bool, item: Item)
    requires item.Leaf?
    ensures Evaluate(test, item) == EvaluateRule(test, item.rule)
    ensures Flatten(Evaluate(test, item)) == [EvaluateRule(test, item.rule)] && Height(item) == 0
  {
  }

  lemma Prefix(group: Item, tree: Outcome, k: nat)
    requires group.Group? && tree.GroupResult? && |tree.results| == |group.items| && k <= |group.items|
    ensures k == 0 ==> HeightTo(group, k) == 0 && FlattenTo(tree, k) == []
    ensures k > 0 ==>
      var h := Height(group.items[k - 1]);
      && HeightTo(group, k) == (if h > HeightTo(group, k - 1) then h else HeightTo(group, k - 1))
      && FlattenTo(tree, k) == FlattenTo(tree, k - 1) + Flatten(tree.results[k - 1])
  {
  }

  lemma FlattenIs(tree: Outcome)
    requires tree.GroupResult?
    ensures Flatten(tree) == FlattenTo(tree, |tree.results|)
  {
  }

  lemma HeightIs(group: Item)
    requires group.Group?
    ensures Height(group) == 1 + HeightTo(group, |group.items|)
  {
  }

  lemma {:induction false} HeightToTop(group: Item, k: nat, i: nat)
    requires group.Group? && i < k <= |group.items|
    ensures HeightTo(group, k) >= Height(group.items[i])
  {
    if i < k - 1 {
      HeightToTop(group, k - 1, i);
    }
  }

  lemma HeightTop(group: Item, i: nat)
    requires group.Group? && i < |group.items|
    ensures Height(group) > Height(group.items[i])
  {
    HeightToTop(group, |group.items|, i);
  }

  method CollectEffectiveFailures(r: Outcome) returns (failures: seq<Outcome>)
    requires r.GroupResult?
    ensures failures == Effective(r)
    decreases r
  {
    if r.passed {
      return [];
    }
    failures := [];
    for i := 0 to |r.results|
      invariant failures == EffectiveTo(r, i)
    {
      var result := r.results[i];
      if result.GroupResult? {
        var below := CollectEffectiveFailures(result);
        failures := failures + below;
      } else if !result.passed {
        failures := failures + [result];
      }
    }
  }

  // ---------------------------------------------------------------- the rule results

  /** The rules of a tree from left to right, whatever the nesting. */
  function Rules(item: Item): seq<Rule> {
    if item.Leaf? then [item.rule] else RulesTo(item, |item.items|)
  }

  function RulesTo(group: Item, k: nat): seq<Rule>
    requires group.Group? && k <= |group.items|
    decreases group, k
  {
    if k == 0 then [] else RulesTo(group, k - 1) + Rules(group.items[k - 1])
  }

  /** Each rule's own result: it passes if its test does, except that a block rule always fails. */
  ghost predicate ResultsOf(test: Rule -> bool, rules: seq<Rule>, results: seq<Outcome>) {
    |results| == |rules| && forall i | 0 <= i < |rules| ::
      results[i].RuleResult? && results[i].rule == rules[i] && (results[i].passed <==> rules[i].severity != Block && test(rules[i]))
  }

  /** The collected results are those of every rule once, from left to right, passed ones included. */
  lemma {:induction false} FlattenExact(test: Rule -> bool, item: Item)
    ensures ResultsOf(test, Rules(item), Flatten(Evaluate(test, item)))
    decreases item, 1, 0
  {
    if item.Group? {
      FlattenToExact(test, item, |item.items|);
    }
  }

  lemma {:induction false} FlattenToExact(test: Rule -> bool, group: Item, k: nat)
    requires group.Group? && k <= |group.items|
    ensures ResultsOf(test, RulesTo(group, k), FlattenTo(Evaluate(test, group), k))
    decreases group, 0, k
  {
    Children(test, group);
    hide Evaluate, Flatten, Rules;
    if k > 0 {
      FlattenToExact(test, group, k - 1);
      FlattenExact(test, group.items[k - 1]);
    }
  }

  // ---------------------------------------------------------------- the worst action

  function SeverityWeight(s: Severity): nat {
    match s case Block => 3 case Required => 2 case Warn => 1
  }

  function ActionWeight(a: Action): nat {
    match a case Abort => 6 case Rework => 5 case Hold => 4 case Escalate => 3 case Notify => 2 case Proceed => 1
  }

  /** Severity first, then action. */
  predicate Outranks(a: Rule, b: Rule) {
    || SeverityWeight(a.severity) > SeverityWeight(b.severity)
    || (a.severity == b.severity && ActionWeight(a.onFail) > ActionWeight(b.onFail))
  }

  predicate AllRules(s: seq<Outcome>) {
    forall f | f in s :: f.RuleResult?
  }

  ghost predicate Worst(failures: seq<Outcome>, w: Outcome)
    requires AllRules(failures)
  {
    w in failures && forall f | f in failures :: !Outranks(f.rule, w.rule)
  }

  /** The action of a worst failure, none if that is a warning or there is no failure. */
  method ResolveWorstAction(failures: seq<Outcome>) returns (r: Option<Action>)
    requires AllRules(failures)
    ensures failures == [] ==> r == None
    ensures forall w :: Worst(failures, w) ==> r == (if w.rule.severity == Warn then None else Some(w.rule.onFail))
    ensures r == WorstAction(failures)
  {
    if |failures| == 0 {
      return None;
    }
    var worst := failures[0];
    for i := 1 to |failures|
      invariant worst in failures
      invariant forall j | 0 <= j < i :: !Outranks(failures[j].rule, worst.rule)
    {
      if Outranks(failures[i].rule, worst.rule) {
        worst := failures[i];
      }
    }
    assert Worst(failures, worst);
    WorstExact(failures);
    return if worst.rule.severity == Warn then None else Some(worst.rule.onFail);
  }

  /** The two weights as one number. */
  function Rank(rule: Rule): nat {
    7 * SeverityWeight(rule.severity) + ActionWeight(rule.onFail)
  }

  function Top(failures: seq<Outcome>): nat
    requires AllRules(failures)
  {
    if failures == [] then 0
    else if Rank(failures[0].rule) > Top(failures[1..]) then Rank(failures[0].rule)
    else Top(failures[1..])
  }

  function WorstAction(failures: seq<Outcome>): Option<Action>
    requires AllRules(failures)
  {
    var top := Top(failures);
    if top < 14 then None
    else
      match top % 7
      case 6 => Some(Abort)
      case 5 => Some(Rework)
      case 4 => Some(Hold)
      case 3 => Some(Escalate)
      case 2 => Some(Notify)
      case _ => Some(Proceed)
  }

  lemma RankOrders(a: Rule, b: Rule)
    ensures Outranks(a, b) <==> Rank(a) > Rank(b)
  {
  }

  lemma {:induction false} TopExact(failures: seq<Outcome>)
    requires AllRules(failures)
    ensures forall f | f in failures :: Rank(f.rule) <= Top(failures)
    ensures failures != [] ==> exists f :: f in failures && Rank(f.rule) == Top(failures)
  {
    if failures != [] {
      TopExact(failures[1..]);
      assert forall f | f in failures :: f == failures[0] || f in failures[1..];
      assert failures[0] in failures && forall f | f in failures[1..] :: f in failures;
    }
  }

  lemma WorstExact(failures: seq<Outcome>)
    requires AllRules(failures)
    ensures forall w :: Worst(failures, w) ==>
      WorstAction(failures) == (if w.rule.severity == Warn then None else Some(w.rule.onFail))
    ensures failures == [] ==> WorstAction(failures) == None
  {
    TopExact(failures);
    forall w | Worst(failures, w)
      ensures WorstAction(failures) == (if w.rule.severity == Warn then None else Some(w.rule.onFail))
    {
      var f :| f in failures && Rank(f.rule) == Top(failures);
      RankOrders(f.rule, w.rule);
      assert Top(failures) == Rank(w.rule);
    }
  }

  // ---------------------------------------------------------------- which failures count

  predicate Subsequence(a: seq<Outcome>, b: seq<Outcome>) {
    a == [] || (b != [] && ((a[0] == b[0] && Subsequence(a[1..], b[1..])) || Subsequence(a, b[1..])))
  }

  lemma {:induction false} SubsequenceAppend(a: seq<Outcome>, b: seq<Outcome>, c: seq<Outcome>, d: seq<Outcome>)
    requires Subsequence(a, b) && Subsequence(c, d)
    ensures Subsequence(a + c, b + d)
    decreases |b|
  {
    if b == [] {
      assert a + c == c && b + d == d;
    } else {
      assert (b + d)[1..] == b[1..] + d;
      if a != [] && a[0] == b[0] && Subsequence(a[1..], b[1..]) {
        SubsequenceAppend(a[1..], b[1..], c, d);
        assert (a + c)[1..] == a[1..] + c;
      } else {
        SubsequenceAppend(a, b[1..], c, d);
      }
    }
  }

  lemma {:induction false} EffectiveSubsequence(r: Outcome)
    ensures Subsequence(Effective(r), Flatten(r))
    decreases r, 1, 0
  {
    if !r.passed {
      if r.RuleResult? {
        assert Subsequence([], []);
      } else {
        EffectiveToSubsequence(r, |r.results|);
      }
    }
  }

  lemma {:induction false} EffectiveToSubsequence(r: Outcome, k: nat)
    requires r.GroupResult? && k <= |r.results|
    ensures Subsequence(EffectiveTo(r, k), FlattenTo(r, k))
    decreases r, 0, k
  {
    if k > 0 {
      EffectiveToSubsequence(r, k - 1);
      EffectiveSubsequence(r.results[k - 1]);
      SubsequenceAppend(EffectiveTo(r, k - 1), FlattenTo(r, k - 1), Effective(r.results[k - 1]), Flatten(r.results[k - 1]));
    }
  }

  /** A failed rule counts when every group around it failed. */
  lemma {:induction false} EffectiveIn(r: Outcome, f: Outcome)
    ensures r.RuleResult? ==> (f in Effective(r) <==> f == r && !r.passed)
    ensures r.GroupResult? ==>
      (f in Effective(r) <==> !r.passed && exists i :: 0 <= i < |r.results| && f in Effective(r.results[i]))
  {
    if r.GroupResult? {
      EffectiveToIn(r, f, |r.results|);
    }
  }

  lemma {:induction false} EffectiveToIn(r: Outcome, f: Outcome, k: nat)
    requires r.GroupResult? && k <= |r.results|
    ensures f in EffectiveTo(r, k) <==> exists i :: 0 <= i < k && f in Effective(r.results[i])
  {
    if k > 0 {
      EffectiveToIn(r, f, k - 1);
    }
  }

  lemma {:induction false} EffectiveFailed(r: Outcome, f: Outcome)
    requires f in Effective(r)
    ensures f.RuleResult? && !f.passed
  {
    EffectiveIn(r, f);
    if r.GroupResult? {
      var i :| 0 <= i < |r.results| && f in Effective(r.results[i]);
      EffectiveFailed(r.results[i], f);
    }
  }

  lemma EffectiveRules(r: Outcome)
    ensures AllRules(Effective(r))
  {
    forall f | f in Effective(r)
      ensures f.RuleResult?
    {
      EffectiveFailed(r, f);
    }
  }

  // ---------------------------------------------------------------- failing with nothing to show

  /** The item passes when every rule that can pass does. */
  predicate CanPass(item: Item) {
    match item
    case Leaf(rule) => rule.severity != Block
    case Group(And, items) => forall i | 0 <= i < |items| :: CanPass(items[i])
    case Group(Or, items) => exists i | 0 <= i < |items| :: CanPass(items[i])
  }

  /** The item can fail without one rule's failure counting: at bottom, an empty OR. */
  predicate CanFailSilently(item: Item) {
    match item
    case Leaf(_) => false
    case Group(And, items) =>
      && (exists i | 0 <= i < |items| :: CanFailSilently(items[i]))
      && (forall i | 0 <= i < |items| :: CanFailSilently(items[i]) || CanPass(items[i]))
    case Group(Or, items) => forall i | 0 <= i < |items| :: CanFailSilently(items[i])
  }

  predicate Silent(r: Outcome) {
    !r.passed && Effective(r) == []
  }

  lemma SilentGroup(r: Outcome)
    requires r.GroupResult? && !r.passed
    ensures Silent(r) <==> forall i | 0 <= i < |r.results| :: Effective(r.results[i]) == []
  {
    if !Silent(r) {
      var f := Effective(r)[0];
      EffectiveIn(r, f);
    }
    forall i | 0 <= i < |r.results| && Effective(r.results[i]) != []
      ensures Effective(r) != []
    {
      EffectiveIn(r, Effective(r.results[i])[0]);
    }
  }

  /** Passing under any test, an item passes when everything does. */
  lemma {:induction false} PassesAtBest(test: Rule -> bool, item: Item)
    ensures Evaluate(test, item).passed ==> CanPass(item)
  {
    if item.Group? {
      forall i | 0 <= i < |item.items|
        ensures Evaluate(test, item.items[i]).passed ==> CanPass(item.items[i])
      {
        PassesAtBest(test, item.items[i]);
      }
      var r := Evaluate(test, item);
      assert forall i | 0 <= i < |item.items| :: r.results[i] == Evaluate(test, item.items[i]);
    }
  }

  /** Unless an empty OR can decide the outcome, no failure counts exactly when the item passed. */
  lemma {:induction false} SilentOnlyIf(test: Rule -> bool, item: Item)
    ensures Silent(Evaluate(test, item)) ==> CanFailSilently(item)
  {
    var r := Evaluate(test, item);
    if item.Group? && !r.passed {
      SilentGroup(r);
      forall i | 0 <= i < |item.items|
        ensures r.results[i] == Evaluate(test, item.items[i])
        ensures Silent(r.results[i]) ==> CanFailSilently(item.items[i])
        ensures r.results[i].passed ==> CanPass(item.items[i])
      {
        SilentOnlyIf(test, item.items[i]);
        PassesAtBest(test, item.items[i]);
      }
    }
  }

  lemma {:induction false} BestCase(test: Rule -> bool, item: Item)
    requires forall rule :: test(rule)
    ensures Evaluate(test, item).passed <==> CanPass(item)
    ensures CanFailSilently(item) ==> Silent(Evaluate(test, item))
  {
    var r := Evaluate(test, item);
    if item.Group? {
      forall i | 0 <= i < |item.items|
        ensures r.results[i] == Evaluate(test, item.items[i])
        ensures r.results[i].passed <==> CanPass(item.items[i])
        ensures CanFailSilently(item.items[i]) ==> Silent(r.results[i])
        ensures r.results[i].passed ==> Effective(r.results[i]) == []
      {
        BestCase(test, item.items[i]);
      }
      if !r.passed {
        SilentGroup(r);
      }
    }
  }

  /** Whether an item passes, read off the rules. */
  predicate Holds(test: Rule -> bool, item: Item) {
    match item
    case Leaf(rule) => rule.severity != Block && test(rule)
    case Group(And, items) => forall i | 0 <= i < |items| :: Holds(test, items[i])
    case Group(Or, items) => exists i | 0 <= i < |items| :: Holds(test, items[i])
  }

  /** In this context the item fails and an empty OR alone decides so: every item that fails under an AND, and
      every item of an OR, fails the same way. */
  predicate FailsSilently(test: Rule -> bool, item: Item) {
    match item
    case Leaf(_) => false
    case Group(And, items) =>
      && (exists i | 0 <= i < |items| :: FailsSilently(test, items[i]))
      && (forall i | 0 <= i < |items| :: FailsSilently(test, items[i]) || Holds(test, items[i]))
    case Group(Or, items) => forall i | 0 <= i < |items| :: FailsSilently(test, items[i])
  }

  lemma {:induction false} HoldsIff(test: Rule -> bool, item: Item)
    ensures Evaluate(test, item).passed <==> Holds(test, item)
  {
    if item.Group? {
      var r := Evaluate(test, item);
      forall i | 0 <= i < |item.items|
        ensures r.results[i] == Evaluate(test, item.items[i])
        ensures r.results[i].passed <==> Holds(test, item.items[i])
      {
        HoldsIff(test, item.items[i]);
      }
    }
  }

  /** In every context: the root fails and yet no failure counts, if and only if it fails silently. */
  lemma {:induction false} SilentIff(test: Rule -> bool, item: Item)
    ensures Silent(Evaluate(test, item)) <==> FailsSilently(test, item)
    ensures Effective(Evaluate(test, item)) == [] <==> Holds(test, item) || FailsSilently(test, item)
  {
    var r := Evaluate(test, item);
    HoldsIff(test, item);
    if item.Group? {
      forall i | 0 <= i < |item.items|
        ensures r.results[i] == Evaluate(test, item.items[i])
        ensures r.results[i].passed <==> Holds(test, item.items[i])
        ensures Silent(r.results[i]) <==> FailsSilently(test, item.items[i])
        ensures r.results[i].passed ==> Effective(r.results[i]) == []
      {
        SilentIff(test, item.items[i]);
        HoldsIff(test, item.items[i]);
      }
      if !r.passed {
        SilentGroup(r);
      }
    }
  }

  /** "No failure counts exactly when the root passed" holds whatever the outcomes of the single rules, if and
      only if the tree cannot fail silently. A context may rule some combinations of outcomes out; for a given
      one, `SilentIff` is exact. */
  lemma SoundIff(item: Item)
    ensures !CanFailSilently(item) <==>
            forall test: Rule -> bool :: Effective(Evaluate(test, item)) == [] <==> Evaluate(test, item).passed
  {
    BestCase(rule => true, item);
    forall test: Rule -> bool
      ensures Silent(Evaluate(test, item)) ==> CanFailSilently(item)
    {
      SilentOnlyIf(test, item);
    }
  }

  /** No OR group without items. */
  predicate NoEmptyOr(item: Item) {
    item.Group? ==>
      && (item.logic == Or ==> item.items != [])
      && forall i | 0 <= i < |item.items| :: NoEmptyOr(item.items[i])
  }

  lemma {:induction false} NoEmptyOrIsSound(item: Item)
    requires NoEmptyOr(item)
    ensures !CanFailSilently(item)
  {
    if item.Group? {
      forall i | 0 <= i < |item.items|
        ensures !CanFailSilently(item.items[i])
      {
        NoEmptyOrIsSound(item.items[i]);
      }
      assert item.logic == Or ==> !CanFailSilently(item.items[0]);
    }
  }

  // ---------------------------------------------------------------- the order of rules does not matter

  /** The same tree up to the order and repetition of a group's items, at any depth. */
  predicate Similar(a: Item, b: Item)
    decreases a, 1
  {
    match a
    case Leaf(_) => a == b
    case Group(logic, items) =>
      && b.Group? && b.logic == logic
      && (forall i | 0 <= i < |items| :: SimilarToOne(items[i], b))
      && (forall j | 0 <= j < |b.items| :: OneSimilarTo(a, b.items[j]))
  }

  predicate SimilarToOne(x: Item, group: Item)
    requires group.Group?
    decreases x, 2
  {
    exists j | 0 <= j < |group.items| :: Similar(x, group.items[j])
  }

  predicate OneSimilarTo(group: Item, y: Item)
    requires group.Group?
    decreases group, 0
  {
    exists i | 0 <= i < |group.items| :: Similar(group.items[i], y)
  }

  ghost predicate SameOutcome(r: Outcome, s: Outcome) {
    r.passed == s.passed && forall f :: f in Effective(r) <==> f in Effective(s)
  }

  ghost predicate Alike(test: Rule -> bool, a: Item, b: Item) {
    SameOutcome(Evaluate(test, a), Evaluate(test, b)) && Height(a) == Height(b)
  }

  ghost predicate AlikeToOne(test: Rule -> bool, x: Item, group: Item)
    requires group.Group?
  {
    exists j :: 0 <= j < |group.items| && Alike(test, x, group.items[j])
  }

  lemma {:induction false} SimilarEvaluates(test: Rule -> bool, a: Item, b: Item)
    requires Similar(a, b)
    ensures Alike(test, a, b)
    decreases a
  {
    hide Alike;
    if a.Group? {
      forall i | 0 <= i < |a.items|
        ensures AlikeToOne(test, a.items[i], b)
      {
        hide OneSimilarTo;
        assert SimilarToOne(a.items[i], b);
        var j :| 0 <= j < |b.items| && Similar(a.items[i], b.items[j]);
        SimilarEvaluates(test, a.items[i], b.items[j]);
      }
      forall j | 0 <= j < |b.items|
        ensures AlikeToOne(test, b.items[j], a)
      {
        hide SimilarToOne;
        assert OneSimilarTo(a, b.items[j]);
        var i :| 0 <= i < |a.items| && Similar(a.items[i], b.items[j]);
        SimilarEvaluates(test, a.items[i], b.items[j]);
        AlikeSwaps(test, a.items[i], b.items[j]);
      }
      AlikeGroups(test, a, b);
    } else {
      AlikeSwaps(test, a, b);
    }
  }

  lemma AlikeSwaps(test: Rule -> bool, a: Item, b: Item)
    ensures Alike(test, a, b) ==> Alike(test, b, a)
    ensures a == b ==> Alike(test, a, b)
  {
  }

  /** One direction: every item of `a` has one like it in `b`. */
  lemma CoveredHeight(test: Rule -> bool, a: Item, b: Item)
    requires a.Group? && b.Group? && a.logic == b.logic
    requires forall i | 0 <= i < |a.items| :: AlikeToOne(test, a.items[i], b)
    ensures Height(a) <= Height(b)
  {
    hide Evaluate, Height, Effective;
    forall i | 0 <= i < |a.items|
      ensures Height(a.items[i]) <= HeightTo(b, |b.items|)
    {
      assert AlikeToOne(test, a.items[i], b);
      var j :| 0 <= j < |b.items| && Alike(test, a.items[i], b.items[j]);
      HeightToTop(b, |b.items|, j);
    }
    HeightLeast(a, |a.items|, HeightTo(b, |b.items|));
    HeightIs(a);
    HeightIs(b);
  }

  lemma CoveredPassed(test: Rule -> bool, a: Item, b: Item)
    requires a.Group? && b.Group? && a.logic == b.logic
    requires forall i | 0 <= i < |a.items| :: AlikeToOne(test, a.items[i], b)
    ensures a.logic == And && Evaluate(test, b).passed ==> Evaluate(test, a).passed
    ensures a.logic == Or && Evaluate(test, a).passed ==> Evaluate(test, b).passed
  {
    hide Evaluate, Height, Effective;
    var r, s := Evaluate(test, a), Evaluate(test, b);
    Children(test, a);
    Children(test, b);
    forall i | 0 <= i < |a.items|
      ensures r.results[i].passed ==> exists j :: 0 <= j < |b.items| && s.results[j].passed
      ensures !r.results[i].passed ==> exists j :: 0 <= j < |b.items| && !s.results[j].passed
    {
      assert AlikeToOne(test, a.items[i], b);
      var j :| 0 <= j < |b.items| && Alike(test, a.items[i], b.items[j]);
      assert s.results[j].passed == r.results[i].passed;
    }
  }

  lemma CoveredEffective(test: Rule -> bool, a: Item, b: Item, f: Outcome)
    requires a.Group? && b.Group? && a.logic == b.logic
    requires forall i | 0 <= i < |a.items| :: AlikeToOne(test, a.items[i], b)
    requires Evaluate(test, a).passed == Evaluate(test, b).passed && f in Effective(Evaluate(test, a))
    ensures f in Effective(Evaluate(test, b))
  {
    hide Evaluate, Height, Effective;
    var r, s := Evaluate(test, a), Evaluate(test, b);
    Children(test, a);
    Children(test, b);
    EffectiveIn(r, f);
    EffectiveIn(s, f);
    var i :| 0 <= i < |r.results| && f in Effective(r.results[i]);
    assert AlikeToOne(test, a.items[i], b);
    var j :| 0 <= j < |b.items| && Alike(test, a.items[i], b.items[j]);
    assert f in Effective(s.results[j]);
  }

  lemma AlikeGroups(test: Rule -> bool, a: Item, b: Item)
    requires a.Group? && b.Group? && a.logic == b.logic
    requires forall i | 0 <= i < |a.items| :: AlikeToOne(test, a.items[i], b)
    requires forall j | 0 <= j < |b.items| :: AlikeToOne(test, b.items[j], a)
    ensures Alike(test, a, b)
  {
    hide Evaluate, Height, Effective, AlikeToOne;
    CoveredHeight(test, a, b);
    CoveredHeight(test, b, a);
    CoveredPassed(test, a, b);
    CoveredPassed(test, b, a);
    forall f
      ensures f in Effective(Evaluate(test, a)) <==> f in Effective(Evaluate(test, b))
    {
      if f in Effective(Evaluate(test, a)) {
        CoveredEffective(test, a, b, f);
      }
      if f in Effective(Evaluate(test, b)) {
        CoveredEffective(test, b, a, f);
      }
    }
  }

  lemma Children(test: Rule -> bool, group: Item)
    requires group.Group?
    ensures var r := Evaluate(test, group);
            && r.GroupResult? && r.logic == group.logic && |r.results| == |group.items|
            && r.passed == Combine(group.logic, r.results)
            && forall i | 0 <= i < |r.results| :: r.results[i] == Evaluate(test, group.items[i])
  {
  }

  lemma HeightLeast(group: Item, k: nat, h: nat)
    requires group.Group? && k <= |group.items| && forall i | 0 <= i < k :: Height(group.items[i]) <= h
    ensures HeightTo(group, k) <= h
  {
    if k > 0 {
      HeightLeast(group, k - 1, h);
    }
  }

  lemma {:induction false} SameTop(a: seq<Outcome>, b: seq<Outcome>)
    requires AllRules(a) && AllRules(b) && forall f :: f in a <==> f in b
    ensures WorstAction(a) == WorstAction(b)
  {
    TopExact(a);
    TopExact(b);
    assert a == [] <==> b == [] by {
      assert a != [] ==> a[0] in b;
      assert b != [] ==> b[0] in a;
    }
    assert Top(a) == Top(b);
  }

  // ---------------------------------------------------------------- which rules decide

  /** The rule is in the item, it fails, and so does every group around it. */
  predicate Counts(test: Rule -> bool, item: Item, rule: Rule) {
    match item
    case Leaf(own) => own == rule && !Holds(test, item)
    case Group(_, items) => !Holds(test, item) && exists i | 0 <= i < |items| :: Counts(test, items[i], rule)
  }

  lemma {:induction false} CountsIff(test: Rule -> bool, item: Item, rule: Rule)
    ensures RuleResult(rule, false) in Effective(Evaluate(test, item)) <==> Counts(test, item, rule)
  {
    var r, f := Evaluate(test, item), RuleResult(rule, false);
    HoldsIff(test, item);
    EffectiveIn(r, f);
    if item.Group? {
      forall i | 0 <= i < |item.items|
        ensures r.results[i] == Evaluate(test, item.items[i])
        ensures f in Effective(r.results[i]) <==> Counts(test, item.items[i], rule)
      {
        CountsIff(test, item.items[i], rule);
      }
    }
  }

  /** Among the rules that count, block decides before required, and a warning never does. */
  ghost predicate Decides(test: Rule -> bool, item: Item, rule: Rule) {
    && Counts(test, item, rule)
    && (|| rule.severity == Block
        || (rule.severity == Required && forall other | Counts(test, item, other) :: other.severity != Block))
  }

  /** Some rule that decides asks for the action. */
  ghost predicate Asked(test: Rule -> bool, item: Item, action: Action) {
    exists rule :: Decides(test, item, rule) && rule.onFail == action
  }

  /** Abort before rework before hold before escalate before notify before proceed. */
  ghost predicate AsksFirst(test: Rule -> bool, item: Item, action: Action) {
    && Asked(test, item, action)
    && (action != Abort ==> !Asked(test, item, Abort))
    && (action != Abort && action != Rework ==> !Asked(test, item, Rework))
    && (action in {Escalate, Notify, Proceed} ==> !Asked(test, item, Hold))
    && (action in {Notify, Proceed} ==> !Asked(test, item, Escalate))
    && (action == Proceed ==> !Asked(test, item, Notify))
  }

  lemma DecidesIsTop(test: Rule -> bool, item: Item, failures: seq<Outcome>, w: Outcome)
    requires AllRules(failures) && Worst(failures, w)
    requires forall rule :: Counts(test, item, rule) <==> RuleResult(rule, false) in failures
    requires forall f | f in failures :: f == RuleResult(f.rule, false)
    ensures w.rule.severity != Warn ==> Decides(test, item, w.rule) && AsksFirst(test, item, w.rule.onFail)
    ensures w.rule.severity == Warn ==> forall rule :: !Decides(test, item, rule)
    ensures forall a, b | AsksFirst(test, item, a) && AsksFirst(test, item, b) :: a == b
  {
    hide Counts;
    assert Counts(test, item, w.rule);
    forall rule | Counts(test, item, rule)
      ensures !Outranks(rule, w.rule)
    {
      assert RuleResult(rule, false) in failures;
    }
    if w.rule.severity != Warn {
      assert Decides(test, item, w.rule);
    }
  }

  /** The action that the failures of a tree call for, without its weights: what the rules that decide ask for
      first, and none if no rule decides. */
  lemma WorstIffAskedFirst(test: Rule -> bool, group: Item)
    ensures forall a :: Judge(test, group) == Some(a) <==> AsksFirst(test, group, a)
    ensures Judge(test, group) == None <==> forall rule :: !Decides(test, group, rule)
  {
    var failures := Effective(Evaluate(test, group));
    EffectiveRules(Evaluate(test, group));
    forall rule
      ensures Counts(test, group, rule) <==> RuleResult(rule, false) in failures
    {
      CountsIff(test, group, rule);
    }
    forall f | f in failures
      ensures f == RuleResult(f.rule, false)
    {
      EffectiveFailed(Evaluate(test, group), f);
    }
    hide Counts, Effective, Evaluate;
    WorstExact(failures);
    if failures != [] {
      TopExact(failures);
      var w :| w in failures && Rank(w.rule) == Top(failures);
      TopIsWorst(failures, w);
      hide WorstAction, Top, Rank, Worst, AsksFirst;
      DecidesIsTop(test, group, failures, w);
    }
  }

  // ---------------------------------------------------------------- the gate

  function ActionToVerdict(action: Option<Action>): Verdict {
    match action
    case None => Go
    case Some(Abort) => Stop
    case Some(Rework) => Redo
    case Some(Proceed) => Go
    case Some(_) => Held
  }

  /** The verdict of a rule set, from the tree of its results. */
  function Judge(test: Rule -> bool, group: Item): Option<Action> {
    var r := Evaluate(test, group);
    EffectiveRules(r);
    WorstAction(Effective(r))
  }

  /** What the verdict means, in terms of the rules that decide: an abort if one of them asks for it; failing
      that a rework; failing both a hold, if one asks to hold, escalate or notify; and otherwise the gate passes.
      The worst action is the one asked for first. */
  ghost predicate SaysVerdict(test: Rule -> bool, group: Item, e: Evaluation) {
    && (e.verdict == Stop <==> Asked(test, group, Abort))
    && (e.verdict == Redo <==> !Asked(test, group, Abort) && Asked(test, group, Rework))
    && (e.verdict == Held <==>
        && !Asked(test, group, Abort) && !Asked(test, group, Rework)
        && (Asked(test, group, Hold) || Asked(test, group, Escalate) || Asked(test, group, Notify)))
    && (e.passed <==> e.verdict == Go)
    && (forall a :: e.worstAction == Some(a) <==> AsksFirst(test, group, a))
    && (e.worstAction == None <==> forall rule :: !Decides(test, group, rule))
  }

  lemma VerdictExact(test: Rule -> bool, group: Item, ruleResults: seq<Outcome>)
    ensures
      var verdict := ActionToVerdict(Judge(test, group));
      SaysVerdict(test, group, Evaluation(verdict, verdict == Go, Judge(test, group), ruleResults, Some(Evaluate(test, group))))
  {
    WorstIffAskedFirst(test, group);
    hide Judge, Decides, Evaluate;
    forall a | Asked(test, group, a)
      ensures Judge(test, group).Some?
    {
      AskedDecides(test, group, a);
    }
    assert forall a :: AsksFirst(test, group, a) ==> Asked(test, group, a);
  }

  lemma AskedDecides(test: Rule -> bool, group: Item, action: Action)
    requires Asked(test, group, action)
    ensures exists rule :: Decides(test, group, rule)
  {
  }

  method EvaluateGate(mode: Mode, rules: Option<Item>, test: Rule -> bool) returns (r: Result<Evaluation, Error>)
    requires rules.Some? ==> rules.value.Group?
    ensures mode.Auto? || mode.Skip? ==> r == Ok(Evaluation(Go, true, None, [], None))
    ensures mode.HoldMode? || mode.Manual? ==> r == Ok(Evaluation(Held, false, Some(Hold), [], None))
    ensures mode.Rules? && (rules.None? || rules.value.items == []) ==> r == Ok(Evaluation(Go, true, None, [], None))
    ensures mode.Rules? && rules.Some? && rules.value.items != [] ==>
      && (r.Err? <==> Height(rules.value) > 3)
      && (r.Ok? ==>
            var tree := Evaluate(test, rules.value);
            var verdict := ActionToVerdict(Judge(test, rules.value));
            r.value == Evaluation(verdict, verdict == Go, Judge(test, rules.value), Flatten(tree), Some(tree)))
      && (r.Ok? ==> SaysVerdict(test, rules.value, r.value) && ResultsOf(test, Rules(rules.value), r.value.ruleResults))
  {
    if mode.Auto? || mode.Skip? {
      return Ok(Evaluation(Go, true, None, [], None));
    }
    if mode.HoldMode? || mode.Manual? {
      return Ok(Evaluation(Held, false, Some(Hold), [], None));
    }
    if rules.None? || |rules.value.items| == 0 {
      return Ok(Evaluation(Go, true, None, [], None));
    }
    var collector := new Collector();
    var group := EvaluateGroup(test, rules.value, 0, collector);
    if group.Err? {
      return Err(TooDeep);
    }
    var failures := CollectEffectiveFailures(group.value);
    EffectiveRules(group.value);
    var worst := ResolveWorstAction(failures);
    var verdict := ActionToVerdict(worst);
    VerdictExact(test, rules.value, Flatten(group.value));
    FlattenExact(test, rules.value);
    return Ok(Evaluation(verdict, verdict == Go, worst, collector.results, Some(group.value)));
  }

  /** Reordering or repeating rules inside any group changes neither whether the gate throws nor its
      worst action, so not its verdict. */
  lemma OrderIrrelevant(test: Rule -> bool, a: Item, b: Item)
    requires Similar(a, b)
    ensures Judge(test, a) == Judge(test, b)
    ensures Height(a) == Height(b)
    ensures a.Group? ==> (a.items == [] <==> b.items == [])
  {
    SimilarEvaluates(test, a, b);
    var r, s := Evaluate(test, a), Evaluate(test, b);
    EffectiveRules(r);
    EffectiveRules(s);
    SameTop(Effective(r), Effective(s));
  }

  /** With a block failure that counts, the gate still proceeds exactly when all of those say so. */
  lemma BlockProceedsIff(test: Rule -> bool, group: Item)
    requires exists f :: f in Effective(Evaluate(test, group)) && f.RuleResult? && f.rule.severity == Block
    ensures ActionToVerdict(Judge(test, group)) == Go <==>
            forall f :: f in Effective(Evaluate(test, group)) && f.RuleResult? && f.rule.severity == Block ==> f.rule.onFail == Proceed
  {
    hide Effective, Evaluate, Rank, Outranks, WorstAction, Top;
    var failures := Effective(Evaluate(test, group));
    EffectiveRules(Evaluate(test, group));
    TopExact(failures);
    var b :| b in failures && b.RuleResult? && b.rule.severity == Block;
    var w :| w in failures && Rank(w.rule) == Top(failures);
    RankOrders(w.rule, b.rule);
    forall f | f in failures
      ensures Rank(f.rule) <= Rank(w.rule)
    {
    }
    assert Worst(failures, w) by {
      forall f | f in failures
        ensures !Outranks(f.rule, w.rule)
      {
        RankOrders(f.rule, w.rule);
      }
    }
    WorstExact(failures);
    forall f | f in failures && f.rule.severity == Block
      ensures w.rule.severity == Block && (w.rule.onFail == Proceed ==> f.rule.onFail == Proceed)
    {
      RankOrders(f.rule, w.rule);
      BlockOutranks(f.rule, w.rule);
    }
  }

  lemma BlockOutranks(f: Rule, w: Rule)
    requires f.severity == Block && !Outranks(f, w)
    ensures w.severity == Block && (w.onFail == Proceed ==> f.onFail == Proceed)
  {
  }

  /** For every tree and context: the gate proceeds if and only if every rule that counts is a warning, or says
      proceed, or gives way to one of higher severity that counts. Most plainly, if none counts. */
  lemma ProceedsIff(test: Rule -> bool, group: Item)
    ensures ActionToVerdict(Judge(test, group)) == Go <==>
            forall rule | Counts(test, group, rule) ::
              || rule.severity == Warn || rule.onFail == Proceed
              || exists other :: Counts(test, group, other) && SeverityWeight(other.severity) > SeverityWeight(rule.severity)
  {
    var failures := Effective(Evaluate(test, group));
    EffectiveRules(Evaluate(test, group));
    forall rule
      ensures Counts(test, group, rule) <==> RuleResult(rule, false) in failures
    {
      CountsIff(test, group, rule);
    }
    forall f | f in failures
      ensures f == RuleResult(f.rule, false)
    {
      EffectiveFailed(Evaluate(test, group), f);
    }
    hide Counts, Effective, Evaluate;
    if failures == [] {
      WorstExact(failures);
    } else {
      TopExact(failures);
      var w :| w in failures && Rank(w.rule) == Top(failures);
      TopIsWorst(failures, w);
      WorstExact(failures);
      assert Counts(test, group, w.rule);
      hide WorstAction, Top, Rank;
      ProceedsByWorst(test, group, failures, w);
    }
  }

  lemma TopIsWorst(failures: seq<Outcome>, w: Outcome)
    requires AllRules(failures) && w in failures && forall f | f in failures :: Rank(f.rule) <= Rank(w.rule)
    ensures Worst(failures, w)
  {
    forall f | f in failures
      ensures !Outranks(f.rule, w.rule)
    {
      RankOrders(f.rule, w.rule);
    }
  }

  lemma ProceedsByWorst(test: Rule -> bool, group: Item, failures: seq<Outcome>, w: Outcome)
    requires AllRules(failures) && Worst(failures, w)
    requires forall rule :: Counts(test, group, rule) <==> RuleResult(rule, false) in failures
    requires forall f | f in failures :: f == RuleResult(f.rule, false)
    ensures (w.rule.severity == Warn || w.rule.onFail == Proceed) <==>
            forall rule | Counts(test, group, rule) ::
              || rule.severity == Warn || rule.onFail == Proceed
              || exists other :: Counts(test, group, other) && SeverityWeight(other.severity) > SeverityWeight(rule.severity)
  {
    hide Counts;
    assert Counts(test, group, w.rule);
    forall rule | Counts(test, group, rule)
      ensures !Outranks(rule, w.rule)
    {
      assert RuleResult(rule, false) in failures;
    }
  }

  /** A failing block rule holds the gate back exactly when it counts; under an OR that passes it does not. */
  lemma BlockUnderPassingOr(test: Rule -> bool)
    requires forall rule :: test(rule)
    ensures
      var block := Rule("a", "exists", "", Block, Hold);
      var required := Rule("b", "exists", "", Required, Abort);
      var group := Group(Or, [Leaf(block), Leaf(required)]);
      !Counts(test, group, block) && ActionToVerdict(Judge(test, group)) == Go
  {
    var required := Rule("b", "exists", "", Required, Abort);
    var group := Group(Or, [Leaf(Rule("a", "exists", "", Block, Hold)), Leaf(required)]);
    assert group.items[1] == Leaf(required) && test(required);
    assert Holds(test, group.items[1]);
    ProceedsIff(test, group);
  }

  /** The root of this tree fails in every context, and the gate proceeds in every context. */
  lemma EmptyOrProceeds(test: Rule -> bool)
    ensures
      var group := Group(And, [Group(Or, [])]);
      && Height(group) <= MAX_NESTING_DEPTH && !Evaluate(test, group).passed
      && FailsSilently(test, group) && ActionToVerdict(Judge(test, group)) == Go
  {
    var group := Group(And, [Group(Or, [])]);
    assert group.items[0] == Group(Or, []) && FailsSilently(test, group.items[0]) && !Holds(test, group.items[0]);
    assert FailsSilently(test, group);
    HoldsIff(test, group);
    SilentIff(test, group);
    HeightLeast(group.items[0], 0, 0);
    HeightLeast(group, 1, 1);
    assert Effective(Evaluate(test, group)) == [];
    WorstExact([]);
  }

  /** The engine calls block an unconditional hold; its verdict follows `onFail` instead, here even past a
      required rule that asks for an abort. */
  lemma BlockMayProceed(test: Rule -> bool)
    requires forall rule :: !test(rule)
    ensures
      var block := Rule("a", "exists", "", Block, Proceed);
      var required := Rule("b", "exists", "", Required, Abort);
      ActionToVerdict(Judge(test, Group(And, [Leaf(block), Leaf(required)]))) == Go
  {
    var block := Rule("a", "exists", "", Block, Proceed);
    var required := Rule("b", "exists", "", Required, Abort);
    var group := Group(And, [Leaf(block), Leaf(required)]);
    var r := Evaluate(test, group);
    Children(test, group);
    assert group.items[0] == Leaf(block) && group.items[1] == Leaf(required) && !test(block) && !test(required);
    assert r.results[0] == RuleResult(block, false) && r.results[1] == RuleResult(required, false);
    EffectiveIn(r, r.results[0]);
    EffectiveIn(r.results[0], r.results[0]);
    forall f | f in Effective(r) && f.RuleResult? && f.rule.severity == Block
      ensures f.rule.onFail == Proceed
    {
      EffectiveIn(r, f);
      var i :| 0 <= i < |r.results| && f in Effective(r.results[i]);
      EffectiveIn(r.results[i], f);
    }
    BlockProceedsIff(test, group);
  }
}
