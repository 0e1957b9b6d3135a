/**
 * The budget a trial's transcript is kept within (src/evaluation/transcript.ts): fairShare,
 * clipped and boundedSteps. A text's length is its number of characters.
 */
module Transcript {
  import opened Texts
  import opened Wrappers

  const MAX_STEPS := 500
  const MAX_TOOLS := 30
  const STEPS_BUDGET := 200_000
  /** STEPS_BUDGET times the share of what was said and done, 0.6. */
  const SAID_BUDGET := 120_000

  datatype Tool = Tool(id: string, name: string, input: string, output: string)

  datatype Step = Step(id: string, role: string, text: string, tools: seq<Tool>)

  /** A length limit; None is no limit (infinity). */
  type Limit = Option<nat>

  function Min(length: nat, limit: Limit): nat {
    if limit.Some? && limit.value < length then limit.value else length
  }

  // ---- Sharing a budget ----

  /** What texts of these lengths hold together when each keeps at most `limit`. */
  function Kept(lengths: seq<nat>, limit: Limit): nat {
    if lengths == [] then 0 else Min(lengths[0], limit) + Kept(lengths[1..], limit)
  }

  function Insert(length: nat, sorted: seq<nat>): seq<nat> {
    if sorted == [] || length <= sorted[0] then [length] + sorted else [sorted[0]] + Insert(length, sorted[1..])
  }

  function Sorted(lengths: seq<nat>): seq<nat> {
    if lengths == [] then [] else Insert(lengths[0], Sorted(lengths[1..]))
  }

  predicate Ascending(lengths: seq<nat>) {
    forall i, j :: 0 <= i < j < |lengths| ==> lengths[i] <= lengths[j]
  }

  /** The walk over sorted lengths: the first that exceeds its even share of what is left ends it. */
  function Share(sorted: seq<nat>, left: int): Limit {
    if sorted == [] then None
    else
      var share := left / |sorted|;
      if sorted[0] > share then Some(if share > 0 then share else 0) else Share(sorted[1..], left - sorted[0])
  }

  function FairShareOf(lengths: seq<nat>, budget: nat): Limit {
    Share(Sorted(lengths), budget)
  }

  method FairShare(lengths: seq<nat>, budget: nat) returns (limit: Limit)
    ensures limit == FairShareOf(lengths, budget)
  {
    var sorted := Sorted(lengths);
    var left: int := budget;
    var index := 0;
    while index < |sorted|
      invariant 0 <= index <= |sorted| && left >= 0
      invariant Share(sorted, budget) == Share(sorted[index..], left)
    {
      var length := sorted[index];
      var share := left / (|sorted| - index);
      assert sorted[index..][0] == length && sorted[index..][1..] == sorted[index + 1..];
      if length > share { return Some(if share > 0 then share else 0); }
      ShareLeaves(left, |sorted| - index, length);
      left := left - length;
      index := index + 1;
    }
    return None;
  }

  lemma ShareLeaves(left: nat, n: nat, length: nat)
    requires n > 0 && length <= left / n
    ensures length * n <= left && length <= left
  {
    DivisionBounds(left, n);
    MoreTimes(length, left / n, n);
    MoreTimes(1, n, length);
  }

  lemma DivisionBounds(left: nat, n: nat)
    requires n > 0
    ensures left / n * n <= left < (left / n + 1) * n
  {
    assert left == n * (left / n) + left % n;
    OneMore(n, left / n);
  }

  lemma MoreTimes(x: nat, y: nat, n: nat)
    requires x <= y
    ensures x * n <= y * n
  {
    assert y * n == x * n + (y - x) * n;
  }

  lemma {:induction false} InsertKeeps(length: nat, sorted: seq<nat>, limit: Limit)
    requires Ascending(sorted)
    ensures Ascending(Insert(length, sorted)) && |Insert(length, sorted)| == |sorted| + 1
    ensures Kept(Insert(length, sorted), limit) == Min(length, limit) + Kept(sorted, limit)
    ensures forall x :: x in Insert(length, sorted) ==> x == length || x in sorted
  {
    if sorted == [] || length <= sorted[0] {
      assert ([length] + sorted)[1..] == sorted;
    } else {
      InsertKeeps(length, sorted[1..], limit);
      var all := Insert(length, sorted);
      assert all[0] == sorted[0] && all[1..] == Insert(length, sorted[1..]);
      forall i, j | 0 <= i < j < |all| ensures all[i] <= all[j] {
        assert all[j] == all[1..][j - 1] && all[j] in all[1..];
        if i > 0 {
          assert all[i] == all[1..][i - 1];
        }
      }
    }
  }

  lemma {:induction false} SortKeeps(lengths: seq<nat>, limit: Limit)
    ensures Ascending(Sorted(lengths)) && |Sorted(lengths)| == |lengths|
    ensures Kept(Sorted(lengths), limit) == Kept(lengths, limit)
  {
    if lengths != [] {
      SortKeeps(lengths[1..], limit);
      InsertKeeps(lengths[0], Sorted(lengths[1..]), limit);
    }
  }

  lemma {:induction false} KeptAtMost(lengths: seq<nat>, limit: nat)
    ensures Kept(lengths, Some(limit)) <= limit * |lengths|
  {
    if lengths != [] {
      KeptAtMost(lengths[1..], limit);
      OneMore(limit, |lengths[1..]|);
    }
  }

  lemma {:induction false} KeptWhenAllCut(lengths: seq<nat>, limit: nat)
    requires forall i :: 0 <= i < |lengths| ==> lengths[i] >= limit
    ensures Kept(lengths, Some(limit)) == limit * |lengths|
  {
    if lengths != [] {
      KeptWhenAllCut(lengths[1..], limit);
      OneMore(limit, |lengths[1..]|);
    }
  }

  lemma OneMore(x: nat, n: nat)
    ensures x * (n + 1) == x * n + x
  {
  }

  lemma {:induction false} LargerLimitKeepsMore(lengths: seq<nat>, less: nat, more: Limit)
    requires more.Some? ==> less <= more.value
    ensures Kept(lengths, Some(less)) <= Kept(lengths, more)
  {
    if lengths != [] {
      LargerLimitKeepsMore(lengths[1..], less, more);
    }
  }

  lemma OverShare(x: nat, n: nat, y: nat)
    ensures x * n < y * n ==> x < y
  {
    if y <= x {
      MoreTimes(y, x, n);
    }
  }

  /** The shortest text already exceeds its share: every text is cut to it. */
  lemma ShareEnds(sorted: seq<nat>, left: nat)
    requires Ascending(sorted) && sorted != [] && sorted[0] > left / |sorted|
    ensures Kept(sorted, Some(left / |sorted|)) <= left < Kept(sorted, Some(left / |sorted| + 1))
  {
    var n, share := |sorted|, left / |sorted|;
    KeptAtMost(sorted, share);
    KeptWhenAllCut(sorted, share + 1);
    DivisionBounds(left, n);
  }

  /** The shortest text fits its share: it fits under whatever limit the others get. */
  lemma LimitCoversShorter(sorted: seq<nat>, left: nat, limit: nat)
    requires sorted != [] && sorted[0] <= left / |sorted| && sorted[0] <= left
    requires left - sorted[0] < Kept(sorted[1..], Some(limit + 1))
    ensures sorted[0] <= limit
  {
    var n := |sorted|;
    ShareLeaves(left, n, sorted[0]);
    KeptAtMost(sorted[1..], limit + 1);
    OneMore(sorted[0], n - 1);
    OverShare(sorted[0], n - 1, limit + 1);
  }

  lemma {:induction false} ShareIsLargest(sorted: seq<nat>, left: nat)
    requires Ascending(sorted)
    ensures Share(sorted, left).None? ==> Kept(sorted, None) <= left
    ensures Share(sorted, left).Some? ==>
              var limit := Share(sorted, left).value;
              Kept(sorted, Some(limit)) <= left < Kept(sorted, Some(limit + 1))
  {
    if sorted == [] {
    } else if sorted[0] > left / |sorted| {
      ShareEnds(sorted, left);
    } else {
      ShareLeaves(left, |sorted|, sorted[0]);
      ShareIsLargest(sorted[1..], left - sorted[0]);
      var rest := Share(sorted[1..], left - sorted[0]);
      if rest.Some? {
        LimitCoversShorter(sorted, left, rest.value);
      }
    }
  }

  /** fairShare gives no limit exactly when everything fits; else the largest limit at which the
      texts, each cut to it, fit the budget together. */
  lemma FairShareIsLargest(lengths: seq<nat>, budget: nat)
    ensures FairShareOf(lengths, budget).None? <==> Kept(lengths, None) <= budget
    ensures FairShareOf(lengths, budget).Some? ==>
              var limit := FairShareOf(lengths, budget).value;
              && Kept(lengths, Some(limit)) <= budget
              && forall larger: nat :: larger > limit ==> Kept(lengths, Some(larger)) > budget
  {
    var limit := FairShareOf(lengths, budget);
    SortKeeps(lengths, None);
    ShareIsLargest(Sorted(lengths), budget);
    if limit.Some? {
      SortKeeps(lengths, limit);
      SortKeeps(lengths, Some(limit.value + 1));
      LargerLimitKeepsMore(lengths, limit.value + 1, None);
      forall larger: nat | larger > limit.value ensures Kept(lengths, Some(larger)) > budget {
        LargerLimitKeepsMore(lengths, limit.value + 1, Some(larger));
      }
    }
  }

  lemma KeptFits(lengths: seq<nat>, budget: nat)
    ensures Kept(lengths, FairShareOf(lengths, budget)) <= budget
  {
    FairShareIsLargest(lengths, budget);
  }

  // ---- Cutting a text ----

  function Note(omitted: nat): string {
    "\n[\U{2026} " + Decimal(omitted) + " characters omitted \U{2026}]\n"
  }

  /** The start of `text` and its end about `note`; only the start where the note takes over half. */
  function CutAbout(text: string, limit: nat, note: string): (cut: string)
    requires limit <= |text|
    ensures |cut| == limit
  {
    if limit < |note| * 2 then text[..limit]
    else
      var kept := limit - |note|;
      var head := (kept + 1) / 2;
      text[..head] + note + text[|text| - (kept - head)..]
  }

  function Clipped(text: string, limit: Limit): (cut: string)
    ensures |cut| == Min(|text|, limit)
    ensures |cut| == |text| ==> cut == text
  {
    if limit.None? || |text| <= limit.value then text
    else CutAbout(text, limit.value, Note(|text| - limit.value))
  }

  // ---- Bounding a transcript ----

  function Lengths(texts: seq<string>): seq<nat> {
    seq(|texts|, i requires 0 <= i < |texts| => |texts[i]|)
  }

  function Inputs(tools: seq<Tool>): seq<string> {
    seq(|tools|, i requires 0 <= i < |tools| => tools[i].input)
  }

  function ToolOutputs(tools: seq<Tool>): seq<string> {
    seq(|tools|, i requires 0 <= i < |tools| => tools[i].output)
  }

  function SaidIn(step: Step): seq<string> {
    [step.text] + Inputs(step.tools)
  }

  /** What the solver said and did: each step's message and its tools' inputs, in order. */
  function Said(steps: seq<Step>): seq<string> {
    if steps == [] then [] else SaidIn(steps[0]) + Said(steps[1..])
  }

  function Outputs(steps: seq<Step>): seq<string> {
    if steps == [] then [] else ToolOutputs(steps[0].tools) + Outputs(steps[1..])
  }

  /** The characters `texts` hold together. */
  function Total(texts: seq<string>): nat {
    Kept(Lengths(texts), None)
  }

  function FewerTools(step: Step): Step {
    step.(tools := if |step.tools| > MAX_TOOLS then step.tools[..MAX_TOOLS] else step.tools)
  }

  /** The latest steps, with the first tools of each. */
  function Latest(steps: seq<Step>): (kept: seq<Step>)
    ensures |kept| <= MAX_STEPS && forall i :: 0 <= i < |kept| ==> |kept[i].tools| <= MAX_TOOLS
  {
    var last := if |steps| > MAX_STEPS then steps[|steps| - MAX_STEPS..] else steps;
    seq(|last|, i requires 0 <= i < |last| => FewerTools(last[i]))
  }

  function CutTool(tool: Tool, said: Limit, output: Limit): Tool {
    tool.(input := Clipped(tool.input, said), output := Clipped(tool.output, output))
  }

  function CutStep(step: Step, said: Limit, output: Limit): Step {
    step.(text := Clipped(step.text, said),
          tools := seq(|step.tools|, i requires 0 <= i < |step.tools| => CutTool(step.tools[i], said, output)))
  }

  function CutSteps(steps: seq<Step>, said: Limit, output: Limit): seq<Step> {
    seq(|steps|, i requires 0 <= i < |steps| => CutStep(steps[i], said, output))
  }

  /** A step with something left to show. */
  predicate Shows(step: Step) {
    step.text != "" || exists i :: 0 <= i < |step.tools| && (step.tools[i].input != "" || step.tools[i].output != "")
  }

  function Shown(steps: seq<Step>): seq<Step> {
    if steps == [] then [] else (if Shows(steps[0]) then [steps[0]] else []) + Shown(steps[1..])
  }

  function SaidLimit(kept: seq<Step>): Limit {
    FairShareOf(Lengths(Said(kept)), SAID_BUDGET)
  }

  function SaidUsed(kept: seq<Step>): (used: nat)
    ensures used <= SAID_BUDGET
  {
    KeptFits(Lengths(Said(kept)), SAID_BUDGET);
    Kept(Lengths(Said(kept)), SaidLimit(kept))
  }

  function OutputLimit(kept: seq<Step>): Limit {
    FairShareOf(Lengths(Outputs(kept)), STEPS_BUDGET - SaidUsed(kept))
  }

  function BoundedSteps(steps: seq<Step>): seq<Step> {
    var kept := Latest(steps);
    Shown(CutSteps(kept, SaidLimit(kept), OutputLimit(kept)))
  }

  // ---- Within the budget, once and for all ----

  lemma {:induction false} KeptOfBoth(a: seq<nat>, b: seq<nat>, limit: Limit)
    ensures Kept(a + b, limit) == Kept(a, limit) + Kept(b, limit)
  {
    if a == [] {
      assert a + b == b;
    } else {
      assert (a + b)[1..] == a[1..] + b;
      KeptOfBoth(a[1..], b, limit);
    }
  }

  lemma LengthsOfBoth(a: seq<string>, b: seq<string>)
    ensures Lengths(a + b) == Lengths(a) + Lengths(b)
  {
  }

  lemma TotalOfBoth(a: seq<string>, b: seq<string>)
    ensures Total(a + b) == Total(a) + Total(b)
  {
    LengthsOfBoth(a, b);
    KeptOfBoth(Lengths(a), Lengths(b), None);
  }

  /** Texts cut to `limit`, one by one. */
  predicate CutOf(cut: seq<string>, texts: seq<string>, limit: Limit) {
    |cut| == |texts| && forall i :: 0 <= i < |texts| ==> cut[i] == Clipped(texts[i], limit)
  }

  lemma {:induction false} TotalOfCut(cut: seq<string>, texts: seq<string>, limit: Limit)
    requires CutOf(cut, texts, limit)
    ensures Total(cut) == Kept(Lengths(texts), limit)
  {
    if texts != [] {
      assert Lengths(cut)[1..] == Lengths(cut[1..]) && Lengths(texts)[1..] == Lengths(texts[1..]);
      TotalOfCut(cut[1..], texts[1..], limit);
    }
  }

  lemma CutOfBoth(cutA: seq<string>, a: seq<string>, cutB: seq<string>, b: seq<string>, limit: Limit)
    requires CutOf(cutA, a, limit) && CutOf(cutB, b, limit)
    ensures CutOf(cutA + cutB, a + b, limit)
  {
  }

  lemma CutStepSaid(step: Step, said: Limit, output: Limit)
    ensures CutOf(SaidIn(CutStep(step, said, output)), SaidIn(step), said)
    ensures CutOf(ToolOutputs(CutStep(step, said, output).tools), ToolOutputs(step.tools), output)
  {
  }

  lemma {:induction false} CutSaid(steps: seq<Step>, said: Limit, output: Limit)
    ensures CutOf(Said(CutSteps(steps, said, output)), Said(steps), said)
    ensures CutOf(Outputs(CutSteps(steps, said, output)), Outputs(steps), output)
  {
    if steps != [] {
      var cut := CutSteps(steps, said, output);
      var step, rest := steps[0], steps[1..];
      assert cut[0] == CutStep(step, said, output) && cut[1..] == CutSteps(rest, said, output);
      CutSaid(rest, said, output);
      CutStepSaid(step, said, output);
      CutOfBoth(SaidIn(cut[0]), SaidIn(step), Said(cut[1..]), Said(rest), said);
      CutOfBoth(ToolOutputs(cut[0].tools), ToolOutputs(step.tools), Outputs(cut[1..]), Outputs(rest), output);
    }
  }

  lemma {:induction false} EmptyTextsHoldNothing(texts: seq<string>)
    requires forall i :: 0 <= i < |texts| ==> texts[i] == ""
    ensures Total(texts) == 0
  {
    if texts != [] {
      assert Lengths(texts)[1..] == Lengths(texts[1..]);
      EmptyTextsHoldNothing(texts[1..]);
    }
  }

  lemma TotalOfFirst(steps: seq<Step>)
    requires steps != []
    ensures Total(Said(steps)) == Total(SaidIn(steps[0])) + Total(Said(steps[1..]))
    ensures Total(Outputs(steps)) == Total(ToolOutputs(steps[0].tools)) + Total(Outputs(steps[1..]))
  {
    TotalOfBoth(SaidIn(steps[0]), Said(steps[1..]));
    TotalOfBoth(ToolOutputs(steps[0].tools), Outputs(steps[1..]));
  }

  lemma UnshownHoldsNothing(step: Step)
    requires !Shows(step)
    ensures Total(SaidIn(step)) == 0 && Total(ToolOutputs(step.tools)) == 0
  {
    EmptyTextsHoldNothing(SaidIn(step));
    EmptyTextsHoldNothing(ToolOutputs(step.tools));
  }

  /** Dropping steps with nothing to show drops no text. */
  lemma {:induction false} ShownHoldsAll(steps: seq<Step>)
    ensures Total(Said(Shown(steps))) == Total(Said(steps))
    ensures Total(Outputs(Shown(steps))) == Total(Outputs(steps))
  {
    if steps != [] {
      ShownHoldsAll(steps[1..]);
      TotalOfFirst(steps);
      if Shows(steps[0]) {
        assert Shown(steps)[1..] == Shown(steps[1..]);
        TotalOfFirst(Shown(steps));
      } else {
        assert Shown(steps) == Shown(steps[1..]);
        UnshownHoldsNothing(steps[0]);
      }
    }
  }

  lemma {:induction false} ShownAreSteps(steps: seq<Step>)
    ensures |Shown(steps)| <= |steps|
    ensures forall step :: step in Shown(steps) ==> step in steps && Shows(step)
  {
    if steps != [] {
      ShownAreSteps(steps[1..]);
    }
  }

  lemma BoundedTotals(steps: seq<Step>)
    ensures Total(Said(BoundedSteps(steps))) == SaidUsed(Latest(steps))
    ensures Total(Outputs(BoundedSteps(steps))) <= STEPS_BUDGET - SaidUsed(Latest(steps))
  {
    var kept := Latest(steps);
    var cut := CutSteps(kept, SaidLimit(kept), OutputLimit(kept));
    CutSaid(kept, SaidLimit(kept), OutputLimit(kept));
    TotalOfCut(Said(cut), Said(kept), SaidLimit(kept));
    TotalOfCut(Outputs(cut), Outputs(kept), OutputLimit(kept));
    KeptFits(Lengths(Outputs(kept)), STEPS_BUDGET - SaidUsed(kept));
    ShownHoldsAll(cut);
  }

  lemma BoundedShape(steps: seq<Step>, said: Limit, output: Limit)
    ensures var shown := Shown(CutSteps(Latest(steps), said, output));
            && |shown| <= MAX_STEPS
            && forall i :: 0 <= i < |shown| ==> |shown[i].tools| <= MAX_TOOLS && Shows(shown[i])
  {
    var cut := CutSteps(Latest(steps), said, output);
    var shown := Shown(cut);
    ShownAreSteps(cut);
    forall i | 0 <= i < |cut| ensures |cut[i].tools| <= MAX_TOOLS {
      assert cut[i] == CutStep(Latest(steps)[i], said, output);
    }
    forall i | 0 <= i < |shown| ensures |shown[i].tools| <= MAX_TOOLS && Shows(shown[i]) {
      assert shown[i] in shown;
    }
  }

  /** A record's steps hold at most 200,000 characters of messages, tool inputs and tool outputs
      together, at most 120,000 of them messages and inputs; at most 500 steps of 30 tools. */
  lemma StepsStayWithinBudget(steps: seq<Step>)
    ensures var bounded := BoundedSteps(steps);
            && Total(Said(bounded)) + Total(Outputs(bounded)) <= STEPS_BUDGET
            && Total(Said(bounded)) <= SAID_BUDGET
            && |bounded| <= MAX_STEPS
            && forall i :: 0 <= i < |bounded| ==> |bounded[i].tools| <= MAX_TOOLS && Shows(bounded[i])
  {
    BoundedTotals(steps);
    BoundedShape(steps, SaidLimit(Latest(steps)), OutputLimit(Latest(steps)));
  }

  lemma {:induction false} AllShown(steps: seq<Step>)
    requires forall i :: 0 <= i < |steps| ==> Shows(steps[i])
    ensures Shown(steps) == steps
  {
    if steps != [] {
      AllShown(steps[1..]);
    }
  }

  lemma UncutSteps(steps: seq<Step>, said: Limit, output: Limit)
    requires said == None && output == None
    ensures CutSteps(steps, said, output) == steps
  {
    var cut := CutSteps(steps, said, output);
    assert forall i :: 0 <= i < |steps| ==> cut[i] == steps[i];
  }

  lemma FewStepsAreLatest(steps: seq<Step>)
    requires |steps| <= MAX_STEPS && forall i :: 0 <= i < |steps| ==> |steps[i].tools| <= MAX_TOOLS
    ensures Latest(steps) == steps
  {
    var kept := Latest(steps);
    assert |kept| == |steps|;
    forall i | 0 <= i < |steps| ensures kept[i] == steps[i] {
      assert kept[i] == FewerTools(steps[i]);
    }
    assert kept == steps;
  }

  lemma NoLimits(steps: seq<Step>, said: nat)
    requires Total(Said(steps)) <= SAID_BUDGET && Total(Said(steps)) == said
    requires Total(Outputs(steps)) <= STEPS_BUDGET - said
    ensures SaidLimit(steps) == None && OutputLimit(steps) == None
  {
    FairShareIsLargest(Lengths(Said(steps)), SAID_BUDGET);
    FairShareIsLargest(Lengths(Outputs(steps)), STEPS_BUDGET - SaidUsed(steps));
  }

  /** Bounding bounded steps changes nothing: saving a record again cuts no more. */
  lemma BoundingTwiceIsBoundingOnce(steps: seq<Step>)
    ensures BoundedSteps(BoundedSteps(steps)) == BoundedSteps(steps)
  {
    var bounded := BoundedSteps(steps);
    StepsStayWithinBudget(steps);
    BoundedTotals(steps);
    FewStepsAreLatest(bounded);
    NoLimits(bounded, SaidUsed(Latest(steps)));
    UncutSteps(bounded, SaidLimit(bounded), OutputLimit(bounded));
    AllShown(bounded);
  }
}
