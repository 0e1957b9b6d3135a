/**
 * Which steps of a transcript survive bounding (boundedSteps, src/evaluation/transcript.ts), what is
 * left of each, and how many characters they hold together.
 */
module BoundedTranscripts {
  import opened Texts
  import opened Wrappers
  import opened Transcript

  // ---- Only the latest steps count ----

  lemma LatestOfLonger(before: seq<Step>, steps: seq<Step>)
    requires |steps| >= 500
    ensures Latest(before + steps) == Latest(steps)
  {
    var all := before + steps;
    assert all[|all| - 500..] == steps[|steps| - 500..];
  }

  /** Whatever came before the latest 500 steps changes nothing. */
  lemma OnlyTheLatestCount(before: seq<Step>, steps: seq<Step>)
    requires |steps| >= 500
    ensures BoundedSteps(before + steps) == BoundedSteps(steps)
  {
    LatestOfLonger(before, steps);
  }

  // ---- What is left of a step ----

  /** The start of `text`, or its start and its end about `note`, the start at most one character longer. */
  predicate IsCutAbout(cut: string, text: string, limit: nat, note: string)
    requires limit <= |text|
  {
    if limit < 2 * |note| then cut == text[..limit]
    else
      var kept := limit - |note|;
      cut == text[..kept - kept / 2] + note + text[|text| - kept / 2..]
  }

  /** `text` within `limit`: all of it, or cut about a note of how many characters past the limit it had. */
  predicate IsCut(cut: string, text: string, limit: Limit) {
    if limit == None || |text| <= limit.value then cut == text
    else
      && |cut| == limit.value
      && IsCutAbout(cut, text, limit.value, "\n[\U{2026} " + Decimal(|text| - limit.value) + " characters omitted \U{2026}]\n")
  }

  /** The step with its texts cut: the same id and role, and the first 30 tools under their ids and names. */
  predicate IsCutStep(cut: Step, step: Step, said: Limit, output: Limit) {
    && cut.id == step.id && cut.role == step.role && IsCut(cut.text, step.text, said)
    && |cut.tools| == (if |step.tools| < 30 then |step.tools| else 30)
    && forall t :: 0 <= t < |cut.tools| ==>
         && cut.tools[t].id == step.tools[t].id && cut.tools[t].name == step.tools[t].name
         && IsCut(cut.tools[t].input, step.tools[t].input, said)
         && IsCut(cut.tools[t].output, step.tools[t].output, output)
  }

  predicate Leaves(text: string, limit: Limit) {
    text != "" && limit != Some(0)
  }

  /** Something of the step is left to show. */
  predicate HasTextLeft(step: Step, said: Limit, output: Limit) {
    || Leaves(step.text, said)
    || exists t :: 0 <= t < |step.tools| && t < 30 && (Leaves(step.tools[t].input, said) || Leaves(step.tools[t].output, output))
  }

  lemma HalfUp(kept: nat)
    ensures (kept + 1) / 2 == kept - kept / 2
  {
  }

  lemma CutAboutIs(text: string, limit: nat, note: string)
    requires limit <= |text|
    ensures IsCutAbout(CutAbout(text, limit, note), text, limit, note)
  {
    if limit >= |note| * 2 {
      HalfUp(limit - |note|);
    }
  }

  lemma ClippedIsCut(text: string, limit: Limit)
    ensures IsCut(Clipped(text, limit), text, limit)
    ensures Clipped(text, limit) != "" <==> Leaves(text, limit)
  {
    if limit.Some? && |text| > limit.value {
      CutAboutIs(text, limit.value, Note(|text| - limit.value));
    }
  }

  lemma CutStepIs(step: Step, said: Limit, output: Limit)
    ensures IsCutStep(CutStep(FewerTools(step), said, output), step, said, output)
    ensures Transcript.Shows(CutStep(FewerTools(step), said, output)) <==> HasTextLeft(step, said, output)
  {
    var fewer, cut := FewerTools(step), CutStep(FewerTools(step), said, output);
    ClippedIsCut(step.text, said);
    forall t | 0 <= t < |cut.tools|
      ensures cut.tools[t] == CutTool(step.tools[t], said, output)
      ensures IsCut(cut.tools[t].input, step.tools[t].input, said) && IsCut(cut.tools[t].output, step.tools[t].output, output)
      ensures cut.tools[t].input != "" <==> Leaves(step.tools[t].input, said)
      ensures cut.tools[t].output != "" <==> Leaves(step.tools[t].output, output)
    {
      ClippedIsCut(step.tools[t].input, said);
      ClippedIsCut(step.tools[t].output, output);
    }
  }

  predicate Rising(at: seq<nat>, from: nat, to: nat) {
    && (forall k :: 0 <= k < |at| ==> from <= at[k] < to)
    && (forall j, k :: 0 <= j < k < |at| ==> at[j] < at[k])
  }

  function Later(at: seq<nat>): (later: seq<nat>)
    ensures |later| == |at| && forall k :: 0 <= k < |at| ==> later[k] == at[k] + 1
  {
    seq(|at|, k requires 0 <= k < |at| => at[k] + 1)
  }

  /** `at` are the places in `steps` of those picked, in order. */
  predicate PickedAre(steps: seq<Step>, picked: seq<Step>, at: seq<nat>) {
    && |at| == |picked| && Rising(at, 0, |steps|)
    && forall k :: 0 <= k < |at| ==> picked[k] == steps[at[k]]
  }

  predicate ShownAre(steps: seq<Step>, at: seq<nat>) {
    PickedAre(steps, Shown(steps), at)
  }

  predicate EachShown(steps: seq<Step>, at: seq<nat>) {
    forall i: nat :: i < |steps| && Transcript.Shows(steps[i]) ==> i in at
  }

  lemma EachShownLater(steps: seq<Step>, rest: seq<nat>)
    requires steps != [] && EachShown(steps[1..], rest)
    ensures EachShown(steps, if Transcript.Shows(steps[0]) then [0] + Later(rest) else Later(rest))
  {
    forall i: nat | 0 < i < |steps| && Transcript.Shows(steps[i])
      ensures i in Later(rest)
    {
      assert Transcript.Shows(steps[1..][i - 1]);
      var k :| 0 <= k < |rest| && rest[k] == i - 1;
      assert Later(rest)[k] == i;
    }
  }

  lemma PickedLater(steps: seq<Step>, picked: seq<Step>, at: seq<nat>)
    requires steps != [] && PickedAre(steps[1..], picked, at)
    ensures PickedAre(steps, picked, Later(at)) && PickedAre(steps, [steps[0]] + picked, [0] + Later(at))
  {
    assert forall k :: 0 <= k < |at| ==> steps[Later(at)[k]] == steps[1..][at[k]];
  }

  lemma ShownAreLater(steps: seq<Step>, rest: seq<nat>)
    requires steps != [] && ShownAre(steps[1..], rest)
    ensures ShownAre(steps, if Transcript.Shows(steps[0]) then [0] + Later(rest) else Later(rest))
  {
    PickedLater(steps, Shown(steps[1..]), rest);
    assert [] + Shown(steps[1..]) == Shown(steps[1..]);
  }

  lemma {:induction false} ShownAt(steps: seq<Step>) returns (at: seq<nat>)
    ensures ShownAre(steps, at) && EachShown(steps, at)
  {
    if steps == [] {
      at := [];
    } else {
      var rest := ShownAt(steps[1..]);
      at := if Transcript.Shows(steps[0]) then [0] + Later(rest) else Later(rest);
      EachShownLater(steps, rest);
      ShownAreLater(steps, rest);
    }
  }

  /** What is shown shows. */
  lemma ShownShows(steps: seq<Step>, at: seq<nat>, i: nat)
    requires ShownAre(steps, at) && i in at
    ensures i < |steps| && Transcript.Shows(steps[i])
  {
    var k :| 0 <= k < |at| && at[k] == i;
    ShownAreSteps(steps);
    assert Shown(steps)[k] in Shown(steps);
  }

  lemma CutOfLatest(steps: seq<Step>, said: Limit, output: Limit, i: nat)
    requires i < |Latest(steps)|
    ensures var from := |steps| - |Latest(steps)|;
            && (from == if |steps| > 500 then |steps| - 500 else 0)
            && CutSteps(Latest(steps), said, output)[i] == CutStep(FewerTools(steps[from + i]), said, output)
  {
  }

  /** `at` are the places in `steps` of the bounded ones, each cut to the limits. */
  predicate BoundedAre(steps: seq<Step>, bounded: seq<Step>, at: seq<nat>, said: Limit, output: Limit) {
    && |at| == |bounded| && Rising(at, if |steps| > 500 then |steps| - 500 else 0, |steps|)
    && forall k :: 0 <= k < |at| ==> IsCutStep(bounded[k], steps[at[k]], said, output)
  }

  function Moved(at: seq<nat>, from: nat): (moved: seq<nat>)
    ensures |moved| == |at| && forall k :: 0 <= k < |at| ==> moved[k] == from + at[k]
  {
    seq(|at|, k requires 0 <= k < |at| => from + at[k])
  }

  lemma MovedIn(at: seq<nat>, from: nat, i: nat)
    requires from <= i
    ensures i in Moved(at, from) <==> i - from in at
  {
    if i - from in at {
      var k :| 0 <= k < |at| && at[k] == i - from;
      assert Moved(at, from)[k] == i;
    }
  }

  lemma KeptStepIs(steps: seq<Step>, said: Limit, output: Limit, i: nat)
    requires i < |Latest(steps)|
    ensures IsCutStep(CutSteps(Latest(steps), said, output)[i], steps[|steps| - |Latest(steps)| + i], said, output)
  {
    CutOfLatest(steps, said, output, i);
    CutStepIs(steps[|steps| - |Latest(steps)| + i], said, output);
  }

  lemma MovedAreBounded(steps: seq<Step>, said: Limit, output: Limit, shown: seq<nat>)
    requires ShownAre(CutSteps(Latest(steps), said, output), shown)
    ensures BoundedAre(steps, Shown(CutSteps(Latest(steps), said, output)), Moved(shown, |steps| - |Latest(steps)|), said, output)
  {
    forall k | 0 <= k < |shown|
      ensures IsCutStep(Shown(CutSteps(Latest(steps), said, output))[k], steps[|steps| - |Latest(steps)| + shown[k]], said, output)
    {
      KeptStepIs(steps, said, output, shown[k]);
    }
  }

  lemma KeptStepShows(steps: seq<Step>, said: Limit, output: Limit, i: nat)
    requires i < |Latest(steps)|
    ensures Transcript.Shows(CutSteps(Latest(steps), said, output)[i]) <==> HasTextLeft(steps[|steps| - |Latest(steps)| + i], said, output)
  {
    CutOfLatest(steps, said, output, i);
    CutStepIs(steps[|steps| - |Latest(steps)| + i], said, output);
  }

  lemma InShown(steps: seq<Step>, at: seq<nat>, i: nat)
    requires ShownAre(steps, at) && EachShown(steps, at) && i < |steps|
    ensures i in at <==> Transcript.Shows(steps[i])
  {
    if i in at {
      ShownShows(steps, at, i);
    }
  }

  lemma MovedAreThoseLeft(steps: seq<Step>, said: Limit, output: Limit, shown: seq<nat>, i: nat)
    requires ShownAre(CutSteps(Latest(steps), said, output), shown) && EachShown(CutSteps(Latest(steps), said, output), shown)
    requires |steps| - |Latest(steps)| <= i < |steps|
    ensures i in Moved(shown, |steps| - |Latest(steps)|) <==> HasTextLeft(steps[i], said, output)
  {
    var from := |steps| - |Latest(steps)|;
    KeptStepShows(steps, said, output, i - from);
    InShown(CutSteps(Latest(steps), said, output), shown, i - from);
    MovedIn(shown, from, i);
  }

  // ---- How much they hold ----

  function CharsOfInputs(tools: seq<Tool>): nat {
    if tools == [] then 0 else |tools[0].input| + CharsOfInputs(tools[1..])
  }

  function CharsOfOutputs(tools: seq<Tool>): nat {
    if tools == [] then 0 else |tools[0].output| + CharsOfOutputs(tools[1..])
  }

  /** The characters of all messages and tool inputs. */
  function CharsSaid(steps: seq<Step>): nat {
    if steps == [] then 0 else |steps[0].text| + CharsOfInputs(steps[0].tools) + CharsSaid(steps[1..])
  }

  /** The characters of all tool outputs. */
  function CharsPutOut(steps: seq<Step>): nat {
    if steps == [] then 0 else CharsOfOutputs(steps[0].tools) + CharsPutOut(steps[1..])
  }

  lemma {:induction false} ToolCharsAre(tools: seq<Tool>)
    ensures Total(Inputs(tools)) == CharsOfInputs(tools) && Total(ToolOutputs(tools)) == CharsOfOutputs(tools)
  {
    if tools != [] {
      assert Lengths(Inputs(tools))[1..] == Lengths(Inputs(tools[1..]));
      assert Lengths(ToolOutputs(tools))[1..] == Lengths(ToolOutputs(tools[1..]));
      ToolCharsAre(tools[1..]);
    }
  }

  lemma {:induction false} CharsAre(steps: seq<Step>)
    ensures Total(Said(steps)) == CharsSaid(steps) && Total(Outputs(steps)) == CharsPutOut(steps)
  {
    if steps != [] {
      var first := steps[0];
      CharsAre(steps[1..]);
      TotalOfFirst(steps);
      ToolCharsAre(first.tools);
      TotalOfBoth([first.text], Inputs(first.tools));
      assert Lengths([first.text]) == [|first.text|];
      assert Kept([|first.text|], None) == |first.text|;
    }
  }

  /** Counted text by text: 200,000 characters at most, 120,000 of them messages and tool inputs. */
  lemma BoundedStepsHold(steps: seq<Step>)
    ensures CharsSaid(BoundedSteps(steps)) + CharsPutOut(BoundedSteps(steps)) <= 200_000
    ensures CharsSaid(BoundedSteps(steps)) <= 120_000
  {
    CharsAre(BoundedSteps(steps));
    StepsStayWithinBudget(steps);
  }

  /** A transcript that is within those bounds is kept as it is, but for steps with nothing to show. */
  lemma WithinBoundsNothingIsCut(steps: seq<Step>)
    requires |steps| <= 500 && forall i :: 0 <= i < |steps| ==> |steps[i].tools| <= 30
    requires CharsSaid(steps) <= 120_000 && CharsSaid(steps) + CharsPutOut(steps) <= 200_000
    ensures BoundedSteps(steps) == Shown(steps)
    ensures (forall i :: 0 <= i < |steps| ==> steps[i].text != "") ==> BoundedSteps(steps) == steps
  {
    CharsAre(steps);
    FewStepsAreLatest(steps);
    NoLimits(steps, CharsSaid(steps));
    UncutSteps(steps, SaidLimit(steps), OutputLimit(steps));
    if forall i :: 0 <= i < |steps| ==> steps[i].text != "" {
      AllShown(steps);
    }
  }

  // ---- The limits leave no room unused ----

  function Within(length: nat, limit: Limit): nat {
    if limit == None || length < limit.value then length else limit.value
  }

  function InputsWithin(tools: seq<Tool>, limit: Limit): nat {
    if tools == [] then 0 else Within(|tools[0].input|, limit) + InputsWithin(tools[1..], limit)
  }

  function OutputsWithin(tools: seq<Tool>, limit: Limit): nat {
    if tools == [] then 0 else Within(|tools[0].output|, limit) + OutputsWithin(tools[1..], limit)
  }

  function First30(tools: seq<Tool>): seq<Tool> {
    if |tools| > 30 then tools[..30] else tools
  }

  /** What messages and the inputs of first tools hold when each keeps at most `limit`. */
  function SaidWithin(steps: seq<Step>, limit: Limit): nat {
    if steps == [] then 0
    else Within(|steps[0].text|, limit) + InputsWithin(First30(steps[0].tools), limit) + SaidWithin(steps[1..], limit)
  }

  function PutOutWithin(steps: seq<Step>, limit: Limit): nat {
    if steps == [] then 0
    else OutputsWithin(First30(steps[0].tools), limit) + PutOutWithin(steps[1..], limit)
  }

  lemma {:induction false} KeptOfTools(tools: seq<Tool>, limit: Limit)
    ensures Kept(Lengths(Inputs(tools)), limit) == InputsWithin(tools, limit)
    ensures Kept(Lengths(ToolOutputs(tools)), limit) == OutputsWithin(tools, limit)
  {
    if tools != [] {
      assert Lengths(Inputs(tools))[1..] == Lengths(Inputs(tools[1..]));
      assert Lengths(ToolOutputs(tools))[1..] == Lengths(ToolOutputs(tools[1..]));
      KeptOfTools(tools[1..], limit);
    }
  }

  lemma KeptOfFirst(kept: seq<Step>, limit: Limit)
    requires kept != []
    ensures Kept(Lengths(Said(kept)), limit)
            == Within(|kept[0].text|, limit) + InputsWithin(kept[0].tools, limit) + Kept(Lengths(Said(kept[1..])), limit)
    ensures Kept(Lengths(Outputs(kept)), limit) == OutputsWithin(kept[0].tools, limit) + Kept(Lengths(Outputs(kept[1..])), limit)
  {
    var first := kept[0];
    KeptOfTools(first.tools, limit);
    LengthsOfBoth(SaidIn(first), Said(kept[1..]));
    KeptOfBoth(Lengths(SaidIn(first)), Lengths(Said(kept[1..])), limit);
    LengthsOfBoth(ToolOutputs(first.tools), Outputs(kept[1..]));
    KeptOfBoth(Lengths(ToolOutputs(first.tools)), Lengths(Outputs(kept[1..])), limit);
    assert Lengths(SaidIn(first))[1..] == Lengths(Inputs(first.tools));
  }

  lemma {:induction false} KeptOfSteps(steps: seq<Step>, kept: seq<Step>, limit: Limit)
    requires |kept| == |steps| && forall i :: 0 <= i < |steps| ==> kept[i] == FewerTools(steps[i])
    ensures Kept(Lengths(Said(kept)), limit) == SaidWithin(steps, limit)
    ensures Kept(Lengths(Outputs(kept)), limit) == PutOutWithin(steps, limit)
  {
    if steps != [] {
      KeptOfFirst(kept, limit);
      KeptOfSteps(steps[1..], kept[1..], limit);
    }
  }

  /** The most that fits: all of it if that does, else no limit larger by one would. */
  predicate FitsMost(within: Limit -> nat, limit: Limit, budget: int) {
    within(limit) <= budget && (limit == None || within(Some(limit.value + 1)) > budget)
  }

  /** What is said gets the largest limit within 120,000 characters, what is put out the largest within the rest of 200,000. */
  lemma LimitsAreLargest(steps: seq<Step>)
    ensures var last := if |steps| > 500 then steps[|steps| - 500..] else steps;
            var said, output := SaidLimit(Latest(steps)), OutputLimit(Latest(steps));
            && FitsMost(limit => SaidWithin(last, limit), said, 120_000)
            && FitsMost(limit => PutOutWithin(last, limit), output, 200_000 - SaidWithin(last, said))
  {
    var last := if |steps| > 500 then steps[|steps| - 500..] else steps;
    var kept := Latest(steps);
    forall limit: Limit
      ensures Kept(Lengths(Said(kept)), limit) == SaidWithin(last, limit)
      ensures Kept(Lengths(Outputs(kept)), limit) == PutOutWithin(last, limit)
    {
      KeptOfSteps(last, kept, limit);
    }
    FairShareIsLargest(Lengths(Said(kept)), SAID_BUDGET);
    FairShareIsLargest(Lengths(Outputs(kept)), STEPS_BUDGET - SaidUsed(kept));
  }

  // ---- All of it ----

  /**
   * The bounded steps are those of the last 500 that have text left to show, in order, each cut to one
   * limit for what was said and another for what tools put out: the largest that fit.
   */
  lemma BoundedStepsAre(steps: seq<Step>) returns (at: seq<nat>, said: Limit, output: Limit)
    ensures BoundedAre(steps, BoundedSteps(steps), at, said, output)
    ensures forall i: nat :: i < |steps| && i >= |steps| - 500 ==> (i in at <==> HasTextLeft(steps[i], said, output))
    ensures var last := if |steps| > 500 then steps[|steps| - 500..] else steps;
            && FitsMost(limit => SaidWithin(last, limit), said, 120_000)
            && FitsMost(limit => PutOutWithin(last, limit), output, 200_000 - SaidWithin(last, said))
  {
    said, output := SaidLimit(Latest(steps)), OutputLimit(Latest(steps));
    LimitsAreLargest(steps);
    var shown := ShownAt(CutSteps(Latest(steps), said, output));
    at := Moved(shown, |steps| - |Latest(steps)|);
    MovedAreBounded(steps, said, output, shown);
    forall i: nat | i < |steps| && i >= |steps| - 500
      ensures i in at <==> HasTextLeft(steps[i], said, output)
    {
      MovedAreThoseLeft(steps, said, output, shown, i);
    }
  }
}
