/**
 * The texts the bot writes back to the user: the start reply, the numbered
 * list of recipes to choose from, and the formatted steps of a recipe (which
 * is also what the store keeps as the recipe's detail).
 */
module ReplyText {
  import opened Optional
  import opened JsStrings
  import opened GraphQueries

  // ---------------------------------------------------------------------------
  // Start reply
  // ---------------------------------------------------------------------------

  /** Each output text of the conversation service followed by a line feed. */
  function StartLines(texts: seq<string>): (r: seq<string>)
    ensures |r| == |texts| && forall i :: 0 <= i < |texts| ==> r[i] == texts[i] + "\n"
  {
    seq(|texts|, i requires 0 <= i < |texts| => texts[i] + "\n")
  }

  /** The start reply: the output texts, each followed by a line feed. */
  function StartReplyText(texts: seq<string>): string {
    Concat(StartLines(texts))
  }

  /** The reply of the start handler, built one output text at a time. */
  method StartReply(texts: seq<string>) returns (reply: string)
    ensures reply == StartReplyText(texts)
  {
    reply := "";
    for i := 0 to |texts|
      invariant reply == Concat(StartLines(texts)[..i])
    {
      ConcatStep(StartLines(texts), i);
      reply := reply + (texts[i] + "\n");
    }
    assert StartLines(texts)[..|texts|] == StartLines(texts);
  }

  /** Output text `k` stands in the start reply, with its line feed, right after the lines before it. */
  lemma StartReplyLine(texts: seq<string>, k: nat)
    requires k < |texts|
    ensures var at := |Concat(StartLines(texts)[..k])|;
            && at + |texts[k]| + 1 <= |StartReplyText(texts)|
            && StartReplyText(texts)[at..at + |texts[k]| + 1] == texts[k] + "\n"
  {
    ConcatPieceAt(StartLines(texts), k);
  }

  /** The start reply is as long as the output texts plus one line feed each. */
  lemma {:induction false} StartReplyLength(texts: seq<string>)
    ensures |StartReplyText(texts)| == |Concat(texts)| + |texts|
  {
    if texts != [] {
      var init := texts[..|texts| - 1];
      StartReplyLength(init);
      assert StartLines(texts)[..|texts| - 1] == StartLines(init);
    }
  }

  // ---------------------------------------------------------------------------
  // List reply
  // ---------------------------------------------------------------------------

  const ListHeader: string := "Let's see here...\nI've found these recipes: \n"
  const ListPrompt: string := "\nPlease enter the corresponding number of your choice."

  /** The line offering recipe `i`, numbered from 1. */
  function RecipeLine(i: nat, recipe: RecipeSummary): string {
    DecimalText(i + 1) + "." + recipe.title + "\n"
  }

  function RecipeLines(recipes: seq<RecipeSummary>): seq<string> {
    seq(|recipes|, i requires 0 <= i < |recipes| => RecipeLine(i, recipes[i]))
  }

  function ListReplyText(recipes: seq<RecipeSummary>): string {
    ListHeader + Concat(RecipeLines(recipes)) + ListPrompt
  }

  /**
   * The list reply of the favourites, ingredients and cuisine handlers: a
   * header, one numbered line per recipe in order, and the choice prompt.
   */
  method ListReply(recipes: seq<RecipeSummary>) returns (response: string)
    ensures response == ListReplyText(recipes)
  {
    response := ListHeader;
    for i := 0 to |recipes|
      invariant response == ListHeader + Concat(RecipeLines(recipes)[..i])
    {
      ConcatStep(RecipeLines(recipes), i);
      response := response + RecipeLine(i, recipes[i]);
    }
    assert RecipeLines(recipes)[..|recipes|] == RecipeLines(recipes);
    response := response + ListPrompt;
  }

  /**
   * The shape of a list reply: it opens with the header and ends with the
   * prompt, and line `k` (which reads back as the number `k + 1`, a dot and
   * the title) stands right after the lines before it.
   */
  lemma ListReplyShape(recipes: seq<RecipeSummary>, k: nat)
    requires k < |recipes|
    ensures ListReplyText(recipes)[..|ListHeader|] == ListHeader
    ensures ListReplyText(recipes)[|ListReplyText(recipes)| - |ListPrompt|..] == ListPrompt
    ensures OccursAt(ListReplyText(recipes), RecipeLine(k, recipes[k]), |ListHeader| + |Concat(RecipeLines(recipes)[..k])|)
  {
    var lines := RecipeLines(recipes);
    assert lines[k] == RecipeLine(k, recipes[k]);
    ConcatPieceInFrame(ListHeader, lines, ListPrompt, k);
    Sandwich(ListHeader, Concat(lines), ListPrompt, 0, 0);
  }

  /** A recipe line reads back as its number `k + 1`, a dot, and the title. */
  lemma RecipeLineNumber(k: nat, recipe: RecipeSummary)
    ensures var digits := DecimalText(k + 1);
            && RecipeLine(k, recipe) == digits + "." + recipe.title + "\n"
            && RecipeLine(k, recipe)[..|digits|] == digits
            && RecipeLine(k, recipe)[|digits|] == '.'
            && DecimalValue(digits) == k + 1
  {
    DecimalRoundTrip(k + 1);
    Sandwich(DecimalText(k + 1), ".", recipe.title + "\n", 0, 0);
  }

  // ---------------------------------------------------------------------------
  // Formatted recipe steps
  // ---------------------------------------------------------------------------

  /** What the recipe catalogue says about a recipe. */
  datatype RecipeInfo = RecipeInfo(title: string, readyInMinutes: int, servings: int)

  /** One analysed instruction step: the names of its equipment and its text. */
  datatype RecipeStep = RecipeStep(equipment: seq<string>, step: string)

  const NoInstructions: string := "_No instructions available for this recipe._\n\n"
  const StartOver: string := "*Say anything to me to start over...*"

  /** Each equipment name followed by a comma, as the inner loop accumulates them. */
  function Terminated(names: seq<string>): string {
    if names == [] then "" else Terminated(names[..|names| - 1]) + names[|names| - 1] + ","
  }

  /** The equipment of a step: the names joined with commas, or "None" when there are none. */
  function EquipmentText(names: seq<string>): string {
    if names == [] then "None" else Join(names, ',')
  }

  /** The three lines of a step block: its number, its equipment and its action. */
  function StepNumberLine(i: nat): string {
    "*Step " + DecimalText(i + 1) + "*:\n"
  }

  function EquipmentLine(equipStr: string): string {
    "_Equipment_: " + equipStr + "\n"
  }

  function ActionLine(action: string): string {
    "_Action_: " + action + "\n\n"
  }

  function StepBlock(i: nat, step: RecipeStep): string {
    StepNumberLine(i) + EquipmentLine(EquipmentText(step.equipment)) + ActionLine(step.step)
  }

  function StepBlocks(steps: seq<RecipeStep>): seq<string> {
    seq(|steps|, i requires 0 <= i < |steps| => StepBlock(i, steps[i]))
  }

  function StepsHeader(info: RecipeInfo): string {
    "Ok, it takes *"
    + (IntText(info.readyInMinutes) + "* minutes to make *")
    + (IntText(info.servings) + "* servings of *")
    + (info.title + "*. Here are the steps:\n\n")
  }

  /** The formatted steps: header, one block per step (or the no-instructions line), closing line. */
  function FormattedSteps(info: RecipeInfo, steps: Option<seq<RecipeStep>>): string {
    StepsHeader(info)
    + (if steps.Some? && |steps.value| > 0 then Concat(StepBlocks(steps.value)) else NoInstructions)
    + StartOver
  }

  /** Joining one more name adds a comma and the name. */
  lemma {:induction false} JoinSnoc(names: seq<string>, x: string)
    requires |names| >= 1
    ensures Join(names + [x], ',') == Join(names, ',') + "," + x
  {
    if |names| > 1 {
      JoinSnoc(names[1..], x);
      assert (names + [x])[1..] == names[1..] + [x];
    } else {
      assert (names + [x])[1..] == [x];
    }
  }

  /** The accumulated names with their last comma removed are the names joined with commas. */
  lemma {:induction false} TerminatedJoin(names: seq<string>)
    requires |names| >= 1
    ensures Terminated(names) == Join(names, ',') + ","
  {
    var init := names[..|names| - 1];
    var last := names[|names| - 1];
    if |init| >= 1 {
      TerminatedJoin(init);
      JoinSnoc(init, last);
      assert init + [last] == names;
    } else {
      assert init == [];
    }
  }

  /**
   * makeFormattedSteps: the header, then for each step (when there are any)
   * its number, its equipment accumulated name by name with the trailing
   * comma cut off (or "None"), and its text; then the closing line.
   */
  method MakeFormattedSteps(info: RecipeInfo, steps: Option<seq<RecipeStep>>) returns (response: string)
    ensures response == FormattedSteps(info, steps)
  {
    response := "Ok, it takes *";
    response := response + (IntText(info.readyInMinutes) + "* minutes to make *");
    response := response + (IntText(info.servings) + "* servings of *");
    response := response + (info.title + "*. Here are the steps:\n\n");
    if steps.Some? && |steps.value| > 0 {
      var recipeSteps := steps.value;
      for i := 0 to |recipeSteps|
        invariant response == StepsHeader(info) + Concat(StepBlocks(recipeSteps)[..i])
      {
        var names := recipeSteps[i].equipment;
        var equipStr := "";
        for j := 0 to |names|
          invariant equipStr == Terminated(names[..j])
        {
          assert names[..j + 1][..j] == names[..j];
          equipStr := equipStr + names[j] + ",";
        }
        assert names[..|names|] == names;
        if |equipStr| == 0 {
          if names != [] {
            TerminatedJoin(names);
            assert false;
          }
          equipStr := "None";
        } else {
          TerminatedJoin(names);
          equipStr := Substring(equipStr, 0, |equipStr| - 1);
        }
        assert equipStr == EquipmentText(names);
        ghost var before := response;
        response := response + ("*Step " + DecimalText(i + 1) + "*:\n");
        response := response + ("_Equipment_: " + equipStr + "\n");
        response := response + ("_Action_: " + recipeSteps[i].step + "\n\n");
        assert response == before + StepBlock(i, recipeSteps[i]) by {
          AppendThree(before, StepNumberLine(i), EquipmentLine(equipStr), ActionLine(recipeSteps[i].step));
        }
        ghost var blocks := StepBlocks(recipeSteps);
        assert blocks[i] == StepBlock(i, recipeSteps[i]);
        assert response == StepsHeader(info) + Concat(blocks[..i + 1]) by {
          ConcatStep(blocks, i);
          AppendTwo(StepsHeader(info), Concat(blocks[..i]), blocks[i]);
        }
      }
      assert StepBlocks(recipeSteps)[..|recipeSteps|] == StepBlocks(recipeSteps);
    } else {
      response := response + NoInstructions;
    }
    response := response + StartOver;
  }

  /**
   * The frame of the formatted steps: they open with the header and end with
   * the start-over line; without steps the no-instructions line stands
   * between the two.
   */
  lemma FormattedStepsShape(info: RecipeInfo, steps: Option<seq<RecipeStep>>)
    ensures var text := FormattedSteps(info, steps);
            && |StepsHeader(info)| + |StartOver| <= |text|
            && text[..|StepsHeader(info)|] == StepsHeader(info)
            && text[|text| - |StartOver|..] == StartOver
    ensures steps.None? || steps.value == [] ==>
              FormattedSteps(info, steps) == StepsHeader(info) + NoInstructions + StartOver
  {
    var middle := if steps.Some? && |steps.value| > 0 then Concat(StepBlocks(steps.value)) else NoInstructions;
    Sandwich(StepsHeader(info), middle, StartOver, 0, 0);
  }

  /** Step `k` of a recipe with steps: its block stands after the header and the blocks before it. */
  lemma FormattedStepsBlock(info: RecipeInfo, steps: seq<RecipeStep>, k: nat)
    requires k < |steps|
    ensures OccursAt(FormattedSteps(info, Some(steps)), StepBlocks(steps)[k], |StepsHeader(info)| + |Concat(StepBlocks(steps)[..k])|)
  {
    ConcatPieceInFrame(StepsHeader(info), StepBlocks(steps), StartOver, k);
    assert FormattedSteps(info, Some(steps)) == StepsHeader(info) + Concat(StepBlocks(steps)) + StartOver;
  }

  /** A step block opens with "*Step " and the step number `k + 1`. */
  lemma StepBlockNumber(k: nat, step: RecipeStep)
    ensures var digits := DecimalText(k + 1);
            && |"*Step " + digits| <= |StepBlock(k, step)|
            && StepBlock(k, step)[..|"*Step " + digits|] == "*Step " + digits
            && DecimalValue(digits) == k + 1
  {
    var digits := DecimalText(k + 1);
    DecimalRoundTrip(k + 1);
    var rest := EquipmentLine(EquipmentText(step.equipment)) + ActionLine(step.step);
    assert StepBlock(k, step) == "*Step " + digits + "*:\n" + rest by {
      AppendTwo(StepNumberLine(k), EquipmentLine(EquipmentText(step.equipment)), ActionLine(step.step));
    }
    Sandwich("*Step " + digits, "*:\n", rest, 0, 0);
  }

  /**
   * The equipment line holds the names joined with commas and no trailing
   * comma: splitting it on commas gives the names back (when no name holds
   * a comma), and it ends with the last name.
   */
  lemma EquipmentListed(names: seq<string>)
    requires |names| >= 1
    requires forall i :: 0 <= i < |names| ==> ',' !in names[i]
    ensures EquipmentText(names) != "None" || names == ["None"]
    ensures SplitOn(EquipmentText(names), ',') == names
    ensures var t := EquipmentText(names);
            var last := names[|names| - 1];
            |last| <= |t| && t[|t| - |last|..] == last
  {
    SplitJoin(names, ',');
    if EquipmentText(names) == "None" {
      SplitWithoutSeparator("None", ',');
    }
    JoinEndsWithLast(names);
  }

  lemma {:induction false} JoinEndsWithLast(names: seq<string>)
    requires |names| >= 1
    ensures var t := Join(names, ',');
            var last := names[|names| - 1];
            |last| <= |t| && t[|t| - |last|..] == last
  {
    if |names| > 1 {
      JoinEndsWithLast(names[1..]);
      assert Join(names, ',') == (names[0] + [',']) + Join(names[1..], ',');
    }
  }
}
