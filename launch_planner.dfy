/**
 * The launch planner: once listing content exists, the shared product context
 * is turned into a phased launch plan and an advertising campaign tree, which
 * is drawn as an indented mind map.
 */
module LaunchPlanner {
  import opened Base
  import opened Types
  import opened GeminiService

  /** Shown for a tree node without a name. */
  const UnnamedNode := "广告单元"

  /** Alerted when a failed request carries no message. */
  const PlanFailedMessage := "生成计划失败"

  // ===========================================================================
  // The mind map

  /** One drawn node: its indentation level, its text, its budget and whether it has children. */
  datatype MindMapRow = MindMapRow(level: nat, text: string, budget: Option<string>, hasChildren: bool)

  /** `node.name || "广告单元"`. */
  function NodeLabel(name: string): (shown: string)
    ensures shown != ""
    ensures name != "" ==> shown == name
  {
    OrElse(name, UnnamedNode)
  }

  /** `node.budget && ...`: an empty budget is not shown. */
  function ShownBudget(budget: Option<string>): (shown: Option<string>)
    ensures shown.Some? <==> budget.Some? && budget.value != ""
    ensures shown.Some? ==> shown == budget
  {
    if budget.Some? && budget.value != "" then budget else None
  }

  /** A node's own row: its label, its budget when truthy, and whether it has children. */
  function RowFor(n: AdStrategyNode, level: nat): (row: MindMapRow)
    ensures row.level == level && row.text == NodeLabel(n.name)
    ensures row.budget == ShownBudget(n.budget)
    ensures row.hasChildren <==> !IsLeaf(n)
  {
    MindMapRow(level, NodeLabel(n.name), ShownBudget(n.budget), n.children != [])
  }

  /**
   * MindMapNode with every node expanded (the initial view): the node's own
   * row, then the rows of its children, each drawn one level deeper.
   */
  function Rows(n: AdStrategyNode, level: nat): (rows: seq<MindMapRow>)
    ensures |rows| == Size(n)
    ensures rows[0] == RowFor(n, level)
    ensures forall i :: 0 <= i < |rows| ==> rows[i].level >= level
    decreases n, 1
  {
    [RowFor(n, level)] + ChildRows(n, level, |n.children|)
  }

  /** The rows of the first `k` children of `n`, in order. */
  function ChildRows(n: AdStrategyNode, level: nat, k: nat): (rows: seq<MindMapRow>)
    requires k <= |n.children|
    ensures |rows| == ChildrenSize(n, k)
    ensures forall i :: 0 <= i < |rows| ==> rows[i].level > level
    decreases n, 0, k
  {
    if k == 0 then [] else ChildRows(n, level, k - 1) + Rows(n.children[k - 1], level + 1)
  }

  /** The rows of fewer children come first among the rows of more. */
  lemma {:induction false} ChildRowsPrefix(n: AdStrategyNode, level: nat, j: nat, k: nat)
    requires j <= k <= |n.children|
    ensures ChildRows(n, level, j) <= ChildRows(n, level, k)
    decreases k
  {
    if j < k {
      ChildRowsPrefix(n, level, j, k - 1);
    }
  }

  /** A node's rows are its own row followed by its children's rows. */
  lemma RowsUnfold(n: AdStrategyNode, level: nat)
    ensures Rows(n, level) == [RowFor(n, level)] + ChildRows(n, level, |n.children|)
  {
  }

  /** Position `i` of a tail is position `i + 1` once a head is put in front. */
  lemma AfterHead<T>(head: T, tail: seq<T>, i: nat)
    requires i < |tail|
    ensures 1 + i < |[head] + tail| && ([head] + tail)[1 + i] == tail[i]
  {
  }

  /** Among the children's rows, child `k`'s own row follows the subtrees of the earlier children. */
  lemma {:induction false} ChildRowAt(n: AdStrategyNode, level: nat, k: nat)
    requires k < |n.children|
    ensures ChildrenSize(n, k) < |ChildRows(n, level, |n.children|)|
    ensures ChildRows(n, level, |n.children|)[ChildrenSize(n, k)] == RowFor(n.children[k], level + 1)
  {
    ChildRowsPrefix(n, level, k + 1, |n.children|);
    var upTo := ChildRows(n, level, k + 1);
    var sub := Rows(n.children[k], level + 1);
    assert upTo == ChildRows(n, level, k) + sub;
    assert upTo[ChildrenSize(n, k)] == sub[0];
  }

  /**
   * Child `k` of a node is drawn one level below it, right after the subtrees
   * of the children before it.
   */
  lemma {:induction false} ChildOneLevelDeeper(n: AdStrategyNode, level: nat, k: nat)
    requires k < |n.children|
    ensures 1 + ChildrenSize(n, k) < |Rows(n, level)|
    ensures Rows(n, level)[1 + ChildrenSize(n, k)] == RowFor(n.children[k], level + 1)
  {
    ChildRowAt(n, level, k);
    RowsUnfold(n, level);
    AfterHead(RowFor(n, level), ChildRows(n, level, |n.children|), ChildrenSize(n, k));
  }

  /** A node without children is drawn as its own row only. */
  lemma LeafIsOneRow(n: AdStrategyNode, level: nat)
    requires IsLeaf(n)
    ensures Rows(n, level) == [RowFor(n, level)]
  {
  }

  /** The panel: no tree, nothing drawn; otherwise the root at level 0. */
  function MindMap(adStrategy: Option<AdStrategyNode>): (rows: seq<MindMapRow>)
    ensures adStrategy.None? <==> rows == []
    ensures adStrategy.Some? ==> |rows| == Size(adStrategy.value) && rows[0].level == 0
  {
    match adStrategy
    case None => []
    case Some(root) => Rows(root, 0)
  }

  // ===========================================================================
  // The component

  class Planner {
    var isLoading: bool
    var plan: Option<seq<LaunchDayPlan>>
    var adStrategy: Option<AdStrategyNode>
    /** The last message shown with `alert`, if any. */
    var alerted: Option<string>

    constructor()
      ensures !isLoading && plan == None && adStrategy == None && alerted == None
    {
      isLoading := false;
      plan := None;
      adStrategy := None;
      alerted := None;
    }

    /** The outcome of the request: both results replaced, or the message alerted. Loading ends. */
    method FinishPlan(outcome: Result<LaunchPlanResult, string>)
      modifies this
      ensures !isLoading
      ensures outcome.Ok? ==> plan == Some(outcome.value.plan) && adStrategy == Some(outcome.value.adStrategy)
                              && alerted == old(alerted)
      ensures outcome.Err? ==> plan == old(plan) && adStrategy == old(adStrategy)
                               && alerted == Some(OrElse(outcome.error, PlanFailedMessage))
    {
      if outcome.Ok? {
        plan := Some(outcome.value.plan);
        adStrategy := Some(outcome.value.adStrategy);
      } else {
        alerted := Some(OrElse(outcome.error, PlanFailedMessage));
      }
      isLoading := false;
    }

    /**
     * handleGenerate: nothing happens before listing content exists; otherwise
     * the context's title, description and keywords go to the planner in the
     * chosen language.
     */
    method HandleGenerate(language: Language, context: ProductContext, call: TextCall,
                          parse: string -> Option<LaunchPlanResult>)
      modifies this
      ensures !context.hasGeneratedContent ==>
                isLoading == old(isLoading) && plan == old(plan) && adStrategy == old(adStrategy)
                && alerted == old(alerted)
      ensures context.hasGeneratedContent ==>
        var res := GenerateLaunchPlan(context.title, context.description, context.keywords, language, call, parse);
        && !isLoading
        && (res.Ok? ==> plan == Some(res.value.plan) && adStrategy == Some(res.value.adStrategy) && alerted == old(alerted))
        && (res.Err? ==> plan == old(plan) && adStrategy == old(adStrategy)
                         && alerted == Some(OrElse(res.error, PlanFailedMessage)))
    {
      if !context.hasGeneratedContent {
        return;
      }
      isLoading := true;
      var res := GenerateLaunchPlan(context.title, context.description, context.keywords, language, call, parse);
      FinishPlan(res);
    }
  }
}
