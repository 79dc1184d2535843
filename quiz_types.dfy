/** The decision-tree document consumed by the quiz engine (flowchart2/src/types/quiz.ts). */
module QuizTypes {
  import opened Wrappers

  /** One choice offered by a node. `next` and `outcome` are both optional; the engine tests them for truthiness. */
  datatype DecisionOption = DecisionOption(
    id: string,
    optionLabel: string,  // `label` in the source; a keyword in Dafny
    helper: Option<string>,
    next: Option<string>,
    outcome: Option<string>)

  datatype DecisionNode = DecisionNode(
    id: string,
    eyebrow: Option<string>,
    prompt: string,
    options: seq<DecisionOption>)

  /** A terminal narrative. `optionNumber` is a display ordinal. */
  datatype Outcome = Outcome(
    id: string,
    optionNumber: int,
    title: string,
    narrative: string,
    implications: Option<seq<string>>,
    economics: Option<seq<string>>,
    actions: seq<string>,
    faqs: Option<seq<string>>)

  datatype DecisionTree = DecisionTree(
    theme: string,
    goal: string,
    start: string,
    nodes: seq<DecisionNode>,
    outcomes: seq<Outcome>)
}
