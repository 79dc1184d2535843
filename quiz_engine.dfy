/** The decision-tree traversal engine (flowchart2/src/components/quiz/quiz-engine.tsx).
    The engine keeps a history stack of visited steps and an optional marker for a reference that
    did not resolve, and changes them through three commands: restart, back and option selection. */
module QuizEngine {
  import opened Wrappers
  import opened Strings
  import opened QuizTypes

  /** The two kinds of step, and of missing target. */
  datatype Kind = NodeKind | OutcomeKind

  /** One history entry: the id of a node or of an outcome. */
  datatype Step = Step(kind: Kind, id: string)

  /** A reference that did not resolve. */
  datatype MissingTarget = MissingTarget(kind: Kind, id: string)

  /** What the section under the header shows. */
  datatype View =
    | NodeView(node: DecisionNode)
    | OutcomeView(outcome: Outcome)
    | DataUnavailable(target: MissingTarget)

  /** The engine's mutable state, as a value. */
  datatype QuizState = QuizState(history: seq<Step>, missing: Option<MissingTarget>)

  /** The id reported when an option names neither a next node nor an outcome. */
  const UNKNOWN_ID := "unknown"

  // ---- Lookup maps ----

  /** `new Map(items.map(x => [key(x), x]))`: later items overwrite earlier ones with the same key. */
  function IndexBy<T>(items: seq<T>, key: T -> string): (m: map<string, T>)
    ensures forall i :: 0 <= i < |items| ==> key(items[i]) in m
    ensures forall k :: k in m ==> exists i :: 0 <= i < |items| && items[i] == m[k]
    ensures forall k :: k in m ==> key(m[k]) == k
    decreases |items|
  {
    if |items| == 0 then map[]
    else
      var front := items[..|items| - 1];
      var last := items[|items| - 1];
      var m := IndexBy(front, key);
      assert forall i :: 0 <= i < |front| ==> front[i] == items[i];
      m[key(last) := last]
  }

  /** Of several items with one key, the map keeps the last. */
  lemma {:induction false} IndexByLastWins<T>(items: seq<T>, key: T -> string, i: nat)
    requires i < |items|
    requires forall j :: i < j < |items| ==> key(items[j]) != key(items[i])
    ensures IndexBy(items, key)[key(items[i])] == items[i]
    decreases |items|
  {
    if i < |items| - 1 {
      var front := items[..|items| - 1];
      assert front[i] == items[i];
      forall j | i < j < |front| ensures key(front[j]) != key(front[i]) {
        assert front[j] == items[j];
      }
      IndexByLastWins(front, key, i);
    }
  }

  /** The node and outcome maps built once from the tree. */
  datatype Lookup = Lookup(nodes: map<string, DecisionNode>, outcomes: map<string, Outcome>)

  /** Every map entry is stored under its own id. */
  ghost predicate WellKeyed(lookup: Lookup) {
    && (forall k :: k in lookup.nodes ==> lookup.nodes[k].id == k)
    && (forall k :: k in lookup.outcomes ==> lookup.outcomes[k].id == k)
  }

  function LookupOf(tree: DecisionTree): (l: Lookup)
    ensures WellKeyed(l)
    ensures forall i :: 0 <= i < |tree.nodes| ==> tree.nodes[i].id in l.nodes
    ensures forall i :: 0 <= i < |tree.outcomes| ==> tree.outcomes[i].id in l.outcomes
    ensures forall k :: k in l.nodes ==> l.nodes[k] in tree.nodes
    ensures forall k :: k in l.outcomes ==> l.outcomes[k] in tree.outcomes
  {
    Lookup(IndexBy(tree.nodes, (n: DecisionNode) => n.id), IndexBy(tree.outcomes, (o: Outcome) => o.id))
  }

  // ---- The three commands, on values ----

  function InitialState(start: string): QuizState {
    QuizState([Step(NodeKind, start)], None)
  }

  /** `goBack`: with one entry left it returns before touching anything; otherwise it clears the
      marker and pops the last step. */
  function AfterBack(s: QuizState): QuizState {
    if |s.history| <= 1 then s
    else QuizState(s.history[..|s.history| - 1], None)
  }

  /** `handleOptionSelect`. A truthy `next` is tried first and alone, even when it does not resolve;
      only then a truthy `outcome`; otherwise the option is reported as a missing node "unknown".
      A resolved target pushes the id of the entry found in the map. */
  function AfterSelect(s: QuizState, option: DecisionOption, lookup: Lookup): QuizState {
    if IsTruthy(option.next) then
      var id := option.next.value;
      if id !in lookup.nodes then QuizState(s.history, Some(MissingTarget(NodeKind, id)))
      else QuizState(s.history + [Step(NodeKind, lookup.nodes[id].id)], None)
    else if IsTruthy(option.outcome) then
      var id := option.outcome.value;
      if id !in lookup.outcomes then QuizState(s.history, Some(MissingTarget(OutcomeKind, id)))
      else QuizState(s.history + [Step(OutcomeKind, lookup.outcomes[id].id)], None)
    else
      QuizState(s.history, Some(MissingTarget(NodeKind, UNKNOWN_ID)))
  }

  /** The render-selection rule: a set marker wins; otherwise the current step is looked up in the
      map of its kind, and a failed lookup reports that kind and id as unavailable. */
  function ViewOf(s: QuizState, lookup: Lookup): View
    requires |s.history| > 0
  {
    if s.missing.Some? then DataUnavailable(s.missing.value)
    else
      var current := s.history[|s.history| - 1];
      match current.kind
      case NodeKind =>
        if current.id in lookup.nodes then NodeView(lookup.nodes[current.id])
        else DataUnavailable(MissingTarget(NodeKind, current.id))
      case OutcomeKind =>
        if current.id in lookup.outcomes then OutcomeView(lookup.outcomes[current.id])
        else DataUnavailable(MissingTarget(OutcomeKind, current.id))
  }

  /** A user event: the Restart button (or the restart offered by the unavailable view), Back, or an option click. */
  datatype Command = RestartCmd | BackCmd | SelectCmd(option: DecisionOption)

  function Apply(start: string, lookup: Lookup, s: QuizState, cmd: Command): QuizState {
    match cmd
    case RestartCmd => InitialState(start)
    case BackCmd => AfterBack(s)
    case SelectCmd(option) => AfterSelect(s, option, lookup)
  }

  /** Events handled one at a time, in order. */
  function Run(start: string, lookup: Lookup, s: QuizState, cmds: seq<Command>): QuizState
    decreases |cmds|
  {
    if |cmds| == 0 then s
    else Run(start, lookup, Apply(start, lookup, s, cmds[0]), cmds[1..])
  }

  // ---- Invariant ----

  ghost predicate Resolves(step: Step, lookup: Lookup) {
    match step.kind
    case NodeKind => step.id in lookup.nodes
    case OutcomeKind => step.id in lookup.outcomes
  }

  /** The history is never empty, starts with the start node, and every later step was pushed only
      after its id resolved. */
  ghost predicate Invariant(start: string, lookup: Lookup, s: QuizState) {
    && |s.history| > 0
    && s.history[0] == Step(NodeKind, start)
    && forall i :: 1 <= i < |s.history| ==> Resolves(s.history[i], lookup)
  }

  lemma InitialStateProperties(start: string, lookup: Lookup)
    ensures Invariant(start, lookup, InitialState(start))
    ensures InitialState(start).history == [Step(NodeKind, start)]
    ensures InitialState(start).missing.None?
    ensures AfterBack(InitialState(start)) == InitialState(start)
  {
  }

  lemma ApplyPreservesInvariant(start: string, lookup: Lookup, s: QuizState, cmd: Command)
    requires WellKeyed(lookup) && Invariant(start, lookup, s)
    ensures Invariant(start, lookup, Apply(start, lookup, s, cmd))
  {
  }

  /** From any reachable state, every sequence of events keeps the invariant. */
  lemma {:induction false} RunPreservesInvariant(start: string, lookup: Lookup, s: QuizState, cmds: seq<Command>)
    requires WellKeyed(lookup) && Invariant(start, lookup, s)
    ensures Invariant(start, lookup, Run(start, lookup, s, cmds))
    ensures Run(start, lookup, s, cmds).history[0] == Step(NodeKind, start)
    decreases |cmds|
  {
    if |cmds| > 0 {
      ApplyPreservesInvariant(start, lookup, s, cmds[0]);
      RunPreservesInvariant(start, lookup, Apply(start, lookup, s, cmds[0]), cmds[1..]);
    }
  }

  /** Restart forgets everything, and a second restart changes nothing. */
  lemma RestartIdempotent(start: string, lookup: Lookup, s: QuizState)
    ensures Apply(start, lookup, s, RestartCmd) == InitialState(start)
    ensures Apply(start, lookup, Apply(start, lookup, s, RestartCmd), RestartCmd) == Apply(start, lookup, s, RestartCmd)
  {
  }

  /** Back removes exactly the last step and clears the marker, or does nothing at all at depth one. */
  lemma BackPopsLast(s: QuizState)
    ensures |s.history| <= 1 ==> AfterBack(s) == s
    ensures |s.history| > 1 ==>
      && AfterBack(s).missing.None?
      && AfterBack(s).history + [s.history[|s.history| - 1]] == s.history
  {
  }

  /** From a two-deep history, a second Back is a no-op. */
  lemma BackTwiceFromTwoDeep(s: QuizState)
    requires |s.history| == 2
    ensures AfterBack(AfterBack(s)) == AfterBack(s)
    ensures AfterBack(s).history == [s.history[0]]
  {
  }

  /** A truthy `next` that resolves pushes that node and nothing else changes in the history. */
  lemma SelectResolvedNext(s: QuizState, option: DecisionOption, lookup: Lookup)
    requires WellKeyed(lookup)
    requires IsTruthy(option.next) && option.next.value in lookup.nodes
    ensures AfterSelect(s, option, lookup) == QuizState(s.history + [Step(NodeKind, option.next.value)], None)
  {
  }

  /** A truthy `next` that does not resolve reports the node, keeps the history, and is never
      followed by a look at `outcome`. */
  lemma SelectDanglingNext(s: QuizState, option: DecisionOption, lookup: Lookup, anyOutcome: Option<string>)
    requires IsTruthy(option.next) && option.next.value !in lookup.nodes
    ensures AfterSelect(s, option, lookup) == QuizState(s.history, Some(MissingTarget(NodeKind, option.next.value)))
    ensures AfterSelect(s, option.(outcome := anyOutcome), lookup) == AfterSelect(s, option, lookup)
  {
  }

  /** Without a truthy `next`, a truthy `outcome` is pushed when it resolves and reported when it does not. */
  lemma SelectOutcome(s: QuizState, option: DecisionOption, lookup: Lookup)
    requires WellKeyed(lookup)
    requires !IsTruthy(option.next) && IsTruthy(option.outcome)
    ensures option.outcome.value in lookup.outcomes ==>
      AfterSelect(s, option, lookup) == QuizState(s.history + [Step(OutcomeKind, option.outcome.value)], None)
    ensures option.outcome.value !in lookup.outcomes ==>
      AfterSelect(s, option, lookup) == QuizState(s.history, Some(MissingTarget(OutcomeKind, option.outcome.value)))
  {
  }

  /** An option with neither target (absent or empty) reports the missing node "unknown". */
  lemma SelectNoTarget(s: QuizState, option: DecisionOption, lookup: Lookup)
    requires !IsTruthy(option.next) && !IsTruthy(option.outcome)
    ensures AfterSelect(s, option, lookup) == QuizState(s.history, Some(MissingTarget(NodeKind, UNKNOWN_ID)))
  {
  }

  /** An empty `next` or `outcome` behaves exactly like an absent one. */
  lemma SelectEmptyIsAbsent(s: QuizState, option: DecisionOption, lookup: Lookup)
    ensures AfterSelect(s, option.(next := Some("")), lookup) == AfterSelect(s, option.(next := None), lookup)
    ensures AfterSelect(s, option.(outcome := Some("")), lookup) == AfterSelect(s, option.(outcome := None), lookup)
  {
  }

  /** A selection either appends exactly one step and clears the marker, or keeps the history and sets it. */
  lemma SelectAppendsOrReports(s: QuizState, option: DecisionOption, lookup: Lookup)
    ensures var r := AfterSelect(s, option, lookup);
      && (r.missing.None? <==> |r.history| == |s.history| + 1)
      && (r.missing.Some? ==> r.history == s.history)
      && r.history[..|s.history|] == s.history
  {
  }

  /** A set marker is shown first, whatever the current step. */
  lemma ViewMissingFirst(s: QuizState, lookup: Lookup)
    requires |s.history| > 0 && s.missing.Some?
    ensures ViewOf(s, lookup) == DataUnavailable(s.missing.value)
  {
  }

  /** When the start node exists, a reachable state is unavailable exactly when the marker is set:
      every pushed step renders its node or outcome. */
  lemma ViewAvailableUnlessMissing(start: string, lookup: Lookup, s: QuizState)
    requires Invariant(start, lookup, s) && start in lookup.nodes
    ensures ViewOf(s, lookup).DataUnavailable? <==> s.missing.Some?
    ensures s.missing.None? ==>
      var current := s.history[|s.history| - 1];
      ViewOf(s, lookup) == (if current.kind == NodeKind then NodeView(lookup.nodes[current.id])
                            else OutcomeView(lookup.outcomes[current.id]))
  {
    var current := s.history[|s.history| - 1];
    assert Resolves(current, lookup);
  }

  /** A start id missing from the tree shows as an unavailable node right away. */
  lemma ViewDanglingStart(start: string, lookup: Lookup)
    requires start !in lookup.nodes
    ensures ViewOf(InitialState(start), lookup) == DataUnavailable(MissingTarget(NodeKind, start))
  {
  }

  // ---- The engine object ----

  class Engine {
    const start: string
    const lookup: Lookup
    var history: seq<Step>
    var missing: Option<MissingTarget>

    function State(): QuizState
      reads this
    {
      QuizState(history, missing)
    }

    ghost predicate Valid()
      reads this
    {
      WellKeyed(lookup) && Invariant(start, lookup, State())
    }

    /** Mounting the component: the maps are built and the history holds only the start node. */
    constructor (tree: DecisionTree)
      ensures Valid()
      ensures start == tree.start && lookup == LookupOf(tree)
      ensures history == [Step(NodeKind, tree.start)] && missing == None
    {
      start := tree.start;
      lookup := LookupOf(tree);
      history := [Step(NodeKind, tree.start)];
      missing := None;
    }

    /** `history[history.length - 1]`. */
    function Current(): (step: Step)
      reads this
      requires Valid()
      ensures step in history
      ensures |history| == 1 ==> step == Step(NodeKind, start)
      ensures |history| > 1 ==> AfterBack(State()).history + [step] == history
    {
      history[|history| - 1]
    }

    /** The Back control is enabled exactly when pressing it changes the state. */
    function CanGoBack(): (b: bool)
      reads this
      ensures b <==> AfterBack(State()) != State()
    {
      |history| > 1
    }

    /** The view the section renders. */
    function CurrentView(): (v: View)
      reads this
      requires Valid()
      ensures missing.Some? ==> v == DataUnavailable(missing.value)
      ensures start in lookup.nodes ==> (v.DataUnavailable? <==> missing.Some?)
      ensures missing.None? && start in lookup.nodes ==>
        v == (if Current().kind == NodeKind then NodeView(lookup.nodes[Current().id])
              else OutcomeView(lookup.outcomes[Current().id]))
    {
      var v := ViewOf(State(), lookup);
      assert start in lookup.nodes ==>
        && (v.DataUnavailable? <==> missing.Some?)
        && (missing.None? ==>
              v == (if Current().kind == NodeKind then NodeView(lookup.nodes[Current().id])
                    else OutcomeView(lookup.outcomes[Current().id]))) by {
        if start in lookup.nodes {
          ViewAvailableUnlessMissing(start, lookup, State());
        }
      }
      v
    }

    method Reset()
      requires Valid()
      modifies this
      ensures Valid()
      ensures State() == InitialState(start)
    {
      history := [Step(NodeKind, start)];
      missing := None;
    }

    method GoBack()
      requires Valid()
      modifies this
      ensures Valid()
      ensures State() == AfterBack(old(State()))
    {
      if !(|history| > 1) {
        return;
      }
      missing := None;
      history := history[..|history| - 1];
    }

    method HandleOptionSelect(option: DecisionOption)
      requires Valid()
      modifies this
      ensures Valid()
      ensures State() == AfterSelect(old(State()), option, lookup)
    {
      missing := None;

      if IsTruthy(option.next) {
        var id := option.next.value;
        if id !in lookup.nodes {
          missing := Some(MissingTarget(NodeKind, id));
          return;
        }
        var nextNode := lookup.nodes[id];
        history := history + [Step(NodeKind, nextNode.id)];
        return;
      }

      if IsTruthy(option.outcome) {
        var id := option.outcome.value;
        if id !in lookup.outcomes {
          missing := Some(MissingTarget(OutcomeKind, id));
          return;
        }
        var nextOutcome := lookup.outcomes[id];
        history := history + [Step(OutcomeKind, nextOutcome.id)];
        return;
      }

      missing := Some(MissingTarget(NodeKind, UNKNOWN_ID));
    }
  }

  // ---- Worked scenarios ----

  function Choice(id: string, next: Option<string>, outcome: Option<string>): DecisionOption {
    DecisionOption(id, id, None, next, outcome)
  }

  /** q1 --a--> q2 --b--> o1, then Back twice returns to q1 with Back disabled. */
  method WalkthroughScenario()
  {
    var a := Choice("a", Some("q2"), None);
    var b := Choice("b", None, Some("o1"));
    var x := Choice("x", Some("ghost"), None);
    var q1 := DecisionNode("q1", None, "First?", [a, x]);
    var q2 := DecisionNode("q2", None, "Second?", [b]);
    var o1 := Outcome("o1", 1, "Outcome", "Narrative", None, None, [], None);
    var tree := DecisionTree("theme", "goal", "q1", [q1, q2], [o1]);
    var engine := new Engine(tree);
    assert "q2" in engine.lookup.nodes by { assert tree.nodes[1].id == "q2"; }
    assert "o1" in engine.lookup.outcomes by { assert tree.outcomes[0].id == "o1"; }
    assert "ghost" !in engine.lookup.nodes;

    engine.HandleOptionSelect(a);
    assert engine.Current() == Step(NodeKind, "q2");
    engine.HandleOptionSelect(b);
    assert engine.Current() == Step(OutcomeKind, "o1");
    engine.GoBack();
    assert engine.Current() == Step(NodeKind, "q2");
    engine.GoBack();
    assert engine.Current() == Step(NodeKind, "q1") && !engine.CanGoBack();

    engine.HandleOptionSelect(x);
    assert engine.missing == Some(MissingTarget(NodeKind, "ghost"));
    assert engine.history == [Step(NodeKind, "q1")];
    engine.Reset();
    assert engine.missing == None;

    engine.HandleOptionSelect(Choice("y", None, None));
    assert engine.missing == Some(MissingTarget(NodeKind, UNKNOWN_ID));
  }
}
