# flowchart2 in Dafny

A model of the logic behind the flowchart2 presentation site. The site has four parts:

- An interactive **decision-tree quiz**. The user walks from a start node through options to an outcome. The site keeps a history stack, offers Back and Restart, and reports a "data unavailable" view for references that do not resolve.
- A **slide-deck viewer**. It has a clamped slide index, Previous/Next and a facilitation-notes drawer.
- A **line chart** that merges several dated series into one row per date.
- Smaller pieces:
  - the capped/uncapped profit-distribution chart and its tooltip;
  - the funding chart's "Exclude US companies" filter;
  - the `cx` class-name joiner;
  - the light/dark theme provider;
  - the deck chooser.

Each source file that changes state in place (quiz engine, deck navigator, funding chart, theme provider) becomes a Dafny `class`. The class has the source's fields, and its methods are proved against pure transition functions. Pure code becomes functions whose contracts state what the code promises. Lemmas relate them: the quiz invariant over any event sequence, restart idempotence, Back/Next inverses, round trips, and the partition of decks.

The files are:

- `wrappers.dfy`: `Option` and `Result`.
- `seqs.dfy`: `Array.prototype.filter`/`find` and subsequences.
- `strings.dfy`: the JavaScript semantics used here. These are string truthiness, lexicographic order and `sort`, `toLowerCase` and `includes`.
- `quiz_types.dfy`: the datatypes of `types/quiz.ts`.
- One file per core source file.

JavaScript details are modelled exactly:

- Optional `next`, `outcome` and deck `href` are tested by truthiness, so an empty string counts as absent.
- `??` is nullish, so an empty `notes`, `color` or `href` is kept.
- `new Map` lets later entries win.
- A `Set` keeps first-insertion order.
- `goBack` returns before clearing the missing marker when only one step is left.

## Model

| member | source | states |
|---|---|---|
| QuizEngine.IndexBy | flowchart2/src/components/quiz/quiz-engine.tsx:33-40 | every item's key is in the map, every entry comes from the items, and it is stored under its own key |
| QuizEngine.IndexByLastWins | flowchart2/src/components/quiz/quiz-engine.tsx:33-40 | of several items sharing a key, the map keeps the last one |
| QuizEngine.LookupOf | flowchart2/src/components/quiz/quiz-engine.tsx:33-40 | both maps contain every id of the tree, hold only the tree's own nodes and outcomes, and are keyed by id |
| QuizEngine.InitialStateProperties | flowchart2/src/components/quiz/quiz-engine.tsx:42-48 | the initial history is exactly the start node, with no marker and the invariant holding; Back is a no-op there, so it is disabled |
| QuizEngine.ApplyPreservesInvariant | flowchart2/src/components/quiz/quiz-engine.tsx:50-86 | each of restart, back and select keeps the history non-empty, headed by the start node, with every pushed step resolvable |
| QuizEngine.RunPreservesInvariant | flowchart2/src/components/quiz/quiz-engine.tsx:50-86 | any sequence of events keeps the invariant, and the first step stays the start node |
| QuizEngine.RestartIdempotent | flowchart2/src/components/quiz/quiz-engine.tsx:50-53 | restart yields the initial state whatever came before, and restarting twice equals restarting once |
| QuizEngine.BackPopsLast | flowchart2/src/components/quiz/quiz-engine.tsx:55-59 | at depth one Back changes nothing, the missing marker included; otherwise it clears the marker and removes exactly the last step, keeping the prefix |
| QuizEngine.BackTwiceFromTwoDeep | flowchart2/src/components/quiz/quiz-engine.tsx:55-59 | from a two-step history one Back returns to the start node and a second Back changes nothing |
| QuizEngine.SelectResolvedNext | flowchart2/src/components/quiz/quiz-engine.tsx:62-71 | a non-empty `next` found in the node map appends that node, keeps the earlier steps and clears the marker |
| QuizEngine.SelectDanglingNext | flowchart2/src/components/quiz/quiz-engine.tsx:64-69 | a non-empty `next` not in the map keeps the history and reports the missing node; the result does not depend on `outcome` |
| QuizEngine.SelectOutcome | flowchart2/src/components/quiz/quiz-engine.tsx:74-82 | without a usable `next`, a non-empty `outcome` is appended when it resolves and reported as a missing outcome when it does not |
| QuizEngine.SelectNoTarget | flowchart2/src/components/quiz/quiz-engine.tsx:84-85 | an option with neither target reports the missing node "unknown" and keeps the history |
| QuizEngine.SelectEmptyIsAbsent | flowchart2/src/components/quiz/quiz-engine.tsx:64-74 | an empty-string `next` or `outcome` behaves exactly like an absent one |
| QuizEngine.SelectAppendsOrReports | flowchart2/src/components/quiz/quiz-engine.tsx:61-86 | a selection either appends exactly one step with the marker cleared, or keeps the history with the marker set |
| QuizEngine.ViewMissingFirst | flowchart2/src/components/quiz/quiz-engine.tsx:292-293 | a set missing marker is rendered, whatever the current step |
| QuizEngine.ViewAvailableUnlessMissing | flowchart2/src/components/quiz/quiz-engine.tsx:255-300 | with a resolvable start node, a reachable state shows "data unavailable" exactly when the marker is set, and otherwise the looked-up node or outcome of the current step |
| QuizEngine.ViewDanglingStart | flowchart2/src/components/quiz/quiz-engine.tsx:294-297 | a start id absent from the nodes renders as the unavailable node with that id |
| QuizEngine.Engine.constructor | flowchart2/src/components/quiz/quiz-engine.tsx:33-45 | the maps are built from the tree, the history is the start node alone, no marker, and the invariant holds |
| QuizEngine.Engine.Current | flowchart2/src/components/quiz/quiz-engine.tsx:47 | the current step is the last element of the history: it is the start node at depth one, and deeper it is exactly the step Back removes |
| QuizEngine.Engine.CanGoBack | flowchart2/src/components/quiz/quiz-engine.tsx:48 | Back is enabled exactly when pressing it would change the state |
| QuizEngine.Engine.CurrentView | flowchart2/src/components/quiz/quiz-engine.tsx:255-300 | a set marker is what is shown; with a resolvable start, unavailability occurs exactly when the marker is set, and otherwise the view is the current node's question or the current outcome's card |
| QuizEngine.Engine.Reset | flowchart2/src/components/quiz/quiz-engine.tsx:50-53 | the new state is the initial state, and the invariant is kept |
| QuizEngine.Engine.GoBack | flowchart2/src/components/quiz/quiz-engine.tsx:55-59 | the new state is the transition `AfterBack` of the old one, and the invariant is kept |
| QuizEngine.Engine.HandleOptionSelect | flowchart2/src/components/quiz/quiz-engine.tsx:61-86 | the new state is the transition `AfterSelect` of the old one, and the invariant is kept |
| DeckNavigator.NotesFor | flowchart2/src/components/deck/deck-navigator.tsx:28-30 | a slide's own notes are shown when present (even empty), and the fixed default text otherwise |
| DeckNavigator.PreviousIndex | flowchart2/src/components/deck/deck-navigator.tsx:32 | the new index stays in range, moves back by one, and stays put exactly on the first slide |
| DeckNavigator.NextIndex | flowchart2/src/components/deck/deck-navigator.tsx:33 | the new index stays below the total, moves forward by one, and stays put exactly on the last slide |
| DeckNavigator.PreviousNextInverse | flowchart2/src/components/deck/deck-navigator.tsx:32-33 | away from the ends, Previous undoes Next and Next undoes Previous |
| DeckNavigator.Navigator.constructor | flowchart2/src/components/deck/deck-navigator.tsx:24-27 | the index starts at 0 and the drawer closed, for a non-empty deck |
| DeckNavigator.Navigator.SlideNotes | flowchart2/src/components/deck/deck-navigator.tsx:27-30 | the drawer text is the active slide's notes, or the default text |
| DeckNavigator.Navigator.IsFirst | flowchart2/src/components/deck/deck-navigator.tsx:36 | the first-slide flag holds exactly when Previous would not move |
| DeckNavigator.Navigator.IsLast | flowchart2/src/components/deck/deck-navigator.tsx:37 | the last-slide flag holds exactly when Next would not move |
| DeckNavigator.Navigator.NextOffered | flowchart2/src/components/deck/deck-navigator.tsx:160 | the Next control is rendered exactly when the index is before the last slide |
| DeckNavigator.Navigator.GoPrevious | flowchart2/src/components/deck/deck-navigator.tsx:32 | the index becomes `max(0, index - 1)` and stays in range; at 0 nothing changes |
| DeckNavigator.Navigator.GoNext | flowchart2/src/components/deck/deck-navigator.tsx:33 | the index becomes `min(total - 1, index + 1)` and stays in range; on the last slide nothing changes |
| DeckNavigator.Navigator.ToggleReference | flowchart2/src/components/deck/deck-navigator.tsx:34 | the drawer flag is flipped and nothing else changes |
| DeckNavigator.ToggleTwiceRestores | flowchart2/src/components/deck/deck-navigator.tsx:34 | two toggles restore the drawer and leave the index untouched |
| Strings.Sort | flowchart2/src/components/mdx/line-chart-block.tsx:144 | for duplicate-free input (a Set's contents), the result is strictly ascending and holds exactly the input's elements |
| Strings.StrictlySortedUnique | flowchart2/src/components/mdx/line-chart-block.tsx:144 | two strictly sorted lists with the same elements are equal, so the sorted order is determined |
| LineChartBlock.CollectDatesSpec | flowchart2/src/components/mdx/line-chart-block.tsx:139-142 | the date set holds each date of any series exactly once |
| LineChartBlock.SortedDates | flowchart2/src/components/mdx/line-chart-block.tsx:144 | the sorted dates are strictly ascending and are exactly the dates occurring in some series |
| LineChartBlock.SortedDatesUnique | flowchart2/src/components/mdx/line-chart-block.tsx:139-144 | the sorted dates depend only on which dates occur, and there is one per distinct date |
| LineChartBlock.FirstMatch | flowchart2/src/components/mdx/line-chart-block.tsx:152 | the match is the first point with that date, and none exactly when no point has it |
| LineChartBlock.RowKeys | flowchart2/src/components/mdx/line-chart-block.tsx:147-155 | a row's keys are exactly "date", each series name and each name with "__meta" |
| LineChartBlock.RowDate | flowchart2/src/components/mdx/line-chart-block.tsx:147-149 | unless a series is named "date", the row's date entry is its date |
| LineChartBlock.RowSeriesEntries | flowchart2/src/components/mdx/line-chart-block.tsx:151-154 | with non-colliding names, a series' entry is the value of its first point on that date or null, and its meta entry is that same point or null |
| LineChartBlock.CollectDatesInOrder | flowchart2/src/components/mdx/line-chart-block.tsx:139-142 | the nested loop yields the date set's contents in insertion order |
| LineChartBlock.AddSeriesDates | flowchart2/src/components/mdx/line-chart-block.tsx:141 | the inner loop adds each not yet seen date of one series in order |
| LineChartBlock.BuildRow | flowchart2/src/components/mdx/line-chart-block.tsx:147-157 | the loop writing each series' entries yields the row for that date |
| LineChartBlock.ChartData | flowchart2/src/components/mdx/line-chart-block.tsx:138-159 | one row per sorted distinct date, in ascending order, each the row for its date |
| LineChartBlock.BuildRows | flowchart2/src/components/mdx/line-chart-block.tsx:146-158 | one row per given date, in the same order, each the row for its date |
| LineChartBlock.StrokeColorRule | flowchart2/src/components/mdx/line-chart-block.tsx:195 | a line's own colour wins; uncoloured lines share a palette colour exactly when their indices agree modulo 7 |
| LineChartBlock.ShownEntries | flowchart2/src/components/mdx/line-chart-block.tsx:88-89 | exactly the present entries with a non-null value are kept, as many as the payload has |
| LineChartBlock.ShownEntriesInOrder | flowchart2/src/components/mdx/line-chart-block.tsx:88-89 | the kept entries are a subsequence of the payload, so its order is preserved |
| LineChartBlock.TooltipContent | flowchart2/src/components/mdx/line-chart-block.tsx:72-89 | nothing is rendered exactly when inactive or the payload is missing or empty; otherwise the rendered list is the filtered payload, every entry with a value |
| ProfitDistributionChart.Clip | flowchart2/src/components/slides/orientation/profit-distribution-comparison-chart.tsx:49-54 | likelihood and capped are copied; the displayed uncapped value is the minimum of the raw value and the maximum; the actual value is kept; they agree exactly when the raw value is within the maximum |
| ProfitDistributionChart.Distribution | flowchart2/src/components/slides/orientation/profit-distribution-comparison-chart.tsx:49-54 | same length and order as the raw data, each point the clipped raw point at the same position |
| ProfitDistributionChart.ShippedClipping | flowchart2/src/components/slides/orientation/profit-distribution-comparison-chart.tsx:24-54 | in the shipped data exactly the 5%, 2% and 1% points exceed the maximum |
| ProfitDistributionChart.FormatUnit | flowchart2/src/components/slides/orientation/profit-distribution-comparison-chart.tsx:62-70 | millions from 1,000,000, thousands from 1,000, plain pounds below |
| ProfitDistributionChart.FormatUnitMonotone | flowchart2/src/components/slides/orientation/profit-distribution-comparison-chart.tsx:62-70 | a larger value never gets a smaller unit |
| ProfitDistributionChart.EntryText | flowchart2/src/components/slides/orientation/profit-distribution-comparison-chart.tsx:109-119 | the "£120k+" label appears exactly when the name contains "uncapped" in any case and the actual value exceeds the maximum; otherwise the entry's value is formatted |
| ProfitDistributionChart.Tooltip | flowchart2/src/components/slides/orientation/profit-distribution-comparison-chart.tsx:89-121 | nothing is rendered exactly when inactive, the payload is missing or empty, or the label is not a number; otherwise one line per entry |
| ProfitDistributionChart.CapLabelByLine | flowchart2/src/components/slides/orientation/profit-distribution-comparison-chart.tsx:109-119 | the uncapped line gets the cap label exactly for clipped points, whatever the letter case; the capped line and an unnamed entry never do |
| Strings.Contains | flowchart2/src/components/slides/orientation/profit-distribution-comparison-chart.tsx:112 | `includes` holds exactly when the substring occurs at some position |
| FundingMomentumChart.SelectSeries | flowchart2/src/components/slides/orientation/funding-momentum-chart.tsx:120-126 | with the flag off the series are passed unchanged; with it on exactly the non-US lines are kept |
| FundingMomentumChart.SelectionIsSubsequence | flowchart2/src/components/slides/orientation/funding-momentum-chart.tsx:122-124 | the result always keeps the original relative order of the series |
| FundingMomentumChart.SelectionCounts | flowchart2/src/components/slides/orientation/funding-momentum-chart.tsx:123 | with the flag on, each non-US line occurs as often as in the input and every other line not at all |
| FundingMomentumChart.ShippedNonUSSelection | flowchart2/src/components/slides/orientation/funding-momentum-chart.tsx:10-124 | with the shipped data, excluding US companies leaves Peec then Promptwatch |
| FundingMomentumChart.Chart.constructor | flowchart2/src/components/slides/orientation/funding-momentum-chart.tsx:118 | the exclude flag starts false |
| FundingMomentumChart.Chart.OnCheckedChange | flowchart2/src/components/slides/orientation/funding-momentum-chart.tsx:136 | the exclude flag becomes the checkbox's checked value |
| FundingMomentumChart.Chart.FilteredSeries | flowchart2/src/components/slides/orientation/funding-momentum-chart.tsx:120-126 | all seven series when the flag is off, Peec then Promptwatch when it is on |
| MdxUtils.Cx | flowchart2/src/components/mdx/utils.ts:1-3 | the result starts with `base`; with a non-empty extra it continues with one space and the extra, otherwise it is `base`; its length follows |
| MdxUtils.CxWithoutExtra | flowchart2/src/components/mdx/utils.ts:2 | no extra and an empty extra both return `base` |
| MdxUtils.CxJoins | flowchart2/src/components/mdx/utils.ts:2 | a non-empty extra gives `base + " " + extra` |
| ThemeProvider.PreferredTheme | flowchart2/src/components/theme/theme-provider.tsx:16-28 | light without a window; a stored "light" or "dark" wins; otherwise dark exactly when dark is preferred |
| ThemeProvider.ReadStored | flowchart2/src/components/theme/theme-provider.tsx:20 | the entry under "flowchart-theme", or null exactly when the key is absent |
| ThemeProvider.Persisted | flowchart2/src/components/theme/theme-provider.tsx:40-42 | the theme's name is stored under "flowchart-theme" and every other key is unchanged |
| ThemeProvider.StoredThemeRoundTrip | flowchart2/src/components/theme/theme-provider.tsx:20-41 | a theme the provider wrote to storage is read back unchanged whatever the dark preference |
| ThemeProvider.Toggled | flowchart2/src/components/theme/theme-provider.tsx:48-49 | toggling always changes the theme |
| ThemeProvider.ToggleTwiceRestores | flowchart2/src/components/theme/theme-provider.tsx:48-49 | two toggles restore the original theme |
| ThemeProvider.UseTheme | flowchart2/src/components/theme/theme-provider.tsx:59-65 | fails with the fixed message exactly when there is no provider, otherwise returns the context |
| ThemeProvider.Provider.constructor | flowchart2/src/components/theme/theme-provider.tsx:31 | the theme starts light |
| ThemeProvider.Provider.ApplyPreferred | flowchart2/src/components/theme/theme-provider.tsx:33-35 | the mount effect sets the preferred theme |
| ThemeProvider.Provider.ToggleTheme | flowchart2/src/components/theme/theme-provider.tsx:48-49 | the theme becomes the other one |
| DeckSelection.PrimaryDeck | flowchart2/src/components/deck/deck-selection.tsx:43 | the first option with slug "orientation", or none exactly when no option has it |
| DeckSelection.SecondaryDecks | flowchart2/src/components/deck/deck-selection.tsx:44 | exactly the options with another slug |
| DeckSelection.SecondaryInOrder | flowchart2/src/components/deck/deck-selection.tsx:44 | the secondary decks keep their original order |
| DeckSelection.SecondaryCounts | flowchart2/src/components/deck/deck-selection.tsx:44 | each deck with another slug occurs as often as among the options; the orientation deck not at all |
| DeckSelection.PrimaryAndSecondaryPartition | flowchart2/src/components/deck/deck-selection.tsx:43-44 | with at most one orientation deck, primary and secondaries together are exactly the options, each once |
| DeckSelection.PrimaryTarget | flowchart2/src/components/deck/deck-selection.tsx:60 | the primary link is its `href` when present (even empty), "/decks" otherwise |
| DeckSelection.CardFor | flowchart2/src/components/deck/deck-selection.tsx:82-133 | disabled exactly without a non-empty `href`; "Preparing materials" or "Open deck" accordingly; the badge exactly when `comingSoon` is true; enabled cards link to their own `href` |
| DeckSelection.ShippedPrimary | flowchart2/src/components/deck/deck-selection.tsx:43-60 | with the shipped options the orientation deck is primary and links to "/deck" |
| DeckSelection.ShippedSecondaries | flowchart2/src/components/deck/deck-selection.tsx:11-44 | with the shipped options the other three decks follow in their original order |
| DeckSelection.ShippedCards | flowchart2/src/components/deck/deck-selection.tsx:82-91 | with the shipped options only "employee" is disabled and only it shows the badge |

## Left out

- Rendering: JSX, CSS classes, inline styles and layout are not modelled. The model states which view or branch is chosen, not the markup.
- Charting, formatting and dates: recharts, `Intl.NumberFormat`, `toFixed` and `Date.toLocaleDateString` are not modelled. These are foreign calls or floating-point work.
  - For `formatProfit`, only the choice of unit is modelled; the tooltip lines carry that unit, the amount and the "+" flag.
  - The line-chart tooltip's date label, its round label and the `dataKey`/`__meta` lookup text inside each entry are not modelled.
- Numbers are unbounded integers, not IEEE doubles. Every quantity in the shipped data is a whole number.
- String order: `Array.prototype.sort` compares UTF-16 code units, while the model compares characters by code point. The two agree on the ISO date strings sorted here.
- Letter case: `toLowerCase` is modelled for ASCII letters only.
- Theme I/O: local storage is a map value. It is read by `ThemeProvider.ReadStored` and written by `ThemeProvider.Persisted`. The media query and the presence of `window` become parameters of `ThemeProvider.PreferredTheme`. The `data-theme` attribute write (theme-provider.tsx:39) is not modelled, because it only affects the DOM.
- Strings.Sort: requires duplicate-free input, while `Array.prototype.sort` keeps repeats. Its only caller sorts the contents of a `Set`, which has no repeats.
- React timing: hook timing (`useMemo` caching, `useEffect` scheduling, batched `setState`) is not modelled. Each handler is one sequential update.
- QuizEngine: `useMemo` rebuilding the maps when the tree changes is not modelled. The tree is fixed for an engine's lifetime.
- Slide notes: the declared `DeckSlide` type (components/deck/types.ts) has no `notes` field. The navigator still reads `activeSlide.notes`, so the model gives slides an optional `notes`. The MDX source and component overrides are not modelled.
- DeckNavigator.Navigator.constructor: requires a non-empty deck. With no slides the source reads `slides[0]` as undefined and `activeSlide.notes` throws a TypeError on the first render (flowchart2/src/components/deck/deck-navigator.tsx:27-30); the model excludes that crash.
- Loading and serialising: loading and parsing quiz trees (lib/quiz.ts), MDX serialisation (lib/mdx.ts) and the slide files (components/deck/slides/*.ts) are asynchronous I/O.
- Other components: the app routes (app/**/page.tsx), registry.tsx, custom-mdx.tsx, chart-frame.tsx, bar-chart-block.tsx, bar-chart-example.tsx, theme-toggle.tsx, logo-image.tsx and slides/upside/charts.tsx are element plumbing, thin library wrappers or static chart data.
- LineChartBlock.StrokeColor: has no contract of its own. Its rule is stated by `LineChartBlock.StrokeColorRule`.
