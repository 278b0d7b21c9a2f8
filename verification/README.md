# Verified model of thorn's outlines, provider histories and validation gate

thorn is an agent runtime. This project models the parts of it whose correctness rests on facts
spanning many functions, and proves those facts with Dafny 4.11:

- **Outlines.** A file becomes a tree of nested line ranges, by indentation or by Markdown headings.
  A depth cutoff is chosen under a line budget, what is left of the budget is shared among the
  collapsed regions, and the result is rendered under a character budget and parsed back.
- **Provider histories.** A stored history of prompts and turns is compacted, folded, rewritten and
  trimmed for each request, and every token gained or lost is accounted for.
- **Edit provenance.** The changed lines of an edit travel through its textual result.
- **The validation gate.** Any number of processes consume and audit four slots through immutable files.

Values of the program are datatypes and functions; its loops are methods with invariants; the history
nodes, the history tree and the live file snapshot, which the program updates in place, are classes.
Each method is proved against a specification function or a stated property, and the main results are
lemmas about those specifications. `dafny verify dfyconfig.toml` checks the whole project.

| module | what it holds |
|---|---|
| `Integers`, `Sorting`, `Text`, `Optional` | bounds, stable sorting, numerals, splitting and joining, optional values |
| `Content`, `Indentation`, `Markdown` | content trees and the two ways to build them |
| `Spans`, `Sharing`, `Collapse` | output spans, fair sharing, the search for a cutoff |
| `LineNumbers`, `Rendering`, `Requirements`, `Selection`, `Outline` | numbered lines, the renderer, required lines and which of them are kept, the way from file to text |
| `FoldedView`, `FileContext`, `Salience`, `ViewPriority` | the regions a folded file shows, and its section: scored lines, view and what of it is shown; how much calls count, and which lines come first |
| `Observations`, `ObservationPlanner`, `PlanMeaning` | which file observations are replaced, the three passes that decide it, and when they do, line by line |
| `History`, `Protection`, `Compaction`, `Costs` | nodes and their costs, protected nodes, greedy compaction, and what the costs stand for |
| `Transcript`, `Alternation`, `Folding`, `FoldedFiles` | the messages of a request, their roles, the results folded into its file context, and which files that shows |
| `Projection`, `Ledger`, `Namesakes` | fitting a request into its budget, the account of it, and a conversation in which it collapses a guarded call |
| `Evidence`, `Requests` | what of the file observations reaches the request, and one request end to end |
| `Trimming` | housekeeping's surgery on the tree |
| `EditProvenance`, `EditChanges` | the provenance line, and the changes it records |
| `GateAudit`, `AuditMeaning`, `GateSnapshot`, `GateProtocol`, `GateProgress`, `GateCompletion`, `GateRecording` | audits, their reader and when they pass, the gate's disposition, interleaved processes, how they go on and come to an end, and what refused audits do to them |

Findings the proofs made exact:

- The writer of a terminal audit checks the configuration file of every slot, its reader re-derives
  only the audited slot's (`evals/harbor/validation_gate.py:932-935`, `1543-1547`). An audit is therefore
  accepted if and only if a drift of any configuration includes the audited slot's own;
  `GateAudit.OtherSlotDriftRejects` is an input on which the gate's own audit is refused. Such an audit
  freezes the gate for good (`GateRecording.RefusedForGood`).
- Collapsing a turn can cost more than the turn's detail-collapsed form
  (`Compaction.StepThatCosts`), yet no whole compaction makes any node dearer.
- A projection step names a call by its identifier alone. A guarded call keeps its detail for every cost and budget
  if and only if no unguarded, expanded turn has a collapsible call of the same identifier
  (`Projection.KeepsDetailIff`); `Namesakes.GuardedCallCollapses` is a conversation in which
  the call of a guarded turn is collapsed.
- Observations of files that cannot be read now are dropped one by one before results are folded
  (`src/thorn/core/_file_context_folding.py:1001-1008`). A search that hit such a file and another is folded all
  the same, and its hits there are shown nowhere (`Folding.UnreadableHitWithheld`): every file a folded call
  observed has a section if and only if all of them are readable (`Folding.FoldedFilesAllShownIff`). Which lines
  a section shows is `FileContext.SectionShowsIff`.
- The planner's replacements lose no fact that is still true, but folding and the budget can withhold the result
  that was kept in their stead; `Evidence.FactSentIff` says exactly when.
- The exit for a shallower heading inside the loop over child sections
  (`src/thorn/core/_outline_markdown.py:246-248`) is never taken.
- The documentation of `HistoryTree.render` (`src/thorn/core/_history.py:911-916`) speaks of proper role
  alternation. Results have a role of their own (`src/thorn/core/_messages.py:64`), so an ordinary tool loop
  alternates (`Alternation.ToolLoopAlternates`). Roles repeat if and only if two nodes that speak for the user
  meet, a turn follows one sent without results, or a file context follows a node that speaks for the user,
  housekeeping aside (`Alternation.AlternatesIff`); `Alternation.RolesRepeat` gives an input for each. The model
  follows the code.
- Regions past the end of a file make spans that overrun it (`Spans.RegionPastEnd`); `Spans.RegionSpansIff` is
  the exact condition, which regions that meet the file satisfy.

## Model

| member | source | states |
|---|---|---|
| Indentation.ComputeDepths | src/thorn/core/_outline.py:65-112 | Every nonblank line gets its own indentation; every blank line the lesser of its nearest nonblank neighbours', the one neighbour's where there is one, 0 where there is none |
| Indentation.IndentIsColumn | src/thorn/core/_outline.py:76-84 | A line's own indentation is the column of its first character that is neither space nor tab, each tab going to the next stop; a line without such a character has none |
| Indentation.NearestNeighboursDecide | src/thorn/core/_outline.py:84-110 | Carrying the last indentation forwards and backwards finds exactly the nearest nonblank neighbours |
| Indentation.BuildHierarchy | src/thorn/core/_outline.py:115-124 | The whole file becomes one tree of maximal runs; an empty file one empty node |
| Indentation.BuildNode | src/thorn/core/_outline.py:127-151 | For any depths the recursion ends, and the children are exactly the maximal runs deeper than the node, in order, each at the minimum of its run |
| Indentation.DeeperRun | src/thorn/core/_outline.py:133-141 | The run extends to the last line deeper than the node, and its depth is its minimum |
| Indentation.HierarchyIsWellFormed | src/thorn/core/_outline.py:127-151 | Every tree of maximal runs has ordered, disjoint, nested and strictly deeper children |
| Indentation.HierarchyKeepsDepths | src/thorn/core/_outline.py:127-151 | The tree gives back the depth of every line |
| Indentation.HierarchyUnique | src/thorn/core/_outline.py:127-151 | There is one tree of maximal runs for a list of depths |
| Collapse.CostMonotone | src/thorn/core/_outline.py:203-212 | A deeper cutoff never costs less and no cutoff costs more than the file: the unstated fact behind stopping at the first cutoff that does not fit |
| Collapse.ShallowLinesVisible | src/thorn/core/_outline.py:238-253 | Every line at or above the cutoff is visible |
| Collapse.HiddenIff | src/thorn/core/_outline.py:238-253 | The lines a cutoff hides are exactly those of its hidden regions, the outermost nodes deeper than the cutoff |
| Collapse.CollectDepths | src/thorn/core/_outline.py:225-228 | Exactly the depths of the tree are added to the set |
| Collapse.WalkForSpans | src/thorn/core/_outline.py:238-253 | The appended spans tile the node, cost what the cutoff costs and show the lines visible at the cutoff |
| Collapse.BuildSpans | src/thorn/core/_outline.py:231-235 | The merged spans of a cutoff tile the file at the same cost and leave no two visible spans adjacent |
| Collapse.ChosenShowsMost | src/thorn/core/_outline.py:203-212 | With the search stopped early, every line some fitting cutoff would show is visible at the chosen one |
| Collapse.DeepestFit | src/thorn/core/_outline.py:197-212 | The search finds nothing exactly when the root's own cutoff does not fit; what it finds is the outline of a fitting cutoff, one collapsed span for each of its hidden regions, and shows all that any fitting cutoff shows |
| Collapse.PartiallyExpand | src/thorn/core/_outline.py:290-325 | The surplus is spent to the last line, or until everything is visible; nothing visible is hidden; of each collapsed region exactly its first lines are shown, and the numbers of lines of any two differ by at most one unless the smaller is a whole region |
| Collapse.TruncationTiles | src/thorn/core/_outline.py:280-287 | The fallback tiles the file exactly when the budget is at least 1, and costs one line more than the budget |
| Collapse.VisibleMonotone | src/thorn/core/_outline.py:238-253 | A deeper cutoff never hides a line a shallower one shows |
| Collapse.ComputeCollapse | src/thorn/core/_outline.py:182-222 | A file over budget gets a tiling of exactly the budgeted lines: all a fitting cutoff shows that shows what every fitting one does, and of each region that cutoff hides its first lines, in fair shares; when no cutoff fits, the first lines and one summary line over the budget; a tiling if and only if the budget is at least 1 |
| Collapse.CollapseShowsFitting | src/thorn/core/_outline.py:182-222 | A collapse over budget costs exactly the budget and shows every line that any fitting cutoff shows |
| Collapse.RegionsShareFairly | src/thorn/core/_outline.py:290-351 | Of any two regions the chosen cutoff hides, the first lines are shown, and their numbers differ by more than one only where the smaller share is the whole region |
| Spans.MergeVisible | src/thorn/core/_outline.py:267-277 | The loop computes the merging of any list of spans |
| Spans.MergedTiles | src/thorn/core/_outline.py:267-277 | Merging a tiling gives a tiling at the same cost that shows the same lines and has no two visible spans in a row |
| Spans.MergedShows | src/thorn/core/_outline.py:267-277 | Merging any list of nonempty spans, in whatever order and with whatever gaps, changes neither the lines shown nor the cost |
| Spans.Finalize | src/thorn/core/_outline.py:256-264 | The loop suppresses one-line collapses and merges, on any list of spans |
| Spans.FinalizedTiles | src/thorn/core/_outline.py:256-264 | Of a tiling: exactly the lines of one-line summaries become visible besides those shown, at the same cost, with no trivial collapse and no visible neighbours left |
| Spans.RunsOfShows | src/thorn/core/_outline.py:547-585 | The maximal runs in and out of a set tile the file, alternate, and show exactly the set |
| Spans.RunsUnique | src/thorn/core/_outline.py:547-585 | Any alternating tiling that shows exactly a set is that list of runs |
| Spans.MergedWindows | src/thorn/core/_outline.py:562-573 | The loop computes the padded, clamped and merged windows of any regions |
| Spans.WindowsCover | src/thorn/core/_outline.py:562-573 | For any regions in the order of their starts the windows keep to the file, lie apart and cover exactly the lines of it that the padded regions cover |
| Spans.SpansAroundWindows | src/thorn/core/_outline.py:575-585 | The loop computes the spans around any windows |
| Spans.AroundTiles | src/thorn/core/_outline.py:575-585 | Around separated windows of the file the spans tile it, alternate and show exactly the windows |
| Spans.SpansForRegions | src/thorn/core/_outline.py:547-585 | For all regions, the spans around their windows; nothing for an empty file, one collapsed span without regions |
| Spans.RegionSpansIff | src/thorn/core/_outline.py:547-585 | The spans are exactly the maximal runs of the padded regions, in whatever order they came, if and only if no window stays empty |
| Spans.RunsOfRegions | src/thorn/core/_outline.py:547-585 | None does when every padded region meets the file |
| Spans.RegionPastEnd | src/thorn/core/_outline.py:547-585 | A region past the end of the file makes spans that overrun it |
| Sharing.GiveIsFair | src/thorn/core/_outline.py:340-349 | One share fits all items still to be served, and one unit more would not, unless the item is full |
| Sharing.DistributeEvenly | src/thorn/core/_outline.py:328-351 | Exactly the lesser of the total and the capacities is handed out, no item gets more than its capacity, and an item below its capacity gets at least any other item's share less one |
| LineNumbers.ParseFormatted | src/thorn/core/_prompt_visibility.py:21-23 | A formatted line parses back to its number and content, for any width and any marker that is neither a digit nor a bar |
| LineNumbers.BracketsNeverParse | src/thorn/core/_prompt_visibility.py:232-243 | A line that starts with a bracket, as summaries and footers do, is never content |
| Rendering.EmitsWhatFits | src/thorn/core/_outline.py:389-427 | Output stops exactly at the first piece that does not fit, and holds what came before, whole |
| Rendering.EmitSpan | src/thorn/core/_outline.py:394-420 | One span is emitted piece by piece, as the budget allows |
| Rendering.RenderSpans | src/thorn/core/_outline.py:389-445 | The rendered text, visible lines and collapsed ranges are those of the pieces that fit |
| Rendering.SummaryNames | src/thorn/core/_outline.py:521-526 | The summary of a collapsed span reads back to exactly its first line, its last line and how many lines it hides |
| Rendering.FooterNames | src/thorn/core/_outline.py:429-438 | The footer reads back to the number of lines of the file and says whether the output was cut |
| Rendering.RenderedParsesBack | src/thorn/core/_outline.py:367-445 | Parsing the rendered text gives back exactly its visible lines, for any spans, budget and proper markers, when source lines hold no line breaks |
| Requirements.OutlineBodyCharCount | src/thorn/core/_outline.py:497-518 | The counted characters are what the renderer charges for the same spans |
| Requirements.PrioritizedRequiredLines | src/thorn/core/_outline.py:463-471 | Required lines that are visible, once each, in the order of their first mention |
| Requirements.KeepWhatFits | src/thorn/core/_outline.py:472-494 | The greedy choice over the priority order, as spans of exactly the kept lines |
| Requirements.SpansThatPreserveRequiredLines | src/thorn/core/_outline.py:448-494 | The new spans show exactly the selected lines |
| Requirements.RenderOutline | src/thorn/core/_outline.py:367-445 | With required lines the rendering is that of the selection, without them that of the spans |
| Requirements.KeptFits | src/thorn/core/_outline.py:480-490 | Whatever is kept costs at most the budget |
| Requirements.SelectionIsShown | src/thorn/core/_outline.py:448-494 | Whenever a line is selected, the text holds every piece of the selection and the footer of an untruncated outline, shows exactly the selected lines in source order, and stays within the budget but for the footer |
| Requirements.RequiredDroppedOnlyByOverflow | src/thorn/core/_outline.py:448-494 | A required line the outline would have shown is dropped only if adding it to those kept before it overflows the budget |
| Selection.SelectedIff | src/thorn/core/_outline.py:448-494 | The selection keeps a visible line if and only if it fits the budget together with the kept lines before it: for a required line those required earlier, for another line all required ones and those above it, of which at most 511 are visible; this determines the selection |
| Outline.ComputeOutlineSpans | src/thorn/core/_outline.py:647-667 | For every file the spans are the collapse of the file's own tree: the one its lines' depths determine, or the sections of its Markdown blocks |
| Outline.OutlineShowsFitting | src/thorn/core/_outline.py:182-222 | For both kinds of tree, an outline over budget costs exactly the budget and shows every line whose depth in the tree is at or above any cutoff that fits |
| Outline.OutlineShowsShallow | src/thorn/core/_outline.py:65-222 | By indentation, that is every line whose own depth is at or above such a cutoff |
| Outline.OutlineAndFormat | src/thorn/core/_outline.py:625-644 | The text is the rendering of the collapse of the file's own tree, and the parser gets back from it exactly the lines shown |
| Markdown.MaybePromoteContainer | src/thorn/core/_outline_markdown.py:141-180 | A container becomes a node exactly when it holds headings and can be promoted |
| Markdown.BuildDocumentSection | src/thorn/core/_outline_markdown.py:189-223 | The children are the sections of all blocks but a leading level-1 title, after the promoted containers before the first heading |
| Markdown.CollectChildSections | src/thorn/core/_outline_markdown.py:226-263 | Each section holds exactly the blocks up to the next heading of its own level or lower; the loop's early exit for a shallower heading is never taken |
| Markdown.SectionEnd | src/thorn/core/_outline_markdown.py:250-255 | The scan stops at the first heading of the section's level or lower, or at the end |
| Markdown.BuildOrdinarySection | src/thorn/core/_outline_markdown.py:266-297 | A section spans its blocks, one deeper than its parent |
| Markdown.DocumentIsWellFormed | src/thorn/core/_outline_markdown.py:189-297 | Siblings are ordered, disjoint and inside their parent, one deeper per nesting |
| Markdown.HeadingStartsOneSection | src/thorn/core/_outline_markdown.py:226-297 | Every heading among collected blocks starts exactly one section |
| Markdown.DocumentSections | src/thorn/core/_outline_markdown.py:189-297 | Every heading of a document starts exactly one section, but the leading level-1 title, which starts none |
| Markdown.ContainerHasNode | src/thorn/core/_outline_markdown.py:141-180 | Every container that holds headings has its own node, wherever among the sections it stands |
| Markdown.ContainerSections | src/thorn/core/_outline_markdown.py:141-223 | Inside a container's node its own headings and containers are sectioned like a document's, for quotes and for each list item |
| Markdown.BuildMarkdownHierarchy | src/thorn/core/_outline_markdown.py:53-73 | The tree holds exactly the sections of the document's blocks and meets what the collapse search requires |
| FoldedView.TakeRegion | src/thorn/core/_file_context_folding.py:1744-1751 | Lines are taken in region order until the budget is full |
| FoldedView.LimitToBudget | src/thorn/core/_file_context_folding.py:1739-1752 | Exactly the first distinct lines of the regions, as many as the budget |
| FoldedView.MergeRegions | src/thorn/core/_file_context_folding.py:1764-1774 | Separated regions that cover exactly the same lines |
| FoldedView.LimitRegionsToLineBudget | src/thorn/core/_file_context_folding.py:1739-1774 | The limited regions cover exactly the first distinct lines |
| FoldedView.LeadingRegionsFit | src/thorn/core/_file_context_folding.py:1739-1752 | Leading regions whose union fits the budget keep all their lines |
| FoldedView.LeadingRegionsFill | src/thorn/core/_file_context_folding.py:1739-1752 | Leading regions that fill the budget leave room for nothing else |
| FoldedView.VisibleRegionsFromSpans | src/thorn/core/_file_context_folding.py:1729-1736 | Exactly the ranges of the visible spans, in order |
| FoldedView.VisibleRegionsCover | src/thorn/core/_file_context_folding.py:1729-1736 | Of a tiling, they lie in the file and cover exactly the lines shown |
| FoldedView.WantedRegions | src/thorn/core/_file_context_folding.py:1670-1700 | The regions are the edit windows, then the latest read, then the windows of the other salient lines, then the visible spans of the small outline of a file read whole |
| FoldedView.SpansForFoldedContext | src/thorn/core/_file_context_folding.py:1651-1711 | A file over the line budget is shown by the first distinct lines of exactly those regions, in that order; without any region, by the collapse of its tree to the budget |
| FoldedView.ViewShowsWanted | src/thorn/core/_file_context_folding.py:1739-1774 | The view is a partition that shows exactly the first min(budget, union) distinct wanted lines and no others |
| FoldedView.LeadingShown | src/thorn/core/_file_context_folding.py:1739-1752 | Whatever leads the regions is shown whole when it fits, and nothing else is shown when it fills the view |
| FoldedView.EditsStayVisible | src/thorn/core/_file_context_folding.py:1670-1711 | All edit windows show whenever their union fits, the latest read with them whenever both fit, the other salient windows whenever all three fit; each exhausts the view before anything of lower priority shows |
| ViewPriority.MostSalientFirst | src/thorn/core/_file_context_folding.py:1670-1726 | What is within two lines of an edited line comes after only what is within two lines of edited lines that score higher, or as high and earlier; any other scored line comes after only the edits, the latest read and the other lines that rank higher: whatever comes first is shown whole while it has at most 80 lines, and alone once it has more |
| ViewPriority.WantedShown | src/thorn/core/_file_context_folding.py:1670-1711 | Nothing is shown but lines within two of a scored line, in the latest read or in the small outline, and all of those are if they are at most 80 |
| FileContext.AddRange | src/thorn/core/_file_context_folding.py:1601-1621 | The loop touches exactly the lines of the range that lie in the file |
| FileContext.ScoreFileLines | src/thorn/core/_file_context_folding.py:1539-1598 | The loops over all observations touch each read, hit, edited and anchor line with its decayed salience and marker |
| FileContext.ScoresAre | src/thorn/core/_file_context_folding.py:1539-1636 | One score for each touched line of the file, the sum of its saliences, with exactly its markers |
| Salience.ScoresWeigh | src/thorn/core/_file_context_folding.py:1539-1636 | The score of a line is the sum over the calls of 4 for a read of it, 5 for each hit and 6 for each edit on or beside it, each decayed by the call's age |
| Salience.NewestWeighs | src/thorn/core/_file_context_folding.py:1546-1592 | The newest call counts in full |
| Salience.OlderWeighs | src/thorn/core/_file_context_folding.py:1550 | With each later call an earlier one counts exactly 0.88 of what it did |
| Salience.ScoresDecay | src/thorn/core/_file_context_folding.py:1546-1592 | So does all that was scored before |
| Salience.EditsOutweigh | src/thorn/core/_file_context_folding.py:1554-1592 | Of calls of the same age one that edited a line counts more than one that hit it once, and that one more than one that read it |
| FileContext.RequiredAreEdited | src/thorn/core/_file_context_folding.py:1482-1493 | The required lines are exactly those some call edited or left beside a deletion |
| ViewPriority.RequiredInOrder | src/thorn/core/_file_context_folding.py:1482-1493 | They come in the order of their scores, of equal ones the earlier line first |
| ViewPriority.MarkedAs | src/thorn/core/_file_context_folding.py:1639-1648 | A touched line is marked by the strongest of what calls did to it: edited, left beside a deletion, hit, read |
| ViewPriority.LatestReadIs | src/thorn/core/_file_context_folding.py:144-152 | Nothing exactly when no read has a range; otherwise the range of a read that no later read with a range follows |
| ViewPriority.FileShowsMostSalient | src/thorn/core/_file_context_folding.py:1459-1711 | The view of a file over the budget favours its lines in that order, by the calls' own scores and edits |
| FileContext.LatestReturnedRead | src/thorn/core/_file_context_folding.py:144-152 | The range of the newest read that has one |
| FileContext.RenderSection | src/thorn/core/_file_context_folding.py:1459-1536 | The section is the rendering, under its character budget and with the edited lines required, of the view its scores want |
| FileContext.SectionShowsIff | src/thorn/core/_file_context_folding.py:1505-1536 | A line is shown as it now stands if and only if, without edits, the view has it and fits that far, or, with edits, the selection keeps it |
| FileContext.ViewHasObserved | src/thorn/core/_file_context_folding.py:1651-1711 | The view has every observed line when the file or the marked lines keep to the line budget |
| FileContext.ObservedStaysVisible | src/thorn/core/_file_context_folding.py:1459-1536 | Where nothing was edited every observed line is shown, if besides the view keeps to the character budget |
| FileContext.FoldedLineShownIff | src/thorn/core/_file_context_folding.py:571-648 | Of what a folded call observed in a file, the request shows a line if and only if the file is readable and its section has the line |
| ObservationPlanner.LiveWorkspaceFileSnapshot.ContentFor | src/thorn/core/_file_context_folding.py:190-207 | The first content seen for a path is returned for good, whatever the disk holds later |
| ObservationPlanner.ReadPaths | src/thorn/core/_file_context_folding.py:238-255 | Every path with a read is considered |
| ObservationPlanner.NewerCover | src/thorn/core/_file_context_folding.py:270-281 | The search over newer current reads finds the first that includes the read's lines |
| ObservationPlanner.PlanPath | src/thorn/core/_file_context_folding.py:247-281 | For one path: stale reads and current reads with a newer cover are planned, and nothing else |
| ObservationPlanner.PlanReads | src/thorn/core/_file_context_folding.py:238-281 | The first pass plans exactly the read decisions |
| ObservationPlanner.NewestCover | src/thorn/core/_file_context_folding.py:430-496 | The newest-first search finds the newest current read that holds all the search's lines |
| ObservationPlanner.PlanSubsumedSearches | src/thorn/core/_file_context_folding.py:283-306 | The second pass plans exactly the searches subsumed by a read, under the policy that allows it |
| ObservationPlanner.NewestDuplicates | src/thorn/core/_file_context_folding.py:404-427 | For each search, the newest with the same canonical arguments and result |
| ObservationPlanner.PlanDuplicates | src/thorn/core/_file_context_folding.py:308-323 | The third pass completes the plan with exact duplicates and overrides nothing |
| ObservationPlanner.PlanFileObservationReplacements | src/thorn/core/_file_context_folding.py:218-331 | The three passes over one dictionary return, for unique call ids, exactly the decisions of the specification, in call order |
| PlanMeaning.ReadRedundantIff | src/thorn/core/_file_context_folding.py:247-281 | A read is planned as redundant in favour of a call if and only if it is still as on disk and that call is the earliest later read of the file that is, too, and returned every one of its lines |
| PlanMeaning.ReadStaleIff | src/thorn/core/_file_context_folding.py:345-358 | A read is planned as stale if and only if it returned lines and the file is gone or one of them is not there as returned |
| PlanMeaning.SearchRedundantIff | src/thorn/core/_file_context_folding.py:283-323 | A search is planned as redundant in favour of a call if and only if, under the policy that allows it, it is complete, about one file, and that call is the newest read still as on disk that returned every line it hit; or, where there is no such read, that call is the newest search with the same canonical arguments and result |
| PlanMeaning.OnlyObservations | src/thorn/core/_file_context_folding.py:218-331 | Only successful reads and searches are planned, by name of their own call |
| PlanMeaning.FactsAre | src/thorn/core/_file_context_folding.py:1084-1198 | The facts of a result are the lines of a successful read and of the hits of a successful search |
| Observations.SupersederIsNamed | src/thorn/core/_file_context_folding.py:375-389 | A result has a superseding call, strictly later, exactly when it is replaced as redundant, and the replacement names it |
| Observations.SupersederKeepsFacts | src/thorn/core/_file_context_folding.py:270-323 | The superseding result contains every (path, line, content) fact of the replaced one, and is not itself stale |
| Observations.SearchSupersederStays | src/thorn/core/_file_context_folding.py:283-323 | The read or search that a search is redirected to is never replaced, by any pass, under either policy |
| Observations.EvidenceSurvives | src/thorn/core/_file_context_folding.py:218-331 | Following superseding calls from any result not replaced as stale goes strictly forward and ends at a result that no pass replaces and that contains all its facts |
| Observations.StaleMeansMismatch | src/thorn/core/_file_context_folding.py:345-358 | A read is replaced as stale exactly when the file is gone or differs from the returned lines; an unreadable file proves nothing |
| Evidence.VisibleStands | src/thorn/core/_file_context_folding.py:392-402 | The planner sees exactly the expanded calls of expanded turns |
| Evidence.ReplacedIff | src/thorn/core/_history.py:141-146 | With unique identifiers the plan replaces a visible result if and only if the planner decided so, and by that decision's text |
| Evidence.ResultSent | src/thorn/core/_file_context_folding.py:764-869 | Of each call the request sends one result, saying exactly what its plan says, or none when the turn is collapsed |
| Evidence.EvidenceReachesRequest | src/thorn/core/_file_context_folding.py:218-331 | End to end: a visible result that is not stale has all its facts in its survivor, whose result the request sends as stored, unless it is folded (its note), its detail is collapsed (its summary) or its turn is (nothing) |
| Evidence.SaysStoredIff | src/thorn/core/_file_context_folding.py:829-869 | The request says the survivor's stored result if and only if it is neither folded nor collapsed by the plan |
| Evidence.FactSentIff | src/thorn/core/_file_context_folding.py:218-331 | A fact is sent by some result as stored if and only if some result that is not stale states it and that one's survivor is neither folded nor collapsed: replacing loses no fact that is still true |
| Requests.ProjectForProvider | src/thorn/core/_context_ledger.py:442-596 | Budget, protected calls, planner and projection composed on the stored history: nothing exactly when the budget cannot be resolved, otherwise the full projection of the planner's replacements, which for unique identifiers are those of the specification |
| Requests.ProtectedIff | src/thorn/core/_file_context_folding.py:1270-1287 | A request protects a call if and only if, where reads may stand for complete searches, it is a successful search whose result is not complete |
| Requests.IncompleteSearchesStay | src/thorn/core/_file_context_folding.py:1270-1287 | Whatever the budget, the text of every visible incomplete search is in the final request word for word, at its call or at a later search with the same result |
| Requests.WithinShareUntouched | src/thorn/core/_context_ledger.py:442-571 | With a known window, a request whose messages after replacing and folding cost at most the maximum and, with the overhead, at most the soft share of the window collapses no turn and no detail |
| Costs.EstimateIs | src/thorn/core/_history.py:189-200 | A quarter of the characters, rounded down, and at least one token |
| Costs.TruncationKeeps | src/thorn/core/_history.py:203-213 | A truncated text keeps its beginning and says how many characters are missing |
| Costs.SummaryMentions | src/thorn/core/_history.py:635-646 | A collapsed turn still tells what each of its calls did |
| Costs.CostOfSent | src/thorn/core/_history.py:648-656 | Each node costs the estimates of the texts it sends, a turn its advisories apart |
| Costs.TotalCostIsSent | src/thorn/core/_history.py:950-952 | Without advisories the cost of a history, in every state of its flags, is the estimate of the texts a request sends that changes nothing |
| Costs.ProtectedIff | src/thorn/core/_history.py:1066-1105 | A node is protected if and only if it is in the tail, is the prompt no prompt follows, or is a turn with calls after which fewer calls come than are protected |
| History.ResultFor | src/thorn/core/_history.py:887 | The last result with the call's identifier, as a dictionary holds it |
| History.HistoryTree.AppendUserPrompt | src/thorn/core/_history.py:848-860 | One fresh, expanded prompt at the end |
| History.HistoryTree.AppendTurn | src/thorn/core/_history.py:862-904 | One fresh, expanded turn at the end, holding exactly the answered calls in order, each with its own result; the tree stays proper if and only if the advisories are in no other turn |
| Protection.NewestCallIndices | src/thorn/core/_history.py:1096-1103 | Exactly the turns that hold one of the newest tool calls |
| Protection.ProtectedIndices | src/thorn/core/_history.py:1066-1105 | Exactly the tail, the latest prompt and the turns of the newest tool calls |
| Protection.NewestCallsProtected | src/thorn/core/_history.py:1066-1105 | Protected turns cover at least the newest min(tail, all) tool calls, and no unprotected turn holds any of them |
| Compaction.TurnTokenCost | src/thorn/core/_history.py:648-656 | The cost of a turn in its present state |
| Compaction.BuildCandidates | src/thorn/core/_history.py:1107-1189 | The candidates are exactly the actions that save tokens on unprotected nodes, each as salient as what it collapses, decayed by age, whole turns just after their parts |
| Compaction.NodeCostFalls | src/thorn/core/_history.py:1107-1189 | However the run goes, no node ends up costing more than it did |
| Compaction.TotalCostFalls | src/thorn/core/_history.py:1107-1189 | Nor does the history as a whole |
| Compaction.StepThatCosts | src/thorn/core/_history.py:1037-1053 | A single step can cost more than it saves: a history where collapsing a turn costs more than its detail-collapsed form |
| Compaction.StepKeeps | src/thorn/core/_history.py:1037-1053 | Every step keeps the savings of all steps before it and leaves protected nodes untouched |
| Compaction.SavingsNeeded | src/thorn/core/_history.py:996-1024 | Nothing to do exactly when the known count, or else the estimate, is within the target; otherwise at least one token |
| Compaction.SavesShare | src/thorn/core/_history.py:1006-1024 | With a count above the target, enough is saved when, short of less than one token, the saved fraction of the estimate is the count's excess fraction, and not while another token keeps within it |
| Compaction.EstimatedTokens | src/thorn/core/_history.py:950-952 | The sum of the nodes' present costs |
| Compaction.Apply | src/thorn/core/_history.py:1127-1187 | One action sets one flag and changes nothing else |
| Compaction.DealtWithAll | src/thorn/core/_history.py:1037-1053 | When every candidate is applied or inside a collapsed turn, nothing that saved tokens is left on any unprotected node |
| Compaction.CollapseInOrder | src/thorn/core/_history.py:1030-1062 | The loop applies candidates in their order, skips those in collapsed turns, and stops at the goal: every proper prefix of its steps saved too little |
| Compaction.Compact | src/thorn/core/_history.py:954-1062 | Nodes and their order are kept, no node costs more, protected nodes are untouched, the report adds up; whatever is less salient than a step taken is collapsed too; without a count the run ends with the total within the target or nothing left to collapse, and before each step the total was above the target; with one it ends with the excess fraction saved, to less than one token and at least one token, or nothing left, and before each step another token was within that fraction |
| Costs.TakenByAge | src/thorn/core/_history.py:1107-1189 | A run takes only saving actions on unprotected nodes, each at its salience decayed by how many nodes came after, and only once every less salient one is taken or inside a collapsed turn |
| Costs.LongPromptsSave | src/thorn/core/_history.py:562-588 | Exactly the whole prompts of more than 2000 characters save tokens by being truncated |
| Costs.DecayScales | src/thorn/core/_history.py:1129-1170 | Without decay a salience stays, and decaying twice decays by the product |
| Transcript.WithAdvisories | src/thorn/core/_history.py:703-714 | Advisory text follows the last result's content; every other result keeps its content |
| Transcript.PlannedResult | src/thorn/core/_file_context_folding.py:829-869 | Whatever a result is replaced with, it answers the same call |
| Transcript.PairedAppend | src/thorn/core/_file_context_folding.py:740-761 | Paired transcripts stay paired one after the other |
| Transcript.RenderedPaired | src/thorn/core/_file_context_folding.py:740-826 | For every proper history, state of its flags, render plan and folded set, each assistant message is followed by exactly the results of its calls in order, and no result stands elsewhere |
| Transcript.TranscriptPaired | src/thorn/core/_file_context_folding.py:521-648 | So is the whole request, with the file context behind it |
| Transcript.NoCallDropped | src/thorn/core/_file_context_folding.py:740-826 | Replacing, folding and detail-collapsing drop no call: exactly the calls of the expanded turns are sent, in history order |
| Transcript.UntouchedAsStored | src/thorn/core/_file_context_folding.py:764-826 | A result no decision names is sent as stored, and the shortcut for untouched turns sends what the general form would |
| Transcript.RenderStored | src/thorn/core/_history.py:695-716 | A turn as stored |
| Transcript.RenderTurnNode | src/thorn/core/_file_context_folding.py:764-826 | A turn under a plan |
| Transcript.RenderHistory | src/thorn/core/_file_context_folding.py:740-761 | The rendered messages of the present flags, always paired |
| Folding.FoldableCallIds | src/thorn/core/_file_context_folding.py:651-666 | A call is folded exactly when it is unprotected and every candidate file it observed is selected |
| Alternation.RenderedRoles | src/thorn/core/_file_context_folding.py:740-826 | The roles sent are those of the nodes in their states: a prompt or marker as user, a turn as assistant with its results behind it unless it is collapsed, whatever is replaced, folded or detail-collapsed |
| Alternation.RepeatIsClash | src/thorn/core/_history.py:906-925 | A role other than that of results follows itself exactly where two nodes that speak for the user meet, or a turn follows one sent without results, housekeeping aside |
| Alternation.AlternatesIff | src/thorn/core/_history.py:906-925 | For all nodes, flags, plans and contexts: roles alternate if and only if there is no such meeting and no file context follows a node that speaks for the user |
| Alternation.ToolLoopAlternates | src/thorn/core/_history.py:906-925 | A prompt, turns with calls and a prompt alternate |
| Alternation.RolesRepeat | src/thorn/core/_history.py:911-916 | Two prompts in a row repeat a role, so does a turn behind one that is collapsed or has no calls, and so does a tool loop once the file context of its folded results follows the prompt |
| Folding.CollectFileContext | src/thorn/core/_file_context_folding.py:954-1019 | One record for each file that is readable now, holding exactly its observations in order; nothing of any other file |
| Folding.SelectedAreMostRecent | src/thorn/core/_file_context_folding.py:576-578 | A candidate is left out only when six others at least as recent are selected |
| Folding.FoldObservations | src/thorn/core/_file_context_folding.py:571-648 | The folded calls are exactly the unprotected ones all of whose candidate files are among the selected and showable; the sections are exactly those files a folded call observed, at most six, in the order of recency |
| FoldedFiles.FoldedIff | src/thorn/core/_file_context_folding.py:571-666 | A call is folded if and only if it is unprotected, looked at some file worth a section, and each such file can be shown and has fewer than six others ahead of it; worth a section is a file searched, looked at twice or, but for legacy folding, read by a call not of the newest file turn; ahead is a file observed later, or as late and seen first |
| FoldedFiles.HistoryFoldedIff | src/thorn/core/_file_context_folding.py:571-666 | This holds for the records of every history |
| FoldedFiles.SectionIff | src/thorn/core/_file_context_folding.py:571-648 | A file has a section if and only if it is worth one, can be shown, has fewer than six others ahead and some folded call looked at it |
| FoldedFiles.AccumulatedInOrder | src/thorn/core/_file_context_folding.py:954-1019 | Each record holds just what was observed of its file, in order, and the file seen first comes first |
| Folding.FoldedFilesAllShownIff | src/thorn/core/_file_context_folding.py:954-1019 | With calls that search or read one file, every file a folded call observed has a section if and only if every file it observed is readable now |
| Folding.FoldedFileShownIff | src/thorn/core/_file_context_folding.py:571-648 | File by file: of what a folded call observed, exactly the readable files have a section |
| Folding.NewestFileTurnCalls | src/thorn/core/_file_context_folding.py:669-707 | The backward search finds the reads and searches of the newest visible turn that has any |
| Folding.UnreadableHitWithheld | src/thorn/core/_file_context_folding.py:1001-1008 | A search hit two files, a read of a third followed, one of the two is gone: the search alone is folded, the newest turn being protected, and its hits in the missing file are shown nowhere |
| Ledger.Resolve | src/thorn/core/_context_ledger.py:117-152 | Refused exactly for a window that is not positive; never above the maximum |
| Ledger.ResolvesToLargest | src/thorn/core/_context_ledger.py:117-152 | For a window the history budget is the largest one up to the maximum that stays, with the overhead, within the soft share, and 0 only when none does; the hard limit is the largest number within its share; without a window the default and no hard limit |
| Ledger.BudgetFitsPrompt | src/thorn/core/_context_ledger.py:117-152 | A history within its budget fits with the overhead below the hard limit, unless the overhead alone exceeds the soft share |
| Ledger.CheckedLedger | src/thorn/core/_context_ledger.py:344-358 | The constructor accepts exactly the contiguous chains |
| Ledger.Balance | src/thorn/core/_context_ledger.py:368-380 | Baseline plus total growth less total savings is the final count |
| Ledger.RenderWith | src/thorn/core/_history.py:927-948 | The rendering of the history under a plan |
| Ledger.ProviderTokens | src/thorn/core/_context_ledger.py:434-439 | The sum of the messages' estimates |
| Ledger.ReplaceResults | src/thorn/core/_context_ledger.py:486-510 | Every required replacement is applied and recorded, whatever it costs |
| Ledger.ProjectFiles | src/thorn/core/_context_ledger.py:466-544 | The replacements, then the switch of the file projection, recorded only where it changes something |
| Ledger.FoldingBalances | src/thorn/core/_context_ledger.py:524-543 | An unrecorded switch leaves the count as it was, so the chain holds |
| Ledger.FitBudget | src/thorn/core/_context_ledger.py:546-571 | The budget loop takes exactly the walk over the candidates and records its steps |
| Ledger.FittingIsUntouched | src/thorn/core/_context_ledger.py:546-571 | When the rendering after replacing and folding is within the budget, no turn and no detail is collapsed |
| Ledger.WalkBalances | src/thorn/core/_context_ledger.py:546-571 | The budget entries chain, and each strictly saves tokens |
| Ledger.EntriesBalance | src/thorn/core/_context_ledger.py:489-571 | All entries chain from the untreated to the final rendering |
| Ledger.ProjectHistory | src/thorn/core/_context_ledger.py:442-596 | For any list of replacements: the candidates are exactly the saving steps in order, the result is the final plan's paired rendering, and the ledger is one whose constructor does not raise |
| Ledger.ProjectionKeeps | src/thorn/core/_context_ledger.py:442-596 | The account balances, every budget entry strictly saves, no guarded turn is collapsed nor the detail of a call without a namesake in an unguarded turn, and the run ends within budget or with every step taken, moot or rejected at its turn |
| Projection.GuardedIndices | src/thorn/core/_context_ledger.py:692-712 | The protected nodes and the turns that hold a protected call |
| Projection.ProjectionSteps | src/thorn/core/_context_ledger.py:715-752 | Exactly the saving steps of unguarded, expanded turns, each as salient as what it collapses, decayed by age, in the order of salience, node and position |
| Projection.WalkAdds | src/thorn/core/_context_ledger.py:546-571 | Walking on only adds decisions, each named by a step, and strictly lowers the cost whenever it adds any |
| Projection.WalkExhausts | src/thorn/core/_context_ledger.py:546-571 | Within budget, or every step is taken, moot, or was rejected at its turn because it would not have lowered the cost |
| Projection.TakenIff | src/thorn/core/_context_ledger.py:546-571 | A step is taken if and only if the request is still over budget, the step is not moot and it lowers the cost |
| Projection.EarlierSettled | src/thorn/core/_context_ledger.py:546-571 | When a step is taken, every earlier one was taken, is moot, or did not lower the cost at its turn |
| Projection.InOrder | src/thorn/core/_context_ledger.py:715-752 | Steps come least salient first, whole turns 0.001 later; of equal ones the older node's first, and of one node's the turn before its calls |
| Projection.WalkSparesGuarded | src/thorn/core/_context_ledger.py:692-712 | No guarded turn is collapsed, for any cost and budget |
| Projection.KeepsDetailIff | src/thorn/core/_context_ledger.py:622-642 | A call keeps its detail for every cost and budget if and only if no unguarded, expanded turn has a collapsible call of the same identifier |
| Projection.UniqueHaveNoNamesake | src/thorn/core/_context_ledger.py:692-712 | With unique identifiers no guarded call has a namesake |
| Namesakes.DetailSaves | src/thorn/core/_context_ledger.py:434-439 | A request, serialized message by message, pays less once a long result is sent as its summary |
| Namesakes.GuardedCallCollapses | src/thorn/core/_context_ledger.py:546-571 | In a conversation of two prompts and four turns, budget 0, the call of the guarded later turn is sent as its summary because the old turn's call has its identifier |
| Namesakes.NamesakeConversation | src/thorn/core/_context_ledger.py:546-571 | There is such a conversation, proper and with nothing collapsed in it |
| Trimming.SelectCutPoint | src/thorn/core/_housekeeping.py:107-132 | The cut takes exactly the nodes before the first protected one |
| Trimming.PerformHousekeeping | src/thorn/core/_housekeeping.py:157-256 | Nothing changes when the first node is protected; otherwise the nodes are one archive marker, every node past the cut in order, and one housekeeping node with the boundary and what the sub-loop appended |
| Trimming.TrimmingConserves | src/thorn/core/_housekeeping.py:224-247 | Every protected node survives in order, the latest prompt and the newest tool calls among them |
| Trimming.TrimmedCost | src/thorn/core/_housekeeping.py:211-247 | The trimmed history costs the notice and the kept nodes |
| Trimming.HousekeepingSendsNothing | src/thorn/core/_history.py:770-790 | Under every plan and folded set the trimmed history sends the notice and then exactly what the kept nodes would send alone |
| EditProvenance.FromToolResult | src/thorn/core/_edit_result.py:97-148 | The parser's loops compute the recorded provenance, nothing for a result without exactly one well-formed line |
| EditProvenance.LineRoundTrip | src/thorn/core/_edit_result.py:71-87 | A rendered line is one line and parses back to the provenance it was rendered from |
| EditProvenance.RecordedInResult | src/thorn/core/_edit_result.py:97-148 | Any result that holds the rendered line among lines without the prefix gives the provenance back |
| EditProvenance.RecordedBetween | src/thorn/core/_edit_result.py:97-148 | In particular between any other text lines |
| EditChanges.ProvenanceBetween | src/thorn/core/_edit_result.py:162-212 | For any opcode list: ranges ordered, merged and exactly the changed lines; anchors the surviving neighbours of deletions, in bounds and unchanged; so the constructor never rejects |
| EditChanges.JoinedCovers | src/thorn/core/_edit_result.py:188-199 | Joining a touching range keeps the ranges apart and adds exactly its lines |
| EditChanges.UnchangedIsKept | src/thorn/core/_edit_result.py:176-199 | Outside the recorded lines the edit kept the original's text, in order |
| EditChanges.RangesUnique | src/thorn/core/_edit_result.py:188-199 | The ranges are determined by the set of changed lines |
| EditChanges.RecordUnique | src/thorn/core/_edit_result.py:162-212 | An edit has one record |
| EditChanges.ResultTellsChanges | src/thorn/core/_edit_result.py:71-148 | From an edit's result, whatever text lines surround it, exactly the one record of its diff is recovered |
| GateAudit.IdentityReport | evals/harbor/validation_gate.py:888-943 | The failures found, and the identities observed |
| GateAudit.ArtifactReport | evals/harbor/validation_gate.py:1137-1173 | Digest and status of every required artifact, and the failures they imply |
| GateAudit.RecordTerminal | evals/harbor/validation_gate.py:1199-1260 | The audit that is written |
| GateAudit.ValidateEvidence | evals/harbor/validation_gate.py:1363-1562 | The reader's checks, in order, formats of digests and revisions among them |
| GateAudit.DeriveFailures | evals/harbor/validation_gate.py:1514-1554 | The failures an audit's own evidence shows |
| GateAudit.DerivedFromRecorded | evals/harbor/validation_gate.py:1199-1562 | The reader derives from a recorded audit each recorded failure but a configuration mismatch, which it derives from the audited slot alone |
| GateAudit.RecordedAuditAccepted | evals/harbor/validation_gate.py:1175-1562 | A recorded audit is accepted if and only if a drift of any slot's configuration includes the audited slot's own; then the reader reads exactly the recorded outcome and status |
| GateAudit.OtherSlotDriftRejects | evals/harbor/validation_gate.py:929-935 | A clean first slot whose audit is refused because only the last slot's configuration is gone |
| GateAudit.PassedMeansClean | evals/harbor/validation_gate.py:1363-1562 | An accepted audit that passed integrity retains clean evidence throughout |
| AuditMeaning.RecordedPassesIff | evals/harbor/validation_gate.py:888-1260 | The audit recorded passes if and only if the repository is clean at the defined revision, declaration, manifest, package and every configuration are as defined, and the attempt reported no violation, was never retried and left exactly the required artifacts, all readable |
| AuditMeaning.AcceptedPassesIff | evals/harbor/validation_gate.py:1363-1562 | An accepted audit passes if and only if its evidence is clean |
| AuditMeaning.AcceptedIsOwn | evals/harbor/validation_gate.py:1297-1412 | An accepted audit names this gate, slot, receipt and authorization, its reward is a fraction, and its outcome is read as it stands |
| GateSnapshot.Snapshot | evals/harbor/validation_gate.py:1564-1591 | The disposition over files that stand still, or the error |
| GateSnapshot.SaysOneThing | evals/harbor/validation_gate.py:1572-1591 | A state of the files has one disposition |
| GateSnapshot.DispositionIff | evals/harbor/validation_gate.py:1593-1649 | Over finished slots with nothing behind them, each disposition if and only if: stopped over infrastructure or integrity when some slot failed so; with no failure, complete at four, stopped after two when the second is not fully usable, a token count is missing or both exceed the limit, and ready for the next slot otherwise |
| GateSnapshot.InProgressIff | evals/harbor/validation_gate.py:1572-1591 | A slot is in progress if and only if those before it are finished, it has its own receipt and nothing else exists |
| GateProgress.ReadyGoesOn | evals/harbor/validation_gate.py:1006-1056 | From every safe state whose files say ready, some run of one process consumes the slot |
| GateProgress.UnfailingGoesOn | evals/harbor/validation_gate.py:1006-1056 | So a gate whose attempts did not fail, and whose second was fully usable within the token limit, goes on |
| GateCompletion.InProgressGoesOn | evals/harbor/validation_gate.py:1175-1262 | From every state of the files whose next slot has just its receipt, some run of one process records any audit for it |
| GateCompletion.CleanGateCompletes | evals/harbor/validation_gate.py:1006-1262 | If repository and files stand as defined and all four attempts are undisturbed, without infrastructure failure, the second fully usable and the first two within the token limit, some run of one process takes the gate from its beginning to its end by the audits it records itself |
| GateProtocol.StepGrows | evals/harbor/validation_gate.py:665-686 | Every step leaves finished files as they are, and only creates absent files or finishes unfinished ones |
| GateProtocol.KnowledgeStays | evals/harbor/validation_gate.py:1572-1591 | What a process has read stays true through every step of every other process |
| GateProtocol.ObservingKeeps | evals/harbor/validation_gate.py:1006-1049 | Each reading step of a process learns only what is so |
| GateProtocol.WritingKeeps | evals/harbor/validation_gate.py:1006-1056 | Each exclusive create and each finished write keeps receipts and audits in order and one authorization throughout |
| GateProtocol.StepKeeps | evals/harbor/validation_gate.py:1006-1056 | Every step of every process keeps the gate safe, however stale its snapshot |
| GateProtocol.RunSafe | evals/harbor/validation_gate.py:1006-1262 | In every interleaving of any number of processes every state is safe |
| GateProtocol.SafeIsPrefix | evals/harbor/validation_gate.py:1572-1591 | Receipts and audits are a schedule prefix with at most one unaudited slot, each slot consumed and recorded once and in order, under one authorization |
| GateProtocol.ReceiptMeansCleared | evals/harbor/validation_gate.py:1593-1611 | A receipt for a later slot means every earlier audit is final, accepted, passed with clean evidence, and reports no infrastructure failure |
| GateProtocol.SecondBlockMeansUsable | evals/harbor/validation_gate.py:1617-1643 | A receipt for the third or fourth slot means the second attempt was completed, usable and fully rewarded, and the first two stayed within the token limit |
| GateProtocol.SettledStays | evals/harbor/validation_gate.py:1593-1643 | No step, on however old a snapshot, changes a file of a stopped or complete gate |
| GateProtocol.SettledForGood | evals/harbor/validation_gate.py:1593-1643 | Stopped and complete are absorbing in every run |
| GateProtocol.SafeHasDisposition | evals/harbor/validation_gate.py:1572-1591 | In reachable states a snapshot fails only over an unfinished file or a refused audit, never over the schedule |
| GateRecording.RunObserved | evals/harbor/validation_gate.py:1175-1262 | In every run whose recorders write what they observed, every audit is that of a terminal observation and a state of the files, under its slot's receipt |
| GateRecording.RefusedIffOthersDrifted | evals/harbor/validation_gate.py:1514-1554 | In a reachable state such an audit is refused if and only if at its recording the configuration of some slot had drifted, but not the audited slot's own |
| GateRecording.RefusedStays | evals/harbor/validation_gate.py:1572-1643 | A refused audit freezes the gate: no step of any process changes a file again |
| GateRecording.RefusedForGood | evals/harbor/validation_gate.py:1572-1643 | In every run, once an audit is refused nothing is consumed or recorded any more |
| GateRecording.FailsOnlyOverDrift | evals/harbor/validation_gate.py:1572-1591 | In such runs a snapshot of still files fails only over an unfinished file or an audit recorded while other configurations alone had drifted |

## Left out

- Characters: decimal digits and blanks other than the ASCII ones, which `\d`, `isdecimal`, `int` and `\s` also accept.
- Parsers the program imports: Markdown blocks and diff opcodes are any list of the shape the parser returns; JSON, path resolution and access policy are fixed functions or left out.
- Outline.ComputeOutlineSpans: the file's format is a parameter, where the program derives it from the file name.
- Markdown.ItemSections: goes through list items by recursion, where the program uses a loop.
- Floating point: saliences, their decay, watermarks and window fractions are reals, without rounding.
- Texts of tool-call summaries, abbreviated arguments and archive notices are given; only their lengths and places matter to the proofs.
- Compaction.Compact: takes the decay of salience as any function of age; the cached costs of nodes, which change no result, are not modelled.
- Compaction.SavingsNeeded: leaves out a provider count of zero against a negative target, where the program divides by zero.
- Folding.FoldedFilesAllShownIff: rests on call identifiers that name one call, which either searches or reads one file.
- ObservationPlanner.PlanFileObservationReplacements: states the result for unique call ids, as providers assign them; write observations, which no replacement rests on, are not modelled.
- Ledger.ProjectHistory: takes the resolved budget as given; the folded results, file context and visibility facts of a plan are functions of the plan, as one snapshot of the files makes them. Entries do not carry tool names.
- Requests.ProjectForProvider: names the planner's replacements for unique call identifiers only; texts of replacements are given.
- Requests.IncompleteSearchesStay: rests on the plan's protected calls being protected in folding too; the program exempts stale reads from that, which no incomplete search is.
- Evidence.SaysStoredIff: compares texts, so it leaves out notes and summaries that happen to equal the stored result.
- Transcript.RenderHistory: external-content statuses of results are carried along unread and not modelled.
- Folding.FoldObservations: the protected calls and each file's section text are parameters.
- Trimming.PerformHousekeeping: the sub-loop is given by the nodes it appends; an exception other than the two it catches leaves the boundary in place and is not modelled.
- GateAudit.RecordTerminal: digests are any strings, and the state of repository and files is one observation; task-package contents enter as one of three outcomes.
- GateAudit.RecordedAuditAccepted: rests on hashes having the format of hashes and Git's revisions that of revisions.
- GateProtocol.StepKeeps: what a recorder writes is any audit, which covers whatever it observed; `GateRecording` adds what holds when it writes what one state of the files shows; the identity checks before a receipt are an observation that may fail at any time; paths are slot positions, since slot identifiers are unique.
- GateProtocol.SafeHasDisposition: concerns snapshots of files that stand still; a snapshot taken while others write may still raise, which harms nothing.
- FileContext.RenderSection: takes the file's tree as given, since `Outline` models how it is found; the heading, the sources and the marker legend around the outline are not modelled.
- FileContext.FoldedLineShownIff: takes the section's view and required lines as given, for any file the call observed.
- Namesakes.DetailSaves: writes out of JSON's escapes those for quotes, backslashes and the common control characters; other characters stand for themselves.
- The prompt visibility store and its comparison counts, the journal, and the loop's repetition and retry counters are not modelled.
- Command lines, agents, event sinks, provider calls, credentials, tracing and tool discovery.
