# Rule engine model

A Dafny model of a backup planner. Users claim directories and attach glob rules to
them; a rule compiler turns the rules into prioritised pattern lists and
per-directory instructions; an aggregation engine walks an immutable tree database
and writes a pruned overlay; a reader recovers per-rule summaries from the pair; and
a backup walks the same tree, led by the same kind of patterns. Round these lie the
directories above the loaded trees, the summaries that the server keeps for claimed
directories, the byte format of both trees, a treemap, and a spreadsheet export.

The simple thing that is being sped up is this: give every file the rule of the
deepest directory that has a rule matching it, and group the file statistics by
rule, user and group. The project proves that the incremental engine computes
exactly that, after any sequence of requests in the fragment below, for one directory
or for many at once, and says exactly when the code does not.

## How the proof is put together

* `Globs.dfy`, `Machines.dfy`: patterns are byte strings in which `*` stands for
  any run of bytes, `/` included. `MatchPrecedence` is the source's comparison. A
  compiled machine is specified, not built: it answers with the group of *some*
  matching pattern to which no other is preferred. Several machines are read side
  by side, name by name, and the first that answers counts.
* `Tallies.dfy`: the bookkeeping lists (`RuleStats`, `Rules`) against an abstract
  table from (rule, user-or-group) to totals. A list that is kept sorted is
  determined by its table. `Totals.dfy` says what such a list means in terms of the
  files alone: how many there are, how large they are, and the latest of their times.
* `Overlays.dfy`, `Refinement.dfy`, `Conservation.dfy`: the walk that writes an
  overlay, as a function over any matcher and any instructions; what it computes
  when the instructions are sound; what it conserves when they are not.
* `Processor.dfy`: the same walk as the mutable `ruleProcessor`, with binary
  search and in-place insertion, proved equal to that function. `ForkJoin.dfy`:
  the walk as one task per directory under every schedule.
* `TreeGen.dfy`, `Formats.dfy`: where the tree database's own lists come from, and
  the bytes in which both trees are stored.
* `RuleTrees.dfy`, `TreeFlags.dfy`, `Marks.dfy`, `Parents.dfy`: `Set` on the mutable rule
  tree, the exact meaning of its flags, and what an emptied directory does to them.
* `Slashes.dfy`, `Canons.dfy`, `Finals.dfy`: `Canon`, that is `resolveOverrides`,
  `setOverride` and `resolveSlashes`, for any rules and with all flags. `CanonOf` relates a
  tree to what `Canon` may leave; `CanonIsDetermined` says that there is only one such
  tree, and `FinalRule` gives each of its rules as a function of the old ones.
* `Splits.dfy`: `BuildRules` with its sort, its scores and its wrapping product.
* `DirTags.dfy`, `DirRules.dfy`: `addRuleStates`, `buildWildcards` and
  `buildDirRules`. `Heads.dfy`: the instructions for matches with text before their stars,
  and exactly when what is put under one rule has that rule.
* `Paths.dfy`, `Resolution.dfy`: directory paths as component lists and as byte
  strings; which rule a file gets.
* `Incremental.dfy`, `Readings.dfy`, `Runs.dfy`: one regeneration, what is read from a
  mount and what should be, and whole runs of requests.
* `Removals.dfy`, `Stale.dfy`, `Tidy.dfy`: removing a rule, the request that can leave a
  summary wrong: which files are left stale (`IsStale`), that all is right without them,
  that something is wrong with them, and removals that need no look at the files.
* `Samples.dfy`, `Prefixes.dfy`, `Mixed.dfy`: concrete runs after which something is wrong,
  directories that a match such as `pre*` takes whole, and a freshly loaded mount that
  reads wrong.
* `TopLevels.dfy`, `RootDirs.dfy`, `Batches.dfy`: the directories above the mounts
  (class `Forest`), the mutable `RootDir` that holds one and whose methods are the
  steps of those runs, and reading many directories in one walk.
* `Claims.dfy`: the server's cache of summaries, on top of `RootDir`.
* `BackupGroups.dfy`, `Backups.dfy`, `Shadows.dfy`: marking directories with backup
  rules, the walk of a backup, and exactly when that walk misses nothing.
* `Treemaps.dfy`, `Checksums.dfy`, `Archives.dfy`: the treemap layout over reals, the
  table-driven CRC-32 against its bit-by-bit definition and that against the generator
  polynomial, and the archive writer, whose template is patched and spliced at each export.

The fragment of the run theorem: every match is `*`, a plain file name, or `*` before
some text that does not end in `/` (`*.txt`, `*/notes`), there are no overrides,
directory names of rules contain no `*`, and ids lie strictly between 0 and 2^63 - 1 (with
the largest id the copy instruction `-id - 1` would be the number that stands for
"process"). Trees are added, lists of rules are added, and any rule is removed, a
directory's last one included, as long as the removal leaves no file stale; by
`Stale.RemovalReadsRight` these are exactly the removals after which what is read is right.
`Tidy.Gentle` names removals that never leave one, told from the rules alone. Canon,
BuildRules, the conservation law, the process refinement and the schedules are proved
without that restriction; the backup is proved for all canonical rules without override.

## Findings

Where the code does not do what it is for, a member shows an input, and another says
exactly when it does.

* **Removing a rule can leave files under a rule that is not theirs**, in three ways.
  `Removals.IsStale` says which files, and by `Stale.RemovalReadsRight` what is read after
  the removal of any rule is right if and only if there are none.
  * *A directory loses its last rule and a `*` directory above does not notice.* It is not
    told that something below has changed, and copies its old summary
    (`Samples.StaleAfterRemoval`). It can hinge on the name of an unrelated neighbour
    (`Samples.NeighbourDecides`).
  * *A directory loses what reaches below it.* Directories below that are not in the rule
    tree are then told by one further up, which has not changed, to copy what they had:
    `Samples.StaleAfterDrop` for a directory that keeps a plain name,
    `Samples.StaleFurtherDown` for one that keeps nothing.
  * *A directory loses its last rule and the mount, which has `*` and `*.txt`, does not
    notice.* Directories that have nothing to do with the removal are put under `*` as a
    whole, files of `*.txt` included (`Samples.StaleElsewhere`).
* **A directory that a lone `pre*` matches is read under another rule.** It is put under
  that rule as a whole, no node is kept for it, and what is read for it and all below it
  is counted under the nearest `*` rule: right only where there are no files
  (`Prefixes.PrefixReads`; `Prefixes.PutUnderIsRead` is the condition for any directory
  that is put under a rule).
* **A directory can be put under one rule although a file in it has another**, and that when
  a tree is freshly loaded. With `pre*`, `pre*.txt` and `*.log` in one directory the last
  keeps the heads of the others from getting instructions, so that the pattern of `pre*`
  itself decides for `/m/pre1/`, and `/m/pre1/a.txt` counts for it
  (`Mixed.MixedReadsWrong`). `Heads.PutUnderIffNothingBefore` is the exact condition for any
  matches: that none which reaches into the directory comes before the rule's own.
  `Heads.CarefulPutsRight`: it always holds where directories do not have both kinds of
  match and those with text before a star are marked as changed.
* **A backup can skip directories that hold files to be backed up.** A backup rule
  `tmp*` makes the walk skip `tmp1/`, and so does any rule `tmp*` beside a backup rule
  `tmp*.txt` (`Shadows.PrefixRuleIsNotFollowed`, `Shadows.ShadowsToBeSeen`).
  `Shadows.EntersAllIffUnshadowed` is the exact condition on the rules.
* **A replaced tree leaves summaries of directories that are gone.** When a tree is
  loaded again without a claimed directory, that directory's kept summary is not
  removed: `Samples.StaleClaim` is a run that ends that way. `Claims.Refreshed`, as ensured
  by `Claims.Server.AddTree`, says exactly which summaries are replaced.
* **The score of a rule with more than ten stars wraps around.** Such a rule is
  meant to get a list of its own; when the running score is even it is appended to the
  current list instead (`Splits.ManyStarsStartAList`, `Splits.BoundedIffFewStars`).
* **The comparison of matches is no weak order**, so that a sort by it promises
  nothing in general (`Globs.EqualRankIsNotTransitive`), and two matches with two stars
  can tie on one path (`Globs.TwoStarsCanTie`). `Splits.FirstListPrefers` says what is
  kept when a directory's matches can be ranked.
* **A rule for a directory that no tree holds panics** in `regenRules`, at
  `mount[1:]` of the empty string: `RootDirs.RootDir.AddRules` and `RemoveRule` end in
  `SliceOutOfRange` if and only if the request is otherwise accepted and no mount lies at
  or above the directory.

## Model

| member | source | states |
|---|---|---|
| Globs.PrecedenceAntisymmetric | ruletree/statemachine.go:539-566 | Swapping two patterns flips the sign of their comparison, for all strings. |
| Globs.PrecedenceTransitive | ruletree/statemachine.go:539-566 | Being strictly preferred is transitive. |
| Globs.EqualRankIsNotTransitive | ruletree/statemachine.go:539-566 | Concrete patterns show that having equal rank is not transitive, so the order is partial and not weak. |
| Globs.OneStarTotal | ruletree/statemachine.go:539-566 | Two different patterns with at most one star that match one path are never of equal rank. |
| Globs.TwoStarsCanTie | ruletree/statemachine.go:539-566 | With two stars they can be, on a concrete path. |
| Globs.NarrowerIsEarlier | ruletree/statemachine.go:539-566 | Among patterns with at most one star, one that matches strictly less is strictly preferred, if and only if it is not empty. |
| Machines.BuildMultiStateMachine | ruletree/statemachine.go:60-75 | One machine for each list, in order, each answering with a match to which none on its list is preferred, and answering whenever anything on its list matches. |
| Machines.DroppingDeadIsInvisible | ruletree/statemachine.go:86-109 | Dropping dead machines while reading never changes the group read later. |
| Machines.ReadByNames | ruletree/statemachine.go:86-109 | Reading name by name with dropping gives the answer of the first machine that answers for the whole text. |
| Paths.PathByNames | ruletree/statemachine.go:86-109 | The same for the text of a path read from `/` down, as the walks of the engine read it. |
| Resolution.ResolveIsDeepest | ruletree/statemachine.go:525-566 | The rule found by walking up from a file applies to it, no deeper directory has one that does, and no other of its directory that applies is preferred or ranks the same. |
| Tallies.CanonicalIsUnique | ruletree/ruletree.go:41-81 | Two sorted lists with the same totals are the same list, in whatever order they were built. |
| Totals.GroupByDescribes | ruletree/ruletree.go:66-81 | The grouping has a cell for a rule and a user or group if and only if some file has both; it holds their number, their sizes together, and the time of one to which none of them is later. |
| Totals.MergedCounts | ruletree/ruletree.go:66-81 | If two lists say this of some files each, the merged list says it of all of them. |
| Processor.AddStats | ruletree/ruletree.go:66-81 | Binary search and insertion keep the list sorted; an entry with the id then has the later of the two times and the sums of the counts and sizes, or there is a new one; all other entries stay. |
| Processor.RuleProcessor.AddData | ruletree/ruletree.go:301-311 | Adding under a rule, found or inserted, changes the rule list like the abstract addition and keeps it canonical. |
| Processor.RuleProcessor.CopyUpperOrAddLower | ruletree/ruletree.go:266-288 | With an old overlay node its rules are added and the node is kept; without one the tree's own lists are added under the wildcard. |
| Processor.RuleProcessor.ProcessDir | ruletree/ruletree.go:162-194 | The mutable walk writes exactly the overlay of the value-level `Process`. |
| ForkJoin.EveryScheduleWrites | ruletree/ruletree.go:162-204 | Under every schedule of one task per directory the walk ends within a bound fixed by the tree, and a run that cannot go on has written the same overlay. |
| ForkJoin.SomeoneCanMove | ruletree/ruletree.go:196-204 | No reachable state is stuck before all tasks have ended. |
| ForkJoin.MergedChildIsFinished | ruletree/ruletree.go:196-204 | No child's rules are merged before they are final. |
| Refinement.ProcessTally | ruletree/ruletree.go:162-204 | A processed directory's totals are the sum of what its children contribute, whatever the instructions say. |
| Refinement.ProcessRefines | ruletree/ruletree.go:162-204 | With sound instructions the overlay says at every directory it visits what grouping the files one by one says, and what it prunes can be read with the wildcards. |
| Refinement.ReadIsReference | ruletree/overlay.go:211-237 | Reading a represented directory gives the reference grouping, if and only if it is not the one case in which a lone rule 0 is renamed by mistake. |
| Refinement.SummaryIsReference | ruletree/overlay.go:103-114 | The same for every directory below, walked to down both trees at once. |
| Conservation.ProcessConserves | ruletree/ruletree.go:162-204 | Whatever the instructions and the matcher say, every file is counted once and under one rule, and every node has its directory's owner, if it was so in the old overlay. |
| Conservation.TotalsAgree | ruletree/overlay.go:211-237 | Summed over its rules, such a summary has the totals that the tree database stores; in each rule users and groups count the same files. |
| TreeGen.Directory.Add | treegen/treegen.go:106-109 | Adding a file keeps both maps the totals of all files added so far. |
| TreeGen.GetSortedIdTimes | treegen/treegen.go:271-285 | The list is sorted and says what the map says, and there is no other: the order in which the map is walked makes no difference. |
| TreeGen.Directory.WriteTo | treegen/treegen.go:111-130 | The bytes are the layout of two lists that sum up the files added, and the directory is empty again. |
| TreeGen.BuiltIsWellFormed | treegen/treegen.go:106-130 | A directory written after its files came in any order is what the engine relies on: sorted lists that sum up exactly the files below. |
| TreeGen.Generate | treegen/treegen.go:153-184 | The loop over a directory's files followed by the write gives such a directory. |
| Formats.SummaryComesBack | ruletree/overlay.go:211-237 | What the processor writes is read back as it was, ids and counts within their widths. |
| Formats.SummaryBytes | ruletree/ruletree.go:325-337 | A concrete summary byte by byte, in both forms: the order of the fields. |
| Formats.LowerIsRuleZero | treegen/treegen.go:111-130 | The tree database's form, with its two single bytes, reads as one rule 0; without files, reading on after the end, as no rule. |
| Formats.LowerComesBack | ruletree/ruletree.go:313-323 | Skipping the header, `addLower` finds the two lists that were written. |
| Formats.BytesGiveSummary | ruletree/overlay.go:211-237 | The bytes of whichever layer is read give exactly the summary of the value-level reader. |
| Formats.Writer.WriteSummary | ruletree/ruletree.go:325-337 | The loops write the layout, byte for byte. |
| Formats.Reader.ReadSummary | ruletree/overlay.go:211-237 | The loops read what the layout's reader says, for any bytes. |
| Formats.Reader.ReadLists | ruletree/ruletree.go:313-323 | So do those of `addLower`. |
| RuleTrees.RuleTree.Set | ruletree/statemachine.go:239-275 | The loop over the parts leaves the tree of the recursive `SetFrom`. |
| TreeFlags.SetAllIsExact | ruletree/statemachine.go:598-622 | After setting all directories in sorted order every node's rules and four flags are exactly what the rules and the changed directories say. |
| Marks.SetEmptyMarks | ruletree/statemachine.go:239-275 | Setting an emptied directory keeps the flags what they should be, and marks exactly the directories at or above it below which nothing on the way to it was in the tree. |
| DirRules.BuildTree | ruletree/statemachine.go:598-622 | The tree built for a mount has exactly the rules below it, the two implicit `*` rules, and marks given by a condition on the rules alone; when one directory has lost its last rule, the marks for changed parents as well. |
| DirRules.GroupIsThere | ruletree/ruletree.go:182-192 | For any rules, after `Canon` and with several lists, every path has a group: the pointer that `process` follows is never nil. |
| Slashes.MovedInverse | ruletree/statemachine.go:344-387 | Moving a match is undone by putting the directory's text before it: only one match moves to a given place. |
| Slashes.ResolveSlashes | ruletree/statemachine.go:344-387 | In whatever order the matches come up, the rules and flags of every directory afterwards are those that `ResolvedBy` names. |
| Canons.SetOverride | ruletree/statemachine.go:315-334 | A directory without a rule for the match gets this one and hands it on. If the match has a star, and no `/` or one before the star, all directories at or below end up with a rule for it, their own or this one; if it has no star, or one before its first `/`, those below a directory with its own rule have what they had. Flags only grow, and nothing outside changes. |
| Canons.ResolveOverrides | ruletree/statemachine.go:291-313 | Although the loop adds to the map that it ranges over, the outcome is the same whether or not it comes across what it has added. |
| Canons.Canon | ruletree/statemachine.go:279-289 | Ends for all rules, and leaves only matches without a `/` before the first star; nothing changes when nothing has to. |
| Canons.CanonIsDetermined | ruletree/statemachine.go:279-387 | However the maps are walked, the same directories are left, with the same rules and the same flags. |
| Canons.CanonKeepsOwn | ruletree/statemachine.go:279-387 | A rule that names no path keeps its place, overrides or not. |
| Canons.CanonKeepsPatterns | ruletree/statemachine.go:344-387 | Without overrides every full pattern is still there, with the rule of the deepest directory that had it. |
| Canons.CanonAddsNothing | ruletree/statemachine.go:344-387 | Without overrides every rule that is left has the full pattern, and is the rule, of one that was there. |
| Finals.CanonGives | ruletree/statemachine.go:279-387 | For any rules, overrides included, which rule each directory has for each match afterwards, and which directories are there, as a function of the old rules: the nearest level that gives one decides, first what moves there, then what is handed down and not stopped. |
| Finals.LowerWins | ruletree/statemachine.go:279-334 | What a directory has once all below some directory is done is not taken away by that one, nor by its overrides. |
| Finals.OverrideReaches | ruletree/statemachine.go:291-334 | After `Canon`, an overriding match with a star and no `/` has a rule in every directory at or below its own: the directory's own if it had one, and the overriding one if nothing between says otherwise. |
| Finals.OwnRuleStops | ruletree/statemachine.go:315-334 | A directory below one with its own rule for a match that has no star, or one before its first `/`, has no rule for it that it did not have. |
| Finals.OverrideIsStarred | ruletree/statemachine.go:291-313 | An overriding rule whose match does not begin with a star is there for that match after `*/` as well. |
| Splits.OrderByPrecedence | ruletree/statemachine.go:525-537 | All matches, each once; in order of preference whenever having equal rank is transitive among them. |
| Splits.ProcessRules | ruletree/statemachine.go:507-523 | A directory's rules go, each once, on the list of its depth, and the lists of other directories stay. |
| Splits.ComplexIsThreeStars | ruletree/statemachine.go:472-505 | The rules of a directory count as complex, which puts them and those above on lists by depth, if and only if one of its matches has stars at three places. |
| Splits.BuildRules | ruletree/statemachine.go:432-454 | The lists hold exactly the tree's rules by depth, and the final lists are cut from them as `SplitItems` says. |
| Splits.PlacingKeepsOrder | ruletree/statemachine.go:432-454 | The loop only cuts: no rule is lost, repeated or moved past another. |
| Splits.BoundedIffFewStars | ruletree/statemachine.go:432-470 | Every later list stays within 16,777,216 if and only if no rule on it has more than ten stars; and then none is cut while it has room for the next rule. |
| Splits.ManyStarsStartAList | ruletree/statemachine.go:432-470 | A rule with more than ten stars starts a list of its own if and only if the running score is odd, because the product wraps around. |
| Splits.FirstListDecides | ruletree/statemachine.go:432-454 | For any canonical rules and any path, the first list that answers does so with a rule of the deepest directory that has any for the path. |
| Splits.CutKeepsOrder | ruletree/statemachine.go:432-454 | Of two rules of one sorted directory on different lists, that on the earlier list is not the less preferred. |
| Splits.FirstListPrefers | ruletree/statemachine.go:432-454 | With such a directory the rule that answers is one to which no other of the directory that applies is preferred. |
| DirTags.DirectoryGroup | ruletree/statemachine.go:568-594 | The machine answers for every directory, in the tree or not, with the instruction that the tree's flags and rules say. |
| DirTags.FileGroup | ruletree/statemachine.go:568-594 | With all instructions on the list, a file still gets the rule of the deepest directory that has one for it. |
| DirTags.WildcardGroup | ruletree/statemachine.go:746-767 | The wildcard machine answers with the nearest `*` rule. |
| DirTags.OverrideWildcard | ruletree/statemachine.go:753-760 | An overriding rule that ends in `/*` and does not begin with a star has a wildcard for exactly the directories whose contents its form after `*/` matches; no other rule but `*` has one. |
| Heads.LongestHeadDecides | ruletree/statemachine.go:702-728 | With any number of matches with text before their stars, a directory outside the rule tree is put under the rule of the longest such text that its name begins with, if that belongs to one match only and ends at its star, and is looked into if not. |
| Heads.PutUnderIffNothingBefore | ruletree/statemachine.go:568-594 | For any canonical matches, all files below a directory that is put under a rule have that rule if and only if no match that reaches into it comes before the rule's own: of a directory further down, or preferred in the same one. |
| Heads.CarefulPutsRight | ruletree/statemachine.go:702-744 | It is so for every directory that is put under a rule if the directories above do not have both kinds of match, and are marked as changed if they have text before a star. |
| Mixed.MixedReadsWrong | ruletree/statemachine.go:702-744 | A freshly loaded mount with `pre*`, `pre*.txt` and `*.log` puts `/m/pre1/` under the first although `a.txt` in it has the second, and reads wrong. |
| Incremental.CopyTagIsSame | ruletree/statemachine.go:665-744 | A directory of the rule tree told to copy has the same rules for everything below as before. |
| Incremental.CopierIsAbove | ruletree/statemachine.go:691-744 | A directory outside the rule tree, at or below the changed one, is told to copy only by a directory above the changed one. |
| Incremental.WholeTagIsUniform | ruletree/statemachine.go:665-744 | A directory put under one rule as a whole has only files with that rule. |
| Incremental.AsideIsCopied | ruletree/statemachine.go:665-690 | After a change at one directory, every directory with a `*` rule that is neither that one nor above it is copied without a walk. |
| Incremental.LoneStarIsWhole | ruletree/statemachine.go:665-678 | A loaded directory with `*` alone, and no rules below it, is put under that rule without a walk. |
| Incremental.OutsideIsNotWalked | ruletree/statemachine.go:665-744 | A directory that is not in the rule tree is never walked unless a match with text after its star reaches there: it is put under the nearest `*` rule, or copied; when a mount with rules of its own is loaded, always the former. |
| Incremental.AfreshIsSound | ruletree/toplevel.go:617-645 | When a tree is loaded no instruction that the walk meets is wrong. |
| Incremental.TouchedIsSound | ruletree/statemachine.go:568-744 | Nor after one directory has changed that keeps rules, and keeps what reaches below. |
| Incremental.TagsAreSound | ruletree/statemachine.go:568-622 | Instructions that are right wherever the walk comes are sound for the walk as a whole. |
| Readings.ResolveDecides | ruletree/statemachine.go:539-594 | The rule that the engine gives a file is the only one that "deepest directory first, then preferred match" decides. |
| Readings.FaithfulIsDetermined | ruletree/toplevel.go:258-297 | Two faithful overlays of one tree read the same everywhere: incremental equals rebuilt. |
| Runs.RunReadsReference | ruletree/toplevel.go:144-297 | At any point of any run of requests, what is read for any directory of any mount is the list that, for each rule and each user or group, says how many of its files have both, how large they are and when the latest was changed; the rule of each file is the only one that "deepest directory first, then preferred match" decides. |
| Runs.KeepingFits | ruletree/toplevel.go:212-231 | A removal after which the directory keeps rules, and a match that reaches below if it had any, leaves no file stale. |
| Removals.NoneStaleIsFaithful | ruletree/toplevel.go:212-297 | After any removal that leaves no file stale the overlay is faithful to the rules that are left. |
| Stale.RemovalReadsRight | ruletree/toplevel.go:212-297 | After any rule is removed, whatever else the mount has, every summary is right if and only if no file is stale: none with the removed rule below a `*` directory that does not notice, none with it in a directory told to copy from further up, and none shut out by a mount that does not notice. |
| Stale.HeededReadsRight | ruletree/statemachine.go:239-275 | Without text after stars a removed last rule reads right if and only if each `*` directory above is noticed, or no file had the rule. |
| Tidy.TidyLeavesNoneStale | ruletree/statemachine.go:655-744 | While overlays have nodes only where rules ask for them, a directory that keeps rules leaves no file stale, provided that, if it loses what reaches below, only `*` reached there before and does so now. |
| Tidy.GentleKeepsTidy | ruletree/ruletree.go:162-194 | Such requests keep every overlay tidy, so that any number of them can follow. |
| Parents.SetAfter | ruletree/statemachine.go:239-275 | A directory that is set after the emptied one is marked as having a changed parent exactly if it is made below a marked directory. |
| Samples.NeighbourDecides | ruletree/statemachine.go:239-275 | Whether it is noticed can depend on a neighbour's name. |
| Samples.StaleAfterRemoval | ruletree/toplevel.go:212-297 | A concrete run of requests that ends with a wrong summary: `/m/z/` has not noticed that `/m/z/x/y/` has lost its `*`. |
| Samples.StaleFurtherDown | ruletree/statemachine.go:680-700 | A run that ends with a file shown under the removed `*.log`, because `/m/z/` with its `*.txt` tells the directories below to copy. |
| Samples.StaleAfterDrop | ruletree/statemachine.go:680-700 | A run that ends with a file shown under the removed `*.txt` of a directory that keeps a plain name. |
| Samples.StaleElsewhere | ruletree/statemachine.go:731-744 | A run that ends with a file under `*` that has nothing to do with the removed rule and should be under `*.txt`. |
| Prefixes.PutUnderIsRead | ruletree/overlay.go:103-237 | Below a directory put under a rule, a directory whose files all have one rule reads right if and only if it has no files or its wildcard is that rule. |
| Prefixes.PrefixReads | ruletree/statemachine.go:702-728 | With a lone `pre*` every directory at or below one that it matches reads right if and only if it has no files, whatever the tree. |
| Prefixes.BuildMountTree | ruletree/statemachine.go:598-622 | The rule tree of a freshly loaded mount with any canonical rules of its own. |
| Prefixes.BuildPrefixTree | ruletree/statemachine.go:598-622 | The rule tree of that mount, `Canon` included. |
| TopLevels.MergeRules | ruletree/overlay.go:65-86 | Merging a child's list keeps the canonical form, and the merged list counts the files of both. |
| TopLevels.Forest.Update | ruletree/toplevel.go:429-452 | If only a directory and those above it are stale, all top-level summaries are right afterwards. |
| TopLevels.Forest.GetMountPoint | ruletree/toplevel.go:132-140 | The one mount at or above the directory, in whatever order they are looked at. |
| TopLevels.Forest.CreateTopLevelDirs | ruletree/toplevel.go:647-675 | Refused if and only if the new tree would be nested with another, and then nothing has changed. |
| TopLevels.Forest.Attach | ruletree/toplevel.go:512-556 | With the tree in place, all directories above the mounts are there, no others, and their summaries are right. |
| RootDirs.RootDir.AddTree | ruletree/toplevel.go:512-556 | A step of a run; all summaries above the mounts are the reference over all trees below. |
| RootDirs.RootDir.AddRules | ruletree/toplevel.go:142-210 | A step of a run; `ErrRuleExists` if and only if a match of the list has a rule already, the panic `SliceOutOfRange` if and only if it has not and no mount holds the directory, and else the new rules are in; refused requests change nothing. |
| RootDirs.RootDir.AddRule | ruletree/toplevel.go:142-169 | The same for one rule. |
| RootDirs.RootDir.RemoveRule | ruletree/toplevel.go:212-231 | Each of four outcomes with its exact condition. If no file is left stale it is a step of a run and the object is fit for later requests, whatever the directory keeps; in any case what is read is right if and only if no file is left stale. |
| RootDirs.RootDir.RegenRules | ruletree/toplevel.go:258-297 | Only the mount of the changed directory is processed again, on top of its old overlay, and the directories above are summed up anew. |
| RootDirs.RootDir.Summary | ruletree/toplevel.go:300-311 | After any requests, any directory in a mount or above one reads as the list that counts its files by rule, user and group, with their sizes and the latest time; others are refused. |
| RootDirs.RootDir.GetSummaries | ruletree/toplevel.go:316-345 | Many directories read at once read as the reference grouping; refused only for a directory outside everything. |
| Batches.GetSummaries | ruletree/toplevel.go:316-397 | One batch gives exactly what reading the directories one by one gives. |
| Batches.Batch.GetSummaries | ruletree/overlay.go:116-134 | The walk led by the machine of targets and their parents collects exactly the targets that exist. |
| Batches.TargetPaths | ruletree/toplevel.go:347-362 | Although the loop over the parents ends early, all directories above the targets are there, targets marked as such in any order. |
| Batches.TargetAnswer | ruletree/toplevel.go:364-377 | The machine knows the targets, the directories above them, and nothing else. |
| Batches.ParentPartsAre | ruletree/toplevel.go:692-718 | The texts of the directories above, longest first, with or without the slash at the end. |
| Batches.KidsAreSummaries | ruletree/overlay.go:181-201 | What a summary says of a child is what reading the child says. |
| Claims.ReadElsewhere | backend/tree.go:67-90 | After a change at a directory, every directory neither above nor below it reads exactly as before. |
| Claims.Server.UpdateDirSummaries | backend/tree.go:67-90 | Exactly the claims above and below are read again; refused if one of them is outside everything, and then none is. |
| Claims.Server.AddTree | backend/tree.go:51-65 | After loading a tree every claimed directory that is there has its summary as it reads. |
| Claims.Server.CreateRule | backend/rules.go:484-527 | The same after adding a list of rules, with each refusal exactly. |
| Claims.Server.RemoveRule | backend/rules.go:690-724 | After removing any rule exactly the claims above and below are read again; if that left no file stale all of them are coherent. |
| Samples.StaleClaim | backend/tree.go:67-90 | A run in which a tree is loaded again without a claimed directory: its summary stays although nothing can be read for it. |
| Claims.Server.ClaimDir | backend/rules.go:171-249 | A directory can be claimed if and only if it is free, allowed and there; the claim keeps its summary. |
| Claims.Server.RevokeDirClaim | backend/rules.go:315-342 | Only a claim without rules is given up; the others stay coherent. |
| BackupGroups.Marking.MarkBackupDirs | ruletree/statemachine.go:394-415 | Exactly the directories with rules at or below a backup rule are marked, and exactly those above a marked one. |
| BackupGroups.Marking.CollectRuleGroups | backups/backups.go:161-183 | The groups added are exactly those of the marked directories. |
| BackupGroups.FileGroup | backups/backups.go:185-208 | With those groups added, every file still gets a rule of the deepest directory that has any for it, or none. |
| Backups.VisitMissesNothing | backups/backups.go:185-208 | If every directory with such a file is entered, the walk finds all files to be backed up, in the order of the tree. |
| Backups.VisitHolds | backups/backups.go:185-208 | What the walk hands on for a directory is exactly the files that it reaches and that have one of that directory's backup rules, with their paths and times, each once and in the order of the tree. |
| Backups.Selection.FigureOutFOFNs | backups/backups.go:185-208 | The loops call back for exactly the visited files, in order, each under its rule's directory. |
| Backups.Backup | backups/backups.go:56-99 | The set of each directory holds, in the order of the tree and each once, the path and time of exactly those files that the walk reaches and that are given one of its backup rules, and no directory has an empty set; when the rules let the walk be followed it reaches every file with a backup rule. |
| Shadows.EntersAllIffUnshadowed | backups/backups.go:161-208 | With matches of at most one star, the walk enters every directory with a file to be backed up if and only if no directory has a match that shadows a backup rule. |
| Shadows.ShadowIsMissed | backups/backups.go:161-208 | For every shadow there is a file to be backed up in a directory that is not entered. |
| Shadows.ShadowsToBeSeen | backups/backups.go:161-208 | Two kinds of rules with a shadow, and a usual plan without. |
| Shadows.PrefixRuleIsNotFollowed | backups/backups.go:161-208 | A lone backup rule `pre*` is not followed into `pre/`. |
| Treemaps.ChooseSplit | frontend/src/disktree.ts:120-141 | Where the next strip ends: before the first entry that would get a shape further from the wanted ratio than the one before it has, in a column only once that one is wider than wanted. |
| Treemaps.CutStrip | frontend/src/disktree.ts:116-141 | The strip that starts at the next entry, a row or a column as the box asks for, and ends there. |
| Treemaps.LayStrip | frontend/src/disktree.ts:116-167 | One turn of the loop: the rectangles of that strip are added to those that were there, none overlapping, each with its share of the area, and the rest of the box is left. |
| Treemaps.BuildTree | frontend/src/disktree.ts:104-170 | The rectangles lie in the box, do not overlap, and have areas in proportion to their values; they are laid out strip by strip, each as the box left over and the wanted ratio ask for, as long as there is one unit of width and height, and entries are left out only when there is not. |
| Treemaps.FilterTable | frontend/src/disktree.ts:203-211 | An entry is kept if and only if it is above zero and fewer than a thousand entries before it are; those kept come once each and in order. |
| Treemaps.BuildTreeMap | frontend/src/disktree.ts:189-210 | The same for the table's entries that are laid out. |
| Checksums.MakeTable | frontend/src/odf.ts:33-45 | Every entry is eight steps of the register from its index. |
| Checksums.StepTimesX | frontend/src/odf.ts:33-45 | A step of the register is multiplication by x modulo the generator, given by its exponents 32, 26, 23, 22, 16, 12, 11, 10, 8, 7, 5, 4, 2, 1 and 0. |
| Checksums.CheckValue | frontend/src/odf.ts:47-55 | The checksum of the text "123456789" is 0xCBF43926. |
| Checksums.GenerateCRC | frontend/src/odf.ts:47-55 | The table-driven loop computes the CRC-32 as defined bit by bit. |
| Archives.WriteFile | frontend/src/odf.go:77-125 | Both streams grow by one file's local and central record, with the CRC-32 of its contents. |
| Archives.Run | frontend/src/odf.go:36-75 | The template is an archive without contents, and the three offsets are where the contents and their sizes belong. |
| Archives.ArchiveIsRead | frontend/src/odf.go:77-136 | A reader that follows the central directory recovers exactly the files. |
| Archives.SmallArchive | frontend/src/odf.go:77-136 | A concrete archive byte by byte: signatures, the order of the fields, the packed size before the other, the lowest byte first. |
| Archives.ExportIsRead | frontend/src/odf.ts:162-179 | A reader that also checks every checksum accepts an exported archive and finds the contents. |
| Archives.Exporter.Export | frontend/src/odf.ts:162-179 | Patching and splicing gives exactly the archive with these contents and their CRC-32, however often something was exported before. |

## Left out

- Shape of the data: the pointer trees of rules and of top-level directories are
  flattened to maps from paths. The children of a node and their names are kept,
  aliasing is not. User and group names, owners and last-modified times are dropped.
- Numbers: totals are unbounded; the source adds in 64 bits. `Formats` names the
  widths. A negative mtime or size, which treegen turns into a large number, is not
  modelled.
- The state machine library and the byte and tree libraries are not part of the
  repository: a compiled machine is what `Implements` says, a number's coding is a
  parameter with the assumptions that `Formats.Sound` names, and `slices.SortFunc` is an
  insertion sort of which nothing is used beyond sorting a weak order.
- A tree mounted at `/`, at which `createTopLevelDirs` panics (`rootPath[1:0]`,
  ruletree/toplevel.go:647-651), a rule directory with a `*` in its name, and the rule id
  2^63 - 1 are excluded.
- Stale.RemovalReadsRight: that a stale file is read wrongly needs the removed rule's id to
  be no other rule's in the mount, as database keys are.
- RootDirs.RootDir.AddRules: for a list with at least one rule, as `createRule` passes.
- Runs.RunReadsReference: overrides, matches with text before a star or with two stars,
  and matches that name a path before the first star are outside the fragment of whole
  runs. After a removal that leaves a file stale nothing is said of later requests.
- Prefixes.PrefixReads: for `pre*` as the only rule of a mount. For other matches with text
  before a star `Heads` says which directories are put under a rule and when that is right,
  for rules on one list and without override; whole runs with them are not modelled.
- Heads.PutUnderIffNothingBefore: that a match which comes first is wrong for some file needs
  the rule's id to be no other rule's, as database keys are.
- Processor.RuleProcessor.ProcessDir: processes children one after the other;
  `ForkJoin` covers the other schedules, on values.
- Shadows.EntersAllIffUnshadowed: that a shadow always hides some file needs a
  character that occurs in no match; matches that use up every character could describe
  a file that is found all the same.
- Backups.Backup: for canonical rules without override; with more than one star in a
  match that reaches into directories, what is promised needs the directory's matches to
  be ranked. Sending the sets to the backup server is not part of this model.
- Batches.GetSummaries: for requested directories without a `*` in their names; files
  are not requested.
- Claims.Server.ClaimDir: who may claim is a parameter; the database, sessions and
  HTTP are not part of this model, nor is the second copy of the rules that the server
  keeps beside those of `RootDir`.
- TreeGen.Generate: a directory's files come as a sequence; the channels that stream
  them, and the parser of the scan files, are not part of this model.
- Treemaps.BuildTree: over reals, so rounding is not modelled; fonts and labels are
  left out.
- Archives.Exporter.Export: compression is a parameter; characters above 255, which
  the source truncates, are not modelled.
- Listing paths by glob, reports, the git and NFS checks, freezing and the database.
