# remote-docker: verified models of its stateful cores

remote-docker serves a user's directories to containers on another machine. This
project models, in Dafny, the parts of it that keep a derived structure or a shared
resource consistent over unbounded runs, and proves what they promise.

- **Prefetch** (`TreePolicy`, `TreePromotion`, `TreeShape`, `TreeLayout`, `TreeSteps`,
  `TreeBuild`, `PrefetchTree`, `Sender`): the tree of small files with its incremental
  counters, laid out and rebuilt level by level; the climb that one read starts and what
  it brings; the walk's leftovers; and the sender that queues, sends and takes back
  batches.
- **Write-back** (`ShareView`, `Decide`, `DecideLaws`, `Links`, `WritePass`, `PassRun`,
  `Implied`, `Retries`, `Invalidate`): what a container's changes do to the files of
  this machine, last writer wins, with baselines, skewed clocks, times rounded to the
  second, execute bits, implied deletions, retries and the edits withheld meanwhile;
  each step of a pass while files change at any moment, and a whole pass while they
  do not.
- **Shared descriptors** (`FdCache`, `SharedFile`), **the Hyper-V service** (`Broker`),
  **ports and accounts** (`PortMapping`, `Ports`, `Uids`, `Accounts`), **enrolment
  tokens** (`Tokens`) and **the event coalescer** (`Coalesce`).

`Sorting` holds the stable sort that the original takes from its library, `Basics` what
several modules share.

How the models are built:

- Code that changes things in place is a class whose methods are proved against
  functions of the state. Where the original releases a lock, every stretch under a
  lock, every rename, remove or outside call is one method, so any order of calls is
  an interleaving; what a thread still has to do in between is a token or a stage
  that the methods consume.
- What the outside answers (a filesystem, Hyper-V, a store, the question behind a
  preferred port) is a parameter that may take any value.
- Times are integer nanoseconds. Integers are unbounded. The prefetch policy's
  floating point is over `real`.
- A large invariant is stated as `forall k {:trigger Unlocked(k)} :: Unlocked(k) ==> ...`, which
  hands its contents to a proof only where a lemma asks for them.

What does not hold of the code as it stands is stated too, with the input that shows it
and the exact condition: a version the container wrote of a file that an earlier session
sent and that is gone here is dropped without a word (`RecordHides`, `SilentExactly`); a
chmod +x of a file nobody may read leaves its bit unset, so decided from the files alone
the same change comes up again (`ChmodAsksAgain`, `ChmodConverges`); a pass nobody
disturbs leaves nothing to move but files it did not ask for, what is stuck for a reason
named and what the list has under a link (`PassRun.Pass`, `Stuck`, `UnderLink`): among
the stuck is a directory kept for ever by a link inside it that leads nowhere, whose own
removal is never decided (`LinkKeepsDir`); where a list names a path twice, an action
may go out without the change time it was decided by (`RepeatLosesTime`,
`MarkedLicensed`); with a changing order, passes that together have room for every
pending path may still pass one over, though not for long (`OrdersCanSkip`,
`AskedBeforeLong`); invalidation and write-back name different winners for a held file
the container wrote later by no more than the margin (`SameWinner`, `WinnersDiffer`),
although the comment at `dircache/decide.go:432-437` says they never disagree; a seek to
before the start of a file is refused by a private descriptor and not by a shared one
(`SeekingBackDiffers`, `StepAgrees`, `OnlyForwardRunsAgree`); a token id minted again
while a claim of it is out has two files (`MintedTwice`, `MintNeedsFresh`); a revocation
during which the token's claim is put back answers "no token" while the token lives
(`RevokeMisses`, `RevokeEnd`); and an account purged twice around its re-enrolment is
published with keys and without a unix user (`PurgeOvertakes`), which happens exactly if
an Ensure had returned, unnoted, when the purge began (`PurgeBegins`, `PurgeEnds`,
`PublishedIsProvisioned`).

## Model

| member | source | states |
|---|---|---|
| PrefetchTree.NewTree | dircache/tree.go:197-205 | a tree is refused exactly for a branching that is neither 0 nor at least 2; otherwise it holds the entries under the layout with its defaults, nothing fetched, with every invariant |
| PrefetchTree.Tree.constructor | dircache/tree.go:197-205 | every small file is in the tree, unstored and unread, and the tree is the one laid out from them |
| PrefetchTree.Tree.Unfold | dircache/tree.go:225-245 | what Valid stands for: parents and children agree, `where` points at exactly one leaf and index of each small file, counters are the sums of what is below, limits hold |
| PrefetchTree.Tree.CountersAreSums | dircache/tree.go:143-154 | in every reachable state the five counters of every node are the tally over its files of the flat map path -> (stored, read) |
| PrefetchTree.Tree.Contents | dircache/tree.go:225-234 | the paths of the tree are exactly those at or below the large-file size, each once |
| PrefetchTree.Tree.Add | dircache/tree.go:217-222 | the tree then holds old and new files, laid out afresh, every known path keeps its state, new ones are untouched |
| PrefetchTree.Tree.Rebuild | dircache/tree.go:225-245 | the tree is the one the files in walk order are laid out to, leaf by leaf and level by level, with the state carried over by path |
| PrefetchTree.Tree.SetLink | dircache/tree.go:209-209 | only the link changes; state and layout stay |
| PrefetchTree.Tree.LevelFor | dircache/tree.go:336-342 | the least level whose span holds the size |
| PrefetchTree.Tree.Place | dircache/tree.go:268-294 | the loop over windows makes exactly the leaves that the reference layout names, in order |
| PrefetchTree.Tree.CutWindow | dircache/tree.go:298-333 | one sorted window becomes the reference leaves, each at the level that fits it |
| TreeLayout.LeavesHoldAll | dircache/tree.go:268-333 | the leaves hold every file exactly once, whatever the sizes |
| TreeLayout.LeavesWithinLimits | dircache/tree.go:296-333 | no leaf is empty, and one of several files is within the leaf size |
| TreeLayout.CutIsTight | dircache/tree.go:298-333 | no leaf of a window has room for the first file of the next, which with order and limits leaves one way to cut it |
| PrefetchTree.Tree.RunEnd | dircache/tree.go:362-365 | a run is the longest of items at or below the level, up to branching |
| TreeBuild.TowardNext | dircache/tree.go:355-386 | joining a run of nodes in place, or moving a lone one up, is a step of the reference level |
| PrefetchTree.Tree.BuildLevel | dircache/tree.go:355-386 | one level joins exactly the runs that the reference joins, wraps no item alone, passes those above it, keeps the order of files, and leaves fewer items or a nearer top level |
| PrefetchTree.Tree.Build | dircache/tree.go:351-388 | terminates, by levels still to reach and then items, in the tree the reference comes to from level 0 up, in one root over all leaves in order, internal nodes with two to branching children |
| PrefetchTree.Tree.AddRead | dircache/tree.go:571-575 | adding along the parent chain restores the sums at every node |
| PrefetchTree.Tree.AddFetched | dircache/tree.go:577-582 | the same for fetched bytes and files |
| TreeShape.AddUpMends | dircache/tree.go:571-582 | a chain update mends exactly the sums that a changed leaf left short |
| PrefetchTree.Tree.MarkStored | dircache/tree.go:562-569 | one file becomes stored and unread in the flat map; sums follow |
| PrefetchTree.Tree.MarkSent | dircache/tree.go:540-546 | a known unstored path becomes stored, anything else changes nothing |
| PrefetchTree.Tree.Unstore | dircache/tree.go:550-559 | exactly the given stored files go back to untouched, each taking the size it was given with off the counters |
| PrefetchTree.Tree.Cached | dircache/tree.go:391-397 | true exactly for a known stored path |
| PrefetchTree.Tree.Stored | dircache/tree.go:585-597 | the counts are the tally over all files of the flat map |
| PrefetchTree.Tree.Promote | dircache/tree.go:469-497 | decides by the node's counters as the policy decides by sums computed from scratch |
| PrefetchTree.Tree.Fetch | dircache/tree.go:517-534 | everything unstored below a node is marked and returned, each once |
| PrefetchTree.Tree.Read | dircache/tree.go:409-466 | the flat map after a miss is the reference climb over the ancestors; something comes exactly if a node on the way to the root is worth it within the cap, and then every byte of that node; what is returned is distinct, was unstored, is now stored, and stays within the cap in total |
| TreePromotion.EarnsExactly | dircache/tree.go:469-497 | a node has earned its fetch exactly if of an inner one no more than the share 1 - nodePromote is left, and of a leaf something is left unread and what was read is all that is left, or the least evidence at least and so much that read * files * BDP reaches the square of the bytes left |
| TreePromotion.ReadDecides | dircache/tree.go:483-497 | nothing read never earns a leaf, all of what is left always does, in between never less than the least evidence |
| TreePromotion.MoreReadIsEnough | dircache/tree.go:483-497 | more read, or more files for the same bytes left, never takes a leaf's fetch away |
| TreePromotion.MoreStoredIsWorthMore | dircache/tree.go:472-480 | more stored of the same bytes never takes an inner node's fetch away |
| TreePromotion.BringsExactly | dircache/tree.go:431-466 | a climb brings something exactly if a node on the way is worth it within the cap, and then that node to its last byte |
| TreePromotion.ReadWholeBringsNothing | dircache/tree.go:151-160 | with nothing stored on the way and the leaf read whole, a miss brings nothing |
| TreePromotion.RoundTripBytes | dircache/tree.go:29-34 | a measured link's round trip carries bandwidth times time, cut to whole bytes; one not measured counts as a leaf |
| TreePromotion.CapIsRoundTrips | dircache/tree.go:499-513 | the cap is the given number of round trips, cut to whole bytes |
| TreePolicy.ClimbWithinCap | dircache/tree.go:431-466 | over the whole climb, not per node, a miss stores no more bytes than the cap |
| TreePolicy.StoreAllAdds | dircache/tree.go:517-534 | storing a group adds to the whole exactly what the group had unfetched |
| TreePolicy.UsableDefaults | dircache/tree.go:97-123 | the defaults make a usable layout exactly when the branching is 0 or at least 2; a usable one stays as given, and an empty one gets the documented values |
| PrefetchTree.Tree.Unstored | dircache/tree.go:604-643 | the batch is the reference walk batch of the unstored files, and exactly it is then stored |
| TreePolicy.WalkBatchIsPrefix | dircache/tree.go:628-642 | a walk batch is a prefix of the unstored files sorted by size and path |
| TreePolicy.WalkBatchSmallestFirst | dircache/tree.go:599-643 | no file left out is smaller than one taken |
| TreePolicy.WalkBatchLimits | dircache/tree.go:604-643 | at most the file limit, within the byte limit unless it is one file, and not empty while something is left |
| TreePolicy.WalkBatchIsLongest | dircache/tree.go:633-643 | one more of the files left would take a walk batch over one of the limits |
| TreePolicy.BatchedWalk | dircache/tree.go:604-643 | all of this at once: files of the list, none twice, smallest first, within the limits and no shorter than they allow |
| TreePolicy.BySizePathOrders | dircache/tree.go:647-649 | size, then path, is a total order |
| Sender.Sender.Touch | dircache/prefetch.go:103-125 | a read that is not of an eager share leaves the tree as Read does and queues exactly what it newly stores |
| Sender.Sender.Raise | dircache/prefetch.go:180-205 | a share under way becomes eager exactly if it was or is ordered to be, and nothing is forgotten |
| Sender.Order | dircache/prefetch.go:180-213 | a share with nothing to fill starts an empty fill under the policy ordered, one under way never sends less, and an order for nothing changes nothing |
| Sender.Sender.Feed | dircache/prefetch.go:228-242 | the walk's files join the tree; what the cache holds already is stored and held, never queued |
| Sender.Sender.Next | dircache/prefetch.go:352-383 | queued demand first and in order; without it nothing exactly while a refusal is waited out, somebody reads, the budget is used up or nothing is unsent, else the smallest unsent files, as many as the policy's batch and the budget allow; at most the file budget, and less than the byte budget and one large file, is then stored |
| Sender.WalkWithinBudget | dircache/prefetch.go:366-383 | the budget law for one walk batch over any tree |
| Sender.Sender.BatchFailed | dircache/prefetch.go:310-324 | exactly the batch's files go back to unstored, and the next try waits the doubled, bounded delay |
| Sender.Sender.BatchSent | dircache/prefetch.go:336-341 | the batch is accepted and a run of failures ends |
| Sender.Sender.SetLink | dircache/prefetch.go:297-301 | the next decision uses the link as measured, and nothing stored or queued is forgotten |
| Sender.AccountedTakes | dircache/prefetch.go:116-119 | files newly stored join the live batches, so stored stays the disjoint union of held, live and accepted |
| Sender.AccountedRefused | dircache/prefetch.go:316-316 | a refused batch leaves that union by exactly its own files |
| Sender.LiveApart | dircache/prefetch.go:272-305 | no file is in two live batches |
| Sender.Backoff | dircache/wbstate.go:130-136 | the loop gives min(minimum * 2^failures, maximum) |
| ShareView.RoundIsNearest | dircache/decide.go:79-82 | rounding gives the nearest whole second, halfway up, and rounding twice changes nothing |
| ShareView.CopiedIsNear | dircache/decide.go:76-82 | a time counts as copied exactly if it is the same, or one of the two is the whole second nearest to the other; never more than half a second off |
| ShareView.ExecBits | dircache/decide.go:477-486 | chmod +x adds an execute bit where there is a read bit and takes nothing, chmod -x takes the execute bits and nothing else |
| ShareView.MeetInABit | dircache/decide.go:460-473 | the consumer can run a file exactly if its mode and the mask have a bit in common |
| ShareView.RunsByABit | dircache/decide.go:460-486 | a file runs exactly by an execute bit and is readable exactly by a read bit |
| ShareView.DirIsNext | dircache/decide.go:264-266 | climbing from a rooted path meets exactly the directories above it |
| ShareView.AboveGoesOn | dircache/decide.go:255-270 | a directory is above exactly the paths that go on from it after a slash |
| Decide.Holding | dircache/decide.go:255-270 | the set built holds exactly the recorded paths and the directories above them |
| Decide.DecideAll | dircache/decide.go:244-399 | each change is decided on its own and each action marked with what was seen of its path, by the last change of it; with every path once, each action is that of its change alone |
| DecideLaws.FileOutcome | dircache/decide.go:337-393 | for a file present here, exactly when the container's version replaces it, only its execute bit does, it is adopted, or this machine's is kept |
| DecideLaws.NewFileOutcome | dircache/decide.go:352-430 | for one this machine lacks, exactly when it comes |
| DecideLaws.DeletionOutcome | dircache/decide.go:362-417 | a deletion is carried out exactly for an untouched held file or one last changed before it by more than the margin |
| DecideLaws.DirOutcome | dircache/decide.go:278-335 | exactly when a directory is made, removed, or kept against a file |
| DecideLaws.ReasonIsTrue | dircache/decide.go:200-211 | the reason a person reads for a version kept is true of the times and files |
| DecideLaws.ActionCarries | dircache/decide.go:337-447 | an action carries the consumer's time exactly where its version is taken or weighed, an execute bit to flip exactly for a chmod or a write over a file here, and says a directory exactly for its removal |
| DecideLaws.TimeIsAsked | dircache/decide.go:295-311 | this machine's change time is looked at exactly where the two sides' times are held against each other and the consumer's is known |
| DecideLaws.OneIsLicensed | dircache/decide.go:289-399 | one change touches a file present here only with a licence, said by sizes and times themselves: still the size and time of the baseline, or the consumer later by the required amount |
| DecideLaws.AllLicensed | dircache/decide.go:244-399 | the same for every action of every change list, skew and margin |
| DecideLaws.MarkedLicensed | dircache/decide.go:244-399 | for any list, paths repeated or not, every marked action is a change's own and licensed, and carries the change time it was decided by exactly if the path's last change was decided by it too or by none |
| DecideLaws.RepeatLosesTime | dircache/decide.go:244-399 | the input: a removal decided by the change time in a list that names the path again |
| DecideLaws.GuardKeepsLicence | dircache/writepass.go:362-383 | what the check just before a touch lets through is licensed by the file as it then is |
| DecideLaws.SilentExactly | dircache/decide.go:337-360 | the consumer's file gets no action exactly when it is a copy of a held file here, its baseline's version, or recorded and gone here |
| DecideLaws.EditIsAnswered | dircache/decide.go:337-430 | a consumer's file of another size, or of a time more than half a second off, than the file here and its baseline is never silent, adopted or taken for a chmod, and is written where what was sent is here still or gone |
| DecideLaws.RecordHides | dircache/decide.go:357-360 | a container's version of a recorded, unsent, absent file is dropped silently |
| DecideLaws.WriteConverges | dircache/cache.go:929-956 | a landed write is decided again as nothing exactly when its execute bit landed, otherwise only the bit is asked for or kept |
| DecideLaws.ChmodConverges | dircache/writepass.go:196-215 | a landed chmod leaves nothing but a baseline to take exactly when the bit was cleared or the file is readable |
| DecideLaws.ChmodAsksAgain | dircache/writepass.go:196-215 | the input: a file nobody may read stays as it is under chmod +x and the bit is asked for |
| DecideLaws.AdoptConverges | dircache/writepass.go:219-231 | an adopted copy is not asked about again |
| DecideLaws.DeleteConverges | dircache/writepass.go:124-174 | a deletion that landed is not decided again |
| DecideLaws.MkdirConverges | dircache/writepass.go:178-191 | a directory made is not made again |
| DecideLaws.PassSettles | dircache/writepass.go:113-121 | once every decision over a change list has landed, the same changes leave nothing to move, also where files landed under reported directories or a directory came to be |
| Links.LinkIsLicensed | dircache/replace.go:102-128 | a link lands exactly where nothing is, or on a link whose target length and time are those write-back recorded; otherwise it is agreed, or kept for the reason that is true |
| Links.LinkConverges | dircache/replace.go:102-128 | a landed link is agreed, and one pointed elsewhere afterwards replaces it |
| Links.DecideLinks | dircache/replace.go:102-128 | the loop decides each link of the list |
| Links.Deletes | dircache/decide.go:508-519 | the paths to delete, none lost, by their number of slashes downwards and otherwise in order, so each before every directory above it |
| Links.SlashesCount | dircache/decide.go:516-518 | a slash counts one towards a path's depth, anything else nothing |
| WritePass.WritePass.Remove | dircache/writepass.go:124-145 | only the decided path goes, only with a licence as the file is then, with its baseline and record, and the deletion is settled; otherwise nothing changes |
| WritePass.WritePass.RemoveDir | dircache/writepass.go:150-175 | a directory, not a link, goes exactly if nothing is in it, not even a link that leads nowhere |
| WritePass.WritePass.MakeDir | dircache/writepass.go:178-191 | exactly the directory and those above it are made, over nothing, at the time of the step, and it is settled |
| WritePass.WritePass.ChangeMode | dircache/writepass.go:196-215 | only the mode of a licensed file changes, to what the filesystem keeps; it lands exactly if the bit is kept |
| WritePass.WritePass.LandLink | dircache/writepass.go:252-270 | a link lands exactly where its decision saw what is there: nothing, or a link write-back made and nobody touched; what was seen through the old one is seen no more, what the new one leads to is, and it is recorded and then agreed |
| WritePass.LinkShows | dircache/writepass.go:252-270 | where a link has landed is what it leads to, with its change time, or nothing, and what lay under its path is gone |
| WritePass.WritePass.Land | dircache/writepass.go:274-355 | whatever version arrives, every other file stays and the target is replaced only with a licence as it is then, keeping its own bits but for the flip |
| WritePass.WritePass.Bring | dircache/writepass.go:274-319 | a landed file and its baseline: the version reported is settled exactly if its execute bit is, any other is what is on record |
| WritePass.WritePass.AdoptCopy | dircache/writepass.go:219-231 | a copy has its baseline taken exactly if it is still as seen, and is then settled exactly if it is a file with the bit reported |
| WritePass.WritePass.Commit | dircache/writepass.go:420-427 | baseline and record move with what landed, and what is gone again has no baseline; the version reported is settled exactly if its execute bit is |
| PassRun.CarriedSteps | dircache/writepass.go:53-93 | a later step of the pass keeps what was done before it settled, also where a directory came to be there later than the change or a link cut off what a removal had removed |
| PassRun.SettledStays | dircache/writepass.go:113-121 | what is settled moves nothing when it is decided again |
| PassRun.StuckIsLeft | dircache/writepass.go:124-345 | what is stuck is not done, a link included |
| PassRun.LinkKeepsDir | dircache/writepass.go:150-175 | the input: a directory with a link to nowhere in it; its removal is decided and stuck, and the link's own is never decided |
| PassRun.StillAsks | dircache/writepass.go:72-89 | a file the pass did not try is decided again as before, unless a directory came to be there |
| PassRun.Carry | dircache/writepass.go:124-319 | one action of a pass nobody disturbs, a link's too: settled, stuck or listed under a link, other paths untouched but for directories made and what was seen through a link replaced, the filesystem still one |
| PassRun.Run | dircache/writepass.go:53-93 | over a whole pass in any order with deletions first and deepest first, every change is settled, not tried, stuck or listed under a link; decided again only the last three move anything, what is stuck is not done, and a file not tried still comes |
| PassRun.Plan | dircache/writepass.go:57-89 | the source's order (deletions, directories and modes, links, copies, files asked for) is such an order, and leaves out exactly the files not asked for |
| PassRun.Pass | dircache/writepass.go:53-121 | decide, links too, order, carry out: the same changes then move nothing but files not asked for, what is stuck and what is listed under a link; what is stuck is not done, and a file not asked for still comes unless a directory is there |
| Implied.HiddenAt | dircache/writeback.go:357-365 | exactly the directories removed or replaced, with their times |
| Implied.EarliestHidden | dircache/writeback.go:370-378 | the earliest known removal time above a path, 0 exactly when none is known |
| Implied.ReplacedDeletions | dircache/replace.go:36-68 | sorted, without repeats, exactly the files the fill sent under a removal that the consumer does not list |
| Implied.ConfirmedAbsent | dircache/writeback.go:183-217 | exactly the candidates of answered chunks, before any failed one, that the consumer does not have |
| Implied.Removals.Walked | dircache/wbstate.go:362-382 | a directory is listed once for each removal of it |
| Implied.Removals.UnheldUnder | dircache/writeback.go:386-408 | exactly what this machine had there when the removal was first seen, still has, and never sent |
| Implied.Removals.ImpliedDeletions | dircache/writeback.go:338-353 | every confirmed candidate, and nothing else, once, as a deletion at the earliest removal above it, never for a listed path; with the changes a path is twice exactly if a replaced directory is confirmed gone |
| Implied.ImpliedIsSafe | dircache/decide.go:326-374 | a file goes by an implied deletion only if it equals its baseline or last changed before the removal |
| Retries.Retries.Ranked | dircache/wbstate.go:237-246 | the stable order by tries, also where nothing was tried |
| Retries.Retries.Try | dircache/wbstate.go:250-265 | each path asked for that did not land counts one more |
| Retries.Retries.Landed | dircache/wbstate.go:270-284 | what landed is forgotten, tries, word and refusal, and nothing else |
| Retries.Retries.Forget | dircache/wbstate.go:308-324 | whatever is remembered of what is no longer pending is forgotten, walks too, and nothing else |
| Retries.Retries.Pass | dircache/writepass.go:72-80 | a capped pass asks for the first paths of the ranking; what lands is forgotten, the rest counted |
| Retries.NeverBehind | dircache/wbstate.go:237-265 | from equal counts, over any passes in any orders, of the paths that have not landed none was asked for more than once more than another |
| Retries.RunPasses | dircache/wbstate.go:237-284 | over passes of the retries in which paths land, the counts of those still waiting are those of the passes as listed, so NeverBehind and the waits below hold of them |
| Retries.RankedIsTurn | dircache/wbstate.go:237-246 | with a fixed order the ranking is a rotation: those not asked for this turn, then the rest |
| Retries.AskedInEveryRun | dircache/writepass.go:72-89 | with a fixed order, each of n paths is asked for in every run of passes with room for n |
| Retries.AskedBeforeLong | dircache/writepass.go:72-89 | with any orders, each of n paths is asked for in every run of passes with room for more than 2(n-1) |
| Retries.OrdersCanSkip | dircache/writepass.go:72-89 | an input on which room for n is not enough: of three paths taken two at a time one waits out two passes |
| Invalidate.WithoutLaterConsumerChanges | dircache/invalidate.go:287-324 | exactly the edits not withheld are sent, in order; all of them for a share whose changes are not carried back or when the container cannot be asked |
| Invalidate.WithheldExactly | dircache/invalidate.go:287-324 | an edit is withheld exactly for a file, link or removal of the container's own known to be later by more than the margin |
| Invalidate.WithheldIsCarried | dircache/invalidate.go:287-324 | a withheld edit is never also kept here: the container's version wins or the contents agree |
| Invalidate.WithheldDeletion | dircache/decide.go:403-418 | a withheld edit of a deleted file is kept exactly for a held file changed here |
| Invalidate.SameWinner | dircache/decide.go:419-447 | exactly when invalidation and write-back name the same winner |
| Invalidate.WinnersDiffer | dircache/decide.go:432-447 | an input on which they do not |
| Invalidate.HoldsConsumerWork | dircache/invalidate.go:264-275 | true exactly if a change under the directory is the container's own |
| Invalidate.WorkExactly | dircache/invalidate.go:264-275 | work is a file or link under the directory that is there still and not this machine's |
| Invalidate.DroppableDirs | dircache/invalidate.go:231-259 | exactly the directories gone here, with not even a link in their place, that hold nothing of the container's; all that are gone for a share whose changes are not carried back, none when the container cannot be asked |
| Invalidate.DropLosesNothing | dircache/invalidate.go:222-275 | of files listed under a dropped directory, write-back has nothing to bring |
| FdCache.FdCache.OpenFirst | core-client/nfsserve/fdcache.go:93-107 | a hit hands out an open descriptor nobody is closing; a miss changes nothing held |
| FdCache.FdCache.OpenSecond | core-client/nfsserve/fdcache.go:124-139 | the first descriptor there is kept and handed out open |
| FdCache.FdCache.OpenFailed | core-client/nfsserve/fdcache.go:113-122 | a failed open leaves nothing behind |
| FdCache.FdCache.Release | core-client/nfsserve/fdcache.go:145-169 | the last release arms the idle timer, or sets about closing an evicted descriptor |
| FdCache.FdCache.TimerFires | core-client/nfsserve/fdcache.go:167-167 | a fired timer becomes an eviction under way |
| FdCache.FdCache.EvictLookup | core-client/nfsserve/fdcache.go:181-188 | the entry found is the one evicted later |
| FdCache.FdCache.EvictEntry | core-client/nfsserve/fdcache.go:194-209 | this entry alone leaves the map, and is closed only if nobody holds it |
| FdCache.FdCache.CloseEntry | core-client/nfsserve/fdcache.go:172-176 | what is closed has no holder |
| FdCache.FdCache.SweepList | core-client/nfsserve/fdcache.go:232-239 | a removal or rename lists exactly what is held for the name and below it |
| FdCache.FdCache.SweepLookup | core-client/nfsserve/fdcache.go:241-243 | it looks up the next name as it then is |
| FdCache.FdCache.SweepEvict | core-client/nfsserve/fdcache.go:194-209 | it drops the descriptor in hand and no other that took its name |
| FdCache.FdCache.SweepEnd | core-client/nfsserve/fdcache.go:231-244 | in every interleaving, once it is over nothing held for the name or below it when it began is in the map |
| FdCache.FdCache.EvictTree | core-client/nfsserve/fdcache.go:231-244 | with nothing in between, nothing at or below the name stays and everything else does |
| FdCache.UnderGoesOn | core-client/nfsserve/fdcache.go:249-256 | everything is below the root, and below any other name exactly what goes on from it after a slash |
| FdCache.FdCache.Safe | core-client/nfsserve/fdcache.go:85-209 | in every interleaving: never closed while held, never found once closed, closed or closing once out of the map and free, evicted once idle |
| FdCache.FdCache.NothingLeaks | core-client/nfsserve/fdcache.go:145-209 | with nothing pending and no timer armed, every descriptor ever opened is closed |
| SharedFile.SharedFile.Write | core-client/nfsserve/fdcache.go:268-278 | a write lands at the request's own offset, wherever the descriptor was |
| SharedFile.SharedFile.Read | core-client/nfsserve/fdcache.go:280-290 | a read is from the request's own offset |
| SharedFile.SharedFile.Seek | core-client/nfsserve/fdcache.go:298-315 | only the request's own offset moves, as the shared semantics says |
| SharedFile.SharedFile.Truncate | core-client/nfsserve/fdcache.go:317-321 | the file is cut or filled with zeros and no offset moves |
| SharedFile.SharedFile.Close | core-client/nfsserve/fdcache.go:328-335 | however often it is closed, it is given back once |
| SharedFile.WritesCommute | core-client/nfsserve/fdcache.go:268-278 | writes that do not overlap land in either order |
| SharedFile.ReadFromByte | core-client/nfsserve/fdcache.go:280-290 | a read gives the bytes from its offset, as many as asked for or as there are |
| SharedFile.ReadsWhatWasWritten | core-client/nfsserve/fdcache.go:268-290 | what was written at an offset is read back from it |
| SharedFile.ResizedByte | core-client/nfsserve/fdcache.go:317-321 | a file cut or filled to a size keeps its bytes up to it, and zeros follow |
| SharedFile.TransfersAre | core-client/nfsserve/fdcache.go:268-290 | of a transfer as much is done as the kernel carries out, all of it if that is enough |
| SharedFile.StepAgrees | core-client/nfsserve/fdcache.go:260-335 | one operation agrees with a private descriptor exactly when it does not seek to before the start |
| SharedFile.SeekingBackDiffers | core-client/nfsserve/fdcache.go:298-315 | the input: a seek to before the start |
| SharedFile.RunsAgree | core-client/nfsserve/fdcache.go:260-335 | every interleaving of requests answers, and leaves the file, as private descriptors would |
| SharedFile.OnlyForwardRunsAgree | core-client/nfsserve/fdcache.go:260-335 | and only runs in which no call seeks to before the start answer as private descriptors would |
| Broker.Broker.Enter | machine/broker_server.go:106-117 | an operation refers to the lock of its name, made if need be |
| Broker.Broker.Take | machine/broker_server.go:126-128 | a name is taken exactly if nobody else holds it |
| Broker.Broker.LetGo | machine/broker_server.go:128-128 | the channel is free again and only this operation left it |
| Broker.Broker.Release | machine/broker_server.go:119-125 | the last reference discards the lock object and nobody else's |
| Broker.Broker.Exclusive | machine/broker_server.go:95-133 | at most one operation runs per name, whatever lock objects came and went |
| Broker.Broker.Access | machine/broker_server.go:301-320 | exactly which of four answers: recorded for the caller whatever the case of its SID, taken by another or unmanaged, in neither the record nor Hyper-V, or a failure; only the first goes on |
| Broker.FoldsAlike | machine/broker_server.go:301-320 | two SIDs are one caller's exactly if they differ in the case of letters alone |
| Broker.Broker.Act | machine/broker_server.go:385-402 | Start, Stop and Retract are made for the recorded owner |
| Broker.Broker.CheckFree | machine/broker_server.go:429-446 | a create goes on exactly if the name is neither recorded nor in Hyper-V |
| Broker.Broker.Put | machine/broker_server.go:447-449 | the record is written, or nothing is, before anything is built |
| Broker.Broker.Build | machine/broker_server.go:451-475 | a machine is built only for the recorded owner |
| Broker.Broker.Destroy | machine/broker_server.go:371-383 | a machine is destroyed only for the recorded owner or by a purge |
| Broker.Broker.RemoveRecord | machine/broker_records.go:90-100 | a record goes only after its machine, and only while it names the owner acted for |
| Broker.Broker.Restart | machine/broker_server.go:95-133 | a restart loses operations and locks, not records or machines, and keeps what is relied on |
| Broker.Slots.Acquire | machine/broker_server.go:178-196 | a slot is given exactly while the caller has fewer than its limit running |
| Broker.SlotsApart | machine/broker_server.go:178-184 | an administrator's operations count apart from a member's |
| PortMapping.Inverse | core/workspace/mapping.go:50-75 | PortForUID and UIDForPort are each other's inverse on all of both ranges |
| PortMapping.OneToOne | core/workspace/mapping.go:50-75 | no two uids have one port, no two ports one uid |
| PortMapping.InStep | core/workspace/mapping.go:50-75 | the first uid has the first port, one uid more is one port more, up to the last port |
| Ports.Ports.Load | core-agent/accounts/ports.go:382-405 | the record is read once; a failed read is tried again and is not an empty record |
| Ports.Ports.Lookup | core-agent/accounts/ports.go:222-231 | what the record, read if need be, has for a machine |
| Ports.Ports.Allocate | core-agent/accounts/ports.go:343-354 | the highest port nobody has and no account derives, 0 exactly if there is none |
| Ports.FreeIsNobodys | core-agent/accounts/ports.go:325-331 | a port may be given to another exactly if it is in range and no account that exists derives it |
| Ports.Ports.Decide | core-agent/accounts/ports.go:242-293 | over the record, read if need be: a machine on it keeps its port; a new one gets the port it wants if that is free and nobody's, else a lasting one its account's own if nobody has it, else the highest one free, under a new token; refused exactly if there is none; the file is written exactly for a new lasting machine and a record that can be |
| Ports.Ports.Hold | core-agent/accounts/ports.go:154-176 | over the record, read if need be: a run gets its port back exactly if it has it, or it is free and nobody's |
| Ports.Ports.FreeRun | core-agent/accounts/ports.go:181-190 | a port is freed exactly by the token it was last given with |
| Ports.Ports.Forget | core-agent/accounts/ports.go:194-211 | over the record, read if need be, exactly the account's lasting assignments go, and the file is written exactly if some did |
| Ports.Ports.Owns | core-agent/accounts/ports.go:359-377 | the record decides, and the formula only where it is silent |
| Ports.OneOwner | core-agent/accounts/ports.go:359-377 | no port is two accounts', given uids of their own |
| Ports.Ports.Restart | core-agent/accounts/ports.go:382-405 | a restart keeps the record on disk and its distinct ports |
| Ports.PortAfterRestart | core-agent/accounts/ports.go:242-293 | after a restart a new lasting machine whose port was written has it again; of a run, or of one not written, nothing new is known |
| Ports.For | core-agent/accounts/ports.go:88-121 | a machine with no name has the account's own port, a known one what is on record, any other what is decided, and a question that could not be put is an error |
| Uids.NextUid | core-agent/accounts/accounts.go:603-609 | one above everything on record, at least the base, and no higher |
| Uids.UidMap.Allocate | core-agent/accounts/accounts.go:400-420 | old uids stay, every name found has one, each new one above all on record, next to another or the base and in the order of the names; refused exactly if something is new and cannot be written, and then nothing changes |
| Uids.UidMap.Release | core-agent/accounts/accounts.go:583-599 | only the name leaves the record, and the highest uid released is kept, so its uid stays spent |
| Uids.UidMap.NeverTwice | core-agent/accounts/accounts.go:396-609 | over all syncs, releases and restarts no uid was ever on file for two names |
| Accounts.Gather | core-agent/accounts/accounts.go:266-299 | what the files contribute, by the two-read rule |
| Accounts.Store.Swap | core-agent/accounts/accounts.go:254-486 | an account has a key from a file exactly if it is provisioned and the file has it, or holds none for the first time and had it before; no account goes and none is new without keys; with a directory or the record unreadable nothing changes |
| Accounts.Store.Ensured | core-agent/accounts/accounts.go:502-510 | an account's user is made, never while a purge is under way |
| Accounts.Store.Note | core-agent/accounts/accounts.go:514-517 | only what Ensure settled on is noted |
| Accounts.Store.Finish | core-agent/accounts/accounts.go:521-524 | only the account's provisioning ends |
| Accounts.Store.PurgeBegins | core-agent/accounts/purge.go:17-32 | a purge goes on exactly for a published account without keys, which is then no longer provisioned; it races an Ensure exactly if one has returned unnoted, never for an account not being provisioned |
| Accounts.Store.PurgeEnds | core-agent/accounts/purge.go:33-43 | the user goes unless removing it fails; the account is overtaken exactly if it went and the purge raced |
| Accounts.Store.ReleaseName | core-agent/accounts/accounts.go:569-599 | a uid entry goes exactly for a name nothing holds that has one |
| Accounts.Store.PublishedIsProvisioned | core-agent/accounts/accounts.go:396-528 | published with keys means provisioned in this process, under the unix name noted and the uid on record; with a unix user exactly if not overtaken, and always if no purge began for an account being provisioned |
| Accounts.Store.KeysGoOnlyIf | core-agent/accounts/accounts.go:274-289 | a key goes only with its file, a rewrite of it, or after two unusable reads in a row |
| Accounts.PurgeOvertakes | core-agent/accounts/accounts.go:500-524 | a sequence of steps that publishes keys for an account without a unix user |
| Tokens.MintNeedsFresh | core-agent/tokens/tokens.go:100-127 | minting keeps one file per token exactly when no claim of that id is out |
| Tokens.MintedTwice | core-agent/tokens/tokens.go:100-127 | the input: a claim is out and its id is minted again |
| Tokens.Store.Mint | core-agent/tokens/tokens.go:81-98 | an id with a file of its own is refused, any other gets one file and nothing else changes |
| Tokens.Store.Take | core-agent/tokens/tokens.go:242-257 | of all who claim, one finds the file, and only while the token is not over |
| Tokens.Store.Checked | core-agent/tokens/tokens.go:258-267 | a redemption holds exactly for the right hash on a live claimed file, otherwise the claim goes back |
| Tokens.Store.Restore | core-agent/tokens/tokens.go:272-272 | a claim goes back exactly while it is there |
| Tokens.Store.Done | core-agent/tokens/tokens.go:276-276 | it succeeds at most once for a token, and ends it |
| Tokens.Store.Delete | core-agent/tokens/tokens.go:280-305 | whatever file of a token goes, the token is over |
| Tokens.Store.RevokeStart | core-agent/tokens/tokens.go:169-179 | a revocation first removes the token's own file |
| Tokens.Store.RevokeList | core-agent/tokens/tokens.go:180-187 | it lists the claims of that moment; a live token back under its own name escapes |
| Tokens.Store.RevokeNext | core-agent/tokens/tokens.go:188-192 | it removes a listed claim; a live token moved meanwhile escapes |
| Tokens.Store.RevokeEnd | core-agent/tokens/tokens.go:194-198 | in every interleaving success means the token is over; "no token" for one that had a file means another ended it or it escaped |
| Tokens.RevokeMisses | core-agent/tokens/tokens.go:169-198 | the input: a claim put back between the first remove and the listing leaves the token alive under "no token" |
| Tokens.Store.Revoke | core-agent/tokens/tokens.go:169-198 | with nothing in between it succeeds exactly if the token had a file, none is left, and other tokens keep theirs |
| Tokens.Store.OverForGood | core-agent/tokens/tokens.go:169-305 | a token that is over has no file that any step could succeed on |
| Coalesce.MergedSaysLast | core-client/fswatch/coalesce.go:123-136 | a merged operation says present or gone exactly as the last such event did |
| Coalesce.MergedBits | core-client/fswatch/coalesce.go:123-136 | bit by bit: a report has what some event said and no later one took back, an event that says gone taking back present and one that only says present taking back gone |
| Coalesce.MergeClear | core-client/fswatch/coalesce.go:123-136 | a report becomes unclear exactly by an event that is |
| Coalesce.MergedMore | core-client/fswatch/coalesce.go:96-103 | merging one event more is the merge of the whole history |
| Coalesce.CommonDir | core-client/fswatch/coalesce.go:166-181 | the loop gives the longest common prefix |
| Coalesce.CommonIsDeepest | core-client/fswatch/coalesce.go:164-181 | above both, and nothing above both is deeper |
| Coalesce.UnderGoesOn | core-client/fswatch/coalesce.go:140-195 | a directory is above exactly the paths that go on from it, and a path's directory is the path without its name |
| Coalesce.Coalescer.Add | core-client/fswatch/coalesce.go:96-112 | an event is merged in place, kept under a new arrival number, or lost under a directory; what is held for a path stays the merge of its events, a directory if one said so, and knows when the first and the last of them came |
| Coalesce.Coalescer.Lose | core-client/fswatch/coalesce.go:140-162 | the count is the sum of all that was lost and the directory the deepest above all of it |
| Coalesce.Coalescer.NextDue | core-client/fswatch/coalesce.go:203-219 | from the time given on some path's first or last event is no longer recent, and not before |
| Coalesce.Coalescer.Flush | core-client/fswatch/coalesce.go:226-265 | a path is held on exactly while its first event is less than the maximum delay old and its last less than the debounce; every other is reported once, by first arrival, as the merge of its events, saying present or gone as the last of them that did and a directory if any did; every path owed is still pending, reported or under a notice; every loss has one notice, in order, with its full count |
| Coalesce.Coalescer.constructor | core-client/fswatch/coalesce.go:76-92 | delays and capacity as given, or the defaults where not positive |

## Left out

- The nodes of the prefetch tree are numbered and parents and children are indices into sequences; aliasing between node objects is not modelled.
- Floating point in the promotion bars and the cap: real arithmetic, no rounding; the `span <<= 1` overflow of `levelFor` for sizes near 2^63.
- 64-bit wrap-around of sizes, counters, port tokens and arrival numbers.
- Broker.Broker.Access: SIDs are folded by their ASCII letters, which is all a SID has.
- Broker.Broker.Destroy: a purge destroys whatever has the name when it holds the lock, so nothing is stated about the owner for it.
- Broker.Broker.Enter: one service process; the teardown process, whose locks are its own, is not part of the model.
- Retries.NeverBehind: a path that becomes pending during the run starts from no tries and is not compared with the others.
- Tokens.Store.Mint: an id whose token was claimed or is over is not drawn again; ids are random in the source.
- PassRun.Pass: every path of the list is named once; every file asked for arrives as it was reported, and the filesystem refuses nothing but what is stuck; of a change that the list has under a path it also has as a link, nothing is promised.
- PassRun.Run: the change times of directories already there that a landing touches stay as they are in the model.
- Ports.Ports.Decide: the mapping is a usable one, which the agent checks when it starts.
- Sender.Sender.Feed: paths of the walk are distinct.
- Sender.Sender.Next: one sender per share, so no batch is in flight when the next is asked for.
- WritePass.WritePass.Land: the last check and the rename are one step; temporaries, tar streams, names that differ in case and the mode a new file arrives with are parameters or not modelled.
- WritePass.WritePass.LandLink: a new link is seen as the one thing it leads to; paths below that, and a link that leads to another path of the same share and what a step there does to it, are not modelled.
- Coalesce.Coalescer.Add: paths are lists of components, which validated in-share paths are.
- Decide.DecideAll: recorded paths are rooted.
- The pull loop's chunks, faults and stalls, the rounds over shares, and what is said once: logging and scheduling around the decisions modelled here.
- The manifest and record files, `noteSent`, `snapshot` and `reconcileDeletions`: maps that are set and saved.
- Key file parsing, name folding and the key writer's cross-host lock.
- Hyper-V, PowerShell, kernel namespaces, mounts, tunnels and command lines: foreign calls and text.
