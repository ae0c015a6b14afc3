# How a run ends: the finish protocol and the machinery around it, proved

Several agents (seats) work one case and race to end it. This project models the
repository's logic for that in Dafny and proves what it is relied on for.

**The finish register.** `leads/finish.jsonl` is an append-only log of events folded
into a state (`FinishLog`). A lease with generation numbers says which seat coordinates
the finish; posts and objections that land late against the report are obligations until
a typed resolution, or the objector's own later review, discharges them; a resume opens a
new segment; reviews carry over from one version of the report to the next, section by
section. `FinishActs` gives each act as the events it appends, `FinishRegister` is the
register as a class whose methods read and extend the log as the source does, and
`FinishRuns` interleaves the acts with everything around them: posts, published reports,
resumes, seats that become unavailable, the state moving. `ActOutcomes` and
`ResolveOutcomes` say over every run, by the fields of the request, what each act leaves:
the lease and its boundary, the ack and what it makes late, the resolutions, prepares,
checks and readiness recorded. `FinishObligations`, `Review`, `Sections`, `ReviewRuns` and `CarryRuns` prove what holds over every run.

**Ending.** `FinishLine` is the verdict and the files of a `done`. `DoneProtocol` runs any
number of seats' dones at once, each cut into its phases, with all of the above between
the phases: seats that leave or die, the votes of those that give up, and resumes, which
move the sentinel, the markers and the votes aside. `DoneRuns` proves over whole runs what
the sentinel's existence says of the done that wrote it and what a refused done leaves, and
`UnknownTurns` and `FollowerRuns` what a done that does not know its turn, or that finds the
run ended, can do. `DoneSteps` says who is turned
away before the line runs, that one run is judged per revision, and that what lands meanwhile
refuses a done. `MarkDone` is the write itself on the register and the files, shown to do
what those phases do in a row. `AbandonQuorum` is the vote to give up, cast concurrently.
`ReadinessCache` is the shared readiness and its cache.

**Side machinery.** `Framing`, `PromptLink`, `HubClient` and `HubRpc` are the held link to
the hub: lines off a byte stream, prompts in order, calls that settle once, calls that take
effect at most once. `ContextCeiling` fits the compaction thresholds, `ObjectCoverage`
judges a coverage record, `SeekFix` is the `lseek` shim, `Offers` the timed first claim.

Where the code depends on what is not modelled here, that is a parameter or a value of the
environment: the report's digest and the hash are values (a hash that never collides is a
stated hypothesis where it matters), the Markdown patterns are predicates, availability of a
seat is a set, file times and clocks are integers, a state revision is a number that only
rises, the registers' locks make a step atomic, and which posts only restate a recorded
answer is a fixed property of the post.

Check the project with `dafny verify dfyconfig.toml`.

## What turned out different from the prose

- **A review made before per-section reviews is dropped by any later one.** The comment
  above `reviewStanding` says such a review stands for its digest. The code forgets it as
  soon as the same seat acks one section: `Review.EarlierReviewIsDropped` gives the input,
  and `Review.LastBearingDecides` the exact rule the fold does follow.
- **An offer with the older `until` bound can hold its work again.** Delivery lifts that
  bound. `Offers.OlderOfferRevives` gives the input, `Offers.StepRevives` the exact
  condition; every other offer that stops stays stopped (`Offers.NeverAgain`).
- **Two threshold refusals are not necessary.** Percentages out of order that round to the
  same tokens, and a default compact line with nothing above the kept history, are refused
  although lines that meet every bound exist: `ContextCeiling.RoundingWouldMendTheOrder`,
  `ContextCeiling.SmallWindowIsRefused`. `ContextCeiling.ResolveThresholds` proves these are
  the only two.
- **A resume forgives two kinds of late post**: the coordinator's own at the resume (not in
  its own late list then), and those posted after the resume. `FinishObligations.OwedStays`
  says an act forgives a post exactly when its segment does not keep it by name and its new
  boundary is past it.
- **A done that does not know its turn can end the run under another seat's lease.** The
  sentinel is meant to be written by the seat that coordinates, at the generation its done
  began with. A done whose turn went unanswered, or that abandons and whose line turns out
  met, carries no lease; the transaction then refuses it only for another holder that can
  still act, and takes nothing over. `UnknownTurns.AnothersLeaseIsEnded` gives the input for
  both, `DoneRuns.EnterDecides` and `UnknownTurns.AnothersLeaseExactlyWhen` the exact
  condition.
- **A done that finds the run ended writes unchecked if a resume comes between.** It marks
  itself without the lease or what is late being looked at, and then creates the sentinel if
  it is gone. `FollowerRuns.ClearedFollowerWrites` shows this from any moment at which such a
  done is about to be written, `FollowerRuns.FollowerWritesUnchecked` gives a whole run that
  ends as completed while another seat that can act holds the finish, and
  `DoneRuns.FollowerDecides` is the exact condition. The repository's own resume refuses a run
  that is still going (`scripts/swarm.sh`, line 10209); where resumes wait for the dones, no
  follower writes and every sentinel is as it is meant (`DoneRuns.NoFollowerWrites`,
  `DoneRuns.RunEndsAsMeant`).

## Model

| member | source | states |
|---|---|---|
| FinishLog.ReadFinish | extensions/finish.ts:174-225 | The loop over the events yields the state every property here is stated on, the fold of the log. |
| FinishLog.BoundaryNeverMovesOn | extensions/finish.ts:188-200 | For any log at all, between a prefix and the whole the segment never goes back; within a segment a boundary once set is neither unset nor moved later, and nothing carried is dropped. |
| FinishLog.GenerationsCount | extensions/finish.ts:188-200 | In any log whose leases say no generation, the generation folded is the number of them. |
| FinishLog.FoldIsOrdered | extensions/finish.ts:202-222 | Acks, resolutions, carries and checks are each in rising order of their events' numbers, none past the log. |
| FinishLog.FoldOnlyGrows | extensions/finish.ts:187-222 | Appending events never removes or changes an ack, a resolution, a carry or a check already recorded. |
| FinishActs.LateItemsMeans | extensions/finish.ts:650-685 | An item is on the late list exactly when it is carried, or a correction by another seat past the boundary that restates nothing, or an objection its seat has not answered, and no resolution names it; each is listed once. |
| FinishActs.KeptPostsMeans | extensions/finish.ts:383-398 | What a resume carries is exactly the late posts carried already or posted by the resume's time. |
| FinishRegister.FinishRegister.AppendFinish | extensions/finish.ts:229-247 | The log grows by the drafts, in order, and by nothing else. |
| FinishRegister.FinishRegister.ListLate | extensions/finish.ts:650-685 | The three loops of the late list compute the list the properties are stated on. |
| FinishRegister.FinishRegister.TakeLease | extensions/finish.ts:333-381 | A done's or a prepare's asking: the turn answered and the one lease event appended, or none, in each of the seven cases. |
| FinishRegister.TurnIsTheLease | extensions/finish.ts:333-381 | A seat told the finish is its own holds the lease the log now folds to, at the generation and report it was told. |
| FinishRegister.FinishRegister.PrepareFinish | extensions/finish.ts:1171-1190 | A prepare asks as a done does and records what is late at that instant; the list it returns is the late list of the log it leaves. |
| FinishRegister.FinishRegister.AckReport | extensions/finish.ts:949-981 | An ack is recorded, bound to the current digest of every section it covers, or refused with the log untouched. |
| FinishRegister.FinishRegister.AppendCarry | extensions/finish.ts:883-898 | The reviews weighed when one is due: the one carry event, or nothing. |
| FinishRegister.FinishRegister.ResolveOne | extensions/finish.ts:993-1012 | One resolution of one late item by the coordinator, or nothing. |
| FinishRegister.FinishRegister.ReadBatch | extensions/finish.ts:1053-1098 | The items read from a batch and the count of the refused ones. |
| FinishRegister.ReadItemsDistinct | extensions/finish.ts:1090-1097 | The items read name no target twice. |
| FinishRegister.ReadItemsWhole | extensions/finish.ts:1057-1098 | With no problem found, the items read are all of the batch's, each as written, in order. |
| FinishRegister.FinishRegister.ResolveBatch | extensions/finish.ts:1053-1154 | The reply and the events appended: all the items' or none. |
| FinishRegister.AutoKeyIgnoresOrder | extensions/finish.ts:1022-1026 | The batch key given by content is the same for any two orders of the same items. |
| FinishRegister.AutoKeyTellsBatchesApart | extensions/finish.ts:1022-1026 | With a hash that never collides, two batches have the same content key only if seat, generation, digest and items agree. |
| FinishRegister.FinishRegister.RecordCheck | extensions/finish.ts:1609-1615 | A check is appended for a revision that has none, and nothing otherwise; the revision then has one. |
| FinishRegister.FinishRegister.SyncReadiness | extensions/finish.ts:1511-1531 | Readiness is recorded only when it turns and the run is not finished; a first "not ready" is recorded and is no turn. |
| FinishRegister.SameAcksSameLate | extensions/finish.ts:650-685 | The late list depends on nothing of the state but its lease, acks and resolutions. |
| FinishRuns.HolderCanAct | extensions/finish.ts:333-381 | Whoever a done is told coordinates is the seat asking or an available one, and a takeover is only ever from an unavailable seat. |
| FinishRuns.TakeoverIsFromUnavailable | extensions/finish.ts:368-381 | Over every run, within a segment the finish changes hands only from a seat unavailable at that moment, to the seat asking. |
| FinishRuns.NextFences | extensions/finish.ts:333-381 | In one act of any kind the generation never falls, and a change of holder or of segment raises it. |
| FinishRuns.LeaseIsFenced | extensions/finish.ts:188-200 | Over every run, between any two moments: the generation never falls, and a later holder or segment has a later generation. |
| FinishRuns.GenerationDeterminesHolder | extensions/finish.ts:492-504 | Two moments of a run at the same generation have the same holder and segment. |
| FinishRuns.SameLeaseThroughout | extensions/finish.ts:492-504 | A done that finds its holder and generation at the end had no other holder or generation at any moment since it began. |
| FinishRuns.LateIsUnresolved | extensions/finish.ts:650-685 | What is late has no resolution yet. |
| FinishRuns.ResolvedExactlyOnce | extensions/finish.ts:993-1012 | Over every run no target has two resolutions. |
| FinishRuns.OneCheckPerRevision | extensions/finish.ts:1609-1615 | Over every run a revision has one check, so every later done at it is judged on the same run. |
| FinishRuns.RunKeepsInv | extensions/finish.ts:333-381 | Over every run resolutions stay distinct, posts ordered, and a lease once naming a report names one. |
| ActOutcomes.AskingLeaves | extensions/finish.ts:333-381 | Over every run, a done's or a prepare's asking leaves the lease field by field: a segment's first goes to the report's last publisher, if that seat can act, else to the seat asking, with the report's last write then as its boundary; later ones keep the boundary the lease has and set it where it has none. |
| ActOutcomes.HolderHasBoundary | extensions/finish.ts:354-378 | Over every run, whoever's asking leaves it the holder, on a report that exists, has a boundary from then on; where there was none, or a new segment, it is that report's last write at that moment. |
| ActOutcomes.LandingIsLate | extensions/finish.ts:650-664 | Over every run, a post that lands is late at once if and only if it is another seat's veto, or a result that does more than restate, past the boundary the lease has (however the report was published again), or past the report's last write where it has none. |
| ActOutcomes.LateSaysWhose | extensions/finish.ts:650-685 | Over every run, through every resume, a late post is listed with the author and the tag it has on the board, and a late objection with the seat that acked it. |
| ActOutcomes.AckIsAsRequested | extensions/finish.ts:949-981 | Over every run, an ack is recorded if and only if its request fits: it says why it objects, names the finish's report, the digest that report has and sections it has, and is not the coordinator's; what is recorded is that seat's, with that verdict and that digest, over exactly the sections named. Any other request leaves the log as it was. |
| ActOutcomes.AckLate | extensions/finish.ts:665-683 | Over every run, right after an ack: an objection is itself late, a no objection makes nothing late, and what was late stays so but for the seat's own objections it reaches as far as: all of them where it is of the whole report or either has no sections, else those whose sections it names all. |
| ResolveOutcomes.ItemReads | extensions/finish.ts:1058-1097 | An item of a batch reads if and only if it is an object that names one post or one objection by a whole number, says how, and in one to 2000 characters of words; it then names that post or that objection, as it was sent. |
| ResolveOutcomes.WellFormedMeans | extensions/finish.ts:1053-1115 | A batch is well formed if and only if it has items, each readable, no two naming one thing, a whole generation, a digest of 12 to 64 hexadecimal digits, and a key, if any, of 1 to 200 characters without a control character. |
| ResolveOutcomes.BatchAnswers | extensions/finish.ts:1117-1149 | Each of the answers to a well-formed batch, exactly when: a replay or another batch by what is under its key, then not the coordinator, all resolved, stale, or recorded: at the lease's generation, on the report's digest, every item late. |
| ResolveOutcomes.BatchResolvesAsSent | extensions/finish.ts:1117-1152 | Over every run, a batch that is to be recorded adds one resolution for each item sent, in order, of the post or objection it names, how and in the words sent, bound to the report's digest and the lease's generation; any other batch leaves the log as it was. |
| ResolveOutcomes.ResolvesAsAsked | extensions/finish.ts:993-1012 | Over every run, a single resolution is recorded if and only if it says why, is the coordinator's and is of what is late, and then as it was asked. |
| ResolveOutcomes.PrepareRecords | extensions/finish.ts:1171-1190 | Over every run, a prepare that asks records, where the lease it leaves is the seat's, that lease's generation, report, boundary and segment, the report's digest, and exactly what is late then. |
| ResolveOutcomes.CheckRecords | extensions/finish.ts:1609-1615 | Over every run, a check of a revision that has none is recorded with the run and the verdict it was told, and is the one found for that revision; any other leaves the log as it was. |
| ResolveOutcomes.ReadinessRecords | extensions/finish.ts:1511-1531 | Over every run, the readiness folded is the one last told while the run had not ended, and telling it changes nothing else. |
| FinishObligations.LateIsOwed | extensions/finish.ts:650-685 | With the boundary set, the late posts are exactly what is owed whoever coordinates, less the coordinator's own that nothing carried. |
| FinishObligations.OpeningCarries | extensions/finish.ts:358-398 | The first lease of a segment carries exactly the late posts that were carried already or posted by the resume. |
| FinishObligations.OpeningKeeps | extensions/finish.ts:358-398 | Of what is owed, a new segment keeps by name exactly all but the coordinator's own posts and those posted after the resume. |
| FinishObligations.OwedStays | extensions/finish.ts:188-200 | In one act of any kind, what is owed is owed after it or resolved by it if and only if the act is not a resume that forgives it. |
| FinishObligations.ObligationsConserved | extensions/finish.ts:333-398 | Over every run, through takeovers, re-prepares, renamed and republished reports: what was owed is still owed, or resolved by name, or was forgiven by a resume. |
| FinishObligations.LateStaysLate | extensions/finish.ts:650-685 | Late once under a set boundary is late at every later moment with one, unless resolved, forgiven by a resume, or its author coordinates then. |
| FinishObligations.ResolutionIsTheCoordinators | extensions/finish.ts:993-1012 | Over every run, a resolution is made by the seat coordinating at that moment, of an item late then, bound to the report's digest then. |
| FinishObligations.BatchIsRecorded | extensions/finish.ts:1150-1152 | A batch recorded adds its items' resolutions, in order, under its key, and changes nothing else of the state. |
| FinishObligations.BatchShrinksLate | extensions/finish.ts:1130-1152 | What is late after a batch is what was late less exactly its items, each of which was late. |
| FinishObligations.SameBatchIsSetEquality | extensions/finish.ts:1119-1121 | The comparison by length and one-way inclusion is equality of the two batches as sets, because targets are distinct. |
| FinishObligations.PriorStays | extensions/finish.ts:1117-1123 | What a seat recorded under a key is never added to. |
| FinishObligations.ResendRecordsNothing | extensions/finish.ts:1117-1124 | After a batch was recorded, whatever ran since, a lease change included: the same items under that key are answered as a replay, other items are refused, and neither appends an event. |
| FinishObligations.NotOpenIsDischarged | extensions/finish.ts:665-683 | An objection not late leads by a strictly rising chain of its seat's acks, each answering the one before, to a no-objection ack or an objection a resolution names. |
| FinishObligations.NoneLateIffDischarged | extensions/finish.ts:665-683 | No objection is late if and only if every objection leads to such an end. |
| FinishObligations.ChainKeepsSections | extensions/finish.ts:761-764 | Along a chain of section-named acks the last covers every section the first objected to. |
| Sections.JoinSplit | extensions/finish.ts:709-712 | Splitting a text into lines and joining them back gives the text. |
| Sections.TriedShrinks | extensions/finish.ts:716-719 | Each renaming tried leaves fewer taken names to try, so the renaming loop ends. |
| Sections.RenameUntilFree | extensions/finish.ts:716-719 | The loop ends, for any set of taken keys, on the base or its first free numbered form, a key not taken. |
| Sections.NumberedDiffer | extensions/finish.ts:718-718 | Different numbers give different keys. |
| Sections.CutReport | extensions/finish.ts:709-731 | The loop over the lines with its fence flag computes the sections the properties are stated on. |
| Sections.SectionsAreTheReport | extensions/finish.ts:695-731 | The sections' lines, one after the other, are the text's lines; keys are pairwise distinct; every section but the first starts at its heading. |
| Sections.CutAtHeadings | extensions/finish.ts:709-731 | The report is cut at exactly the headings outside a fence: one section for each, titled as it is, from its line to the next, after what comes before the first. |
| Sections.TrimBlank | extensions/finish.ts:725-729 | A section's text stops at the last line that is not blank, and nothing else is left out. |
| Sections.TextsByKey | extensions/finish.ts:730-730 | A section is found under its own key, with its own text. |
| Sections.DigestsOfSections | extensions/finish.ts:725-730 | Each section is bound under its own key by the digest of its own lines, the heading's among them, to the last that is not blank. |
| Review.ReadAct | extensions/finish.ts:815-835 | One ack's effect on what a seat vouches for, in each of its six kinds. |
| Review.ReadActs | extensions/finish.ts:811-835 | After all of a seat's acks, a section is vouched for at a digest exactly when the last act bearing on it vouches for it. |
| Review.ReviewSeat | extensions/finish.ts:811-860 | A seat's review computed from its acks: exactly the sections covered, asked again and removed, in the report's order, the acks they rest on, and whether it is direct, carried or reasked; none when it vouches for nothing. |
| Review.ReviewMeans | extensions/finish.ts:811-860 | A seat has a review if and only if its acts vouch for something the report has or had, and the computed one is the one they mean, section by section, ack by ack. |
| Review.GroupSeats | extensions/finish.ts:805-809 | Each seat's acks of this report, in order. |
| Review.ReviewStanding | extensions/finish.ts:802-863 | Every seat's review, and the sections uncovered are exactly those no seat covers. |
| Review.WholeReviewPartitions | extensions/finish.ts:841-859 | A per-section review of the whole report: every section of the report is covered or asked again and not both, and what is removed is not in the report. |
| Review.LastBearingDecides | extensions/finish.ts:802-863 | A seat covers a section exactly when its last act that bears on the section (whole or section review, whole or section objection, or a pre-section ack) vouches for it at the current digest. |
| Review.OneMoreAct | extensions/finish.ts:811-860 | What one more act does to a section's coverage, by the act's own fields: decides it where it names the section or has no sections, drops it where it is of the whole and does not name it, and leaves it otherwise, but for what a pre-section ack covered. |
| Review.CoveredIsBorne | extensions/finish.ts:802-863 | A section is covered only by an act that vouches for it as it is now (the section at its digest, or a pre-section ack at the report's), with none of the seat's acts bearing on it since. |
| Review.EarlierReviewIsDropped | extensions/finish.ts:786-801 | The counterexample to the prose: a pre-section review is dropped by the seat's later ack of one section. |
| Review.ListCarries | extensions/finish.ts:883-889 | The two lists of a carry event computed seat by seat, as the events over runs have them. |
| Review.ListedExactly | extensions/finish.ts:888-889 | A line is listed if and only if it is that of a seat that acked, whose review stands so, as its review says. |
| CarryRuns.ListedAreReviews | extensions/finish.ts:883-889 | In terms of the acks: every seat whose review is carried over or asked again is listed and no other, with the acks it rests on and exactly its sections covered, or asked again and gone. |
| CarryRuns.CarriedExactlyWhenDue | extensions/finish.ts:883-892 | Over every run, a carry event is appended if and only if the finish's report is there, a no-objection ack of another version of it has come since the last carry of this version, if any, and some seat's review is to be carried over or asked again; it lists exactly those reviews, as computed from the acks then. |
| CarryRuns.WeighedOnce | extensions/finish.ts:875-887 | Over every run, between any two carry events of one version lies a no-objection ack made on another version. |
| ReviewRuns.AckIsAnothersReview | extensions/finish.ts:949-981 | Whatever is acked at a step of a run is by the seat that asked, with its verdict, at the digest it said it read, if it said one; another seat than the coordinator's, of the finish's report once one is named, at that version's digests, and whole exactly over all its sections. |
| ReviewRuns.AcksAreBound | extensions/finish.ts:949-981 | Over every run each ack is bound, section by section, to a version of the report that was there. |
| ReviewRuns.CurrentIsValid | extensions/finish.ts:866-873 | The current version's sections have distinct keys and one digest each. |
| ReviewRuns.StandingReadsText | extensions/finish.ts:841-859 | A standing per-section review of the whole report: each section of the current text is one the seat read, found no objection to, and has not objected to since. |
| ReviewRuns.StandingReviewReadThisText | extensions/finish.ts:802-873 | Over every run: a whole review that stands, direct or carried, implies every section of the current report is, up to trailing blank lines, text this seat reviewed and let stand. |
| FinishLine.FinishedIffMet | extensions/finish-line.ts:587-709 | The verdict ends the run as completed or examination-limited exactly when the line is met. |
| FinishLine.MetAs | extensions/finish-line.ts:587-709 | Completed if and only if the line is met and no item limits it; examination-limited if and only if it is met and one does. |
| FinishLine.UnmetAs | extensions/finish-line.ts:587-683 | Given up exactly when the done abandons, agents may end the run, and the line was not run, is not certified, or is only held; ended unverified exactly when agents may end it and nothing could be checked, but for an abandon of a line that was not run. |
| FinishLine.UntilSolvedEndsOnlyMet | extensions/finish-line.ts:587-683 | In an until-solved run a done proceeds, abandoning or not, exactly when the line is met. |
| FinishLine.NotAbandoningProceeds | extensions/finish-line.ts:587-709 | A done that does not abandon proceeds exactly when the line is met, or nothing could be checked and agents may end the run; never as abandoned. |
| FinishLine.RunBound | extensions/finish-line.ts:418-432 | The run returned is the first attempt the state held still for, with the revision that held; unsettled only if none of the three did. |
| FinishLine.DoneDir.WriteDone | extensions/finish-line.ts:98-136 | The marker and the sentinel after each way a write goes: left, already there, unsettled (marker taken back), created. |
| FinishLine.DoneDir.AbandonGate | extensions/finish-line.ts:160-180 | The vote recorded, the members still working, and an abandon proceeds exactly on two votes or nobody working. |
| DoneRuns.CourseIsGood | extensions/agent-swarm.ts:4104-4212 | Over every interleaving of any number of dones, phase by phase, with everything around them: each done's revision, run, verdict and lease are as its phase says, one is inside the transaction at most, and the votes are well kept. |
| DoneRuns.SentinelIsSafe | extensions/finish.ts:492-518 | Over every interleaving, a sentinel written from inside the transaction: its run began and ended at the revision it was judged at, which still holds, with nothing late; it was let in with nothing late, and writes under the lease of then: its own holder and generation if it knew its turn, else none, its own, or one whose holder was unavailable; and its verdict was to proceed, as completed exactly if its line was met with nothing limited and examination-limited exactly if met and limited, but for a done that skipped its line for a sentinel a resume then moved aside. |
| DoneRuns.EnterDecides | extensions/finish.ts:494-505 | A done is let into the transaction if and only if nothing is late and the lease is the one it began with, or, not knowing its turn, there is none, it is its own, or its holder is unavailable. |
| DoneRuns.CommitDecides | extensions/finish-line.ts:127-134 | Inside, a done ends the run if and only if no other has and the revision it was judged at holds, or it had none. |
| UnknownTurns.UnknownTurnWrites | extensions/agent-swarm.ts:4109-4112 | From any moment of any run at which the run has not ended, no done is inside the transaction and the revision has no check yet: a done whose turn goes unanswered, or that abandons on a met line, with nothing in between, writes the sentinel whenever the transaction lets in one that does not know its turn. |
| UnknownTurns.AnothersLeaseIsEnded | extensions/finish.ts:499-501 | The input, for the unanswered turn and for the abandon whose line is met: the run is ended as completed while the lease is another seat's. |
| UnknownTurns.AnothersLeaseExactlyWhen | extensions/finish.ts:494-501 | A sentinel is written from inside the transaction under another seat's lease if and only if, as its done entered, that did not know its turn and another, unavailable seat held the finish; under none if and only if it did not know its turn and nobody held it. |
| DoneRuns.OnlyThreeWrite | extensions/finish-line.ts:123-136 | The sentinel is written only by a done's last step: from inside the transaction, past an abandon's gate, or following; by that seat, at the revision it was judged at, which holds. |
| DoneRuns.EndedRunMeansWritten | extensions/finish-line.ts:140-148 | A done answers that it created the sentinel if and only if it did. |
| DoneRuns.RefusedLeavesNothing | extensions/finish-line.ts:123-136 | Over every interleaving, from a done's beginning to its refusal at whatever phase: none of its steps changed the sentinel, its marker is there only if it was before or the seat left meanwhile, and it holds no lock. |
| DoneRuns.MarkersAreInside | extensions/finish.ts:479-491 | While the run has not ended, a done's marker appears only inside its own transaction, past the gate of its abandon on a quorum, or as its seat leaves. |
| DoneRuns.SentinelHasACause | extensions/finish-line.ts:66-136 | Over every interleaving, with resumes at any moment: a sentinel that stands was written by a done told to end the run, from inside the transaction; or past an abandon's gate, on a quorum; or by a done that went by a sentinel a resume then moved aside. |
| DoneRuns.FollowerIsOvertaken | extensions/finish-line.ts:89-136 | A done that skipped its line, or follows, finds the sentinel still there unless a resume came while it did. |
| DoneRuns.FollowerDecides | extensions/finish-line.ts:123-136 | A follower's last step ends the run if and only if no sentinel stands and the revision it came with, if any, still holds. |
| FollowerRuns.ClearedFollowerWrites | extensions/finish-line.ts:89-136 | From any moment of any run at which a done about to be written finds the sentinel, at a revision that holds or none: a resume in between, and it writes what it was told, with the register untouched. |
| FollowerRuns.FollowerWritesUnchecked | extensions/finish-line.ts:89-136 | The input: a run that ends as completed by a follower while another, available seat holds the finish, where the transaction would have refused. |
| DoneRuns.NoFollowerWrites | scripts/swarm.sh:10207-10211 | Where resumes wait for the dones, as the command refuses a run still going, only a done inside the transaction or past its abandon's gate writes. |
| DoneRuns.RunEndsAsMeant | extensions/agent-swarm.ts:4104-4212 | Where resumes wait for the dones, over every interleaving of everything else: a sentinel that stands says abandoned exactly if it gave the run up on a quorum; otherwise its seat was told to end the run, as completed, examination-limited or unverified exactly as its line came out, at the revision judged, with nothing late, under the lease it was let in under. |
| DoneRuns.AbandonedByQuorum | extensions/finish-line.ts:160-179 | Over every interleaving, a run that stands abandoned was given up when two votes stood as its seat listed them, or every other member's stood then or was marked done or dead since; a done a resume overtook aside. |
| DoneRuns.UntilSolvedNeverAbandoned | extensions/finish-line.ts:63-66 | In an until-solved run no sequence of dones ends it as abandoned or unverified. |
| DoneProtocol.StepKeeps | extensions/agent-swarm.ts:4104-4212 | Each of the twenty kinds of step, of a done or around it, keeps what every done's phase says of it. |
| DoneProtocol.NothingLateStays | extensions/finish.ts:650-685 | With no more corrections past the boundary than before, nothing late stays nothing late. |
| DoneProtocol.QuietIsNotLate | extensions/finish.ts:505-508 | What happens around the register without moving the state's revision makes nothing late. |
| DoneSteps.BeginDecides | extensions/agent-swarm.ts:4109-4125 | A done that asks for the finish goes on to its line if and only if the lease it then finds is its own and nothing is late under it, and carries that lease's generation; it is turned away otherwise. |
| DoneSteps.BeginsWithoutLease | extensions/agent-swarm.ts:4109-4112 | A done that gives up, finds the run ended or gets no answer about its turn goes on without a lease, and asks for none. |
| DoneSteps.SkipDecides | extensions/agent-swarm.ts:4157-4161 | A done that finds the run ended before its line skips it and goes on without a verdict; one that does not cannot skip it. |
| DoneSteps.EndDecides | extensions/finish-line.ts:425-428 | A line that was run is kept with what it printed, from the revision it began at to the one that holds as it ends. |
| DoneSteps.OneRunPerRevision | extensions/agent-swarm.ts:4171-4184 | Over every interleaving: once a done's line is judged and put on record, its revision has a check, of that run if it had none, and every later done that begins its line while that revision holds takes that check's run instead of running it again. |
| DoneSteps.ReadAfterDecides | extensions/finish-line.ts:418-432 | A line the state held still for is bound to its revision; otherwise it is run again, three times at most, and then the done is refused. |
| DoneSteps.JudgeDecides | extensions/agent-swarm.ts:4183-4198 | A done goes on as its verdict says, and its run is put on record, with that verdict, exactly when it was run without fault, its revision is known and had none, and the done does not give up. |
| DoneSteps.RecheckDecides | extensions/agent-swarm.ts:4201-4202 | Once judged, a done goes on only while the revision reads as it did. |
| DoneSteps.VoteDecides | extensions/finish-line.ts:63-68 | A done told to give up casts its vote where agents may end the run, and is turned away where they may not. |
| DoneSteps.FollowDecides | extensions/finish-line.ts:63-66 | A done that finds the run ended follows it, but for one told to give up where agents may not end the run. |
| DoneSteps.PostMoves | extensions/finish-line.ts:351-398 | A seat's post that is a result, or a veto, or asks to hold or to stop, moves the state's revision as it lands; no other does. |
| DoneSteps.AskingMoves | extensions/finish.ts:537-540 | A done that asks moves the revision exactly when it changes which report the finish is of. |
| DoneSteps.JudgedAfterwards | extensions/finish-line.ts:127-134 | Over every interleaving: a sentinel written after something moved the revision is of a line judged since, or of a done that could read no revision. |
| MarkDone.CheckFinish | extensions/finish.ts:494-505 | The checks in the code's order let a done write exactly when its lease is as it must be and nothing is late, and say which of the two is against it. |
| MarkDone.FinishTransaction | extensions/finish.ts:492-518 | Refused for the lease or for what is late exactly when it may not finish, with nothing changed; else the sentinel written and readiness shown, or the marker taken back where the revision has moved. |
| MarkDone.PhasesLeaveTheSame | extensions/finish.ts:479-518 | The three phases of the interleaved protocol, in a row, leave the register, the markers and the sentinel as the code's transaction does. |
| MarkDone.EnteredWrites | extensions/finish-line.ts:116-136 | Allowed in, a done marks its seat and writes the sentinel, or takes its mark back and writes nothing; the register gains at most the readiness it shows. |
| MarkDone.RefusedEnter | extensions/finish.ts:492-505 | Not allowed in, it leaves register, markers, sentinel and lock as they were. |
| MarkDone.GiveUp | extensions/finish-line.ts:60-82 | An abandon is refused exactly in an until-solved run, with nothing changed; answered with its vote only exactly when the run has not ended, fewer than two have voted and another member is still working; else it writes. |
| MarkDone.GateDecides | extensions/finish-line.ts:160-179 | Vote, listing and the looks at each member, step by step: the gate lets the abandon on exactly on two votes or nobody else working, and the vote stays recorded either way. |
| MarkDone.AbandonPhasesLeaveTheSame | extensions/finish-line.ts:60-136 | All of an abandon's phases in a row leave the markers, the sentinel and the votes as the code's abandon does. |
| AbandonQuorum.ReachableIsGood | extensions/finish-line.ts:160-180 | In every interleaving of votes, listings, looks and resumes: among any seats whose votes were there when they listed, with no resume since, one saw the votes of all. |
| AbandonQuorum.TwoVotesAreSeen | extensions/finish-line.ts:160-180 | Of two such seats at least one saw both votes, and may end the run once it has looked at the team. |
| AbandonQuorum.ProceedsOnlyOn | extensions/finish-line.ts:164-179 | In every interleaving, an abandon proceeds only if two votes stood as it listed them, or every other member's stood then or was marked done or dead at a moment since. |
| ReadinessCache.Cache.Look | extensions/finish.ts:1287-1289 | A hit is the value recomputed from the state at the revision read; a miss begins the reading at that revision. |
| ReadinessCache.Cache.ReadNext | extensions/finish.ts:1290-1290 | A register is read as the state has it at that instant, whatever moves between two readings. |
| ReadinessCache.Cache.Finish | extensions/finish.ts:1290-1299 | A settled answer is the value recomputed at its revision and is cached under it; an unsettled one is answered on the last attempt and never cached. |
| ReadinessCache.Cache.Put | extensions/finish.ts:1295-1296 | Every entry stays its own revision's recomputed value; past 256 the oldest goes, and no other. |
| Framing.LinesAreTheStream | extensions/board.ts:146-156 | The lines, each with its newline, and what is left are the stream, and none of them holds a newline of its own. |
| Framing.ReadingOn | extensions/board.ts:146-156 | Reading a chunk onto what was left gives the lines and the rest of the whole stream. |
| Framing.Feed | extensions/board.ts:146-156 | The loop cuts exactly the whole lines off the buffer and the chunk, or nothing past the limit. |
| Framing.FeedAll | extensions/board.ts:146-160 | Any chunks: the lines read are a prefix of the whole stream's, all of them unless some chunk and the unfinished line before it overran the limit. |
| Framing.ShortNeverOverruns | extensions/board.ts:146-151 | A stream no longer than the limit passes however it is cut, so any two splits give the same lines. |
| PromptLink.Link.OnLine | extensions/board.ts:721-745 | A prompt handed on at once or chained; the order is kept if and only if one handed on at once has none chained before it. |
| PromptLink.Link.Fetched | extensions/board.ts:729-739 | A fetch that ends hands its prompt on, or drops exactly that one. |
| PromptLink.Link.RunTask | extensions/board.ts:729-745 | The chain's tasks run one after the other, in order. |
| PromptLink.Link.OnData | extensions/board.ts:721-746 | Between events the prompts handed on are a prefix, in the order they came, of all that did not fail; all of them once nothing is being fetched. |
| PromptLink.FailedIsDropped | extensions/board.ts:733-738 | A failed fetch removes its own prompt from the sequence and moves no other. |
| HubClient.Client.Open | extensions/board.ts:113-134 | The held link if it stands, else one new link; never two that stand. |
| HubClient.Client.CallOnce | extensions/board.ts:231-252 | A call gets a fresh id and is uploading, waiting or settled. |
| HubClient.Client.OnData | extensions/board.ts:146-190 | A chunk has the effect of its whole lines one by one, or destroys the link past the limit. |
| HubClient.ChunksAgree | extensions/board.ts:146-190 | Wherever a stream within the limit is cut, the client ends the same: the same calls settled, on the same answers. |
| HubClient.Client.Take | extensions/board.ts:164-189 | A line settles or begins fetching the one waiting call it names, and says nothing otherwise. |
| HubClient.LineMoves | extensions/board.ts:163-189 | An answer's line settles the waiting call it names on that very answer, or has it fetched; a line that names no waiting call moves none. |
| HubClient.IssueMoves | extensions/board.ts:231-252 | A call begun uploads when large, fails as too large, waits where its link stands, and fails as link closed where not; no other call moves. |
| HubClient.TransferMoves | extensions/board.ts:167-252 | A call uploaded waits while its link stands, else fails as refused or with its link; a call fetched settles on what was fetched, or as unfetched; no other call moves. |
| HubClient.GivingUpMoves | extensions/board.ts:258-277 | A call not answered in time fails as such; an abort fails exactly a call waiting or fetching; no other call moves. |
| HubClient.Client.OnClose | extensions/board.ts:191-203 | The loop over the waiting calls rejects the closed link's own, whatever the order. |
| HubClient.Client.OnTimeout | extensions/board.ts:258-265 | No answer in time fails that call and destroys its link. |
| HubClient.Client.OnUploaded | extensions/board.ts:241-252 | Its arguments uploaded, a large call waits on its link if that still stands, and has failed otherwise, as refused or with its link; no other call changes. |
| HubClient.Client.OnFetched | extensions/board.ts:167-185 | An answer kept on the hub settles its call once fetched, on the answer or as one that could not be fetched; no other call changes. |
| HubClient.Client.OnAbort | extensions/board.ts:266-277 | An abort fails a call waiting or fetching and changes nothing for any other. |
| HubClient.CloseRejectsItsOwn | extensions/board.ts:191-203 | A closing link settles exactly the calls waiting on it, as link closed, and none on its replacement, which stays the held link. |
| HubClient.AllClosedAllSettled | extensions/board.ts:191-203 | Once every link opened has closed, every call issued has settled. |
| HubClient.ClosedKeeps | extensions/board.ts:191-203 | At most one link stands, and every call issued is in one place only, on a link whose close has not been seen. |
| HubRpc.RunIsSound | extensions/board.ts:217-230 | Over every interleaving of calls, resends, drops, timeouts, aborts and a hub that serves requests at any time: the invariants hold. |
| HubRpc.AtMostOnce | extensions/board.ts:209-230 | A retried call takes effect at most once, is sent at most four times, again only after the last was lost with its link, and an answer it returns is that one run's. |
| HubRpc.HubRemembers | extensions/board.ts:209-216 | Over every run, what the hub did stays done, in order, and the answer it remembers for a request never changes. |
| HubRpc.SettledOnce | extensions/board.ts:253-296 | Over every run, a call that settled is settled the same at every later moment. |
| HubRpc.ResultsStay | extensions/board.ts:217-230 | Over every run, a call that returned sends nothing more and its result is the same at every later moment. |
| HubRpc.ServedIsReturned | extensions/board.ts:217-230 | At any moment of any run: a waiting request the hub has served, whose answer then comes, at once or fetched in parts, returns the answer of its one run. |
| HubRpc.RetryDecides | extensions/board.ts:217-230 | Once a call's last request has settled, another is sent exactly where its link closed under it or it was not answered, three times at most, and the call returns with what it settled on where no other is sent or it was aborted. |
| HubRpc.CallGetsThrough | extensions/board.ts:209-296 | From any moment of any run: a call that may send a request, on a link that stands, written at once or uploaded, returns the hub's answer once that is served; it takes effect there if and only if no request of it ever had, and the answer is that first run's. |
| ContextCeiling.EffectiveCeiling | extensions/context-ceiling.ts:127-138 | The window declared, rounded down, or the fallback where none above zero is; and the ceiling, which is that window, the table's or the rot ceiling, and never above the window. |
| ContextCeiling.Cap | extensions/context-ceiling.ts:200-200 | The hard line's cap is above the kept history, and within declared less reserve and headroom whenever that is above it. |
| ContextCeiling.ValidateSpecs | extensions/context-ceiling.ts:86-105 | Refuses exactly the operator's lines of one unit that are out of order, naming only those. |
| ContextCeiling.ResolveThresholds | extensions/context-ceiling.ts:181-281 | Accepted if and only if some three lines meet every bound with the operator's kept, the two stated cases aside; accepted lines meet notice <= warn <= compact <= cap and compact above the kept history, move no operator line, fit each default as said, and are marked clamped exactly when one moved; a refusal names only the operator's lines. |
| ContextCeiling.LoweredInProportion | extensions/context-ceiling.ts:243-262 | A default lowered keeps the defaults' proportion, 50 to 60 and 40 to 50, to within one token. |
| ContextCeiling.FeasibleWhen | extensions/context-ceiling.ts:202-242 | Exactly when three lines can meet the bounds with the operator's kept. |
| ContextCeiling.RoundingWouldMendTheOrder | extensions/context-ceiling.ts:86-104 | An input refused for its order before rounding though lines that fit exist. |
| ContextCeiling.SmallWindowIsRefused | extensions/context-ceiling.ts:240-242 | An input refused for a default compact line under the kept history though lines that fit exist. |
| ContextCeiling.LevelCountsLines | extensions/context-ceiling.ts:287-293 | The level is the number of lines the use has reached, and only rises with it. |
| ObjectCoverage.JobsBehind | extensions/negative-bar.ts:352-373 | The jobs behind a record are exactly those its results, the entries they cite, and the interpretations of those name. |
| ObjectCoverage.ReadJobs | extensions/negative-bar.ts:374-394 | What those jobs were given, and a fault exactly for a job without a record or that did not succeed. |
| ObjectCoverage.ObjectUnits | extensions/negative-bar.ts:403-459 | One object's units are all covered exactly when the object, each inventory file of a directory and each generation inside it is. |
| ObjectCoverage.FileUnits | extensions/negative-bar.ts:428-441 | Every inventory file of a directory not covered whole is a unit of its own. |
| ObjectCoverage.WholeOrByFile | extensions/negative-bar.ts:427-445 | An object that is covered though no job was given it is a directory of the evidence with files in the inventory, every one of which a job was given. |
| ObjectCoverage.FilesAreEnough | extensions/negative-bar.ts:427-441 | A directory of the evidence nothing was catalogued from is covered once each of its inventory files is, if it has some. |
| ObjectCoverage.GenerationsToo | extensions/negative-bar.ts:446-458 | Where an object is covered, so is each generation catalogued from it, from the same bytes or from below it: by what it was made from, by the object, or by the whole output of the job that made it. |
| ObjectCoverage.ComputeObjectCoverage | extensions/negative-bar.ts:348-464 | Complete if and only if an object is named, every unit of every named object is covered, some job is behind it, none of them failed or lacks a record, and no cited search was partial. |
| ObjectCoverage.OneMoreJobStaysComplete | extensions/negative-bar.ts:335-347 | A result naming one more recorded, successful job never turns complete into partial. |
| ObjectCoverage.GrownStaysComplete | extensions/negative-bar.ts:335-347 | However a complete record grows (results, an entry's refs, interpretations), the jobs behind it stay, and it stays complete if and only if every job added is recorded and says nothing of its end or that it was ok, and every search it now cites says nothing or that it was complete. |
| ObjectCoverage.WholeCoversFiles | extensions/negative-bar.ts:266-275 | A directory covered whole covers every inventory file in it. |
| ObjectCoverage.UnderMeans | extensions/negative-bar.ts:270-271 | A path is below a directory if and only if it is the directory's, a slash, and more; a sibling whose name begins the same is not. |
| ObjectCoverage.FileReaches | extensions/negative-bar.ts:266-275 | A file reaches exactly its own place, the same bytes anywhere, and the same catalogue member. |
| ObjectCoverage.DirectoryReaches | extensions/negative-bar.ts:266-275 | A directory reaches exactly what stands at its place or below it, and a catalogue directory the members of its generation. |
| ObjectCoverage.ReachesThrough | extensions/negative-bar.ts:266-275 | What a directory reaches by place, a directory that reaches it reaches too. |
| ObjectCoverage.MoreJobsCoverObject | extensions/negative-bar.ts:397-402 | What some jobs cover, more jobs cover. |
| SeekFix.FirstFrom | images/seekfix.c:1-21 | The next data, or the next hole, at or after an offset, the end when there is none. |
| SeekFix.NoHoleIsTold | images/seekfix.c:42-50 | The two probes answer 0 and the size, in either order, exactly on a file with no hole, and one order never stands for the other. |
| SeekFix.Process.Probe | images/seekfix.c:42-52 | The probes set what is known exactly on a file with no hole, never wrongly, and leave offset and errno as they were. |
| SeekFix.Process.Fixed | images/seekfix.c:35-56 | Over every sequence of calls: what is known is never wrong; once known, or off the mounts, the answer is what Linux means; offset and errno are this call's alone. |
| SeekFix.UnknownIsWrong | images/seekfix.c:42-44 | While a swapping server is not known its answers are wrong at exactly the offsets inside the file. |
| Offers.ReservingOffer | extensions/offers.ts:119-122 | The newest offer that still holds the work, or none when none does. |
| Offers.ReservingMeans | extensions/offers.ts:99-116 | An offer holds its work if and only if nothing has ended it and it is within its first claim, or within a hold taken. |
| Offers.StepRevives | extensions/offers.ts:99-116 | An offer that stopped holds its work again after a step if and only if the step is delivery and its older bound alone had ended it, unseen, within its age. |
| Offers.NeverAgain | extensions/offers.ts:99-116 | Without the older bound, once stopped it never holds its work again, over every run. |
| Offers.RevivedAtMostOnce | extensions/offers.ts:99-116 | With it, once seen and stopped it never does. |
| Offers.OlderOfferRevives | extensions/offers.ts:101-102 | The counterexample: an older offer, unseen past its own bound, holds its work again when delivered. |
| Offers.DeliveryNeverExtends | extensions/offers.ts:100-103 | Delivery makes first claim end later exactly when it lifts an older bound that would have ended sooner. |
| Offers.EndsByItsAge | extensions/offers.ts:99-110 | An offer that holds its work is within its age bound, or within a hold taken; delivered and without a hold, within the time from delivery. |
| Offers.EndedGainsNoHold | extensions/leads.ts:3095-3103 | A hold is only had by an offer that stood when it was taken. |
| Offers.TakenHoldsOn | extensions/offers.ts:99-116 | A hold lengthens the claim: an offer taken holds its work until the hold ends, or for as long as it would have had it been delivered. |
| Offers.HeldOnce | extensions/leads.ts:3095-3103 | Over every run, a hold once had keeps its end: taking the offer again does not lengthen it. |
| Offers.DeliveredHoldsFor | extensions/offers.ts:99-116 | An offer delivered holds its work for exactly the time from delivery, within its age. |
| Offers.EndedByWord | extensions/offers.ts:105-116 | Declined, accepted, withdrawn, lapsed, or its subject changed, an offer holds nothing. |

## Left out

- The hash chain of the register and its verification, locks that time out, and a lock that cannot be taken after the marker was written: a step under a lock is atomic and happens.
- The hub's and a VM's path of a done (the host's own is modelled), the messages, posts and trace lines around it, the input sweep, and the phase events of the register.
- An unreadable budget: whether a run is until-solved is one fixed value of it.
- DoneRuns.SentinelIsSafe: of a done whose revision could not be read (the empty one) it says nothing was late as it was let in, not that the state was the same as it wrote; the code writes its sentinel without that check.
- MarkDone.FinishTransaction: the readiness event it may append carries the state's revision even for a done without one, where the code writes an empty text.
- The recognisers of headings, fences and blank lines, and the matching of a section's name by number, title or case: the patterns are parameters and acks name sections by key.
- Which post only restates a recorded answer, what the registers' readiness counts, and what the checks and the gate run: values the environment gives.
- When the header, an ack or a prepare comes to weigh the carry events: they may be appended at any time here, as the reviews then stand, not only in the same step as an ack or a prepare.
- What the resume command refuses: a resume may come at any moment here, also while a done is under way; the results on resumes that wait state that as their hypothesis.
- The words of reasons, notes and refusals, and the fields of the events that only hold them (why, from, at).
- Transfers in parts: an upload or a download is one step that succeeds, is refused, or falls with its link; write stalls are a destroyed link.
- HubRpc.AtMostOnce: holds against a hub that remembers every request id it has run and runs a request in one step; the hub's window on them is not part of this model.
- Calls that are not retried, and what a prompt's words are; a prompt whose fetch failed is dropped here (the hub's next greeting brings it again).
- PromptLink.Link.OnData: requires that what is chained and can run has run before the next event, which is the event loop's own rule.
- ContextCeiling.ResolveThresholds: floating point is rational here, so a share computed in floating point may round differently by one token.
- Parsing of a threshold's text, per-model lists, and percentages of the ceiling for display.
- The order jobs are listed in, the words of a unit, and locating a reference: a function of the reference.
- A file that changes between the shim's probes, threads racing on what it knows, and a failed status call's own errno beyond that it is set.
- Clock times that do not parse in an offer's events, and the environment's timings changing during a run.
