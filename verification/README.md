# Protocols of the home-operations repository, in Dafny

A model of the parts of the repository that carry a protocol or an algorithm of their own, with proofs of what they promise. `dafny verify dfyconfig.toml` checks everything.

| module | models |
|---|---|
| `SabGuard` | the guard that pauses the download queue on the backup link: a durable four-state journal written before each command, a dwell timer, an absorbing ambiguous state |
| `StashSnapshot`, `StashDiscipline` | the double-collect capture of four live directory trees, a database and a configuration file, under any change in between |
| `StashPublish` | the pending/current/previous/COMPLETE publication of a capture, stopped at any filesystem step |
| `StashRestore`, `StashSharedFile` | the recovery of a published capture into four empty directories |
| `PelicanAllocator`, `PelicanPool`, `PelicanCreate`, `PelicanQuota` | first-fit search for consecutive ports, completion of the port pool, creations under a lock that may expire, per-user quotas |
| `RenovateGate` | the run-capacity gate, counting runs whose status moves while they are counted |
| `LinkNative`, `LinkTrails` | materialising a native snapshot as hard links, over a directory graph with links and cycles |
| `RankedStatistics`, `Sorting` | the canonical form of rankings that a count-only sort leaves unstable |
| `WireCodec` | variable-length numbers, tagged fields, and length-prefixed frames over a connection that delivers pieces |
| `StartupHold` | a bounded hold before the native start, with evidence tied to a process identity and two clocks |
| `Paths`, `ByteStrings`, `Wrappers` | paths ordered by "lies below", bytes, and the usual Option and Result |

Objects whose methods change fields are classes (`Journal`, `Guard`, `Live`, `Output`, `Allocations`, `Target`, `Socket`, `Container`); every method is tied to a specification function or a run of atomic steps, and the laws are lemmas about those. Failures, deaths, clock readings, other writers and the pieces a connection delivers are parameters or unconstrained choices.

What the proofs brought to light, each with its exact condition or a concrete run:

- The archive stores the second name of a file as a link and the restore accepts no link, so a captured bundle can be restored exactly when no file has two names (`StashRestore.RestorableUnlessShared`); `StashSharedFile.SharedFileIsNotRestored` is such a capture.
- What the capture accepts and publishes is modelled under any change whatever (`Collected`, `Genuine`). It is the snapshot of one instant when the history is calm: every change of an inode advances its ctime and the four roots stay in place; no path is led away from a directory and back to it unchanged; no link or special file takes the place of something found there; and a file that two paths lead to has a link count above one (`StashSnapshot.CollectedIsConsistent`). Two of these clauses are dropped one at a time: `StashDiscipline.RenamesDefeatTheCollect` leads a path back and `StashDiscipline.LinksDefeatTheCollect` puts a link in the place of a removed directory, each with all the other clauses kept and each with two equal inventories around an archive that is the tree of no instant. An application that gives new names only to regular files and to empty directories that are new or touched, and makes no links, is calm (`StashSnapshot.DisciplinedIsCalm`).
- One stop inside the publish window leaves a complete generation; two can leave none (`StashPublish.GenerationSurvives`, `StashPublish.TwoStopsCanLoseEverything`).
- Two overlapping creations of one user both pass a quota check that precedes the lock; they stay within the limits exactly when the second would have been accepted after the first (`PelicanQuota.OverlapExceedsUnlessSerial`). A lock that expires under its holder lets two servers get the same ports (`PelicanCreate.ExpiredLockSharesPorts`). A release between the queries of two nodes can make the chosen block the first fit at no instant (`PelicanCreate.ReleaseBetweenQueries`), though never a shared one. It is the first fit of its query's instant exactly when no node queried before has a block by then (`PelicanCreate.FirstFitExactly`), in particular when no row of those nodes became free meanwhile (`PelicanCreate.ScanIsFirstFit`).
- A message cut inside a blob is read as a shorter blob; a cut is refused exactly when it falls inside a header (`WireCodec.CutMessage`).
- The evidence of a hold is no promise once the wall clock has been set back after the holder left its loop (`StartupHold.SetBackBreaksThePromise`); without that it is (`StartupHold.AcceptedIsInHold`, `StartupHold.PromiseIsKept`).
- Counting by status misses no run because the queries follow the direction in which runs move; a run that falls back, or the opposite order, is missed (`RenovateGate.FallingBackIsMissed`, `RenovateGate.OppositeOrderMisses`).

## Model

| member | source | states |
|---|---|---|
| SabGuard.Journal.Save | kubernetes/apps/arrs/sab-wan-guard/app/guard.py:143-164 | a save that does not succeed ends the process with the file old or already new; memory changes only on success |
| SabGuard.OpenJournal | kubernetes/apps/arrs/sab-wan-guard/app/guard.py:132-141 | an absent journal becomes idle, a valid one is loaded, anything else stops the process |
| SabGuard.Guard.Tick | kubernetes/apps/arrs/sab-wan-guard/app/guard.py:173-210 | one poll takes the guard, the journal file and everything sent to exactly the state of the step function, whose commands and outcomes the next laws tell over runs |
| SabGuard.Guard.Act | kubernetes/apps/arrs/sab-wan-guard/app/guard.py:192-205 | intent saved, command sent, effect confirmed, outcome saved, with every way each may fail |
| SabGuard.RunSound | kubernetes/apps/arrs/sab-wan-guard/app/guard.py:132-210 | every run of polls, deaths, failed saves and restarts keeps the journal and the history of commands in step |
| SabGuard.CommandsAreWrittenAhead | kubernetes/apps/arrs/sab-wan-guard/app/guard.py:192-202 | in every run, a pause or resume is sent only while the durable journal says that it is pending |
| SabGuard.OwnershipIsHonest | kubernetes/apps/arrs/sab-wan-guard/app/guard.py:188-205 | every poll between a confirmed pause and the resume that spends it found the queue paused, unless the process died giving the pause up |
| SabGuard.ResumesNeverOutnumberPauses | kubernetes/apps/arrs/sab-wan-guard/app/guard.py:192-205 | in every prefix of every run, resumes are at most the confirmed pauses |
| SabGuard.PauseBetweenResumes | kubernetes/apps/arrs/sab-wan-guard/app/guard.py:192-205 | between two resumes lies a confirmed pause: a pause is never spent twice |
| SabGuard.AmbiguityAbsorbs | kubernetes/apps/arrs/sab-wan-guard/app/guard.py:184-187 | once the durable journal is pending, no later poll, death or restart changes it or sends anything |
| SabGuard.ResumeEndsADwell | kubernetes/apps/arrs/sab-wan-guard/app/guard.py:177-183 | a resume ends an unbroken chain of primary polls of one process, gaps within a minute, at least two minutes long, hence at least three polls |
| SabGuard.DwellIsEnough | kubernetes/apps/arrs/sab-wan-guard/app/guard.py:198-202 | conversely such a chain, ending with the queue paused and owned, does resume |
| SabGuard.PauseExactly | kubernetes/apps/arrs/sab-wan-guard/app/guard.py:192-194 | in every run a step sends a pause exactly when it is an answered poll of a live process with the link on its backup and the queue running, the pause not owned or just given up, and the intent durable |
| SabGuard.ResumeExactly | kubernetes/apps/arrs/sab-wan-guard/app/guard.py:177-202 | in every run a step sends a resume exactly when it ends two minutes of answered primary polls of one process, at most a minute apart, with the queue paused, the pause owned and its spending durable |
| SabGuard.CommandOutcome | kubernetes/apps/arrs/sab-wan-guard/app/guard.py:192-210 | a command accepted and confirmed leaves the journal owned after a pause and idle after a resume; any other fate leaves it pending, on the disk and in a process that lives on |
| SabGuard.SilentOutcome | kubernetes/apps/arrs/sab-wan-guard/app/guard.py:173-210 | a poll or a death that sends nothing changes the journal only by giving up a pause whose queue was found running, or by a lost write of an intent |
| SabGuard.StartOutcome | kubernetes/apps/arrs/sab-wan-guard/app/guard.py:132-141 | a start takes a readable journal up as it is, makes an absent one idle, and refuses any other without touching it |
| SabGuard.DwellInvariantHolds | kubernetes/apps/arrs/sab-wan-guard/app/guard.py:206-208 | in every run a running timer is backed by a chain of polls; any failure, gap, backwards clock or other answer breaks it |
| StashSnapshot.TakeInventory | kubernetes/apps/media/stash/app/capture.py:17-30 | under any change between any two reads, an inventory is a finished walk in which every name listed got a stat no earlier than its directory and every directory listed was walked or was a link when reached; only a walk that met, at or above a path it had still to visit, a link that had appeared since it began may end otherwise; on a volume that stays as it is it succeeds and holds exactly everything |
| StashSnapshot.PathStays | kubernetes/apps/media/stash/app/capture.py:76-77 | between equal inventories a recorded path leads to one unchanged inode |
| StashSnapshot.NothingMissed | kubernetes/apps/media/stash/app/capture.py:22-29 | between equal inventories every path below the roots had been recorded |
| StashSnapshot.TakeArchive | kubernetes/apps/media/stash/app/capture.py:73-75 | under any change, the archive has one member for every path listed, its bytes read from the inode at different instants, a link only for a file archived before whose link count is above one, content twice for an inode only if a stat showed no other name; only an archiving that met a link that had appeared since it began may end otherwise; on a volume that stays as it is it succeeds |
| StashSnapshot.ArchiveIsSnapshot | kubernetes/apps/media/stash/app/capture.py:61-77 | in a calm history an archive read between equal inventories is the tree of every instant between them |
| StashSnapshot.Collect | kubernetes/apps/media/stash/app/capture.py:59-77 | whatever the application does, an accepted bundle has the database of one instant, an archive taken after it between two equal inventories, and a configuration found at both ends; on a volume of files and directories that stays as it is, enough reads always give one |
| StashSnapshot.CollectedIsConsistent | kubernetes/apps/media/stash/app/capture.py:59-77 | in a calm history an accepted bundle holds the database and the trees of one instant, the one at which the database copy finished |
| StashSnapshot.DisciplinedIsCalm | kubernetes/apps/media/stash/app/capture.py:17-30 | an application that renames no directory with something in it and makes no links keeps the history calm |
| StashSnapshot.StillInventory | kubernetes/apps/media/stash/app/capture.py:17-30 | a walk of a volume that stays as it is has recorded exactly everything below the roots, within two reads a path |
| StashSnapshot.LinksAreSharedFiles | kubernetes/apps/media/stash/app/capture.py:73-75 | a snapshot has a link member exactly when some file has two names |
| StashDiscipline.RenamesDefeatTheCollect | kubernetes/apps/media/stash/app/capture.py:22-29 | in a history that is calm but for one path led back to an unchanged directory, two equal inventories and an archive between them that is the tree of no instant |
| StashDiscipline.LinksDefeatTheCollect | kubernetes/apps/media/stash/app/capture.py:22-29 | the same in a history that is calm but for one link in the place of a removed directory |
| StashPublish.Output.Capture | kubernetes/apps/media/stash/app/capture.py:52-110 | whatever the application does, one run, stopped anywhere, is a run of the filesystem steps; a run that finds the lock taken changes nothing, and one refused for its surroundings keeps both generations; it reports done exactly when it went through; when it completes the marker stands beside a genuine current generation and the former one is previous; it completes on a still volume with enough reads and steps |
| StashPublish.CompleteIsTruthful | kubernetes/apps/media/stash/app/capture.py:52-102 | at every point of every sequence of runs, the marker exists only beside a current generation of exactly the four payloads and their checksums, from a collect whose inventories and configurations agreed |
| StashPublish.GenuineIsAccepted | kubernetes/apps/media/stash/app/restore.py:17-26 | a genuine generation has exactly the roster and passes every checksum |
| StashPublish.GenuineIsConsistent | kubernetes/apps/media/stash/app/capture.py:59-90 | in a calm history a genuine generation is a consistent capture of one instant |
| StashPublish.KeptBetweenRuns | kubernetes/apps/media/stash/app/capture.py:91-101 | after a success, a whole generation is current while no run stopped in the window, and current or previous after one stop |
| StashPublish.GenerationSurvives | kubernetes/apps/media/stash/app/capture.py:55-101 | with at most one stop in the window since the last success, every point of the next run still has a whole generation |
| StashPublish.TwoStopsCanLoseEverything | kubernetes/apps/media/stash/app/capture.py:91-101 | from any store, two stops in the window and the start of a third run leave no generation |
| StashPublish.Output.CaptureAll | kubernetes/apps/media/stash/app/capture.py:52-110 | after any number of runs on one output, each stopped anywhere or refused, the marker is truthful, and a whole generation survives if at most one run before the last stopped in the window since the last success; a run refused by the lock left the store alone |
| StashRestore.RosterMatches | kubernetes/apps/media/stash/app/restore.py:17-26 | the loop accepts exactly the four payloads with their digests |
| StashRestore.Restore | kubernetes/apps/media/stash/app/restore.py:14-58 | a restore succeeds exactly when bundle, host and archive allow it, puts each label and the two files in their places, and writes nothing when a member is unsafe or the directories are not empty and distinct |
| StashRestore.MoveRoots | kubernetes/apps/media/stash/app/restore.py:44-55 | label by label the unpacked tree replaces its place, blobs and metadata inside the data directory, plugins and scrapers at their own; it fails exactly when a label cannot be unpacked |
| StashRestore.TargetsDisjoint | kubernetes/apps/media/stash/app/restore.py:30-35 | empty and distinct directories are not nested: no location lies in two targets |
| StashRestore.StageIsTable | kubernetes/apps/media/stash/app/restore.py:49-52 | unpacking one label's members gives back exactly that label's part of the archive |
| StashRestore.RestorableUnlessShared | kubernetes/apps/media/stash/app/restore.py:38-43 | a captured bundle is restorable exactly when no file of the trees has two names |
| StashSharedFile.SharedFileIsNotRestored | kubernetes/apps/media/stash/app/restore.py:38-43 | a consistent, genuine capture with one file of two names, which no recovery host accepts |
| StashRestore.CaptureThenRestore | kubernetes/apps/media/stash/app/restore.py:44-55 | every path below plugins or scrapers of the captured instant is found at the same names below the plugins or scrapers directory, every one below blobs or metadata below that name in the data directory, with its kind and bytes, and nothing else is there |
| StashRestore.RestLeftAlone | kubernetes/apps/media/stash/app/restore.py:44-57 | nothing outside the four places and the two configuration files is made, changed or removed |
| StashRestore.RestorableExactly | kubernetes/apps/media/stash/app/restore.py:14-43 | what a restore asks for, in so many words: the bundle with its roster and digests, a sound database, four empty distinct directories, files and directories below the labels only |
| StashRestore.DatabaseRestored | kubernetes/apps/media/stash/app/restore.py:56-57 | the database of the captured instant and the configuration come back |
| PelicanAllocator.FirstRun | kubernetes/apps/services/pelican/app/provisioning/plugin-overrides/UserResourceLimits.php:232-248 | the scan of one address finds the lowest run of k consecutive ports, or there is none |
| PelicanAllocator.Groups | kubernetes/apps/services/pelican/app/provisioning/plugin-overrides/UserResourceLimits.php:229-232 | grouping the ordered rows keeps every row of an address together in port order, addresses in order |
| PelicanAllocator.SelectAllocationBlock | kubernetes/apps/services/pelican/app/provisioning/plugin-overrides/UserResourceLimits.php:203-252 | a returned block is k rows of one node and address with consecutive ports, owned by nobody, not locked and inside the ranges; no block is earlier by node, address and port; each error is raised exactly in its case, and the last one only if there is no block at all |
| PelicanAllocator.FirstFitIsUnique | kubernetes/apps/services/pelican/app/provisioning/plugin-overrides/UserResourceLimits.php:219-251 | those conditions determine the block |
| PelicanPool.Allocations.CompletePool | kubernetes/apps/services/pelican/app/provisioning/provision.php:63-108 | refuses exactly when another address has a port from 28000 to 28999; otherwise appends each missing port once, free and unlocked, changes no other row, and every port of the range has its row |
| PelicanPool.Allocations.InsertChunks | kubernetes/apps/services/pelican/app/provisioning/provision.php:87-99 | the chunks together insert exactly the listed ports in order |
| PelicanPool.InsertionKeepsUnique | kubernetes/apps/services/pelican/app/provisioning/provision.php:77-99 | inserting the missing ports keeps node, address and port unique |
| PelicanPool.CompletionIsIdempotent | kubernetes/apps/services/pelican/app/provisioning/provision.php:77-99 | a complete pool has nothing missing |
| PelicanPool.CompleteCount | kubernetes/apps/services/pelican/app/provisioning/provision.php:101-108 | a complete pool counts exactly a thousand rows, so the final comparison never fails |
| PelicanPool.SelectFromFreePool | kubernetes/apps/services/pelican/app/provisioning/plugin-overrides/UserResourceLimits.php:203-252 | on a free complete pool a request of up to a thousand ports is met, with the ports from 28000 on |
| PelicanPool.FreePoolFirstFit | kubernetes/apps/services/pelican/app/provisioning/plugin-overrides/UserResourceLimits.php:219-247 | there a block exists and first fit is the ports from 28000 on |
| PelicanCreate.RunKeepsInv | kubernetes/apps/services/pelican/app/provisioning/plugin-overrides/UserResourceLimits.php:145-252 | while a lock expires only after its holder has died, every interleaving of creations, node by node, with deaths, deletions, releases of single allocations and new rows keeps chosen blocks free and every server's allocations its own |
| PelicanCreate.NoPortIsShared | kubernetes/apps/services/pelican/app/provisioning/plugin-overrides/UserResourceLimits.php:145-252 | then no allocation belongs to two servers, and each server was given one consecutive block and owns what it has not released of it |
| PelicanCreate.OwnedExactly | kubernetes/apps/services/pelican/app/provisioning/plugin-overrides/UserResourceLimits.php:170-199 | at every point of such a run a server owns exactly the allocations of its block that it has not released |
| PelicanCreate.DeletedOwnsNothing | kubernetes/apps/services/pelican/app/provisioning/plugin-overrides/UserResourceLimits.php:203-252 | a deleted server owns nothing and no other allocation changed |
| PelicanCreate.LeavingLetsTheNextIn | kubernetes/apps/services/pelican/app/provisioning/plugin-overrides/UserResourceLimits.php:145-199 | in such runs a creation that leaves, whatever it reached, gives the lock back, and any next creation enters; a lock that has gone to another stays there |
| PelicanCreate.DeathBlocksUntilExpiry | kubernetes/apps/services/pelican/app/provisioning/plugin-overrides/UserResourceLimits.php:145 | a creation that dies keeps every other out until its lock expires |
| PelicanCreate.FirstFitExactly | kubernetes/apps/services/pelican/app/provisioning/plugin-overrides/UserResourceLimits.php:219-249 | the block found at a query is the first fit of that instant exactly when no node queried before has a block by then |
| PelicanCreate.ScanIsFirstFit | kubernetes/apps/services/pelican/app/provisioning/plugin-overrides/UserResourceLimits.php:219-249 | whatever else happens, if no row of a node queried before becomes free or is added, the chosen block is the first fit of its query's instant |
| PelicanCreate.QuietScanIsFirstFit | kubernetes/apps/services/pelican/app/provisioning/plugin-overrides/UserResourceLimits.php:219-249 | queries with nothing in between choose the first fit of the nodes |
| PelicanCreate.ReleaseBetweenQueries | kubernetes/apps/services/pelican/app/provisioning/plugin-overrides/UserResourceLimits.php:219-249 | a run in which releases between two queries make the chosen block the first fit at no instant |
| PelicanCreate.ExpiredLockSharesPorts | kubernetes/apps/services/pelican/app/provisioning/plugin-overrides/UserResourceLimits.php:145 | an expired lock lets two servers be created with the same block |
| PelicanQuota.CanCreateMeetsLeft | kubernetes/apps/services/pelican/app/provisioning/plugin-overrides/UserResourceLimits.php:45-118 | a creation is allowed exactly when each limited dimension has room for a positive request, by its sum and by its own getter, and the server limit is not reached; a limit of zero or less refuses nothing |
| PelicanQuota.SerialRunStaysWithin | kubernetes/apps/services/pelican/app/provisioning/plugin-overrides/UserResourceLimits.php:78-125 | any serial run of creations and deletions keeps every sum within its limit |
| PelicanQuota.OverlapExceedsUnlessSerial | kubernetes/apps/services/pelican/app/provisioning/plugin-overrides/UserResourceLimits.php:121-145 | two overlapping accepted creations stay within the limits exactly when the second would be accepted after the first |
| PelicanQuota.OverlapExceedsServerLimit | kubernetes/apps/services/pelican/app/provisioning/plugin-overrides/UserResourceLimits.php:121-145 | two overlapping creations exceed a limit of one server |
| RenovateGate.WorkflowRunsValid | scripts/renovate-queue-precheck.py:105-124 | accepts exactly a list of objects with distinct integer ids and known, expected statuses; raises exactly when the first run that is not fine has a new integer id and an unhashable status |
| RenovateGate.Gate | scripts/renovate-queue-precheck.py:162-311 | decides on all trusted snapshots and crashes exactly on a refused snapshot or an id that cannot be merged; allowed exactly when quota, capacity, validity, completeness and identity hold, exactly when no blocker is listed; each blocker is listed exactly when it applies |
| RenovateGate.QueriesCatchUp | scripts/renovate-queue-precheck.py:27-33 | a run that only moves forward is at the status some query asks for at that query's instant |
| RenovateGate.ActiveRunIsCounted | scripts/renovate-queue-precheck.py:150-215 | with trusted snapshots, a run active throughout is among the counted ids |
| RenovateGate.CountedExactly | scripts/renovate-queue-precheck.py:150-215 | an id is counted exactly when some run of the recent snapshot has it and one of the active statuses, or some run of an older snapshot has it |
| RenovateGate.AllowedMeansCapacity | scripts/renovate-queue-precheck.py:264-274 | an allowed mutation means that fewer than twelve runs were active throughout |
| RenovateGate.FallingBackIsMissed | scripts/renovate-queue-precheck.py:27-33 | a run that falls back by one status can be listed by no query |
| RenovateGate.OppositeOrderMisses | scripts/renovate-queue-precheck.py:27-33 | in the opposite order a run that only moves forward can be missed |
| LinkNative.Target.Link | kubernetes/apps/observability/victoria-metrics-ha/app/capture-native.py:27-44 | succeeds exactly when the unfolding exists, adds exactly its image, returns its leaf count and total size, and touches nothing outside the target |
| LinkNative.Target.LinkAll | kubernetes/apps/observability/victoria-metrics-ha/app/capture-native.py:34-39 | the loop over a directory's entries adds up the children and keeps them apart |
| LinkNative.FewerLeft | kubernetes/apps/observability/victoria-metrics-ha/app/capture-native.py:30-35 | directories that are not yet ancestors strictly shrink, so the recursion ends on cycles too |
| LinkTrails.OutcomeByTrails | kubernetes/apps/observability/victoria-metrics-ha/app/capture-native.py:27-44 | it fails exactly when some trail of names from the source dangles, leaves the volume, revisits one of its own directories or meets a special file; otherwise the target holds an object exactly at the paths that trails spell, with the same inode, and the totals are those of what is there |
| LinkTrails.FailureHasBadTrail | kubernetes/apps/observability/victoria-metrics-ha/app/capture-native.py:28-40 | every failure is witnessed by a trail that ends badly |
| LinkTrails.BadTrailFails | kubernetes/apps/observability/victoria-metrics-ha/app/capture-native.py:28-40 | one trail that ends badly makes the whole call fail |
| LinkTrails.TotalsOfTree | kubernetes/apps/observability/victoria-metrics-ha/app/capture-native.py:34-44 | the counts returned are conserved: number and sizes of the files on the target |
| RankedStatistics.StatisticsData | kubernetes/apps/adguard-home/adguard-home/backup-candidate/native-proof.py:23-47 | succeeds exactly when all five lists are rankable, rewrites exactly those to their canonical form, keeps the rest, and otherwise reports the first failing key's error |
| RankedStatistics.RankableExactly | kubernetes/apps/adguard-home/adguard-home/backup-candidate/native-proof.py:28-35 | rankable means that the five named lists are there, each of at most a hundred one-member objects, none included |
| RankedStatistics.RefusedExactly | kubernetes/apps/adguard-home/adguard-home/backup-candidate/native-proof.py:30-35 | a key is refused exactly for being absent, for not being such a list, or for more than a hundred rows |
| RankedStatistics.CanonicalIsCanonical | kubernetes/apps/adguard-home/adguard-home/backup-candidate/native-proof.py:33-46 | the form has all rows in order, or at a hundred rows the least count, exactly the rows above it in order and the number of the others |
| RankedStatistics.CanonicalMeansSameStable | kubernetes/apps/adguard-home/adguard-home/backup-candidate/native-proof.py:33-46 | for any lists, equal forms mean equal rows, or at a hundred rows the same rows above the same cutoff |
| RankedStatistics.ErasesExactlyTheFreedom | kubernetes/apps/adguard-home/adguard-home/backup-candidate/native-proof.py:24-26 | two shown lists have one form exactly when both can be shown for one table by count-only rankings cut to a hundred |
| RankedStatistics.StatisticsAgree | kubernetes/apps/adguard-home/adguard-home/backup-candidate/native-proof.py:23-47 | two whole answers agree after rewriting exactly when they agree outside the ranked lists and each ranked list may show one table |
| RankedStatistics.BootsAgree | kubernetes/apps/adguard-home/adguard-home/backup-candidate/native-proof.py:23-47 | two boots over the same tables are always rewritten to one result |
| Sorting.SortedIsUnique | kubernetes/apps/adguard-home/adguard-home/backup-candidate/native-proof.py:33 | the rows determine the sorted list, whatever the sorting algorithm |
| WireCodec.EncodeVarint | scripts/rustdesk-protocol-probe.py:19-25 | writes the seven-bit groups of a number; a negative one is refused |
| WireCodec.VarintBytes | scripts/rustdesk-protocol-probe.py:19-25 | byte i holds the i-th seven bits, all but the last have the high bit set, and nothing is left above the last |
| WireCodec.NumberRoundTrip | scripts/rustdesk-protocol-probe.py:39-48 | a written number in front of anything is read back with its own length |
| WireCodec.VarintIsShortest | scripts/rustdesk-protocol-probe.py:19-25 | no byte string that reads as a number is shorter than what is written for it |
| WireCodec.EncodeNumber | scripts/rustdesk-protocol-probe.py:28-29 | a number field is the number of its key and wire type 0, then the value; refused for a negative field or value |
| WireCodec.EncodeBlob | scripts/rustdesk-protocol-probe.py:32-35 | a blob field is the number of its key and wire type 2, then its size and its bytes; refused for a negative field |
| WireCodec.ReadInt | scripts/rustdesk-protocol-probe.py:39-48 | the shifting loop computes the number and the offset behind it, or fails at the end of the data |
| WireCodec.Decode | scripts/rustdesk-protocol-probe.py:38-61 | the offset loop yields the field map of the message's fields, or the error of the first bad one |
| WireCodec.LastWriteWins | scripts/rustdesk-protocol-probe.py:60 | a key has a value in the map exactly when that was its last write |
| WireCodec.MessageRoundTrip | scripts/rustdesk-protocol-probe.py:28-61 | a message built of any fields is read as those fields |
| WireCodec.CutMessage | scripts/rustdesk-protocol-probe.py:50-61 | a message cut anywhere is refused exactly inside a header, and otherwise read as the fields before and a shortened blob |
| WireCodec.OtherWireIsRefused | scripts/rustdesk-protocol-probe.py:57-58 | a field of any other wire type is refused, whatever comes before and after it |
| WireCodec.Width | scripts/rustdesk-protocol-probe.py:65 | the least width whose capacity exceeds the length, none from 2^30 on |
| WireCodec.FrameBytes | scripts/rustdesk-protocol-probe.py:64-66 | the bytes of a frame for each width: four times the size plus the width less one, least significant byte first, then the payload |
| WireCodec.HeaderIsRead | scripts/rustdesk-protocol-probe.py:79-84 | what any stream is read as: two bits tell the width, the rest of the header the size, refused from a mebibyte on |
| WireCodec.FrameRoundTrip | scripts/rustdesk-protocol-probe.py:64-84 | a framed payload in front of anything is read back below a mebibyte, and refused with only its header gone otherwise |
| WireCodec.FrameIsShortest | scripts/rustdesk-protocol-probe.py:64-66 | no frame that reads as a payload is shorter than the one written for it |
| WireCodec.Socket.Exact | scripts/rustdesk-protocol-probe.py:69-76 | however the bytes are delivered, exactly the next n are returned, or the stream has ended |
| WireCodec.Socket.ReadFrame | scripts/rustdesk-protocol-probe.py:79-84 | reading a frame depends on the bytes alone, never on how they were split |
| WireCodec.ConversationRoundTrip | scripts/rustdesk-protocol-probe.py:64-84 | any messages below the bound, framed back to back, are read and decoded in order |
| WireCodec.Converse | scripts/rustdesk-protocol-probe.py:38-84 | reading and decoding n frames from a connection that delivers any pieces gives each message's map of last writes and leaves what follows |
| StartupHold.Container.Hold | kubernetes/apps/media/calibre-web-automated/app/kopiur-startup-hold.py:107-109 | the loop ends by the monotonic end and one overrun of a sleep, whatever the wall clock does; without a signal only when the deadline is reached or the monotonic time is over |
| StartupHold.Container.Start | kubernetes/apps/media/calibre-web-automated/app/kopiur-startup-hold.py:77-113 | the remaining time is the deadline minus one reading of the wall clock after the old evidence is gone; evidence is published exactly when it lies within the bound, and names this process, the deadline and the monotonic time it was bound to; a hold without a signal ends in the native program and one with a signal in the end of the process; in the end no evidence is left |
| StartupHold.RunKeepsInv | kubernetes/apps/media/calibre-web-automated/app/kopiur-startup-hold.py:77-113 | over all runs of signals, kills, restarts, reboots and wall-clock changes, evidence of this incarnation exists only before the native program |
| StartupHold.EndedHoldServes | kubernetes/apps/media/calibre-web-automated/app/kopiur-startup-hold.py:107-113 | a holder that left its loop, neither signalled nor killed, executes the native program with its second next statement, whatever the clocks say |
| StartupHold.SignalledNeverServes | kubernetes/apps/media/calibre-web-automated/app/kopiur-startup-hold.py:100-111 | a process signalled from its loop on never executes the native program and leaves no evidence |
| StartupHold.RunOutIsSeen | kubernetes/apps/media/calibre-web-automated/app/kopiur-startup-hold.py:107-109 | a clock that has run out and stays so ends the loop within a quarter of a second and one overrun |
| StartupHold.AcceptedExactly | kubernetes/apps/media/calibre-web-automated/app/kopiur-startup-hold.py:46-64 | with file, identity and clocks read one after another, a check accepts exactly when the file holds evidence of the process found by the identity, which has not executed the native program by then, and each clock has the time when it is read |
| StartupHold.AcceptedAtOnce | kubernetes/apps/media/calibre-web-automated/app/kopiur-startup-hold.py:51-63 | with a wall clock only set forward, all its reads could as well have been made when the file was read, and both clocks had the time when the identity was read |
| StartupHold.SameEvidenceOneHold | kubernetes/apps/media/calibre-web-automated/app/kopiur-startup-hold.py:134-137 | evidence found twice by its own process is one unbroken hold |
| StartupHold.PromiseIsKept | kubernetes/apps/media/calibre-web-automated/app/kopiur-startup-hold.py:61-63 | undisturbed, the hold stands for the time a check asked for |
| StartupHold.AcceptedIsInHold | kubernetes/apps/media/calibre-web-automated/app/kopiur-startup-hold.py:107-111 | if the wall clock is never set back, an accepted check finds the holder in its loop or just signalled |
| StartupHold.SetBackBreaksThePromise | kubernetes/apps/media/calibre-web-automated/app/kopiur-startup-hold.py:107-113 | a run in which a check asking for a thousand seconds is accepted at the instant at which the native program starts |
| StartupHold.RestartsDoNotExtend | kubernetes/apps/media/calibre-web-automated/app/kopiur-startup-hold.py:84-90 | with a wall clock only set forward, nothing is accepted later, by the monotonic clock, than the first hold could have lasted |
| StartupHold.DeadlineIsFinal | kubernetes/apps/media/calibre-web-automated/app/kopiur-startup-hold.py:84-87 | once the deadline is reached nothing is accepted and every later start goes straight to the native program |

## Left out

- StashSnapshot.TakeInventory: following a link leads out of the model, so what an inventory holds after that is left open.
- StashSnapshot.TakeArchive: following a link leads out of the model, so what an archive holds after that is left open.
- StashSnapshot.Collect: the configuration is compared by value at both ends only, as in the source, so nothing is said about it in between; the refusals for want of headroom or of a configuration come before it and are the `ready` of StashPublish.Output.Capture.
- StashSnapshot.CollectedIsConsistent: that the history must be calm is shown for two clauses; that ctimes advance, that the roots stay and that link counts are true are taken for granted.
- Stash walks: the order in which directories and names are visited is left arbitrary, which covers the sorted order of the source; a wall-clock deadline is a budget of reads.
- Stash internals: SQLite pages, tar headers, modes and ownership on restore, and digests (which are taken as injective); the database copy is one atomic read.
- Stash power loss: filesystem steps take effect in order, as for a killed process.
- StashRestore.RestorableUnlessShared: assumes archive paths without dot-dot components, which the capture of a walk cannot produce.
- SabGuard inputs: HTTP, certificate pinning and the parsing of the link and queue answers are arbitrary answers or failures; one guard runs at a time.
- Pelican surroundings: Eloquent, the lock implementation, the creation service, egg import, the parsing of the configured ranges, and the environment and port variables computed from a block.
- PelicanAllocator.SelectAllocationBlock: an address is its rank in the database order; node, address and port are unique.
- PelicanPool.CompleteCount: two provisioning runs at the same time are not modelled.
- Renovate precheck: the check-run inspection of candidates and the calls of the command-line client; a query is assumed to return the matching runs of its instant up to its limit.
- RenovateGate.Gate: ids of other types that compare equal to integers in a merged dictionary are not modelled.
- LinkNative.Target.Link: the graph does not change during the call, the target is not reachable from the source, and a failing system call other than the assertions is left out.
- VictoriaMetrics publication: the rotation of the materialised directories in `main`, which is the Stash rotation without its marker.
- RankedStatistics.StatisticsData: counts are numbers and the JSON texts of rows a total order; two spellings of one number are one count.
- AdGuard proofs: the roster, the DNS probe and the process driver of the same file.
- WireCodec.EncodeBlob: takes bytes; text encoding is left out, as are connecting and sending.
- StartupHold clocks: both clocks advance together apart from wall-clock changes and reboots, and statements of the loop take no time beyond a bounded overrun of each sleep.
- StartupHold evidence: file modes and ownership, malformed evidence and its JSON form; a process identity is fresh for every incarnation and differs between programs.
- The copy of the startup hold for another application, backup qualification drivers and retirement scripts, which add no logic of their own.
