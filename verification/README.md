# directorydiffmerge: a verified model

`ddm` keeps a backup of a directory together with two metadata files that describe it. A scrub compares the backup with
the two files, lets two outvote the third, repairs what it can and looks again; a backup then replays the difference between
source and backup. This project models that core in Dafny and proves what it promises: that a scrub ends and ends in agreement,
that its votes respect what both files agree on, that every edit it makes can be made, that a backup converges, in memory and on
disk, and keeps the metadata in step, that the comparisons report exactly what differs, that a metadata file gives back the tree
it was written from, and what whole runs, from loading the metadata files to saving them, make of files that match the backup and
of files that do not.

The files, from the bottom up:

- `Elements`, `Catalogs`: paths, entries, their comparisons, and the value of a tree: a finite map from paths to entries.
- `Shapes`, `Order`, `Trees`: the tree in memory, with its lists, its index and the sorting of its lists. Nodes live at addresses
  in a store inside the tree. `Valid()` says that lists, nodes and index belong together; `ordered` is a promise a tree may
  make, that its lists have the directories first, and every operation keeps it. `Seen()` are the entries that the index has.
- `Disks`: the file system as a map, where making or removing an entry sets the time of its directory to anything.
- `Diffs`: the recursive two-way and three-way comparison, and the path-by-path comparisons `Reported2` and `Reported3`.
- `Ranks`: how far three catalogs are from agreement, as one number per depth.
- `Repairs`, `Votes`: the repairs and votes as functions on catalogs, and what whole histories of them do.
- `Users`: the user, as the sequence of the answers they give.
- `Manager`, `Scrub`: the methods that make the repairs, and the scrub.
- `Cases`: results of a scrub that its messages do not lead one to expect, at concrete starts, and when exactly they come about.
- `Replay`, `Backup`: what replaying a comparison makes of a catalog, whatever the order of the lines, and the backup.
- `Hashes`, `Scan`: computing missing hashes and scanning a directory.
- `Texts`, `Lines`, `Listings`, `Metadata`, `Writer`: the lines of a metadata file, and its reader and writer.
- `Legibility`: what a metadata line can hold before a scrub or a backup, it can hold after it.
- `Sessions`, `Runs`: a whole run, from loading the trees to saving the files, and sequences of runs.

Four things the code does differently from what its messages say are stated as they are:

- A repair that finds the content of source and backup equal sets those attributes in which source and *metadata* differ. Where
  they agree and the backup does not, the backup entry stays as it was and the scrub still returns 1. `Repairs.HalfUpdate` is
  the exact condition, `half` in the contracts is the set of these paths. They are exactly the lines of the last look that called
  for it (`Scrub.HalfExact`); however many repairs come before, a path ends up in `half` only if it met the condition at the start
  (`Votes.HalfFromStart`), and `Scrub.ScrubImpl` proves agreement everywhere else; where no path meets the condition, everywhere.
- What was given up is remembered over all looks of a scrub: only `redo` is cleared before the next one. If the user keeps
  something, a copied directory makes the scrub look again, and the user then lets go of it, everything agrees, and the scrub
  returns 2 and saves nothing (`Cases.SecondThoughts`). `Scrub.ScrubImpl` proves that the result is 2 just when a line was left in
  any look, and `Cases.TwoInVain` that this comes with agreement just when a line was left before the last look and none since.
- Setting a metadata entry that is a directory replaces everything below it, so a later vote can go against an entry on which both
  metadata files had agreed (`Votes.DirVoteFlips`, `Cases.DirVoteHappens`). It happens exactly where the backup does not have that entry
  (`Votes.VoteSplits`). Otherwise, whatever is repaired in between, no vote goes against such an entry (`Votes.SparedRun`), and
  aside of repairs the vote of the start decides (`Votes.DecidedRun`). Where a hash is missing, files that agree can be voted on
  nevertheless; `Votes.AgreedVote` says exactly when.
- A recreated symbolic link enters the lists and not the index (`Trees.DirectoryTree.AddSymlinkToTree`). The pass that makes it
  does not mind. A later comparison does not see the link: it reports it as missing, and the repair finds its name taken
  (`Scrub.SecondLook`), or it is in no index where an assertion expects it in one. A scrub that looks again after recreating a
  link never succeeds any more (`Scrub.NothingHidden`), and a backup survives only if each such link lies below a line that was
  skipped (`Backup.BackupImpl`).

A metadata line has nine permission bits, and a scan finds twelve; `Lines.SpecialBits` says what becomes of the other three.

## Model

| member | source | states |
|---|---|---|
| `Order.Sort` | core.cpp:286-291 | The result is a rearrangement of the list in which directories come first and entries of the same kind are in the order of their paths: name by name, at the first name that differs, and a name at its first character that differs, where a name or path precedes what it is the beginning of. |
| `Order.BeforeIs` | core.cpp:286-291 | `operator<` puts a directory before what is none, and otherwise compares the paths name by name. |
| `Order.KeyLessIs` | core.cpp:286-291 | One path precedes another just when it is its beginning, or has the smaller name at the first difference, whatever the directories. |
| `Order.NamesDecide` | core.cpp:286-291 | In one directory the order is that of the names. |
| `Order.SortedDirsFirst` | core.cpp:286-291 | A sorted list has its directories first. |
| `Votes.SameIsCompare` | core.cpp:293-317 | `operator==` on optional entries is `compare` with every option on, for all entries including missing ones and missing hashes. |
| `Elements.FieldByField` | core.cpp:293-317 | Which fields each comparison leaves out: `operator==` none, that of content permissions, owner, group and modified time, that of stamps size, hash and target; a missing hash matches any. |
| `Trees.DirectoryTree.constructor` | core.h:379-382 | A new tree is valid, empty and bound to no directory. |
| `Trees.DirectoryTree.Search` | core.cpp:473-478 | The answer is the entry that the index has for the path; a path that is in the lists and not in the index is not found. |
| `Trees.RemoveIf` | core.cpp:330-337 | What is left is exactly what is not equal to the removed element, without repetition and with directories still first. |
| `Trees.DirectoryTree.RecursiveRemoveFromIndex` | core.cpp:801-809 | The index loses exactly the paths strictly below a directory, and keeps agreeing with the nodes; it fails its assertion just when one of them is not in the index. |
| `Trees.DirectoryTree.RecursiveAddToIndex` | core.cpp:780-799 | The index gains exactly the paths at and below a node, each with its node. |
| `Trees.DirectoryTree.RecursiveAdd` | core.cpp:354-366 | The copy is a well-formed tree at new addresses that holds exactly the subtree it was made from, directories first in every list. |
| `Trees.DirectoryTree.TreeCopy` | core.cpp:705-733 | It succeeds just when the source has the path, its directory is there and the name is free; the subtree joins, nothing else changes, and index, lists and order stay in step. |
| `Trees.DirectoryTree.RemoveFromTree` | core.cpp:504-523 | It succeeds just when the index has the path and everything below it; everything at and below it goes and nothing else, from the lists and from the index. |
| `Trees.DirectoryTree.AddSymlinkToTree` | core.cpp:542-554 | The link joins its list, and the index then lacks it. A taken name is noticed except in the top directory, where the list gets a second entry and the tree is no valid tree any more. |
| `Trees.DirectoryTree.SetElement` | core.h:335-354 | Changing an entry in place changes that entry alone, and keeps lists, index and order. |
| `Trees.DirectoryTree.ModifyPermissionsInTree` | core.cpp:578-582 | Exactly the permissions of the path change, if the path is found. |
| `Trees.DirectoryTree.ModifyOwnerInTree` | core.cpp:593-598 | Exactly the owner and group of the path change, if the path is found. |
| `Trees.DirectoryTree.ModifyMtimeInTree` | core.cpp:616-620 | Exactly the modified time of the path changes, if the path is found. |
| `Trees.DirectoryTree.RecursiveFilesystemCopy` | core.cpp:735-778 | Afterwards the disk has, at and below the path, what the other disk has there, with its own times, although every entry made disturbs the time of its directory. |
| `Trees.DirectoryTree.FixupParentMtime` | core.cpp:649-655 | The directory on disk gets the modified time it has in the tree; the top directory is left alone. |
| `Trees.DirectoryTree.CopyFromTreeAndFilesystem` | core.cpp:493-502 | Tree and disk both gain the subtree: the disk exactly what the other disk has there, with its content and times, whether or not the trees have hashes, and nothing else on disk changes, directory times included. |
| `Trees.DirectoryTree.RemoveFromTreeAndFilesystem` | core.cpp:525-540 | Tree and disk both lose exactly the subtree; it fails, with the disk untouched, just when the path or something below it is not in the index. |
| `Trees.DirectoryTree.AddSymlinkToTreeAndFilesystem` | core.cpp:556-576 | It succeeds just when the directory is there and the name is free; the disk gains exactly the link made from the entry, and the tree describes the disk again just when the entry is one that the file system can report. |
| `Trees.DirectoryTree.ModifyPermissionsInTreeAndFilesystem` | core.cpp:584-591 | Exactly the permissions of the path change, in the tree and on disk; for a symbolic link the disk keeps its own, so the tree describes it just when they are those. |
| `Trees.DirectoryTree.ModifyOwnerInTreeAndFilesystem` | core.cpp:600-614 | Exactly the owner of the path changes, in the tree and on disk, and the tree still describes the disk. |
| `Trees.DirectoryTree.ModifyMtimeInTreeAndFilesystem` | core.cpp:622-628 | Exactly the modified time of the path changes, in the tree and on disk, and the tree still describes the disk. |
| `Diffs.Diff2Helper.RecursiveCompare` | core.cpp:866-896 | The lines added are those of exactly the paths below common directories on which the indexes differ, each once and none after something below it; it fails just when a list there has a path that neither index has. |
| `Diffs.Diff2` | core.cpp:898-904 | The two-way comparison returns the lines of exactly the paths whose directories are common and whose indexed entries differ or are missing on one side, each once, whatever the order of the names; it fails its assertion just when a list of a common directory has a path that neither index has. |
| `Diffs.ReportedAbove2` | core.cpp:866-896 | Every path that differs is reported or lies below a reported one. |
| `Diffs.Diff3Helper.RecursiveCompare` | core.cpp:928-1023 | The same for three trees, going down what is a directory in at least two and dropping to two-way comparisons; it fails just when a line is skewed or a path is in no index. |
| `Diffs.Diff3` | core.cpp:1025-1031 | The three-way comparison reports exactly the paths of `Reported3` in what the indexes have, each once, and fails an assertion just when some line is skewed or some path of a compared directory is in no index. |
| `Diffs.ReportedAbove3` | core.cpp:928-1023 | Every path on which not all three agree is reported or lies below a reported one. |
| `Votes.SkewedExactly` | core.cpp:953-956 | The transitivity assertion fails just when only the middle hash is missing, the outer two differ, and nothing else does. |
| `Votes.HashedStraight` | core.cpp:953-956 | With all hashes known it never fails. |
| `Votes.VoteCoverage` | backup.cpp:647-704 | A reported line falls through all branches of the vote just when only the backup lacks the hash and the metadata files have different ones; never with all hashes known. |
| `Votes.VoteParents` | backup.cpp:647-696 | Wherever a vote copies an entry into a tree, its directory is there. |
| `Repairs.MergeHeals` | backup.cpp:507-523 | Setting the attributes in which two entries differ makes a third equal to the first just when no attribute on which those two agree is wrong in it. |
| `Repairs.HalfUpdateHappens` | backup.cpp:504-523 | There are entries of source, backup and metadata for which the repair leaves the backup entry half updated. |
| `Repairs.CopyHeals` | backup.cpp:291-298 | Copying a missing entry that source and metadata agree on makes all three agree at the path and changes nothing outside it. |
| `Repairs.AdoptHeals` | backup.cpp:307-334 | So does copying it and setting the attributes of both metadata entries. |
| `Repairs.AllFromSourceHeals` | backup.cpp:340-348 | So does taking the entry from the source everywhere. |
| `Repairs.LinkHeals` | backup.cpp:262-267 | So does making a missing link from the metadata. |
| `Repairs.CutHeals` | backup.cpp:352-364 | So does removing an entry that only the backup has. |
| `Repairs.TouchHeals` | backup.cpp:375-395 | So does setting the attributes of a backup entry of the same content. |
| `Repairs.RelinkHeals` | backup.cpp:417-429 | So does making a differing link again from the metadata. |
| `Repairs.ReplaceHeals` | backup.cpp:453-471 | So does replacing the backup entry by a source entry that equals the metadata. |
| `Repairs.MetasHeal` | backup.cpp:476-495 | So does replacing both metadata entries by a source entry that equals the backup. |
| `Repairs.MixedHeals` | backup.cpp:504-539 | Where source and backup have the same content, all three agree afterwards, unless an attribute is stuck; then only the backup entry differs, in attributes alone. |
| `Scrub.VotedFacts` | backup.cpp:578-602 | A metadata file that takes over what is seen of the backup at a path, with everything below it, agrees with it there and is unchanged elsewhere; only one entry changes if no directory is involved. |
| `Manager.TreeManager.FixMissing` | backup.cpp:253-351 | An entry that is not seen in the backup gets the repair of `RepairOf` and the result of `ResultOf`, which `Repairs.RepairHandling` spells out, or it fails for lack of a source entry and changes nothing; no question is asked; it throws just when the backup has an entry there that the index lacks, and the repair is not given up before. |
| `Manager.TreeManager.CopyMissing` | backup.cpp:291-350 | Which of the three repairs of a missing entry is made depends on how source and metadata compare, field by field, and it is made in tree, disk and metadata; the result tells whether metadata or a directory were involved; no question is asked; it throws just when the name is taken. |
| `Manager.TreeManager.FixExtra` | backup.cpp:352-364 | The user is asked; after a yes the extra entry goes, after a no nothing changes and it fails; it throws just after a yes, when a link below is missing from the index. |
| `Manager.TreeManager.FixDiffering` | backup.cpp:365-565 | A differing entry gets the repair of `RepairOf` and the result of `ResultOf`, which `Repairs.RepairHandling` spells out; the user is asked just when `Questioned` says; it fails just without a source entry or after a no; it is left half updated just under `HalfUpdate`. |
| `Manager.TreeManager.TouchUp` | backup.cpp:375-395 | The attributes that differ are set in tree and disk. |
| `Manager.TreeManager.UpdateLink` | backup.cpp:417-429 | The link is made again from the metadata; unless it has rotted the user is asked, and after a no nothing changes. |
| `Manager.TreeManager.FixContent` | backup.cpp:453-561 | The four repairs of differing content, which one it is, when the user is asked, and that it is made just after a yes. |
| `Manager.TreeManager.MixEntries` | backup.cpp:504-539 | The backup gets the attributes in which source and metadata differ, the metadata get the source entry. |
| `Manager.TreeManager.TakeSource` | backup.cpp:546-560 | Backup and both metadata files get what the source has; it throws just when a link below is missing from the index. |
| `Manager.TreeManager.TryToFixBackupEntry` | backup.cpp:246-567 | `Handling`: for every line that both files agree on, in terms of the fields of the three entries, whether the user is asked, what is returned, and what backup and both metadata trees have at every path afterwards; after a no everything is as it was. Unless a link without an index entry is in the way (`Jammed`; then it throws, unless the repair is given up), every repair can be made, brings agreement at its path and stays at and below it; it is half updated just under `HalfUpdate`. |
| `Repairs.RepairHandling` | backup.cpp:246-567 | What the repair of a line makes of the three trees, and what it returns, is what the decision table `Handling` says by fields. |
| `Repairs.HandlingPlainly` | backup.cpp:365-395 | An entry that differs in permissions, owner, group and modified time only gets those of the metadata, with or without a source, without a question; if the source has the entry of the metadata, both metadata trees are unchanged; after a no all three are. |
| `Repairs.NothingLost` | backup.cpp:352-471 | Nothing goes from the backup unless both files lack it and the user said yes; nothing there gets another type, size or target without a question, unless type, permissions, owner, group and modified time are those of the metadata. |
| `Users.User.Ask` | backup.cpp:212-219 | The answers come in their order, one for each question. |
| `Manager.TreeManager.FixMetadataEntry` | backup.cpp:578-602 | The metadata tree has at and below the path what the backup has, links without an index entry included, or nothing if the backup entry is not seen, and is otherwise unchanged; the result asks for another look just when a directory was involved. |
| `Votes.DirVoteFlips` | backup.cpp:589-601 | After a vote on a directory against the second file, an entry below it on which both files had agreed is one on which the first file stands alone. |
| `Cases.DirVoteHappens` | backup.cpp:647-665 | It happens, for any entries: the second file has the directory changed and both files agree against the backup on an entry in it; in two looks the first file is outvoted on that entry and takes that of the backup. |
| `Votes.AgreedVote` | backup.cpp:647-657 | A file is outvoted although both files agree just when one of them has no hash, the other has another hash than the backup, and nothing else differs. |
| `Votes.TameStep` | backup.cpp:642-706 | Whatever a vote or repair does, at every path backup and first file are as at the start, or one lacks the entry or has that of the source, or their contents are the same. |
| `Votes.HalfFromStart` | backup.cpp:504-523 | A path that meets the condition of a half update after any history of votes and repairs has met it at the start. |
| `Votes.VoteSplits` | backup.cpp:589-601 | A vote makes the files differ at a path on which they had the same entry just when it is a vote at or above that path and the backup does not have that entry. |
| `Votes.SparedRun` | backup.cpp:632-707 | Whatever is repaired, no vote takes place where both files had the same entry at the start, and they go on having the same entry there, as long as no vote above splits them. |
| `Votes.CalmGentle` | backup.cpp:632-707 | Votes on other things than directories never do. |
| `Votes.PolledRun` | backup.cpp:632-707 | In such a history an entry at or above which nothing was repaired is that of the start, or what the vote of the start makes of it on a line reported at the start. |
| `Votes.DecidedRun` | backup.cpp:632-707 | If no line is left on which a file is outvoted, every such entry that was reported has been voted on as the start says, and every other one is unchanged. |
| `Scrub.VoteAgainst2` | backup.cpp:647-656 | The second file takes over what is seen of the backup; the three agree at the path. |
| `Scrub.VoteAgainst1` | backup.cpp:657-665 | The first file takes over what is seen of the backup; the three agree at the path. |
| `Scrub.VoteAgainstBackup` | backup.cpp:666-694 | The backup is repaired, or left because nothing helps or the user said no; a question is asked just when the repair calls for one; it is half updated just under `DueHalf`; the flags tell just whether metadata were written and whether to look again; it does not survive just when a hidden link jams the repair. |
| `Scrub.ProcessLine` | backup.cpp:642-706 | A line is left, with an excuse, unchanged and flagged, or resolved as `Resolved` (or `Dropped`, for a hidden link) says; it is half updated just when it calls for it; the program survives it unless the hashes split or a hidden link jams the repair. A line that called for a question is left just when the answer was no. |
| `Scrub.Pass` | backup.cpp:642-706 | Lines of a look at the start stay applicable until they are handled, each in one event; a pass ends with every line settled, half updated exactly where its look called for it, or excused, or, after a line that was not left, with a strictly smaller distance from agreement; the flags afterwards tell just whether a line was left, now or before; it does not survive only a split hash or a jam. Every question and its answer are in the events, in the order they were given; another look comes just after an event that involved a directory. |
| `Scrub.PassAgrees` | backup.cpp:642-706 | What a fresh comparison would still report after a pass has an excuse; nothing was left just when the three agree at every path, reported or not, but for the half updated ones. |
| `Scrub.NothingHidden` | backup.cpp:616-740 | A pass that ends with nothing left has started without recreated links that its look did not see. |
| `Scrub.SecondLook` | core.cpp:542-554 | The next look reports a recreated link as missing, if both files have it, and its repair is jammed by the taken name. |
| `Scrub.StaleLinks` | backup.cpp:616-740 | If a scrub comes to an end after such a look, both files do not have the link alike, unless only a source could help that cannot. |
| `Scrub.HashedAgree` | core.cpp:293-300 | Agreement of fully hashed trees at every path is equality. |
| `Scrub.Recheck` | backup.cpp:633-641 | The comparison of a pass; if it sees everything it fails just when a line is skewed, never on fully hashed trees; if it survives, every recreated link is in a metadata file wherever that has its directory. |
| `Scrub.Rounds` | backup.cpp:632-707 | The redo loop ends, for any answers of the user and also after recreated links, with a history of votes, repairs, questions and lines left that accounts for every change and every look; another look comes just after an event that involved a directory; the answers in the history are exactly those the user has given; 2 just when it has a line that was left. |
| `Ranks.RepairCloser` | backup.cpp:632-707 | An edit that stays at and below a path and lightens it brings three catalogs closer, whatever it does below. |
| `Scrub.Closer` | backup.cpp:632-707 | Handling a line brings what is seen no further from agreement, and strictly closer if it asks for another look; a recreated link, which stays unseen, changes nothing. |
| `Scrub.EmptyDiff` | backup.cpp:622-626 | Nothing is reported just when the three agree at every path. |
| `Scrub.ScrubImpl` | backup.cpp:616-740 | 0 means unchanged and in agreement, and comes whenever there is agreement; otherwise the result is 2 just when a line was left in any look, and 1 just when none was, for any options and answers; 1 means agreement at every path but the half updated ones, where both files are what the source is, and the old text of every changed file is kept; the half updated paths are exactly the lines of the last look that called for it, each of them due at the start, so without such a path there is agreement everywhere, and with all hashes equality; the last look had exactly the lines handled since, what is seen agrees but for the half updated paths just when none of them was left, and whatever is still reported has an excuse; it is a lawful history, in which no vote touches an entry that both files had alike, unless a directory above was voted on while the backup had another entry, and, if no directory was voted on, the vote of the start decides aside of repairs; it aborts only over hashes that do not compare transitively, never with all hashes known, or over a link it has made again, and after another look without seeing that link it never succeeds; without permission to repair, backup and disk are untouched, and, if no reported line is a vote on a directory, the files are what the majority says and the result is 2 just when a line was undecided. Its questions and answers are exactly those of the user, in order, and a line that called for one was left just when the answer was no; a file is marked for keeping its old text just when the result is 1 and the history has an event that writes that file. |
| `Cases.SecondThoughts` | backup.cpp:630-641 | A history at a concrete start, allowed by everything the scrub promises, in which a line is left, a copied directory asks for another look, and the same line is then resolved: all three agree at every path, and the result is 2. |
| `Cases.TwoInVain` | backup.cpp:630-740 | The result is 2 with agreement in what is seen, but for the half updated paths, just when a line was left before the last look and none since. |
| `Cases.HalfAtOneLook` | backup.cpp:504-523 | A scrub that looks once leaves half updated exactly the reported lines that called for it at the start. |
| `Replay.LinesApart` | core.cpp:866-896 | Nothing is reported below a line that removes, copies or replaces. |
| `Replay.StillThere` | backup.cpp:819-933 | Lines that have been replayed leave the entry and the directory of every other line as they were. |
| `Replay.ReplayStructural` | backup.cpp:824-836 | Replaying a line that removes, copies or replaces adds it to the set of replayed lines. |
| `Replay.ReplayUpdate` | backup.cpp:856-880 | Replaying a line that sets attributes adds it to the set of replayed lines. |
| `Replay.ReplayConverges` | backup.cpp:819-933 | After the replay, source and backup differ in exactly the lines that were skipped. |
| `Replay.ReplaySteps` | backup.cpp:819-933 | Line by line, in any order, the replay makes the entries that the set of its lines says: those of the source at and below replaced paths, the merged attributes where they are set, and the old ones elsewhere. |
| `Replay.ReplayOrder` | backup.cpp:819-933 | Replaying the lines of a diff one after the other, in two different orders, makes the same of a catalog. |
| `Replay.ReplayedInOrder` | backup.cpp:819-933 | What a backup has made of backup or metadata is what its lines make of it one after the other, in any order. |
| `Replay.ReplayTracks` | backup.cpp:819-933 | Metadata that agreed with the backup at a path still do, although attributes are only set where source and backup differ. |
| `Replay.ReplayHash` | backup.cpp:967-973 | A metadata entry that did not come from the source keeps its hash and its type. |
| `Backup.ReplaceLine` | backup.cpp:824-836 | Removing, copying or replacing a subtree is done in backup, on disk and in the metadata; it fails just when a link without an index entry lies at or below the path. |
| `Backup.UpdateLine` | backup.cpp:856-880 | Setting attributes can always be done, in backup, on disk and in the metadata. |
| `Backup.ProcessLine` | backup.cpp:819-933 | A line is skipped as rot just when type, permissions, owner, group and modified time are equal and the content is not; the user is asked just when it is no rot, its content has to be replaced and the backup is the newer one, and it is skipped just after a no; every other line is replayed on backup, disk and metadata; it fails only over a link without an index entry at or below the path. |
| `Backup.BackupImpl` | backup.cpp:809-944 | Every edit can be made, unless a link without an index entry is in the way; if it survives, each such link lies below a skipped line. Afterwards the comparison reports exactly the skipped lines, which are unchanged: they are the rotten ones and exactly those newer ones for which the answer was no; 2 comes just when a reported path has equal type, permissions, owner, group and modified time and another size, target or known hash; a skipped entry is never newer in the source; an entry of equal type, size, target and known hash is neither skipped nor replaced. The metadata keep describing the backup; backup and metadata are the replay of the other lines, and so is the disk: replaced subtrees are what the source directory has, every other file keeps its content. |
| `Backup.PlainWords` | backup.cpp:838-933 | These three promises about fields, from what a line is skipped for. |
| `Backup.BackupTwice` | backup.cpp:809-944 | A second backup has exactly the skipped lines to handle; if there were none, it returns 0 and changes nothing, in backup, disk and metadata. |
| `Hashes.ComputeHashIfNeeded` | core.cpp:280-284 | One missing hash of a file is computed from disk, nothing else changes; it fails just when the hash is missing and the file cannot be read. |
| `Hashes.ComputeMissingBelow` | core.cpp:348-352 | Exactly the missing hashes at and below a node are filled in; it fails just when one of those files cannot be read. |
| `Hashes.ComputeMissingHashes` | core.cpp:460-464 | Exactly the missing hashes of the tree are filled in from disk; it fails just when the tree is bound to no directory or one of those files cannot be read. |
| `Texts.WordIs` | core.cpp:129 | A word followed by white space or nothing is read whole. |
| `Texts.IntegerIs` | core.cpp:179-180 | Every printed size is read back. |
| `Texts.QuotedIs` | core.cpp:189 | Every printed quoted string is read back, with its quotes and backslashes, as section [quoted.manip] of ISO/IEC 14882:2017 has it. |
| `Texts.PathRoundTrip` | core.cpp:199 | Every path of proper names is read back from its text. |
| `Texts.ReadPathProper` | core.cpp:199 | What is read is a path of proper names, and its text is what was read. |
| `Lines.ModeRoundTrip` | core.cpp:130-152 | Type and nine permission bits are read back. |
| `Lines.ModeSpelled` | core.cpp:211-228 | A line starts with `-`, `d`, `l` or `?` for the type, and with `r`, `w`, `x` or `-` for each of the bits 0400 down to 0001. |
| `Lines.OwnerSpelled` | core.cpp:229-241 | User, group and time follow, and the zone `+0000`. |
| `Lines.KindSpelled` | core.cpp:242-267 | A file has its size and its hash, or `*` without one; a link its target in quotes; the path comes last, in quotes. |
| `Lines.WordsSpelled` | core.cpp:242-267 | Numbers are decimal, names are joined by slashes, quotes and backslashes are escaped by a backslash, spelled out. |
| `Lines.DirectoryLine` | core.cpp:114-207 | A spelled out line of a directory is read as a spelled out element. |
| `Lines.FileLine` | core.cpp:114-207 | So is a line of a file without a hash. |
| `Lines.HashedLine` | core.cpp:114-207 | So is a line of a file with one. |
| `Lines.LinkLine` | core.cpp:114-207 | So is a line of a symbolic link, with a quote and a backslash in its target. |
| `Lines.UnknownLine` | core.cpp:114-207 | So is a line of something of unknown type. |
| `Lines.ReadElementPrintable` | core.cpp:114-207 | Whatever line is accepted, the element is one that a line can hold. |
| `Lines.LineRoundTrip` | core.cpp:114-267 | Reading the line of an element gives back the element just when a line can hold it. |
| `Lines.SpecialBits` | core.cpp:139-152 | An element with more than nine permission bits is read back without the others, and so does not equal itself any more. |
| `Lines.PrintOneLine` | core.cpp:209-267 | The line of an element without line breaks in its names is one line. |
| `Metadata.LinesRoundTrip` | core.cpp:432 | The lines of a text made of lines are those lines. |
| `Listings.LinkedIsWired` | core.cpp:390-442 | What the reader builds is a directory tree just when only directories have entries. |
| `Listings.Attach` | core.cpp:417-429 | Giving a directory without entries its list adds that list and leaves the others. |
| `Listings.ListsTell` | core.h:716-717 | Trees with the same lists have the same entries. |
| `Metadata.EnterAll` | core.cpp:408-416 | The nodes of a group enter the index just when they are different new entries of one directory. |
| `Metadata.Add` | core.cpp:405-429 | A group is accepted just when it belongs to a directory that is listed and has no entries yet, and then is the list of that directory. |
| `Metadata.ReadFrom` | core.cpp:390-442 | A text is accepted just when it describes lists of directories; then the tree holds these lists, lists and index agree, and it is a valid tree (with the directories first, if it promises that and the text has them so). |
| `Metadata.FileSpelled` | core.cpp:390-442 | A spelled out text of two lists is read as these two lists: a line for each entry, a blank line before the next directory. |
| `Writer.MetadataWriter.RecursiveWrite` | core.cpp:693-703 | For any nesting of empty directories, what has been printed so far, with its blank lines, reads as exactly the lists visited so far. |
| `Writer.WriteTo` | core.cpp:452-458 | Reading the text gives exactly the lists that the writer gets to. |
| `Writer.WrittenAll` | core.cpp:698-702 | It gets to every list just when no directory with entries comes after something that is not one. |
| `Writer.DirsFirstWritten` | core.cpp:698-702 | It does if directories come first in every list. |
| `Writer.FileRoundTrip` | core.cpp:390-458 | A tree that is written and read back has the same lists just under that condition, and then the same entries; what is read back is a directory tree in any case. |
| `Writer.FileBeforeDirectory` | core.cpp:698-702 | After a file, the entries of a directory are lost. |
| `Scan.BuildList` | core.cpp:657-682 | Scanning one directory adds exactly its entries, to the lists and to the index. |
| `Scan.RecursiveBuildFromPath` | core.cpp:657-691 | Scanning adds exactly the entries of the directories at and below a path, whatever order the file system lists them in. |
| `Scan.ScanDirectory` | core.cpp:372-380 | The tree is valid and completely indexed, describes the directory, has its directories first, and has hashes just if they were asked for. Every list is sorted as `Order.Sort` says. |
| `Sessions.LoadTree` | backup.cpp:163-172 | A metadata file loads just when its text describes lists, and then makes a valid, completely indexed tree with these lists. |
| `Sessions.OpenSession` | backup.cpp:46-74 | It succeeds just when both files load; then the trees hold what the files and the directories say, and everything a scrub relies on holds if the links in the files have the usual permissions. |
| `Sessions.HashOutcome` | backup.cpp:967-993 | After a backup without scanning for hashes every file of the metadata has a hash: the one it had, unless it had none or came from the source, and then that of the backup. |
| `Sessions.HashesStayRight` | backup.cpp:967-993 | If every hash of the metadata is that of the file in the backup directory, it still is after a backup, scanned with hashes or without. |
| `Sessions.FillHashes` | backup.cpp:978-993 | All missing hashes of the metadata can be computed from the backup. |
| `Sessions.RunBackup` | backup.cpp:967-993 | The backup proper, with the results above, from metadata that have the paths and types of the backup; the metadata are exactly what the same replay makes of them, with the missing hashes computed if the scan had none; if every hash of the metadata was right, it still is, with and without hashes. The skipped lines are the rotten ones and exactly those the user has declined. |
| `Sessions.SameDisks` | backup.cpp:799-808 | With all hashes known and nothing skipped, source and backup directory are equal on disk. |
| `Sessions.BackupSession` | backup.cpp:946-995 | Everything that the scrub promises holds of the trees it has left, whether or not the backup follows; a scrub that returns 2 stops the run, and the run returns 2; after 1 the user is asked, and the backup is done just after a yes, after 0 in any case, with the results above, in trees and on disk, starting from what the scrub left; on a backup in order the scrub does nothing and the backup is done; it stops halfway only over hashes or a recreated link. Every answer of the user is used by the one that asked for it: first those of the scrub, then that to continue, then those of the backup. |
| `Sessions.SimpleBackup` | backup.cpp:997-1005 | Afterwards a scan of both directories reports exactly the skipped lines; replaced subtrees are what the source directory has, with their content, and every other file keeps its content; without lines nothing changes on disk; if no line was skipped, everything but content is equal on disk, and so is the content of every file whose size or modified time differed. The skipped lines are the rotten ones and exactly those the user has declined; 2 means rot. |
| `Sessions.CopiedIfChanged` | backup.cpp:847-854 | After a backup without hashes a file whose content is not that of the source had the size and the modified time of the source before. |
| `Sessions.SaveMetadata` | backup.cpp:186-206 | Both files are written just if saving was asked for, the second from the first tree if the second was discarded; they read back as what the writer gets to, which is all lists if the directories come first; the old text is kept where that was asked for. |
| `Sessions.LoadedAgain` | backup.cpp:163-172 | What the next run loads are the same entries. |
| `Sessions.NextScan` | Readme.md:79-89 | If nothing touches the backup, the next scan agrees with the metadata at a path, unless it computes a hash other than theirs. |
| `Sessions.NextScrubClean` | Readme.md:79-89 | If nothing touches the backup, the next scrub finds nothing, unless it computes hashes and a hash of the metadata is wrong. |
| `Runs.MakeMetadata` | Readme.md:54-62 | Listing the backup directory makes healthy metadata files: they hold exactly what is in the directory, with its hashes, the directories first. |
| `Runs.MetaIsDisk` | Readme.md:87 | Metadata that describe the backup, with all hashes and only right ones, are what is on disk. |
| `Legibility.LegibleRun` | backup.cpp:632-707 | No history of votes and repairs brings an entry into one of the trees that a metadata line cannot hold, if the trees and the source have none. |
| `Legibility.LegibleReplay` | backup.cpp:809-944 | Neither does a backup. |
| `Runs.ScrubRun` | backup.cpp:780-798 | A scrub from loading to saving, with any files, options, answers and source. It fails if a file cannot be loaded. The trees it starts from are what the files list and the scan finds; the scrub promises hold from there. The files are untouched unless it returns 1; then they list what the scrub left in the trees, all of it if the directories came first in them, and what the writer gets to otherwise. It returns 0 and touches nothing where all agrees. If it returns 0 or 1, with nothing half updated, all hashes known and the directories first, both files list exactly what is in the backup directory. Files that could be used for another run still can. The history has exactly the answers that the user gave, and the old text of a file is kept just when it returns 1 and an event of the history writes that file. |
| `Runs.ScrubTwice` | Readme.md:79-89 | A scrub that has returned 0 or 1 with nothing half updated and the directories first is followed by one that returns 0, without hashes in any case, with hashes if all of them were known. |
| `Runs.HashedOpen` | backup.cpp:780-798 | All hashes are known if the files have all of them and the scan computes them, as a scrub does. |
| `Runs.BackupRun` | backup.cpp:946-995 | A backup from loading to saving, with any files, options, answers and source, with the results of scrub and backup above. Both files list the metadata that have followed the backup; they list exactly what is in the backup directory if the directories came first, nothing was half updated, and all hashes were known, or, without scanning for hashes, right. If the backup is not done, the files say what they say after a scrub. On healthy files the scrub finds nothing, the backup is done, and the files are healthy again; a scan reports exactly the skipped lines, which are the rotten ones and exactly those the user has declined, and 2 means rot; replaced subtrees are what the source directory has and every other file keeps its content; with hashes and nothing skipped, the directories are equal. After a scrub that returned 1 the backup is done just if the user said so. |
| `Runs.BackupRuns` | Readme.md:79-87 | Any sequence of backups, with and without hashes in any order, healthy or not at the start, keeps files and backup directory fit for the next backup, until one aborts; started on healthy files none aborts, and they stay healthy. |

## Left out

- The nodes of a tree are cells at addresses in a map inside the tree, not objects on the heap: sharing a node between two trees is not expressible.
- Trees.DirectoryTree.TreeCopy: copies a path to the same path of another tree, the only use the program makes of it, not to a different directory and not within one tree.
- Scrub.ScrubImpl: assumes that symbolic links in source, backup and metadata have the permissions the file system reports for links, and that the source has no unsupported file types.
- Sessions.BackupSession: assumes the same, and that the source has been scanned.
- Runs.ScrubRun: assumes the same of the files and the source; what is said of saved files is said for entries that a metadata line can hold.
- Runs.BackupRun: assumes the same; if the backup itself is stopped by an exception, over a link that the scrub has made again, the program still saves what the metadata have become, and the model says nothing about the files then.
- Metadata.ReadFrom: reads paths that consist of names separated by single slashes; the program also accepts an empty path, an absolute one and doubled slashes.
- Manager.TreeManager.TryToFixBackupEntry: the messages and the wording of the questions; the answers of the user are an arbitrary sequence.
- Users.User.Ask: characters other than y and n, in either case, which the program skips, and the end of the input.
- Lines.ReadElement: a path must consist of names separated by single slashes; the program also accepts an empty path, an absolute one and doubled slashes.
- Texts.ReadPathProper: the reader of the model refuses an empty path, an absolute one and doubled slashes, which the program accepts; what is stated of paths that are read holds of the others.
- Lines.ReadElementPrintable: states nothing about lines with such a path, for the same reason.
- Lines.LineRoundTrip: the calendar is a pair of functions assumed to be inverse for the time at hand.
- Hashes.ComputeHashIfNeeded: a path that is not a regular file on disk cannot be read; the program would follow a symbolic link there.
- Trees.DirectoryTree.ModifyPermissionsInTreeAndFilesystem: setting permissions through a symbolic link changes the file it leads to, which the disk does not show.
- Scrub.ScrubImpl: after an exception or a failed assertion over a recreated link nothing is promised about the trees; the program is gone, and no file has been saved.
- Failures of the file system, of copying and of changing owners, and partly done copies: every call succeeds.
- The content of a file is represented by its hash, which is 40 hexadecimal digits, and hashes of different content differ.
- Hard link counts, which are never written and never compared.
- Scanning source and backup in two threads: the scans share nothing.
- Console messages, colours, the command line, the option parser, and printing of diffs.
