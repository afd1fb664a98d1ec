# Verified model of zrb

zrb sends ZFS snapshots from a Source to any number of Remotes and prunes both sides independently.
This project models three parts of it in Dafny and proves what they promise. `dafny verify dfyconfig.toml`
checks the whole project.

**The wire.** `Codec` is the chunk stream on the wire and its decoder; `Streams` is the writer and the two
readers as they run, over an outside world whose reads are short, whose calls take time and fail, and whose
cancel flag can rise at any moment; `Messages` is the JSON line framing, byte by byte, and `Json` the
reading of such lines as objects; `Handshake` is the version gate. `Session` is the client and the server as
two processes over two FIFO pipes of any capacity, either of which can break at any time, in the middle of a
message too. `SessionProof` holds its invariant, `SessionLaws` delivery, deadlock and termination,
`SessionSuccess` the fault-free case, `SessionRuns` runs over every source and block, and `SessionResults` what
each result of either side means.

**Replication.** `Zfs` states what is relied on from one dataset (a destroy fails on a held snapshot, a hold
fails when the tag is there, every command may fail); `Holds` moves Transfer Holds and `HoldRuns` interleaves
such moves with failures, crashes and prunes; `Transfer` is the choice of transfer; `Dispatch` is sending to
several Remotes at once; `Prune`, `PruneLaws` and `ResumeHold` are pruning and the life of a resume token.
`Replication` puts one Source and any number of Remotes together over whole runs, and `SharedBase` follows the
head of a Remote, held on both sides.

**Retention.** `Calendar` is the Gregorian calendar and the ISO week; `Naming` prints and parses snapshot
names, and `NameText` describes them character by character; `Listing` filters and sorts them; `Retention` is
the one-pass policy loop against a declarative verdict for each snapshot, which `RetentionWindows` spells out in
days, civil years and months, and Mondays; `RetentionLaws`, `RetentionBounds` and `YearAnchor` say what the
policy guarantees.

Instants are whole seconds since 1970-01-01 UTC. Every statement is a theorem about the model;
nothing was executed.

## Where the code and its documentation differ

The model follows the code.

- The handshake carries no client head, and there is no `zrb:resume-snapshot` (`src/protocol/codec.rs:20-24`
  against `CONTEXT.md:78-80`). A token may therefore belong to an older snapshot, while the Source's hold
  goes on the latest one (`src/ops/send.rs:324`). `Replication.SafeIffHarmless` gives the exact condition
  under which a transfer rules out a later divergence, and `Replication.SafeIff` its plain form: a token of
  the latest snapshot is part of it, and a failed Remote hold alone is harmless on a first transfer.
- A Remote that is up to date gets no hold (`src/ops/send.rs:317-322`), so sending again does not repair a
  lost final status: `Replication.ResendRepairsNothing`, `Replication.ExposedDiverges`.
- `write_stream` polls the cancel token after the last chunk too (`src/protocol/codec.rs:127-133`), so a
  cancelled send may have been received in full. `SessionRuns.CancelledCanBeDeliveredIff`: exactly one
  cancelled at that last poll can be.
- A successful receive leaves `zrb:resume-since` behind (`tests/integration.rs:459-464`), so the next token
  can expire before its own hold period: `ResumeHold.FullPeriodIff`,
  `ResumeHold.LeftoverNoteExpiresNextToken`.
- The weekly bucket is the calendar year and the ISO week (`src/retention/policy.rs:85`), so a week across 1
  January is two buckets; `RetentionBounds.WeeklyBound` counts the new years in the window for that reason.
- ADR 0007 adds `ClientReady` and the closing of stdin so that neither side hangs
  (`docs/adr/0007-client-ready-before-zfs-receive.md:8-25`). One hang is left: when reading the output of
  `zfs send` fails with an I/O error while both pipes work, the client reads a ServerStatus
  (`src/ops/send.rs:466-471`) while the server waits for the next chunk. `SessionLaws.StuckIff` shows that
  it is the only one, `SessionRuns.DeadlockRun` reaches it before every block of every source, and
  `SessionLaws.NoDeadlock` excludes every hang as long as that read does not fail.
- A name whose year lies outside 0 to 9999, or whose dataset holds an `@`, does not parse back:
  `Naming.RoundTrip` gives the exact condition.
- A bandwidth limit of 0 is accepted (`src/config.rs:56-58`), and then the first throttle panics on an
  infinite or undefined wait (`src/protocol/codec.rs:117`): `Streams.Throttle`, `Streams.WriteStream`. The
  parallel join drops panics (`src/ops/send.rs:284-285`, `Dispatch.JoinAll`).
- The Source's comment that there is never a window without a hold (`src/ops/send.rs:493-494`) needs that
  moves of one tag do not overtake each other in certain ways: `HoldRuns.CanLoseIff` says exactly which sets
  of moves can lose the tag; one at a time (`HoldRuns.HoldContinuity`) they never do.
- A send waits for its ssh child between the receive and its hold (`src/ops/send.rs:309-324`). Of two sends
  to one Remote that overlap, the older one can hold last and take the tag back from the head, with no
  command failing: `SharedBase.OverlapAnchorsIff`, `SharedBase.OverlapSafeIff`.
- A foreign hold, one without a `zrb:` tag, is not skipped by a prune but makes it stop with an error
  (`src/ops/prune.rs:151-157`): the last clause of `Prune.PruneDataset`, an if and only if.

## Model

| member | source | states |
|---|---|---|
| Calendar.DateOfDayOf | src/snapshot/naming.rs:8 | civil dates and day numbers correspond: a valid date's day number gives the date back, over all leap-year rules |
| Calendar.DateOrder | src/snapshot/naming.rs:30-32 | date order is day-number order |
| Calendar.SameIsoWeek | src/retention/policy.rs:85 | two days have the same ISO year and week exactly when they have the same Monday |
| Calendar.IsoWeekRange | src/retention/policy.rs:85 | the week number of every day is between 1 and 53 |
| Calendar.FirstWeek | src/retention/policy.rs:85 | week 1 of every year is the week of 4 January |
| Calendar.WeekAfter | src/retention/policy.rs:85 | seven days later is the next week of the ISO year or week 1 of the next |
| Calendar.MonthKeyBounds | src/retention/policy.rs:93 | every day lies between the start of its month and the start of the next |
| Calendar.Epoch | src/snapshot/naming.rs:8 | instant 0 is on 1970-01-01 |
| Calendar.EpochWeekday | src/retention/policy.rs:85 | that day was a Thursday |
| Calendar.Weeks | src/retention/policy.rs:85 | weeks begin every seventh day from its Monday |
| Calendar.Days | src/snapshot/naming.rs:8 | day k after it is the instants from 86400 k to just below 86400 (k + 1), before 1970 too |
| Calendar.Successor | src/snapshot/naming.rs:8 | the date of the next day is the next date on the wall calendar, with the twelve month lengths and the leap rule written out |
| Naming.RoundTrip | src/snapshot/naming.rs:7-18 | parsing a new name gives the instant back if and only if the dataset has no `@` and the year has four digits; otherwise the name is not managed at all |
| Naming.NameOrder | src/snapshot/naming.rs:7-9 | byte order of two names of one dataset is exactly time order |
| Naming.ManagedNameShape | src/snapshot/naming.rs:12-23 | every managed name has exactly one `@`, then `zrb-`: it satisfies the destroy guard |
| Naming.SplitOnce | src/snapshot/naming.rs:13 | splits at the first separator, and fails exactly when there is none |
| NameText.Printed | src/snapshot/naming.rs:7-9 | a new name is the dataset, `@zrb-`, and the civil date and time in UTC, digit by digit, with a `T` and a `Z` |
| NameText.EpochName | src/snapshot/naming.rs:3-9 | instant 0 prints as `@zrb-1970-01-01T00:00:00Z` |
| NameText.ExampleName | src/snapshot/naming.rs:45-50 | the instant of the repository's round-trip test prints as `@zrb-2026-05-22T14:30:00Z` |
| NameText.ParseIs | src/snapshot/naming.rs:15-17 | a timestamp reads as t exactly when its digits spell a valid date and time, with a `T` or `t`, that its zone (`Z`, `z`, or a sign and up to 23:59) shifts to t |
| NameText.NameIs | src/snapshot/naming.rs:12-18 | a name is managed, and of instant t, exactly when after its first `@` come `zrb-` and such a spelling of t |
| Listing.FilterZrb | src/snapshot/naming.rs:26-28 | keeps exactly the managed names |
| Listing.SortSorts | src/snapshot/naming.rs:30-32 | the sort permutes its input and orders it by time, names without a timestamp first |
| Listing.SortedMeans | src/snapshot/naming.rs:30-32 | that order, written out |
| Listing.SortStable | src/snapshot/naming.rs:31 | entries with equal timestamps keep their input order |
| Listing.SortUnique | src/snapshot/naming.rs:30-32 | with distinct timestamps there is only one chronological order |
| Listing.SortChronological | src/snapshot/naming.rs:30-32 | the slice ends with the same names, oldest first, ties in their old order |
| Listing.StablySortedIs | src/snapshot/naming.rs:30-32 | a stable sort by time has exactly one result, the chronological order that the rest of the model uses |
| Listing.ListMembers | src/ops/list.rs:10-15 | a listing shows exactly the managed snapshots of the dataset |
| Listing.ListTimes | src/ops/list.rs:10-15 | the listing is in time order, and at each instant shows exactly the raw snapshots of that instant, as often and in the order that ZFS lists them |
| Listing.LastListed | src/ops/list.rs:10-15 | its last entry is the latest managed snapshot, and of several of one instant the last one |
| Retention.Classify | src/retention/policy.rs:53-109 | the one-pass loop over three sets of buckets gives every snapshot its declarative verdict: recent, without timestamp, first of its bucket in its tier, or deleted |
| Retention.Apply | src/retention/policy.rs:40-110 | the whole policy: sort, then the verdict of each snapshot, with reasons, in order |
| Retention.ShadowedBySeen | src/retention/policy.rs:86-103 | a bucket was seen before exactly when an earlier snapshot is in it, across the three tiers |
| RetentionWindows.VerdictIs | src/retention/policy.rs:53-107 | outside the last `recent`, a snapshot is Weekly if it is less than `weekly_for_days` times 86400 seconds old and the first there of its calendar year and Monday, Monthly if older, less than `monthly_for_days` times 86400 old and the first there of its civil year and month, Yearly if older still and the first there of its year, and otherwise deleted |
| RetentionLaws.Partition | src/retention/policy.rs:34-44 | kept and deleted names together are exactly the input, duplicates included |
| RetentionLaws.KeptInOrder | src/retention/policy.rs:66-107 | what is kept is, in listing order, exactly the snapshots with a verdict, each with its reason |
| RetentionLaws.DeletedInOrder | src/retention/policy.rs:86-107 | what is deleted is, in listing order, exactly the others |
| RetentionLaws.VerdictIsOrderFree | src/retention/policy.rs:40-110 | for distinct timestamps the verdict depends on the set of snapshots only: among the last `recent` in time, or oldest non-recent of its bucket |
| RetentionLaws.OrderIndependent | src/zfs/client.rs:419-422 | with distinct timestamps, any permutation of the input is processed in the same order, as listings come out of a hash map |
| RetentionLaws.Idempotent | src/retention/policy.rs:40-110 | applying the policy again to the names it kept, at the same instant, deletes nothing and gives every reason again |
| RetentionLaws.OnePerBucket | src/retention/policy.rs:59-106 | no two kept snapshots older than the recent ones share a bucket |
| RetentionLaws.CoverageGap | src/retention/policy.rs:80-106 | every deleted snapshot is covered by a kept one of its bucket, no later and less than 7, 31 or 366 days older |
| RetentionBounds.DailyBound | src/retention/policy.rs:53-57 | exactly min(recent, n) snapshots are kept as daily |
| RetentionBounds.WeeklyBound | src/retention/policy.rs:59-90 | at most ceil(W/7) + 1 weekly snapshots and one more for each 1 January in the window |
| RetentionBounds.MonthlyBound | src/retention/policy.rs:59-99 | at most (M - W)/28 + 2 monthly snapshots |
| RetentionBounds.YearlyBound | src/retention/policy.rs:100-107 | at most one yearly snapshot for each calendar year |
| YearAnchor.AnchorSurvives | src/retention/policy.rs:72-107 | with distinct timestamps, the oldest snapshot of each calendar year survives every run of snapshots and prunes, whatever the clocks (also set back), configurations and holds |
| YearAnchor.TakeSorts | src/retention/policy.rs:50-51 | putting a new snapshot in its place is listing it in the policy's order |
| YearAnchor.OldYearKeepsOne | src/retention/policy.rs:100-107 | after any such run and one more prune, a year past both cutoffs keeps, outside the recent ones, exactly its oldest snapshot and what is held |
| Codec.FrameDecodes | src/protocol/codec.rs:209-214 | size and `has_more` come back out of a control frame, for every 32-bit size |
| Codec.FrameBytes | src/protocol/codec.rs:209-214 | the size is in four bytes, most significant first, and the fifth is 1 or 0 |
| Codec.Sizes | src/protocol/codec.rs:86-139 | a chunk is 4194304 bytes, a block 4194309, and there are as few blocks as hold the data, but at least one |
| Codec.WireLayout | src/protocol/codec.rs:99-138 | block k of the wire is chunk k, zero padding, its size, and `has_more` unless it is the last of max(1, ceil(n/CHUNK)) |
| Codec.WireUnfold | src/protocol/codec.rs:102-138 | the wire of a source is its first chunk's block followed by the wire of the rest |
| Codec.RoundTrip | src/protocol/codec.rs:86-162 | reading a written stream gives exactly the source and leaves exactly what follows it |
| Codec.DecodeWire | src/protocol/codec.rs:172-193 | under every cancel pattern, completion means the whole source was delivered, and a stop a non-empty proper prefix of whole chunks |
| Codec.TruncationDetected | src/protocol/codec.rs:145-193 | on every proper prefix of a wire the reader fails or stops, having given out only a chunk-aligned prefix of the source |
| Codec.WireInjective | src/protocol/codec.rs:86-139 | two different sources never share a wire |
| Streams.ReadExactOrEof | src/protocol/codec.rs:195-207 | however the source splits its reads, the buffer receives as much as fits or is left, and the rest of it is untouched |
| Streams.MakeFrame | src/protocol/codec.rs:209-214 | fills the five bytes of a control frame |
| Streams.FillZero | src/protocol/codec.rs:100 | clears the rest of a buffer, whatever an earlier chunk left there |
| Streams.SendBlock | src/protocol/codec.rs:105-110 | one block goes out whole, or a part of it after an I/O failure |
| Streams.Throttle | src/protocol/codec.rs:114-122 | when it returns, the payload sent so far is within rate times elapsed time; it panics exactly on a rate of 0 |
| Streams.WriteStream | src/protocol/codec.rs:86-139 | for every rate: success writes exactly the wire of the source; a cancel leaves exactly k blocks, possibly all; a failure a part of the next block; a raised cancel flag ends the loop after the next chunk; a rate of 0 fails the first round; one progress report a round, within the rate, and payload handed over within the rate plus one chunk |
| Streams.ProgressRises | src/protocol/codec.rs:112-126 | progress values rise strictly and end at the length of the source |
| Streams.CopyBlock | src/protocol/codec.rs:152-157 | reads one block and passes on exactly its payload, or fails with a prefix of it passed on |
| Streams.ReadStream | src/protocol/codec.rs:145-162 | writes what the decoder makes of the input; an error without an I/O failure means truncation or an oversized size field |
| Streams.ReadStreamWithCancel | src/protocol/codec.rs:172-193 | the same with the cancel flag: Ok(true) exactly when the decoder stops there, Ok(false) when the stream is complete; the flag is looked at after every block but the last |
| Messages.MessageRoundTrip | src/protocol/codec.rs:50-74 | every message decodes to itself, and no proper prefix of its text decodes |
| Messages.EncodedIsOneLine | src/protocol/codec.rs:54-56 | whatever strings a message carries, its text holds no newline |
| Messages.EscapesAre | src/protocol/codec.rs:50-57 | which bytes of a string are escaped, and how |
| Messages.LineRoundTrip | src/protocol/codec.rs:50-74 | a message line followed by anything is read back, and the rest is left |
| Json.ReadsBack | src/protocol/codec.rs:50-74 | every message line, read as a JSON object with members in any order and layout, gives the message back |
| Json.OrderFree | src/protocol/codec.rs:62-74 | the order of the members does not matter to what a line reads as |
| Json.HelloNeedsVersion | src/protocol/codec.rs:12-17 | no object without a version, in whatever order and layout, reads as a ServerHello |
| Json.StatusIsNoHello | src/protocol/handshake.rs:65-69 | a ServerStatus sent where ServerHello is expected is refused, for its missing version |
| Messages.ClientHalfRoundTrip | src/ops/send.rs:380-470 | hello line, ready line and chunk stream, one after the other, are read back part by part |
| Handshake.PrintedVersionParses | src/protocol/handshake.rs:21-27 | a printed version reads as its major and minor number, with or without a patch part, unless a number exceeds 64 bits |
| Handshake.ParseVersionIs | src/protocol/handshake.rs:21-27 | a text reads as major and minor number exactly when it is two 64-bit decimal numbers, a plus sign and leading zeros allowed, around the first dot, with nothing or a second dot and anything behind them |
| Handshake.GateIs | src/protocol/handshake.rs:21-32 | two texts pass the gate exactly when both are such versions with the same major and minor number |
| SessionLaws.Delivery | src/ops/send.rs:368-489 | under every interleaving, break and cancel: Ok(n) with n > 0, or a final success of the server, means that zfs receive got exactly the bytes of zfs send and succeeded, and n is their number; at any moment it got a prefix |
| SessionResults.ResultIs | src/ops/send.rs:368-489 | in every run: the client is cancelled if and only if it took the cancel, ends in Ok without a stream if and only if it found the Remote up to date, and then with Ok(0), and in Ok with a stream if and only if it read a successful final status, and then with the length of zfs send's output; otherwise it fails |
| SessionResults.ReturnedMeansDelivered | src/ops/send.rs:480-489 | Ok(n) after an announced stream, n = 0 included, means that zfs receive got all of it and succeeded |
| SessionResults.ReturnedWithoutStream | src/ops/send.rs:317-322 | Ok(n) without a stream is Ok(0), of a client that found the Remote up to date |
| SessionResults.FailureIsReported | src/ops/send.rs:380-489 | a client that diverged, could not start zfs send, failed to read its output, or read a false status ends in an error |
| SessionResults.ServerSays | src/ops/server.rs:48-117 | in every run: a bad version is answered by its refusal and nothing else; another refusal, a failed block or a failed receive is never followed by a success, a successful receive never by a failure; an abort or a hang-up by no final status; zfs receive runs only for an announced stream |
| SessionLaws.StuckIff | src/ops/server.rs:48-117 | in every reachable state someone can move, unless the session is over or both sides wait after a failed read of zfs send's output |
| SessionLaws.NoDeadlock | src/ops/send.rs:368-489 | no run in which that read never fails gets stuck |
| SessionLaws.RankFalls | src/protocol/handshake.rs:42-169 | every step, breaks and failures included, uses up a bounded measure |
| SessionLaws.RunBound | src/ops/send.rs:368-489 | a session over n blocks ends within 32 + 5n steps |
| SessionLaws.TokensAreTheWire | src/protocol/codec.rs:102-138 | the chunk tokens of a session, as blocks, are exactly the bytes of the wire |
| SessionProof.ReachableInv | src/ops/send.rs:380-489 | every reachable state satisfies the session invariant: pipes hold what was written and not read, and each side is where the messages say |
| SessionSuccess.FaultFreeSuccess | src/ops/send.rs:480-485 | without a break, a cancel or a local failure, a client that announces a stream ends with Ok and its length, and the Remote has all of it |
| SessionRuns.DeadlockRun | src/ops/send.rs:466-471 | for every source, pipe capacity and block, a reachable state in which both sides wait forever after one read failure before that block |
| SessionRuns.FinishedMeansSent | src/ops/server.rs:83-87 | in every reachable state, if zfs receive has succeeded, the client has written its whole stream and the server has read all of it |
| SessionRuns.CancelledDelivery | src/protocol/codec.rs:127-133 | every cancelled send was cancelled at the poll after one of its blocks, and if the Remote has it in full nevertheless, after the last one |
| SessionRuns.CancelledButDelivered | src/protocol/codec.rs:127-133 | for every source and pipe capacity, a run whose send is reported cancelled although the server confirms all of it |
| SessionRuns.CancelledCanBeDeliveredIff | src/protocol/codec.rs:127-133 | for every source, a send cancelled after block k can turn out to be delivered if and only if k is its last block |
| Zfs.Dataset.HoldSnapshot | src/zfs/client.rs:261-266 | fails on a tag that is there or a missing snapshot, and then changes nothing |
| Zfs.Dataset.ReleaseHold | src/zfs/client.rs:275-284 | removes one tag from one snapshot, and succeeds too when it is not there |
| Zfs.GuardIs | src/zfs/client.rs:73-85 | a name passes the destroy guard exactly when it has one `@`, followed by `zrb-` |
| Zfs.Dataset.DestroySnapshot | src/zfs/client.rs:73-85 | destroys exactly the named snapshot, never a held one, and may only be called within the guard |
| Holds.FindHeldSnapshotsIn | src/zfs/client.rs:345-369 | exactly the given snapshots that carry the tag |
| Holds.FindHeldSnapshots | src/zfs/client.rs:336-339 | exactly the snapshots of the dataset that carry the tag |
| Holds.MoveHold | src/ops/send.rs:508-517 | new hold first, then the releases: if the hold command succeeded the new hold is there, beside exactly the old ones that stayed; otherwise nothing changed; whatever fails, other tags stay and the tag is never left on nothing |
| Holds.PlaceTransferHold | src/ops/send.rs:497-518 | the same for the Source's tag of one Remote, also when the lookup or a release fails; without a failure no old hold stays |
| Holds.PlaceServerTransferHold | src/ops/server.rs:119-156 | the same for `zrb:received` and the newest managed snapshot; nothing happens on an empty listing |
| Holds.NewestIs | src/ops/server.rs:123-133 | the snapshot that gets `zrb:received` is the latest managed one of the raw listing, and of several of one instant the last; there is none exactly when nothing is managed |
| Holds.ReceivedIsNewest | src/ops/server.rs:119-133 | after a receive of a snapshot later than every managed one there was, it is the received one |
| Holds.MovedExactly | src/ops/send.rs:497-518 | a move onto an untagged snapshot leaves exactly that one tagged and the old ones left behind, none of them if nothing failed, however many stale holds there were, and no other tag moves |
| HoldRuns.HoldContinuity | src/ops/send.rs:491-496 | over every interleaving of finds, holds, releases, failures, crashes and prunes with one move of the tag at a time, a tag once carried is carried by an existing snapshot in every later state |
| HoldRuns.OverlapContinuity | src/ops/send.rs:497-518 | over runs of any number of overlapping moves, repeated ones too, in which no move finds a hold on a snapshot as new as its own, the tag is never left on nothing |
| HoldRuns.ForwardStarts | src/ops/send.rs:497-518 | such runs can start from any dataset whose tag is carried, with no move under way |
| HoldRuns.CanLoseIff | src/ops/send.rs:497-518 | which overlapping moves of one tag can lose it: from one carrier c, some interleaving leaves the tag on nothing if and only if the moves have at least three different targets, and c is one of them or two moves share one |
| Transfer.DecideOnTimes | src/ops/send.rs:40-82 | on names that zrb prints the decision depends on instants only: up to date, else resume, else full, else incremental from the head if and only if the Source still has it, else divergence |
| Transfer.SuffixIsTime | src/ops/send.rs:45-50 | snapshots of different datasets have the same suffix exactly when they are of the same instant |
| Transfer.UpToDateIff | src/ops/send.rs:45-54 | on any names: nothing is sent exactly when what follows the head's first `@` follows that of the latest snapshot, or is all of a name without an `@` |
| Transfer.TokenFirst | src/ops/send.rs:56-62 | otherwise a token is resumed, and without a token and a head everything is sent |
| Transfer.BaseIs | src/ops/send.rs:64-82 | otherwise the base is the first local snapshot with the head's part, and if there is none the error names that part |
| Replication.DecideIs | src/ops/send.rs:40-82 | in every well-formed state the plan by which runs proceed is the code's decision on the names |
| Replication.StepProtectsIff | src/ops/send.rs:298-348 | a step keeps a protected Remote protected if and only if it is neither a completed transfer to it that is not harmless nor a late Source hold that takes its tag from a possible head; protected means that every snapshot that is or can become its head is tagged for it on the Source |
| Replication.CompletedProtectsIff | src/ops/send.rs:323-324 | a completed transfer leaves the Remote protected exactly when it is harmless, whichever holds were placed and whichever old ones stayed: what was received stays tagged on the Source and, unless it is held on the Remote, so does every head that the Remote could fall back to |
| Replication.TaggedHeadProtects | CONTEXT.md:38-43 | a head tagged for the Remote on the Source and `zrb:received` on the Remote is enough |
| Replication.ProtectedNeverDiverges | src/ops/send.rs:63-81 | a protected Remote's send never meets a divergence, and an incremental base is the Remote's head and strictly older than the latest snapshot |
| Replication.NoDivergence | src/ops/prune.rs:70-88 | over every run without such an endangering step, whatever the other Remotes, snapshots, prunes and holds left behind do, a Remote stays protected and never diverges |
| Replication.HoldProtectsIff | src/ops/send.rs:508-517 | a Source hold placed late leaves the Remote protected exactly when it takes the tag from none of its possible heads |
| SharedBase.BaseSurvives | CONTEXT.md:37-45 | independent pruning never destroys the shared base: over every run in which no transfer and no late hold takes a hold from the Remote's head, the head of a Remote that is not empty is on the Source, tagged for it there and `zrb:received` on the Remote, it never falls back, and no send reports a divergence |
| SharedBase.SoundRunKeepsBase | CONTEXT.md:37-45 | from any configuration before its first snapshot, the same over every run whose completed transfers to the Remote are acknowledged, of the latest snapshot, and place both holds |
| SharedBase.PruneKeepsBase | src/ops/prune.rs:70-88 | no prune of either side, of any candidates, moves the head of a Remote whose head is held on both sides, or removes it from the Source |
| SharedBase.StepAnchorsIff | src/ops/send.rs:298-348 | a step keeps the head held on both sides if and only if it is neither a completed transfer that leaves what was received without one of its two holds nor a late hold that takes the tag from the head; the head never gets older |
| SharedBase.CompletedAnchorsIff | src/ops/server.rs:83-87 | from any state, a completed transfer leaves the head held on both sides exactly when the Remote's hold was placed and the Source's tag is on what was received |
| SharedBase.SendIsReceiveThenHold | src/ops/send.rs:309-324 | an acknowledged send is its receive followed by its hold; the two can come apart |
| SharedBase.OverlapAnchorsIff | src/ops/send.rs:309-324 | when the receives of several sends to one Remote are done, their holds leave its head held on both sides if and only if the last hold is on the head |
| SharedBase.OverlapSafeIff | src/ops/send.rs:309-324 | and exactly then no later run without a further endangering step diverges |
| Replication.FreshIsProtected | src/ops/send.rs:63-65 | before the first snapshot every Remote of every configuration is protected, so such runs start anywhere |
| Replication.UnsoundExposes | src/ops/send.rs:480-485 | a lost status, a failed Source hold or a stale token leaves the Remote's head without a hold on the Source, if no tag was on it before |
| Replication.ProtectedIff | src/ops/send.rs:67-81 | among any number of Remotes whose others are protected, exactly the protected ones cannot come to divergence, however many tags are on a head |
| Replication.CanDivergeIs | src/ops/send.rs:67-81 | to be able to diverge is to be able to reach a state in which the code's decision is the divergence error |
| Replication.SafeIffHarmless | src/ops/send.rs:298-348 | a completed transfer leaves a state from which no run without a further endangering transfer diverges if and only if it is harmless |
| Replication.SafeIff | src/ops/send.rs:317-324 | where no old Source hold stays and what is received is not tagged yet, that is: the status arrives, the Source's hold is placed, the token was of the latest snapshot, and the Remote's hold is placed or the Remote was empty |
| Replication.SoundRecovers | src/ops/send.rs:497-518 | a transfer of the latest snapshot with every hold placed and the status received makes a Remote protected from any well-formed state, whatever old holds stay |
| Replication.ResendRepairsNothing | src/ops/send.rs:317-322 | sending again to an up-to-date Remote changes nothing |
| Replication.InterruptedResumes | src/ops/send.rs:56-58 | an interrupted transfer changes nothing but the token, and the next send resumes the same snapshot |
| Replication.ResumeStays | src/ops/send.rs:56-58 | it stays so through every event, new snapshots included, until that Remote is sent to, its token is aborted, or the Source has destroyed the snapshot |
| Replication.ExposedDiverges | src/ops/send.rs:67-81 | from an unheld head one snapshot and one prune lead to divergence |
| Dispatch.CollectTasks | src/ops/send.rs:217-236 | the selected Remotes in order, each once; an error exactly when a selected one is not configured, naming it |
| Dispatch.SelectedAre | src/ops/send.rs:222-229 | with a filter, exactly the targets whose Remote occurs in it are selected, in order |
| Dispatch.AllSelected | src/ops/send.rs:222-229 | without a filter, all of them |
| Dispatch.JoinAll | src/ops/send.rs:285-294 | an error exactly when some task returned a failure that is no cancellation; panics are dropped |
| Dispatch.StepIsLocal | src/ops/send.rs:497-518 | a step on the shared holds is a step of the task's own view and leaves the tag of every other task alone |
| Dispatch.InterleavingsAgree | src/ops/send.rs:268-290 | any two complete interleavings of the tasks' find, hold and release steps on the shared holds end in the same holds and Remotes |
| Dispatch.ParallelIsSequential | src/ops/send.rs:247-290 | every complete interleaving ends as sending to one Remote after the other does |
| Dispatch.CleanTaskMovesTag | src/ops/send.rs:497-518 | a task in which nothing fails leaves its tag on the latest snapshot alone |
| Dispatch.TaskEffect | src/ops/send.rs:497-518 | where a task ends, whatever of its lookup, hold and releases fails: the new hold is placed if the latest snapshot exists without it, and of the old ones exactly those go that were found and whose release works |
| Prune.ZrbHoldsFromTags | src/ops/prune.rs:56-62 | exactly the tags that begin with `zrb:` |
| PruneLaws.ZrbTagIs | src/ops/prune.rs:56-62 | such a tag has at least four characters and begins with `z`, `r`, `b`, `:` |
| PruneLaws.PlacedTags | src/ops/send.rs:498 | the Source's tag of a Remote is `zrb:` and its name, the Remote's own is `zrb:received`, and both are Transfer Holds |
| Prune.BatchSnapshotHolds | src/zfs/client.rs:379-403 | the map tells, for the given names, exactly the tags that hold them, each once |
| Prune.ClassifyCandidates | src/ops/prune.rs:70-88 | splits the candidates into those without a `zrb:` tag and one pair for each tag of the others |
| Prune.UnheldIs | src/ops/prune.rs:78-80 | with the true holds in the map, exactly the candidates without a Transfer Hold are destroyed |
| Prune.SkipsAre | src/ops/prune.rs:81-85 | the skipped pairs are exactly the Transfer Holds on candidates, each once |
| Prune.CandidatesAreManaged | src/ops/prune.rs:142-157 | everything passed to destroy is a distinct managed name of the dataset and satisfies the guard |
| Prune.DestroyAll | src/ops/prune.rs:151-157 | destroys an initial part of the given snapshots, up to the first failure; success means all of them and nothing else, and none was held |
| Prune.PruneDataset | src/ops/prune.rs:103-167 | a dry run changes nothing; a pending token that waits leaves everything as it was, whatever fails; otherwise the report follows policy and holds, a real run destroys exactly what it reports and settles token and `since` by the decision; without a failed command it fails exactly on a candidate with a foreign hold |
| PruneLaws.Conservation | src/ops/prune.rs:142-166 | kept, deleted and held-back names together are exactly the managed listing, and the held-back ones are those the report gives a hold for |
| PruneLaws.NothingUnmanaged | src/ops/prune.rs:142-143 | no prune reports the reason Unmanaged |
| PruneLaws.DryRunFidelity | src/ops/prune.rs:90-99 | a dry run and a real run at the same state and clock both wait for the token or report the same, in whatever order listing and holds came, if timestamps are distinct |
| PruneLaws.SurvivesIff | src/ops/prune.rs:142-159 | after a real prune a managed snapshot is still there exactly when the policy keeps it or a Transfer Hold protects it |
| PruneLaws.TaggedIsKeptBack | src/ops/prune.rs:70-88 | no report lists a snapshot with such a tag as deleted, and for a candidate it gives the pair with that tag |
| PruneLaws.PlacedHoldProtects | src/ops/send.rs:497-518 | so a snapshot on which a send has just placed its hold is not deleted, and if it is a candidate the pair with `zrb:` and the Remote's name is reported |
| PruneLaws.ReceivedHoldProtects | src/ops/server.rs:119-156 | and neither is, on the Remote, the snapshot just received, once `zrb:received` was placed |
| Prune.DecisionIs | src/ops/prune.rs:27-50 | nothing pending is Idle; a pending token expires with `abort_resume`, or with a note and either no hold period or one of that many times 86400 seconds that is over; otherwise the prune waits |
| ResumeHold.TokensAre | src/ops/prune.rs:110-140 | what a real prune leaves: the token unless it was aborted, and its note only where the prune waits |
| ResumeHold.PruneIsStep | src/ops/prune.rs:110-140 | which is a step of the runs below |
| ResumeHold.AnnotateResumeIfNeeded | src/ops/server.rs:158-169 | notes the time of a pending token exactly when none is noted yet |
| ResumeHold.TokenExpires | src/ops/prune.rs:27-50 | over every run, a token is gone after any real prune at least the hold period after its annotation |
| ResumeHold.HoldPeriodRespected | src/ops/prune.rs:27-50 | in every run, a prune without `abort_resume` aborts a token exactly when its note is the hold period old, and then an interruption of the run lies that far back; otherwise it waits and changes nothing |
| ResumeHold.PendingThroughPeriod | src/ops/prune.rs:37-48 | a token annotated with no earlier note stays pending through every run of interruptions and prunes within its hold period that has no success and no `abort_resume` |
| ResumeHold.FullPeriodIff | src/ops/server.rs:158-169 | a new token outlives every prune within its hold period if and only if no earlier note was left behind |
| ResumeHold.LeftoverNoteExpiresNextToken | src/ops/server.rs:83-94 | a run in which a prune aborts a token of that very moment |

## Left out

- SSH, the `zfs` subprocesses and their JSON and tab-separated output: foreign processes; `Zfs.Dataset` states what they must do.
- The command line, progress displays, log texts, configuration files, Nix modules, completions and dataset discovery: user interface and filters.
- `parse_bandwidth` and the size estimator: floating-point parsing; the rate is any whole number, 0 included, and the estimate arbitrary.
- Handshake.GateIs: `Session` takes the answer of the version gate as a choice of the server, so that both answers are covered.
- `client_handshake`, `server_handshake`, `send_on` and `run_server_on` are steps of a state machine instead of methods, because two processes interleave: their local variables appear as control states, and a message or a block is written in one step. A block cut in the middle is a torn token in `Session` and a torn block in `Streams`.
- Streams.Throttle: time is exact; the rounding of the 64-bit float and of the operating system's sleep is not modelled.
- NameText.ParseIs: the parser reads the date-time of section 5.6 of RFC 3339 without fractions of a second, the leap second 60, or a space instead of `T`; names that zrb prints have none of these.
- Messages.MessageRoundTrip: that no proper prefix decodes is stated of the decoder of the encoder's own layout; `Json` reads any order, white space and additional members.
- Json.ReadsBack: values are strings, booleans and `null`; numbers, arrays and nested objects in members that are not asked for, and escapes that the encoder does not write, are refused by the model and not by a JSON library. Strings are byte sequences, so UTF-8 validity is not modelled.
- Streams.ReadStreamWithCancel: a size field above the chunk size ends in the outcome Panic and says no more; frames from a dishonest peer are otherwise not treated.
- Retention.Apply: instants are whole seconds, and the day counts of a configuration are taken to stay within the range of the time library.
- HoldRuns.CanLoseIff: it starts from one carrier, with no move under way; from several carriers only `HoldRuns.HoldContinuity` and `HoldRuns.OverlapContinuity` speak.
- Holds.PlaceServerTransferHold: old `zrb:received` holds on snapshots that zrb does not manage are not found by the code either, so the exact result is stated for managed carriers.
- PruneLaws.DryRunFidelity: both runs see the same clock; between the listing and the destroy calls no other process changes the dataset.
- Prune.PruneDataset: what was already destroyed when a later command fails is bounded (nothing held, nothing unmanaged); that it is an initial part of the list is stated by `Prune.DestroyAll` alone.
- Replication.StepProtectsIff: a completed stream is taken to hold at least one byte, as every ZFS stream does; `Ok(0)` means up to date to the code (`src/ops/send.rs:317-322`).
- Replication.CompletedProtectsIff: from the handshake to the end of the receive, the Remote's hold included, a send is one event; its Source hold is part of that event or a LateHold after any others. The single steps of a hold move are those of `HoldRuns`.
- SharedBase.OverlapAnchorsIff: the late holds leave no old hold behind; with some left behind, `Replication.HoldProtectsIff` gives the condition for each hold.
- Replication.ProtectedIff: the other Remotes are protected and every Source hold is the tag of a configured Remote; a tag that nobody moves any more keeps its snapshot for good.
- SessionLaws.Delivery: a panic of the client on a rate of 0 is no move of the session; its effect on the wire is that of `Streams.WriteStream`.
- Replication.NoDivergence: snapshots are created by zrb only, rollbacks and manual releases of holds are not events.
- Dispatch.ParallelIsSequential: what a transfer does to its own Remote is the given result of the task, since Remotes share nothing with each other.
- Signal handling, watchdog messages and the process exit code.
