# GreenBag: a verified model of the download scheduler

GreenBag downloads one file over two links. It cuts the file into segments, divides every segment
into one subsegment for each connection, and pipelines HTTP range requests for them. When the player
runs short, the fast link takes the slow link's unread bytes back ("recovery") and both get a new
share. A local proxy streams the growing file to the player, up to a cached in-order offset.

This project models that scheduler in Dafny and proves what the C code relies on. It also covers the
proxy's streaming loop, the URL parser and printer that every connection is set up with, the
in-place sort of chunk lists, and the hand-written Base64 and path codings.

## How it is built

| part | files |
|---|---|
| byte ranges, splitting, sorting | `Chunks.dfy`, `Splitting.dfy`, `ChunkList.dfy` |
| the scheduler as functions on a whole state: one function for each operation of the C code | `Scheduler.dfy` |
| the invariant, and that every step keeps it | `Duties.dfy`, `Invariant.dfy`, `Finishing.dfy`, `Assigning.dfy`, `Setup.dfy`, `Turns.dfy` |
| what a turn decides: when, how much, for whom | `Balance.dfy`, `Dividing.dfy`, `Choices.dfy`, `Flags.dfy` |
| results about runs | `Runs.dfy`, `Inorder.dfy`, `PlainRuns.dfy`, `VariableMode.dfy`, `Searches.dfy`, `Safety.dfy`, `AnyMode.dfy`, `Caught.dfy`, `Publishing.dfy` |
| runs in which the code's own checks fail, or pass although they should not | `Overshoot.dfy`, `VariableRun.dfy`, `Jump.dfy` |
| the same scheduler in place: a linked segment list and class `GreenBag`, whose methods are proved to do exactly what the functions say | `SegmentList.dfy`, `Download.dfy` |
| the proxy, URLs, codings | `Proxy.dfy`, `Url.dfy`, `UrlParts.dfy`, `Coding.dfy` |

A run is any list of turns (one connection reads, `src/algo_general.c:45-88`) and ends of a pass
(`src/algo_general.c:97-98` and `update_last_downloaded_byte`). Every turn takes as inputs what the
model does not compute: the number of bytes `read` returns (1 up to the rest of the chunk or the
buffer), both goodputs (any, not both zero), the player's part of the recovery decision, the link
mode of the energy policy, and the segment size of the variable-mode formula (any, at least the
initial size). All results hold for all of these.

The hypotheses, which `ConfigOk` and `InputOk` state: two connections; at least two bytes in the file
and in the first segment, which is not longer than the file; both parts of the first segment are not
empty; both connections are set up; no connection fails.

## Findings

- **Recovery and the in-order offset.** With one active link `update_inorder_offset` returns that
  link's cursor. This is the first missing byte if and only if nothing pending for the link starts
  below its cursor (`Inorder.OneActiveExactIff`). With fixed segments the cached offset is safe
  throughout a run, recoveries included, if and only if no search meets a lone link with something
  pending below its cursor; all checks then hold (`Safety.RunSafeIff`). Recovery can break that: in a
  run of three turns the cached offset is 3901 while bytes 1000 to 1999 are missing, the proxy streams
  zeros for them, and the next turn fails the assertion at `src/gb.c:807`
  (`Overshoot.RecoveryOvershoots`, `Overshoot.HolesAreStreamed`). A run that overshoots and still
  becomes ready fails a check on the way, in any mode (`Caught.OvershootIsCaught`); so with fixed
  segments all checks of a complete download hold if and only if its offset was safe throughout
  (`Caught.ChecksMeanSafe`).
- **Recovery in variable mode.** In any mode a run is safe throughout if and only if no turn strays
  (`AnyMode.AnyRunSafeIff`): it does not overshoot at its end and, if it ends inside a recovered
  subsegment, where the code does not search again, the search right after its read does not pass the
  link's next chunk or something pending of the other link. Here the checks are no help: a run of
  three turns and a pass publishes offset 5 while byte 4 is missing, no check fails
  (`Jump.JumpPublishes`), and the proxy sends a zero for that byte (`Jump.ZeroIsSent`).
- **Variable segment mode.** The size policy searches right after a read (`src/gb.c:594`), when the
  finishing link can look idle. With recovery off the checks of a turn hold if and only if that
  search does not follow the read that ends the last work of both links while at least two bytes are
  unassigned (`Searches.ChecksIff`). A run of four turns reaches the failing case
  (`VariableRun.CheckFails`). Variable mode is the built-in default (`src/conf.c:114`). With fixed
  segments and recovery off no check fails (`Searches.FixedChecksHold`).
- **Publication in the middle of a turn.** The energy policy's estimate also publishes the cached
  offset. With fixed segments this is the same as a pass right before the turn
  (`Publishing.PublicationIsPass`); in variable mode it is safe under the condition of the previous
  finding (`Publishing.MidPublicationIff`).
- **Partial sends.** The proxy's loop ignores how much `send` accepted. Beside a download that does not
  stray, the client has the file up to the loop's position if and only if no send was partial
  (`Proxy.StreamRefinesFile`); under every
  configuration one partial send can end in a normal exit without the whole file
  (`Proxy.PartialSendLoses`).
- **Percent signs.** `http_encode` does not escape them. `http_decode` restores a path that fits if
  and only if behind every percent sign there is text, and it is not read as a number
  (`Coding.PathRoundTrip`, `Coding.PercentExamples`).
- **Credentials.** A printed URL restores the connection's record if and only if the user is not
  "anonymous" and a password has a user (`Url.ParseUndoesPrint`); `Url.AnonymousIsLost` and
  `Url.LonePasswordIsLost` are inputs for both failing cases.

## Model

| member | source | states |
|---|---|---|
| Runs.EndToEnd | src/algo_general.c:45-98 | once `ready` is set, under any interleaving, modes and recoveries, the output file is the server's file and every offset was written exactly once |
| Runs.Conservation | src/offset.c:96-170 | in every reachable state every missing offset is in exactly one place: unread by one link, once, or unassigned; `bytes_done` is the size minus their number |
| Runs.RequestOrder | src/gb.c:346-368 | the responses still to come on a connection are exactly its unread chunks, in the order it will take them |
| Runs.CursorAgrees | src/offset.c:345-355 | the cached cursor is the first segment assigned to the link, none if there is none; the pipeline flag says whether a later one is; exactly the links with work are enabled |
| Runs.SegmentWindow | src/offset.c:45-94 | the list holds exactly the ids between the completed and the created ones, in order |
| Runs.DoneIffAllWritten | src/algo_general.c:97-98 | the byte counter reaches the size exactly when every offset is written, and exactly when no link has work |
| Runs.WritesMissingOnce | src/gb.c:904-915 | over any run an offset is written as often as it stops being missing, so never twice |
| Runs.NoStall | src/gb.c:947-976 | while a byte is missing some link can take a turn |
| Runs.TurnsBounded | src/algo_general.c:45-58 | a run has at most as many turns as the file has bytes |
| Runs.CanFinish | src/algo_general.c:90-98 | every unfinished reachable state can be run to `ready` |
| Runs.DownloadCanFinish | src/gbsession.c:82-90 | for every configuration some run from the start ends with `ready` |
| Turns.TurnKeeps | src/algo_general.c:45-88 | every turn keeps the invariant and writes exactly the offsets it read, all of them missing before |
| Turns.StartOk | src/gb.c:427-473 | the first segment, divided between both links, satisfies the invariant |
| Inorder.BothActiveExact | src/gb.c:774-791 | with both links active the scan over head chunks finds exactly the smallest missing offset, recovered segments included |
| Inorder.OneActiveExactIff | src/gb.c:792-800 | with one active link its cursor is the smallest missing offset if and only if nothing pending for it starts below |
| Inorder.BothIdleIffDone | src/gb.c:771-773 | both links are idle exactly when the whole file is written |
| PlainRuns.InorderSafety | src/gb.c:760-812 | recovery off: in every run all bytes below the cached and the published offset are written |
| PlainRuns.OffsetsNeverDecrease | src/offset.c:425-434 | recovery off: from turn to turn neither offset decreases, and the published one is not above the cached one |
| PlainRuns.PlainInorder | src/gb.c:770-801 | recovery off: the search finds the first missing offset, or the last one of a complete file |
| Searches.FixedChecksHold | src/gb.c:803-808 | fixed segments, recovery off: in every run the check of every search and the assertion before publishing hold |
| Searches.ChecksIff | src/gb.c:803-808 | recovery off, any mode: the exact condition under which the checks of a turn hold |
| Searches.CachedBeforeRead | src/gb.c:594 | the check of the search in the middle of a turn always holds |
| Searches.MidSearchCaches | src/gb.c:582-605 | in every mode, recoveries included, the search that the checks speak of is the one a turn makes in its middle |
| Searches.EndSearchCaches | src/algo_general.c:76-87 | and the one it makes at its end, or it makes none |
| Safety.SafeTurn | src/gb.c:760-812 | fixed segments, recovery on or off: from a safe state the checks of a turn hold, and it ends safe if and only if it does not search while a lone link has something pending below its cursor |
| Safety.RunSafeIff | src/gb.c:760-812 | fixed segments, recovery on or off: a run is safe throughout if and only if no turn does that; then all checks hold and all published bytes are written |
| AnyMode.MidCheckHolds | src/gb.c:803-808 | every mode: from a safe state the check of the search in the middle of a turn holds, also the one after a recovery took the other link's work |
| AnyMode.AnyChecks | src/gb.c:803-808 | every mode: from a safe state only one check of a turn can fail, and exactly when the search at its end finds less than the one in its middle |
| AnyMode.AnyTurn | src/algo_general.c:61-87 | every mode, recoveries included: from a safe state a turn ends safe if and only if it does not stray, by its search at the end or else by the one in its middle |
| AnyMode.AnyRunSafeIff | src/gb.c:760-812 | every mode: a run is safe throughout if and only if no turn strays; then all published bytes are written |
| AnyMode.FixedSteady | src/offset.c:425-434 | fixed segments: a run neither strays nor fails the assertion before publishing if and only if it never overshoots |
| AnyMode.PlainSteady | src/offset.c:425-434 | recovery off, any mode: no run strays or fails that assertion |
| Jump.JumpPublishes | src/gb.c:594 | a concrete run in variable mode with recovery: all checks hold, and a missing byte is below the published offset |
| Jump.ZeroIsSent | src/ahttpd.c:311-319 | a joint run in which the client is sent a zero for that byte |
| Caught.StuckStays | src/recovery.c:56-91 | any mode: once the cached offset has passed something pending of a link that works alone, or is inside a recovered subsegment, this stays so as long as the checks hold; the guard of the recovery decision keeps every recovery from undoing it |
| Caught.OvershootIsCaught | src/gb.c:803-808 | any mode: a run that overshoots and later becomes ready fails a check in between |
| Caught.CheckedNeverOvershoots | src/gb.c:803-808 | any mode, from any state of the invariant: a run to the end whose checks all hold never overshoots |
| Caught.ChecksMeanSafe | src/gb.c:760-812 | fixed segments, recovery on or off: all checks of a complete download hold if and only if its cached offset was safe in every state |
| Publishing.PublicationIsPass | src/player_time.c:79-83 | fixed segments: a publication in the middle of a turn equals a pass before the turn |
| Publishing.MidPublicationIff | src/player_time.c:79-83 | variable mode, recovery off: the exact condition under which a publication after the size policy's search is safe |
| VariableMode.MidTurnFound | src/gb.c:594 | what a search right after a read finds: the first missing offset, unless both links then look idle |
| VariableRun.CheckFails | src/gb.c:594 | a concrete run in variable mode whose fourth turn fails the check |
| Overshoot.RecoveryOvershoots | src/gb.c:792-808 | a concrete run with recovery: the cached offset passes 1000 missing bytes, and the next turn fails the check |
| Overshoot.ExampleOvershoots | src/gb.c:792-800 | that run meets the condition of `Safety.RunSafeIff` |
| Overshoot.HolesAreStreamed | src/ahttpd.c:311-319 | a joint run in which the client is sent zeros for missing bytes |
| Choices.TurnChooses | src/gb.c:522-580 | every turn, exactly: it adds a segment if and only if one is due (the chunk is read to its end, or at most a tenth of the subsegment would be left, and nothing is requested further) and allowed; whether the other link's work is taken back, where the segment ends and the link mode follow from the state before the turn and its inputs |
| Choices.OnlyWhenDue | src/algo_general.c:61-63 | a turn that adds a segment, of a link that is neither pipelined nor idle, has read its chunk to the end or is near the end of its subsegment |
| Choices.OnlyWhenAsked | src/recovery.c:56-91 | a turn that takes the other link's work back is asked to by the player, is the fast link's, and not inside recovered segments only |
| Choices.SegmentEnds | src/gb.c:655-664 | every ordinary segment of a run ends the policy's or the initial size behind the last one, halved while one link is idle, or at the end of the file if less than a full segment would be left |
| Choices.TurnHands | src/offset.c:96-170 | in every turn that adds a segment the link with the higher goodput gets the front of it, and the finishing link the share that the rates in force give it |
| Dividing.OrdinaryHanded | src/offset.c:96-170 | the same for an ordinary segment: one link alone, fixed rates, or balanced loads |
| Dividing.RecoveryHanded | src/offset.c:96-170 | the same for a recovered segment: shares by the fixed rates or the goodputs |
| Dividing.SplitBefore | src/offset.c:140-169 | every byte handed to the fast link is in front of every byte handed to the other one |
| Flags.FlagReached | src/gb.c:898-902 | in every reachable state a link inside a subsegment that ends the file has the last-segment flag, and a link with the flag works while the whole file is assigned |
| Flags.CheckRaises | src/gb.c:1026-1043 | the check raises a link's flag if and only if its next segment ends the file |
| Flags.FlagsRaised | src/gb.c:1026-1043 | in every turn that adds a segment both links' flags are up in that case |
| Flags.SearchMarks | src/gb.c:766-769 | after a turn that ends with a search exactly the links without work are marked idle |
| Flags.WaitingMarks | src/gb.c:541-545 | a link that waits behind a single-link tail is marked idle |
| Flags.LetsGo | src/gb.c:966-974 | exactly when a link that has no further work is disconnected |
| Balance.LoadBalance | src/offset.c:114-130 | for goodputs t (finishing link) and a, the loads x and y after a division satisfy 0 <= y*t - x*a < t + a, without the upper bound if the share was clamped to the segment; of the other link's current subsegment only the current chunk counts |
| Balance.SingleLinkWhole | src/gb.c:693-696 | single-link mode gives the chosen link the whole segment and the other one nothing |
| Balance.SegmentsTile | src/gb.c:644-691 | every ordinary segment of a run starts right behind everything assigned, ends in the file, and leaves nothing or room for a full one |
| Balance.SegmentsBounded | src/gb.c:655-664 | a run makes at most 1 + size / (init_seg_size / 2) ordinary segments besides the first |
| Balance.RecoveryConserves | src/recovery.c:189-234 | the recovered segment holds exactly the other link's unread bytes and the fresh extension, sorted and disjoint, and ends where the size asked for says; the finishing link's segment survives; the other link has nothing else |
| Setup.RecoverKeeps | src/recovery.c:19-54 | recovery, its division and its requests keep the invariant |
| Setup.NewSegmentKeeps | src/gb.c:564-574 | so does an ordinary next segment |
| Runs.LastOffsetExact | src/offset.c:62-64 | the last segment offset is the greatest offset ever assigned: in every reachable state the offsets up to it, and no others, are written or in a link's hands |
| Assigning.DivideExact | src/offset.c:132-169 | any share divides a segment into two subsegments of exactly the recorded sizes that together hold every byte once |
| Assigning.CheckKeeps | src/gb.c:1026-1043 | a last-segment flag is raised only when the whole file is assigned |
| Finishing.FinishKeeps | src/gb.c:947-976 | finishing a chunk or a subsegment keeps the invariant |
| Chunks.SplitExact | src/offset.c:140-169 | splitting hands out exactly the first F bytes and exactly the rest, in order, and cuts at most one chunk |
| Chunks.SortSorts | src/offset.c:267-302 | the sort orders the chunks by start and loses, adds or changes none |
| Splitting.HandOut | src/offset.c:140-169 | the two loops compute that split; a link that is given a chunk has a share, so the error exit is unreachable |
| Splitting.SumSizes | src/recovery.c:227-231 | the loop computes the total size |
| ChunkList.SortingChunks | src/offset.c:267-303 | the in-place sort terminates and leaves an acyclic list of the same nodes whose values are the sorted ones |
| ChunkList.AddNewChunk | src/offset.c:15-34 | appends one chunk and keeps the others |
| ChunkList.DeleteHeadChunk | src/offset.c:37-42 | drops the first chunk only |
| ChunkList.GetLastChunk | src/offset.c:247-253 | finds the last node |
| SegmentList.OffsetInfo.FirstNextAssigned | src/offset.c:255-265 | finds the first later segment assigned to the link, or none |
| SegmentList.OffsetInfo.SegmentBeingDownloaded | src/offset.c:345-353 | finds the first segment of the list assigned to the link, or none |
| SegmentList.OffsetInfo.LaterSizes | src/offset.c:205-220 | sums the recorded sizes between a segment and the tail |
| SegmentList.OffsetInfo.DeleteFinishedHead | src/offset.c:77-94 | frees the head exactly if it is finished, and keeps the rest of the list |
| SegmentList.OffsetInfo.AddNewSegment | src/offset.c:45-73 | links the sorted chunks behind the tail and moves the last offset |
| SegmentList.OffsetInfo.TakeBackOne | src/recovery.c:206-213 | one round of the walk: the segment found next is never the one that is freed |
| SegmentList.OffsetInfo.CollectFrom | src/recovery.c:195-213 | the walk takes the link's whole work off the list and collects all its chunks in order |
| Download.GreenBag.SearchAgrees | src/offset.c:345-355 | the search from the head returns the cached pointer |
| Download.GreenBag.WriteReceivedData | src/gb.c:904-915 | stores the bytes read at the link's cursor and advances it |
| Download.GreenBag.UpdateInorderOffset | src/gb.c:760-812 | one walk over the list computes the specified offset |
| Download.GreenBag.VirtualSegSize | src/offset.c:195-227 | the virtual segment size |
| Download.GreenBag.ShareOf | src/offset.c:96-130 | the share of the finishing or chosen link |
| Download.GreenBag.AddNewSubsegment | src/offset.c:96-170 | divides the tail segment as specified |
| Download.GreenBag.NextSegmentSize | src/gb.c:655-664 | the size of the next segment |
| Download.GreenBag.GetOrderCase | src/offset.c:228-245 | which link is ahead; the case reported as wrong counts as behind |
| Download.GreenBag.DecideRecoveryMode | src/recovery.c:56-91 | the guards of the recovery decision |
| Download.GreenBag.RecoverOutorder | src/recovery.c:189-234 | takes the other link's work back into a new segment |
| Download.GreenBag.SetupNextSegment | src/gb.c:522-580 | sets up the next segment, or refuses, as specified |
| Download.GreenBag.SendRequest | src/gb.c:346-368 | requests every chunk of a subsegment, in order |
| Download.GreenBag.ReturnIdle | src/gb.c:926-945 | puts an idle link back to work |
| Download.GreenBag.ReturnRecovered | src/recovery.c:102-131 | reconnects a recovered link, or leaves it without work |
| Download.GreenBag.CheckingLastSegment | src/gb.c:1026-1043 | raises the last-segment flags as specified |
| Download.GreenBag.FinishDownloadingSubseg | src/gb.c:947-976 | moves a link on, or lets it go, and frees finished segments |
| Download.GreenBag.FinishCurrentChunk | src/recovery.c:138-153 | ends a chunk as specified |
| Download.GreenBag.AlgoTurn | src/algo_general.c:45-88 | one turn in place is exactly the specified step and keeps the invariant |
| Download.GreenBag.EndPass | src/offset.c:425-434 | sets `ready` and publishes the offset |
| Download.GreenBag.InitSegmentSetup | src/gb.c:427-473 | the specified start |
| Download.GreenBag.Download | src/gbsession.c:78-90 | a whole download in place ends in the state of the specified run; when `ready`, the file is complete |
| Proxy.SendRemoteFile | src/ahttpd.c:308-357 | the streaming loop does what its rounds say, one after the other |
| Proxy.RoundBounded | src/ahttpd.c:311-320 | a round sends at most a buffer of 128 bytes and reads no further than what is published |
| Proxy.StreamRefinesFile | src/ahttpd.c:308-357 | any interleaving with a download without recovery, or that never overshoots (fixed segments) or strays (variable): only written bytes are read, and the client has exactly the file up to the loop's position if and only if no send was partial |
| Proxy.StreamEnds | src/ahttpd.c:337-338 | every mode: in every joint run after the download is ready, whose rounds read something, the loop ends normally within one round for each byte left |
| Proxy.DeliveryCanFinish | src/ahttpd.c:308-357 | such a joint run whose client is still there can be continued to the normal exit, and the client then has the whole file if no send was partial before |
| Proxy.PartialSendLoses | src/ahttpd.c:320-335 | for every configuration, recovery on or off, a joint run in which one partial send ends in the normal exit without the whole file |
| Url.Conn.Set | src/conn.c:9-115 | fills the record as specified |
| Url.Conn.Print | src/conn.c:119-129 | prints the specified URL |
| Url.SetParses | src/conn.c:30-89 | what every record filled by the parser looks like |
| Url.ParseUndoesPrint | src/conn.c:9-129 | setting the printed URL restores the record if and only if its credentials are printed |
| Url.AnonymousIsLost | src/conn.c:123 | a URL whose user "anonymous" is lost |
| Url.LonePasswordIsLost | src/conn.c:123-125 | a URL whose password without a user is lost |
| UrlParts.SetMeans | src/conn.c:9-115 | every string is refused for its scheme, or taken apart by a description without the parser's searches: path, directory and file, user and password, host and port; it is accepted if and only if the port is positive |
| UrlParts.SplitUnique | src/conn.c:43-59 | a path has only one split into a directory that ends with a slash and holds no query, and a file without a slash before its query |
| UrlParts.ExampleSplit | src/conn.c:112 | the example given there |
| UrlParts.PortReads | src/conn.c:86-89 | a port is read as written, behind white space and a sign, in base 16, 8 or 10 |
| Coding.Authorize | src/http.c:31-41 | the loop writes the Base64 form of the credentials and nothing else |
| Coding.Base64RoundTrip | src/http.c:33-41 | decoding by section 4 of RFC 4648 restores every 7-bit string, with one, two or no padding signs |
| Coding.HttpEncode | src/http.c:187-214 | replaces blanks until the buffer is full |
| Coding.EncodeFits | src/http.c:192-210 | the result is the whole escaped string exactly if that fits, and never holds a blank |
| Coding.EncodeTwice | src/http.c:187-214 | encoding an encoded path changes nothing, cut short or not |
| Coding.HttpDecode | src/http.c:167-185 | decodes as specified |
| Coding.HexIsDigit | src/http.c:174-178 | the digits read are those of a written-out table, in both cases |
| Coding.DecodesEscapes | src/http.c:167-185 | decoding restores every 7-bit string of which each character is written as a percent sign and two hexadecimal digits |
| Coding.PathRoundTrip | src/http.c:167-214 | decoding undoes encoding if and only if every percent sign is safe |
| Coding.PercentExamples | src/http.c:174-181 | a path that is not restored, and one with a percent sign that is |

## Left out

- Sockets, `select`, threads, connection failures and reconnects (`src/gb.c:861-896`, `src/gb.c:979-1025`): a reconnect requests only the current chunk again, which breaks the request order.
- Set-up of the connections: both are taken to be answered before the first turn.
- Single-connection mode: the division still assigns work to a second link there.
- The energy and player estimates and the variable-mode size formula in floating point (`src/energy.c`, `src/player_time.c`, `src/gb.c:596-602`): their results are inputs.
- The publication of the in-order offset by the playable-time estimate (`src/player_time.c:79-83`) is not an event of its own; `Publishing` says what it amounts to.
- `get_bn_chunk_info` (`src/offset.c:377-423`): it only feeds the recovery decision, which is an input under the guards of `src/recovery.c:71-78`.
- Unused variants: `recover_outorder_portion`, `recover_one_time`, `gb_determine_next_segment`, `update_inorder_offset_old`, and `remaining_chunks`, which stays empty.
- How `init_seg_size` is computed from the options (`src/gb.c:435-450`): it is any value within the hypotheses.
- Integer width: sizes and offsets are unbounded integers; a ratio with both parts zero counts as zero instead of a division by zero.
- The `run` flag, by which the proxy stops a download early: `update_last_downloaded_byte` would then publish the size of an unfinished file.
- Values of two threads: one round of the proxy's loop sees one value of the published offset.
- Aliasing of the connection records: `conn[0]` and `conn[1]` are values in a pair; segments and their list are linked objects.
- Chunk lists inside segments are values. The linked lists of `ChunkList` are a separate result: the sort proved there gives exactly the `Sort` that the segment list uses.
- PlainRuns.InorderSafety: in variable mode its runs hold no publication in the middle of a turn; `Publishing.MidPublicationIff` has the exact condition for one.
- PlainRuns.OffsetsNeverDecrease: the same; it compares the ends of turns and passes.
- AnyMode.AnyRunSafeIff: the same; what it says about the published offset is about passes.
- Proxy.StreamRefinesFile: the same; with variable segments and recovery it also asks that no pass lowers the published offset, which is the assertion at `src/offset.c:428`.
- Turns.StartOk: does not cover a first segment of which one link gets nothing; that link's cursors are placeholders there.
- Download.GreenBag.InitSegmentSetup: does not cover that start either.
- Download.GreenBag.ReturnRecovered: does not model the exit after a failed reconnect.
- Download.GreenBag.EndPass: does not model the cleared `run` flag.
- Proxy.SendRemoteFile: does not model a failing `lseek`; a send interrupted by a signal is one send.
- Url.Conn.Print: requires a printed form that fits the buffer.
- Download.GreenBag.WriteReceivedData: does not model the write error exit.
- Url.Conn.Set: requires a URL that fits the buffer, because a longer one is left without terminator there; the port is not limited to 32 bits, which `Url.ParseUndoesPrint` requires.
- Coding.Authorize: requires the encoded credentials to fit and 7-bit characters, because others index the table out of range.
- Coding.HttpDecode: gives no result where the C code runs past the string's end or stores a number that was never read.
- Logging, option parsing, the proxy's own HTTP parsing and headers, periodic tasks, interface lookup.
