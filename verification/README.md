# A model of the deployment daemon

The daemon keeps the third-party services of a small CI system deployed as docker containers.
This project models its four stateful parts and proves what they promise, over every input,
every interleaving and every failure the model knows.

1. **The demultiplexer** (`Frames`, `StreamCopy`). A container's two output streams arrive as
   frames in one byte stream. `StdCopy` reads them into one growing buffer, shifted in place, and is proved
   against a pure parser, whatever the cuts between reads; the parser undoes multiplexing.
2. **Proof of start** (`ConditionWriter`, `WriterPair`, `Handshake`, `Startups`). Line-splitting writers look for
   keywords and count lines; their report travels through an unbuffered channel to a waiter that also
   listens to docker events and a deadline. The five parties form a transition system. Proved: what a
   verdict rests on, that the exit result is that of the first decisive item, termination with a timeout,
   and for each configuration exactly when the run step can always still return.
3. **The rolling update** (`Daemon`, `Containers`, `Deployment`, `RollbackFailures`, `Services`). A docker daemon
   whose calls fail, and whose containers die, as a script has it; container handles with a cached id; a deployment that sets the
   old container aside, creates a new one, and commits or rolls back; the loop over all services.
4. **The progress display** (`Screen`, `ProgressBar`, `ProgressDisplay`). Relative cursor moves are shown
   to implement fixed rows on a terminal; the bar and its estimate are exact rational arithmetic.

`Faded(w0, w1, d0, d1)` is the notion of "the same world" used throughout the third part: the same
containers, names, images and settings, and a container that no longer runs is one that the log of spontaneous deaths
(from `d0` to `d1`) says has died. `daemon.Became(w)` says this of the daemon's present world, `daemon.OnlyDeaths()`
that nothing else has happened in a call.

Where the code falls short of its intent, the model follows the code, and the exact condition is proved:

- `recover` overwrites the error of a failed renaming with the outcome of the start. A rollback that reports
  success has therefore restored the world exactly if the daemon let the call that renames the original back
  succeed (`Deployment.RestoredIffRenamed`, `Deployment.Deployment.Run`); a deployment on which that one call fails
  reports success all the same (`RollbackFailures.FailedRenamingGoesUnnoticed`).
- A run that fails before the creation is rolled back with the wrong id or none. `Deployment.EarlyRestoredIff` says for
  each way exactly when the initial world is left, and `Run`, `Replace`, `Deploy` and `Services.DeployService` carry it
  (`FailedRun`). If the call that looks for the original fails, the rollback stops the container of the name, so the
  world is left alone just if a call fails again, or that container did not run or died. If the original was seen but
  not set aside, the rollback removes the original just if none of its calls fails
  (`RollbackFailures.FailedQuestionRemovesOriginal`). If the creation fails, the original stays aside
  (`RollbackFailures.FailedCreationLeavesOriginalAside`), because the purge of a container without an id ends in a nil
  dereference.
- Without a timeout the handshake can deadlock: from every state it reaches the run step can still return if
  and only if a timeout is set or the output has no report in it (`Handshake.AlwaysCanReturnIff`).
- An empty success keyword also accepts a container that dies with exit code 90510
  (`Handshake.AlwaysCleanIff`).
- A line limit of 2147483647 never fires, because the counter wraps around first (`WriterPair.LimitCanFire`).
- A reader that returns its last bytes together with an error hides them from the copy
  (`StreamCopy.EagerErrorLosesFrame`); this makes a difference exactly if they complete a header or frame the copy was
  waiting for (`StreamCopy.HiddenBytesMatterIff`), and `StdCopy` hides no other bytes.
- On a wide terminal the bar panics exactly for `50 * current <= -total`, or when the percentage is beyond 64 bits and
  the machine converts it to a number below -1 (`ProgressBar.String`, `ProgressBar.HalfPercentNegativeIff`); an
  estimate is made of unfinished work exactly if the percentage is representable
  (`ProgressBar.EstimateIsOfUnfinishedIff`), and it is wrong exactly when its product leaves 64 bits
  (`ProgressBar.TimeLeftExactIff`).
- Mounts are compared and recorded, but never handed to the new container (`ConfigOf`).
- A changed image name, network or keyword alone does not lead to a new deployment: the check compares the recorded
  image id with that of the container, not with the configured name (`Services.DeployAgain`).
- `SaveFailed` leaves the deployed container in place without a stored record, and only when the record could not be
  written is the one in memory replaced (`Deployment.Deployment.Deploy`).
- A running container is asked for again and again: `EnsureContainerRunning` returns if a call is to fail or that
  container to die, and if neither is ever to happen any number of levels all end in another one
  (`Containers.Container.AskAgain`).

## Model

| member | source | states |
|---|---|---|
| Frames.DecodeEncodeSize | docker/utils.go:142 | The 4-byte length field carries every size below 2^32 faithfully. |
| Frames.SizesOrderedAsBytes | docker/utils.go:142 | The first byte of a length counts most: lengths are ordered as their bytes are, first byte first. |
| Frames.TwoFramesOnTheWire | docker/utils.go:121-188 | Two frames given byte by byte: five bytes reach standard output, two standard error, and seven are counted. |
| Frames.MultiplexThenParse | docker/utils.go:104-188 | Parsing undoes multiplexing: for every list of deliverable frames, every padding and every tail, exactly these frames come out in order, each for its side, followed by those of the tail. |
| Frames.EveryStreamIsMultiplexed | docker/utils.go:104-188 | The converse: every byte stream is a multiplexed list of frames and a rest at which parsing stops, so whatever is delivered is what some sender multiplexed. |
| Frames.LaterBytesKeepFrames | docker/utils.go:104-165 | Bytes that arrive later change neither the frames parsed already nor a stop at a bad header or a daemon error. |
| Frames.WrittenCountsDeliveredBytes | docker/utils.go:173-194 | Conservation: a copy that ends without error, by cancellation or with a daemon error returns the number of bytes its destinations took; every other error returns zero. |
| Frames.CancelledRunIsPrefix | docker/utils.go:190-194 | The writes of a cancelled copy are a prefix of those of the uncancelled one. |
| Frames.WorkingRunDeliversWholeFrames | docker/utils.go:167-194 | With working destinations only whole frames are delivered, in stream order, and all of them unless cancelled. |
| Frames.MultiplexThenCopy | docker/utils.go:72-188 | Round trip: copying multiplexed frames gives each side the concatenation of its payloads in order, and counts every byte. |
| Frames.DaemonErrorEndsCopy | docker/utils.go:121-170 | After any whole frames, a frame of stream byte 3 ends the copy with its text as the error; the bytes before it are delivered and counted, and what follows it does not matter. |
| Frames.BadHeaderEndsCopy | docker/utils.go:121-140 | A header of an unknown kind ends the copy as soon as it is complete, with that byte in the error and the count lost. |
| Frames.CutFrameIsDropped | docker/utils.go:104-165 | A last frame that is cut off is dropped: without an error at the end of the stream, with the reader's otherwise. |
| Frames.BadWriteEndsCopy | docker/utils.go:166-182 | The first write that fails or falls short is the last one: all before it are delivered whole, and the count is lost. |
| Frames.CancelledAfterFrame | docker/utils.go:190-194 | A copy cancelled after a frame has delivered exactly the frames up to that one, counted and without an error. |
| Frames.LargestDeclaredIsLargestFrame | docker/utils.go:142-150 | The size the buffer is held to is that of the largest frame multiplexed. |
| StreamCopy.Reader.Read | docker/utils.go:108 | A read takes the next bytes of the stream into the free part of the buffer, at most as many as fit, possibly none, possibly together with the end. |
| StreamCopy.FillTo | docker/utils.go:106-119 | Reading until enough is buffered: buffer and unread bytes together are unchanged; it ends filled, out of bytes, or with a read error before enough had arrived. |
| StreamCopy.FetchFrame | docker/utils.go:104-165 | One round of reading finds what the parser finds at the front of all bytes still ahead, loses none of them, and lets the buffer grow only to the declared frame. |
| StreamCopy.ShiftDown | docker/utils.go:185-188 | Moving the leftover to the front of the same buffer keeps its bytes and their order. |
| StreamCopy.EmitFrame | docker/utils.go:173-194 | One round of writing: the payload goes to its own destination once, a failed or short write stops the copy, else the leftover is kept and cancellation is polled. |
| StreamCopy.Extend | docker/utils.go:144-149 | A buffer too small for the frame is replaced by one a byte larger than needed, with the bytes read so far in front. |
| StreamCopy.CopyRound | docker/utils.go:104-195 | One round of the loop takes exactly the first frame off all bytes ahead and delivers it once, or says why there is none. |
| StreamCopy.TracksNextFrame | docker/utils.go:173-194 | The outer loop's invariant is kept by a delivered frame: the run over the whole input is what has been delivered followed by the run over the rest, for every amount of input seen. |
| StreamCopy.StdCopy | docker/utils.go:94-196 | Refinement: for every input, cut into reads in any way, with any write answers and cancellation, the writes, the count and the error are those of the pure run over the input, where only the bytes of a read that failed with an error are hidden; the buffer never exceeds the larger of 32777 and the largest declared frame plus 9; the loops end. |
| StreamCopy.EagerErrorLosesFrame | docker/utils.go:152-164 | A frame completed by bytes that come together with a read error is lost, while the same bytes followed by the error are delivered. |
| StreamCopy.HiddenBytesMatterIff | docker/utils.go:152-164 | Hiding bytes from a copy that ends with a read error changes its outcome if and only if they complete a header or frame it was waiting for. |
| ConditionWriter.LineCounter.Inc | docker/streams.go:56 | The shared counter wraps around at 32 bits. |
| ConditionWriter.Writer.constructor | docker/streams.go:11-26 | A new writer watches for the set of its keywords and the limit cut to 32 bits, with no pending line. |
| ConditionWriter.Writer.Write | docker/streams.go:38-75 | One write passes the chunk on and then does what the scan of that chunk says: same pending line, same counter, and at most one report, of a keyword of the line or of the limit, followed by one more newline to the wrapped writer; a failed inner write changes nothing else. |
| ConditionWriter.ChunkingDoesNotMatter | docker/streams.go:38-75 | Up to the first report every way of cutting the same bytes into writes gives the same pending line, counter, and report at the same byte for the same reason. |
| ConditionWriter.ReportIsFirstDecision | docker/streams.go:40-67 | A report is made exactly at the first newline whose line contains a keyword or is one line too many, the keyword having priority; otherwise line and counter are those of the text. |
| ConditionWriter.WatchedForIff | docker/streams.go:38-75 | A writer made for these keywords finds in a line exactly those of them that stand in it between any two texts; its limit is the given one modulo 2^32. |
| ConditionWriter.KeywordLineIsReported | docker/streams.go:38-75 | A first line with a keyword between any two texts is reported at its newline, with code 90510; that keyword is one that can be named. |
| ConditionWriter.LimitIsReported | docker/streams.go:38-75 | A line too many without any keyword is reported at its newline with code 90509 and no text. |
| WriterPair.WatchUntilReport | ci/deployments/deployment.go:158-161 | The two writers made for a start-up, sharing counter and channel and written to in any order, send nothing while the pure account of these writes has no report, and then exactly its first report. |
| WriterPair.CopyAndWatch | ci/deployments/deployment.go:158-167 | A stream copied into the two writers, however it is cut into reads: what they report first is the first report of the parsed frames; without one and with a working log writer, nothing is sent and lines and counter are those of the frames. |
| WriterPair.UnreportedDescribes | docker/streams.go:38-75 | While nothing is reported, both pending lines are the texts behind the last newlines of their streams and the counter is the number of newlines of both together. |
| WriterPair.FirstReportJustified | docker/streams.go:41-66 | The first report, over every interleaving of writes: it stands at a newline ending a line with exactly the keywords named, or at newline number limit plus one of both streams together. |
| WriterPair.SharedLimit | docker/streams.go:55-66 | Before a report the shared counter equals the newlines of both streams and does not exceed the limit; more newlines than the limit mean a report has been made. |
| WriterPair.LimitCanFire | docker/streams.go:14-56 | Without keywords, some sequence of writes leads to a report if and only if the limit is positive and below 2147483647. |
| WriterPair.JustifiedLine | docker/streams.go:41-53 | The line behind a keyword report stands, complete and newline-terminated, in the text demultiplexed to that side, whatever follows. |
| Handshake.StepKeepsInv | docker/container.go:507-675 | Every step of every party keeps the invariant relating what the waiter has received, its result, the writers' state, the holder, the run step and the context. |
| Handshake.ReachableInv | docker/container.go:507-675 | The invariant holds in every state any interleaving reaches. |
| Handshake.FirstReportShown | docker/streams.go:41-66 | A report in the handshake is a keyword shown in a complete line of the output demultiplexed so far, or a limit that both streams together have passed by then. |
| Handshake.ExitResultIsFirstDecision | docker/container.go:519-597 | The exit result is delivered at most once; when the waiter is through, it is that of the first decisive item it received, 125 for destroy, an events error or a die without a code; indecisive events change nothing. |
| Handshake.StartedHasGoodCause | ci/deployments/deployment.go:197-214 | Causality over every interleaving: a run step without error was handed the result of a clean exit, a detach, or a success keyword in a complete line of the output demultiplexed until then (or of the empty-keyword corner). |
| Handshake.StartedIffGoodCause | ci/deployments/deployment.go:203-214 | In every reachable state: the run step has returned without an error if and only if the exit result has been delivered and the decisive item is a good cause; a delivered result always decides the verdict. |
| Handshake.FailureTellsCause | docker/container.go:520-597 | A start that fails for the container's exit names the exit code of its death, the writers' report, or code 125 for lack of either. |
| Handshake.StreamOutcomes | ci/deployments/deployment.go:197-202 | A run step that blames the stream has the error a copy of the whole stream ends with; one that blames the attaching had a connection that persists no longer, on which no container counts as started. |
| Handshake.EmptyKeywordCorner | ci/deployments/deployment.go:204-209 | With an empty success keyword, a container dying with code 90510 without any output counts as started. |
| Handshake.AlwaysCleanIff | ci/deployments/deployment.go:197-214 | Every run that counts as started has a clean cause if and only if the empty text is no success keyword. |
| Handshake.TimedNeverStuck | docker/container.go:570-597 | With a timeout, every reachable state before the run step returns has a step due that does not depend on the outside world. |
| Handshake.TimedVerdictIsPrompt | docker/container.go:571-577 | Once the waiter has decided, not even the deadline is needed: its detaching has ended or ends the context, even if the copier is stuck in a second report. |
| Handshake.StepDecreasesRank | docker/container.go:570-675 | Every step of every party lowers a natural-number rank. |
| Handshake.RunIsBounded | docker/container.go:570-675 | An interleaving is no longer than the rank it uses up. |
| Handshake.TimedRunsReturn | ci/deployments/deployment.go:164-203 | With a timeout every interleaving is bounded, and one with no step due left has taken the run step past both channels to its return. |
| Handshake.KnotIsForever | ci/deployments/deployment.go:164-203 | Without a timeout, once the run step waits for the stream, the stream for the copier, the copier for the waiter and the waiter for the run step, no step unties them. |
| Handshake.UntimedCanKnot | ci/deployments/deployment.go:164-203 | Without a timeout such a deadlock is reachable on every stream whose output has a report in it: one report after the waiter's decision is enough. |
| Handshake.KnottedCannotReturn | ci/deployments/deployment.go:164-203 | From such a deadlock no continuation, the outside world's steps included, takes the run step to its return. |
| Handshake.ReachableCanReturn | ci/deployments/deployment.go:164-203 | With a timeout, or on output without a report, some continuation of every reachable state takes the run step to its return. |
| Handshake.AlwaysCanReturnIff | ci/deployments/deployment.go:164-203 | For each configuration: from every reachable state the run step can still return if and only if a timeout is set or the frames of the stream make no report. |
| Daemon.Docker.List | docker/container.go:310-319 | Every container of the exact name is listed, each entry with its present name, in any order, the filter matching more; the call fails exactly if the script says so. |
| Daemon.Docker.Inspect | docker/container.go:767-775 | Inspecting gives the present record; it fails exactly for an unknown id or if the script says so. |
| Daemon.Docker.Create | docker/container.go:352-356 | Creating adds one stopped container under a new id and keeps names unique, exactly if the name is free, the image there and the script lets it; a failure changes nothing but deaths. |
| Daemon.Docker.Start | docker/container.go:380-382 | Starting sets that container running and changes nothing else but deaths. |
| Daemon.Docker.Stop | docker/container.go:436-440 | Stopping sets that container not running and changes nothing else but deaths. |
| Daemon.Docker.Rename | docker/container.go:408-410 | Renaming takes effect only if the new name is free, on that container only, and keeps names unique. |
| Daemon.Docker.Remove | docker/container.go:463-468 | Removing takes away that container only. |
| Containers.Container.EnsureID | docker/container.go:305-332 | A cached id is answered without a call; otherwise the id found is that of the container with exactly this name although the filter lists more, and none means that the name is free. |
| Containers.Container.Exists | docker/container.go:119-125 | True exactly if an id is cached or found for the exact name; on an error no id is cached. |
| Containers.Container.IsRunning | docker/container.go:127-141 | The running flag of the handle's container as it is when inspected; false if there is none. |
| Containers.Container.GetImageID | docker/container.go:255-267 | The image of the handle's container; fails without a fault only if no container has the name. |
| Containers.Container.EnsureContainer | docker/container.go:334-360 | With an id cached or a container of the name nothing is created; otherwise exactly one stopped container with the handle's name, image and settings is, and its id cached, just if neither of two calls fails and the image is there; failure changes nothing. |
| Containers.Container.Look | docker/container.go:363-371 | The id, and whether the container runs; a running one is found running unless it dies or a call fails, and one that the script is to spare always is. |
| Containers.Container.StartLevel | docker/container.go:362-388 | One level of the recursion: starts a container that does not run, creates a missing one, and only resolves a running one, which is asked for again unless that very container dies or a call fails; with the id at hand two answers of the daemon decide. |
| Containers.Container.EnsureContainerRunning | docker/container.go:362-391 | On a container absent or not running it ends within two levels (one with a cached id), and on success exactly one container was started and at most one, that one, created; on a running one it ends provided that a call is to fail or the container to die, with the same outcome. |
| Containers.Container.AskAgain | docker/container.go:386-390 | The converse: for a running container that is never to die, on a daemon where no call is to fail, any number of levels in turn all end in another one. |
| Containers.Container.Rename | docker/container.go:393-415 | Renames exactly the handle's container, only to a free name, and the handle remembers the new name; on failure nothing changed; a cached id and a free name fail only by a fault. |
| Containers.Container.StopIfRunning | docker/container.go:426-440 | Afterwards the container does not run, and nothing else has changed. |
| Containers.Container.StopAndRename | docker/container.go:417-450 | On success the container of the name, if any, is stopped and renamed as asked, and the id is forgotten; on failure at most it is stopped. |
| Containers.Container.Purge | docker/container.go:452-472 | Success removes exactly the container whose id was cached; without a cached id it never succeeds, after at most stopping the container of the name. |
| Deployment.RecordStore.Read | ci/deployments/deployment.go:23-27 | Reading gives the record last saved under the name, or none; an unreadable file is an error. |
| Deployment.RecordStore.Save | ci/deployments/deployment.go:291 | Saving replaces the one record, or fails and changes none. |
| Deployment.RestoredIffRenamed | ci/deployments/deployment.go:239-260 | After the new container is gone and the recovery has started the original just if it was seen running, the world is the initial one up to deaths if and only if the renaming took effect. |
| Deployment.RolledBack | ci/deployments/deployment.go:216-260 | The world after every outcome of a rollback that follows the creation: restored exactly as above, and in every case only containers of the name or new ones differ. |
| Deployment.SeenWorld | ci/deployments/deployment.go:126-133 | A run that fails while the original is still under its name: the rollback removes the original just if no call of it fails; otherwise the original is at most stopped. |
| Deployment.MovedWorld | ci/deployments/deployment.go:141-143 | A run whose creation fails leaves the original aside, stopped, under the backup name. |
| Deployment.UnseenWorld | ci/deployments/deployment.go:119-122 | A run that fails to look for the original: the rollback stops the container of the name, if there is one and no call fails, and changes nothing otherwise. |
| Deployment.EarlyRestoredIff | ci/deployments/deployment.go:119-143 | For each way of failing before the creation, exactly when the rollback leaves the initial world; a seen original is gone exactly if no call of the rollback fails. |
| Deployment.FailedRunEarlier | ci/deployments/deployment.go:62-64 | The outcome of a failed run, seen from before the check: deaths in between do not change it. |
| Deployment.Deployment.constructor | ci/deployments/deployment.go:21-36 | A fresh deployment has the stored record, a handle on the service's container name without an id, and no original. |
| Deployment.Deployment.RunsImage | ci/deployments/deployment.go:81-87 | True exactly if the container has the recorded image and runs. |
| Deployment.Deployment.CheckExists | ci/deployments/deployment.go:66-97 | "Not changed" means that arguments, environment, ports and mounts are those recorded, and that the running container of the name has the recorded id and image; conversely such a container is recognized unless a call fails or it dies; otherwise the record is dropped. Nothing is changed. |
| Deployment.Deployment.EnsureImage | ci/deployments/deployment.go:262-272 | A step that works as scripted and, if it does, gives the handle the service's image. |
| Deployment.Deployment.ApplySettings | ci/deployments/deployment.go:99-110 | The new container's settings are the service's environment, arguments, ports and network - and no mounts. |
| Deployment.Deployment.FindOriginal | ci/deployments/deployment.go:118-128 | The original, if any, and whether it runs; which call of the daemon asks that. |
| Deployment.Deployment.SetOriginalAside | ci/deployments/deployment.go:118-135 | The original, if any, is stopped, renamed to the backup name and given a handle of its own, its running flag observed truthfully; each early failure leaves the handle as the purge will find it; on a calm daemon it succeeds in exactly so many calls. |
| Deployment.Deployment.Prepare | ci/deployments/deployment.go:99-143 | How far the first half came, and the exact world at each stage; with the image there and the backup name free it takes a failing call to keep it from the creation. |
| Deployment.Deployment.Confirm | ci/deployments/deployment.go:167-214 | The new container is started at most once; the start is confirmed exactly if it was launched and the handshake ends with the verdict that it has started. |
| Deployment.Deployment.Recover | ci/deployments/deployment.go:239-260 | The first call renames the original and the next two start it, and their answers decide which of the two took effect; with the original running only the start decides the reported outcome. |
| Deployment.Deployment.Rollback | ci/deployments/deployment.go:216-224 | Purge, then recover only after a successful purge; the world after each outcome, which call is the renaming, and what its answer decides; without faults it succeeds. |
| Deployment.Deployment.Attempt | ci/deployments/deployment.go:117-215 | How far a run came, the exact world at each stage, and that it succeeds exactly if the new container was launched and proved its start, which it takes a failing call to prevent. |
| Deployment.Deployment.Undo | ci/deployments/deployment.go:216-224 | The rollback after each stage, from what the attempt has left to the world `FailedRun` describes; which call is the renaming. |
| Deployment.Deployment.Run | ci/deployments/deployment.go:117-225 | Success: original aside, new container started with proof. With the image there, the backup name free and a start-up that proves the start, success is certain unless a call fails, and certain on a daemon that is calm for the calls of the run. Failure after the creation: a rollback without failing calls restores the initial world; one that reports success has restored it exactly if the daemon's answer to the renaming call was no failure. Failure before it: the world, and exactly when it is the initial one. On a calm daemon: which call is which. In every case only containers of the service's name and new ones of that name are touched. |
| Deployment.Deployment.PurgeOriginal | ci/deployments/deployment.go:227-237 | Removes exactly the original, if there is one. |
| Deployment.Deployment.Save | ci/deployments/deployment.go:274-297 | On success the stored record has the id and image of the new container and the service's inputs, and the record in memory is unchanged; on failure no stored record changes, and the one in memory is replaced exactly if it was the writing that failed. |
| Deployment.Deployment.Commit | ci/deployments/deployment.go:62-64 | Purge of the original, then the record; a failed purge prevents the record. |
| Deployment.Deployment.Replace | ci/deployments/deployment.go:62-64 | Run, purge and record: success exchanges the original for exactly one new container; a failed record leaves that container in place; a failed purge leaves both, the original stopped under its backup name; a failed run leaves the world `Run` says. What `Run` is certain of succeeds here unless a call or a file operation fails. |
| Deployment.Deployment.Deploy | ci/deployments/deployment.go:62-64 | Success exchanges the original for exactly one new container of the configured settings, whose start has a good cause in the handshake, and records it; with an image, a free backup name and a proof of the start only a failing call or file operation prevents it. A failed record leaves the container in place, a failed purge both; a failed check or image step changes nothing; a recorded running container is left alone; a failed run leaves the world `Run` says, exactly when the initial one; bystanders are untouched in every case. |
| RollbackFailures.FailedRenamingGoesUnnoticed | ci/deployments/deployment.go:245-259 | For every service and every failing start-up: a run on a daemon on which only the rollback's renaming fails reports a successful rollback, and the original does not bear the service's name. |
| RollbackFailures.FailedQuestionRemovesOriginal | ci/deployments/deployment.go:126-128 | For every service: a run on a daemon on which only the question whether the original runs fails reports a successful rollback, and the original is gone. |
| RollbackFailures.FailedCreationLeavesOriginalAside | ci/deployments/deployment.go:141-143 | For every service: a run on a daemon on which only the creation fails leaves the original stopped under its backup name, and nothing else. |
| Startups.AcceptedStartHasGoodCause | ci/deployments/deployment.go:197-214 | End to end: if the handshake of a start-up ends with the verdict that the container has started, its last state is reachable and the decisive item a clean exit, a detach, or a success keyword in a complete line of the output demultiplexed until then. |
| Startups.ProvesIff | ci/deployments/deployment.go:197-214 | A launched start-up proves the start if and only if its last state has delivered a result and the decisive item is a good cause. |
| Startups.ExitingProvesIff | ci/deployments/deployment.go:203-214 | Start-ups of both kinds exist: a container that exits at once proves its start exactly with exit code 0, the corner of the empty success keyword aside. |
| Services.FromService | ci/deployments/deployment.go:21-36 | A deployment of the service with its stored record, or none if the record cannot be read. |
| Services.DeployService | main.go:101-110 | A service from its stored record, field by field: deployed, exactly one container is exchanged, with the service's settings and image, and exactly its record is written; not changed, nothing is, and the record is of what runs and of what is configured. With an image, a free backup name and a proof of the start only a failing call or file operation prevents success. Early failures change nothing, a failed purge leaves both containers, a failed run the world `Run` says. |
| Services.DeployAgain | ci/deployments/deployment.go:69 | Two deployments with the same record file, the first successful: the second changes nothing only if arguments, environment, ports, mounts and container name are the same in both configurations, and exactly then if no call fails and nobody dies; image, network and keywords do not matter. |
| Services.UntouchedNext | main.go:97-115 | One more service extends the frame: containers without a deployed service's name are as they were, and every new one bears such a name. |
| Services.InPlaceAtFirst | main.go:101-110 | A service just deployed is in place: its container runs unless it has died, and is either that of the start or made with the service's settings. |
| Services.InPlaceStays | main.go:97-115 | Deploying another service, with whatever outcome, leaves a container in place exactly as it was right after its own deployment, unless it has died since. |
| Services.DeployAll | main.go:95-117 | The loop over any list of distinct services, stopping at the first error: on both exits every service handled before has its container as it was right after its own deployment, unless dead since, described by its record; after success without deaths all run; other containers and other records are never touched; it stops only at a service to be deployed for which a call or file operation failed, or which lacked an image, a proof of its start or a free backup name; a further pass over running services changes nothing. |
| Services.DeployTwice | main.go:95-117 | Two passes compose: after a successful first one, without faults and deaths, the second succeeds and changes nothing. |
| ProgressBar.String | docker/json_message.go:46-111 | The text of the bar: empty, plain count, or box, counts and estimate, the total just if it is not exceeded; it panics exactly on a wide terminal with a negative half percentage, as converted to 64 bits. |
| ProgressBar.BarBox | docker/json_message.go:70-77 | The bar position by position: as many marks as the half percentage, the tip, and spaces up to the fixed width. |
| ProgressBar.HalfPercentBounds | docker/json_message.go:66-69 | The number of marks is half the percentage of the counts, cut to an integer, and 50 for complete work. |
| ProgressBar.HalfPercentNegativeIff | docker/json_message.go:66-69 | The half percentage is negative exactly if 50 times the current count is at most the negated total, or, for a percentage beyond 64 bits, if the machine's conversion yields less than -1. |
| ProgressBar.UnfinishedIff | docker/json_message.go:66-100 | For non-negative counts the percentage is representable exactly if 100 times the current count is below 2^63 times the total; then the half percentage lies between 0 and 50, and is below 50 exactly if the current count is below the total. |
| ProgressBar.EstimatesIff | docker/json_message.go:100 | With a representable percentage an estimate is made exactly of work that has a start and a part done, but not all. |
| ProgressBar.EstimateIsOfUnfinishedIff | docker/json_message.go:100 | An estimate is made of unfinished work exactly if the percentage is representable. |
| ProgressBar.TimeLeftBounds | docker/json_message.go:100-104 | The estimate of unfinished work never exceeds the exact rational rest time; any estimate is non-negative exactly if the 64-bit product is above minus one second, as it is whenever the product of unfinished work fits. |
| ProgressBar.TimeLeftExactIff | docker/json_message.go:100-104 | The estimate is the exact one in whole seconds if and only if the product fits 64 bits. |
| Screen.RedrawLine | docker/json_message.go:177-196 | Erase, carriage return, text, carriage return: the row reads just the text, and no other row changes. |
| Screen.PutTextBelow | docker/json_message.go:169-205 | Printing never moves the cursor up and never touches a row above it. |
| ProgressDisplay.PrintHeading | docker/json_message.go:184-194 | The optional pieces, time, id and origin, are printed in this order. |
| ProgressDisplay.Display | docker/json_message.go:169-205 | One message printed piece by piece gives the screen and the error its kind calls for; without a terminal no control sequence is sent. |
| ProgressDisplay.BarReads | docker/json_message.go:177-196 | A bar takes the whole line on a terminal, heading, status and bar; elsewhere it is not shown unless its text is empty. |
| ProgressDisplay.TextReads | docker/json_message.go:184-204 | Anything else is written on from the end of the line, progress text before stream text before status, and only a status ends the line. |
| ProgressDisplay.WithLayerLined | docker/json_message.go:237-246 | The layers keep the rows 0 to n-1, one each; a new one gets row n and no other moves. |
| ProgressDisplay.DisplayStream | docker/json_message.go:210-272 | The loop's layers, screen and error are those of the pure account of the messages; without a terminal no cursor move and no erasure is ever sent. |
| ProgressDisplay.DisplayedInRow | docker/json_message.go:169-205 | A newline-free progress message changes its own row only and leaves the cursor in it. |
| ProgressDisplay.ProgressIsAbsolute | docker/json_message.go:236-269 | The relative moves are an absolute row: the message touches exactly base plus its layer's line, and the cursor ends one row further down exactly if the layer is new, also for an error message. |
| ProgressDisplay.RowsAreStable | docker/json_message.go:210-272 | For every stream: each layer of the epoch last drawn as a bar shows its latest text on a row of its own; while the epoch lasts, base and lines stay fixed and no row outside is touched. |
| ProgressDisplay.RowsAboveAreKept | docker/json_message.go:210-272 | Whatever stream follows, no row above all layers is ever touched. |
| ProgressDisplay.EpochEnds | docker/json_message.go:254-261 | A message without progress ends the epoch: the layers are forgotten, and every row above the cursor then reads the same after any further stream, at whose end the cursor is no further up. |
| ProgressDisplay.DisplayOnTerminal | docker/json_message.go:210-272 | After the display loop every such layer can be read on its own row, and every row above the cursor at the end of an earlier epoch reads as it did then. |

## Left out

- The environment: clocks and the freshness of timestamps (the backup name is a parameter; if it is taken, the renaming fails), wall-clock time (the deadline may fire at any step), operating-system calls, raw terminals, signals, window sizes.
- docker/in.go, docker/out.go, docker/tty.go, TTY monitoring and TTY copies: services are attached without a TTY.
- Building, pulling and deleting images, credentials, the docker network: `EnsureImage` is one step that works or fails as its parameter says.
- A docker call that fails after it has had an effect: in the model a failed call changes nothing but deaths. Containers die only right before calls; outsiders do not create, rename or remove containers. Reading and writing records may fail at any time, without a script.
- The 64-bit wrap-around of the byte count of `StdCopy`, and memory exhaustion for a huge declared frame.
- Destinations that are slow or block: a write answers at once, except that a report blocks the copier, which `Handshake` models.
- A wrapped writer that fails in the middle of the handshake: `Handshake` takes the log writer behind the condition writers as working; `ConditionWriter` and `WriterPair` treat its failures.
- The busy loop of the waiter on a context that is done: it changes nothing and is not a step. The events client is taken to put an error into its channel once its context is done.
- The goroutine of a copier whose report comes after the waiter's decision never ends; the model shows the stuck copier but says nothing about leaked resources.
- The wait for the stream after a failed launch: `<-errCh` is modelled (`Abandoning`); its cancel function belongs to a context that the deadline's has replaced, so with a timeout the wait lasts until the deadline.
- Containers.Container.EnsureContainerRunning: a call that does not return, on a running container that is never to die with no call ever to fail, is no call of the method; `AskAgain` states what happens instead.
- StreamCopy.StdCopy: the source's one function body is split into `CopyRound`, `FetchFrame`, `FillTo`, `Extend` and `EmitFrame`; its two destinations are one object that records in which order they are written.
- Deployment.Deployment.Run: the source's closure is split into `Prepare` and `Confirm` (together `Attempt`), its error handler is `Rollback`, with the account of its world in `Undo`. The attached stream, the events and the waiting are a complete run of the handshake given as a parameter, cut where the container is launched; a handshake that deadlocks has no such run.
- Deployment.Deployment.Confirm: the deaths in the daemon's script and the die events of the handshake are independent of each other; a container that dies while it is waited for is dead from the next call on.
- Deployment.Deployment.Deploy: the original's handle is read after the run, as intended; the source's argument order leaves that open.
- The chaining of calls with logging (vendor/github.com/alydnh/go-micro-ci-common/logs): taken as "go on if there is no error, handle it if there is", a panic inside counting as an error. The log output itself is not modelled.
- Services.DeployAll: the list of services is any list without duplicate names; their dependency order, the environment merging and the YAML files are not modelled, and a record reads back as it was saved (an empty list and a missing one being the same).
- JSON decoding, human-readable sizes, number and time formats: parameters of the bar and of messages.
- ProgressBar.String: the percentage is an exact rational until it is converted, without floating-point rounding; what the conversion makes of a percentage beyond 64 bits is a parameter, as the language leaves it to the machine.
- Deployment.RecordStore.Save: a failed write leaves the files as they were; the source truncates the file first, so that a failed write can destroy the record stored before. The claims that a deployment without success leaves the files alone share this.
- ProgressDisplay.RowsAreStable: rows and columns are unbounded, so no line wraps and nothing scrolls; status and progress texts are free of line breaks; a line feed returns the cursor to the first column, as a terminal in its usual mode does.
- The older copy of the deployment in deployments/, the service registry, the RPC interfaces and the commented-out code of docker/container.go: simple or dead code.
