# bridgectl in Dafny

bridgectl keeps terminal sessions alive, replays their output to late viewers and
publishes session state to a remote control plane. This project models the
stateful pieces of that daemon whose correctness spans several functions, and
proves what they promise together. Check it with `dafny verify dfyconfig.toml`.

| module | models | main results |
|---|---|---|
| `PendingInput`, `Sequences` | the tracker of unfinished escape sequences and UTF-8; the grammar of what it tracks | `PrefixReplay`, `PrefixDeclines`, `StreamCut`, `UnfinishedIff` |
| `ByteBuffer`, `Journal` | the bounded ring and the paged journal | `RingIsLongest`, `NoLostWakeup`, `PagesPartition`, `LoadIsExactIffUnnested` |
| `Screen`, `Terminal` | the live screen and the window protocol | `ViewerSimulation`, `LostIff`, `AnswerIff`, `SavedViewerSeesAll`, `Redrawn` |
| `Attachments`, `Supervisor` | the writer slot, replay and fan-out; the session object | `SlotInvariant`, `TurnEndsIff`, `InputsAreExclusive`, `ReplayThenLive` |
| `Interaction`, `Revision`, `Wire` | interaction reports, counters, messages | `SameRevisionSameContent`, `RevisionContinuity`, `CounterWriteDecides` |
| `Connection`, `ControlClient` | what one connection says; the client object | `ContentKnownIff`, `ActivityTimeForwardedIff` |
| `Publication`, `Contents`, `Behind` | sessions, notification queue and serve loop over whole runs | `NoLostUpdate`, `QuietMeansTold`, `CurrentIff`, `ContentToldIff`, `OvertakenReportWins` |
| `Ledger` | remote commands over a crash-prone disk | `AtMostOnce`, `OnceIffRooted`, `FirstFailureDecides`, `RepliesIff`, `ReplayIsFaithful` |
| `Hooks` | the Claude hook tracker | `CallsDoNotInterfere`, `TraceMeans`, `EmissionMeans` |
| `Activity`, `InputWriter` | the activity cursor and the keystroke coalescer | `CursorProtocol`, `StalledUntilTrimmed`, `KeystrokesAreConserved` |

Each object of the source is a class whose methods are proved against functions
on values; the theorems over whole runs are about those functions.

## How it is modelled

- The VT emulator is a record of functions over an abstract picture, passed as a
  value. The one assumption about it is `Screen.RedrawLaw`: its parser carries the
  unfinished input that the tracker follows and leaves the picture alone on bytes
  that only add to it, and drawing a picture on any terminal reproduces it with no
  input pending. It is a hypothesis of the lemmas that need it, and an emulator that
  meets it is given; that drawing plus unfinished input reproduces the whole terminal
  is proved.
- A lock-protected section is one step. A session changes in one step, its state is
  copied for a notification in another or not at all, the copy is queued in a third,
  in any order, and the wake-up token is set in a fourth. A snapshot lists the
  sessions and then reads the states they are in, one at a time.
- The states of a session carry a version that no message contains; it only serves
  to say which of two states is the later one.
- What the far side knows is read off the messages written on the connection:
  provider, project and status from every message, the interaction from the last
  message that carried one.
- Clocks, new ids, database, disk and connection outcomes are parameters, so
  every failure the code can see is covered. Encodings and keyed hashes are
  injective; encoded sizes are an arbitrary function.
- On the disk of `Ledger`, an unsynced new file may vanish, stay whole or be cut
  short in a crash, an unsynced rename may or may not have happened, and a directory
  whose own entry was never synced may be gone with everything in it.

## Where the code is narrower than it looks

- A resize after the output has closed changes the reported size without a chunk,
  so a later gap drawing is announced at the wrong size (`LateResize`,
  `LateResizeBreaksGap`, `ViewerSimulation`).
- A stored session id with a slash leaks into the scans of its prefix
  (`NestedIdsLeak`, `LoadIsExactIffUnnested`, `ScanAfterIsExactIff`). The daemon
  admits only UUIDs as session ids (internal/server/validate.go:21), so this is
  reachable only through the interface of the store.
- `ClaimWriter` moves a running session to attached, and the monitor of a recovered
  process moves it to stopped (internal/bridge/supervisor.go:275-281), without notifying the control
  client: the far side keeps the old status until the next message about the session
  (`ClaimIsNotTold`, `UnreportedIsNotTold`, `UnreportedIff`, `CurrentIff`).
- `UpdateInteraction`, `Stop` and the exit of a process copy the state under the lock
  and notify after it, so an older copy can overtake a newer one and is then what the
  far side is left with (`OvertakenReportWins`, `ReportedIsCurrent`).
- The ledger directory is created without syncing its parent. The promise that a
  command is never submitted twice, including after a restart, needs the directory to
  be there for good before the first command (`LostDirectoryRepeats`, `OnceIffRooted`).
- More than 500 active sessions are cut from a snapshot, and those left out are
  taken to have stopped (`SnapshotIsCompleteIffFits`).
- The comment on `UpdateInteraction` promises that a repeated report brings a fresh
  activity time to the far side; the event leaves the interaction out
  (`RepeatedReportIsNotForwarded`, `ActivityTimeForwardedIff`).
- An interaction whose event failed to be written is not sent again with the stop
  of its session, if the session ends while the next connection makes its snapshot
  (`ContentCanBeLost`, `EventTellsIff`).
- A writer that attaches again as an observer keeps the slot and is counted as an
  observer (`WriterCountedAsObserver`, `RoleKeptIff`).
- After the output has closed, an attach by the writer or as a writer breaks the
  slot invariant (`AttachAfterEnd`).
- Two concurrent calls of one agent with the same tool and arguments share a
  slot, and a permission request without an id goes to the later one (`SlotsDecide`).
- The comment on the revision store calls a failed write harmless; the first event
  after a restart repeats a revision unless a later write of that counter file
  succeeded before (`CounterWriteDecides`, `LaterWriteSaves`, `RevisionIsRepeated`).
- An activity event whose encoding alone exceeds the byte limit asked for stops
  the reader until it is trimmed (`StalledUntilTrimmed`, `ReaderStalls`).
- On a read error the coalescer sends what is queued without looking for the
  detach key (`DetachIgnored`, `DetachSentIff`).
- A command whose final record could not be renamed into place is answered
  "unknown" on replay although the first reply was definite (`RepeatsIff`).

## Model

| member | source | states |
|---|---|---|
| `PendingInput.Pending.FeedChunk` | internal/bridge/screen_pending.go:51-146 | The incremental scan, with its step-back loop, ends where the byte-by-byte automaton `Feed` ends on the same chunk; termination is by bytes left and phase |
| `PendingInput.Pending.Look` | internal/bridge/screen_pending.go:51-146 | One pass of the loop body is one move of the automaton, including whether the byte must be looked at again |
| `PendingInput.Pending.TakePrefix` | internal/bridge/screen_pending.go:149-157 | The prefix accessor returns the prefix of the abstract tracker |
| `PendingInput.FeedSplit` | internal/bridge/screen_pending.go:51-146 | Feeding two chunks is feeding their concatenation |
| `PendingInput.ChunkingIrrelevant` | internal/bridge/screen_pending.go:51-146 | However an input is cut into chunks, the tracker ends in the same state |
| `PendingInput.RunOf` | internal/bridge/screen_pending.go:36-146 | At every point, what the tracker carries is a suffix of everything fed, and feeding that suffix alone gives the same tracker |
| `PendingInput.PrefixReplay` | internal/bridge/screen_pending.go:36-157 | A successful prefix is a suffix of at most 4096 bytes of the input, and a fresh tracker fed it agrees with the original on every continuation |
| `PendingInput.PrefixIsShortest` | internal/bridge/screen_pending.go:36-157 | No shorter suffix of the input would do: the prefix holds no byte of a finished sequence |
| `PendingInput.PrefixDeclines` | internal/bridge/screen_pending.go:149-157 | The prefix is refused exactly when the unfinished suffix is over 4096 bytes or has already executed a control; otherwise it is that suffix |
| `PendingInput.ParserFollows` | internal/bridge/screen_pending.go:36-146 | A parser that carries only the unfinished input and the tracker of everything fed go on alike, byte by byte |
| `PendingInput.Utf8Cut` | internal/bridge/screen_pending.go:66-90 | For text valid under section 4 of RFC 3629 without ESC, cut at any byte, the prefix is exactly the part of the straddled code point before the cut, empty at a boundary |
| `PendingInput.TextWhole` | internal/bridge/screen_pending.go:66-90 | Valid text without ESC leaves nothing unfinished |
| `Sequences.SequenceWhole` | internal/bridge/screen_pending.go:51-146 | A whole escape sequence, control sequence, OSC, DCS, SOS, PM or APC string, by a grammar after sections 5.4 and 5.6 of ECMA-48, leaves nothing unfinished |
| `Sequences.SequenceCut` | internal/bridge/screen_pending.go:51-157 | Cut anywhere inside, such a sequence is itself the prefix, which is refused exactly over 4096 bytes |
| `Sequences.CancelEnds` | internal/bridge/screen_pending.go:51-146 | CAN and SUB end a sequence wherever they come |
| `Sequences.SequenceResets` | internal/bridge/screen_pending.go:51-146 | A whole sequence leaves nothing unfinished, whatever was unfinished before it |
| `Sequences.ControlsInside` | internal/bridge/screen_pending.go:60-64 | With C0 controls spread over an escape or control sequence, it stays unfinished, and the prefix is given if and only if no control came yet and it fits |
| `Sequences.ControlsThenLast` | internal/bridge/screen_pending.go:51-146 | With the last byte of the sequence, such controls notwithstanding, nothing is unfinished |
| `Sequences.UnfinishedIff` | internal/bridge/screen_pending.go:91-146 | For any bytes at all after an opener, the sequence stays unfinished in its phase if and only if none of them is one that breaks it |
| `Sequences.StreamWhole` | internal/bridge/screen_pending.go:51-146 | A stream of UTF-8 characters and sequences leaves nothing unfinished |
| `Sequences.StreamCut` | internal/bridge/screen_pending.go:51-157 | Cut anywhere, the prefix of such a stream is the part of the straddled character or sequence before the cut, and nothing between two of them |
| `ByteBuffer.Buffer.AppendSized` | internal/bridge/bytebuf.go:36-59 | Appends under the next sequence number, wakes subscribers, and keeps the ring equal to the longest suffix of the history that fits |
| `ByteBuffer.Buffer.Evict` | internal/bridge/bytebuf.go:46-56 | The eviction loop stops at the longest suffix that fits, with `total` exact |
| `ByteBuffer.Buffer.After` | internal/bridge/bytebuf.go:84-101 | Returns exactly the retained part of the history past the cursor |
| `ByteBuffer.Buffer.OldestSeq` | internal/bridge/bytebuf.go:103-110 | The sequence of the oldest retained chunk, zero when none is retained |
| `ByteBuffer.Buffer.LastSeq` | internal/bridge/bytebuf.go:112-118 | The sequence of the newest chunk ever appended, even when the ring is empty |
| `ByteBuffer.Buffer.Changes` | internal/bridge/bytebuf.go:132-139 | Returns the channel that the next append will close |
| `ByteBuffer.Buffer.NotifyLocked` | internal/bridge/bytebuf.go:126-131 | Closes the current channel and opens the next one |
| `ByteBuffer.RingIsLongest` | internal/bridge/bytebuf.go:36-59 | A suffix of the history fits the byte capacity and the 65536-chunk cap exactly when it is no longer than the ring |
| `ByteBuffer.NoLostWakeup` | internal/bridge/bytebuf.go:126-139 | The channel a subscriber holds is closed exactly when something was appended since it subscribed |
| `Journal.HexOrder` | internal/bridge/session_store.go:98-101 | Fixed-width lower-case hex orders bytewise as the numbers do |
| `Journal.KeyOrder` | internal/bridge/session_store.go:98-101 | Keys of one session order bytewise exactly as their sequence numbers |
| `Journal.KeyInjective` | internal/bridge/session_store.go:98-101 | A key determines its session id and its sequence number |
| `Journal.PrefixMeaning` | internal/bridge/session_store.go:30-56 | A key is under the scan prefix of a session exactly when it is its own or that of an id nested below it with a slash |
| `Journal.PutAppends` | internal/bridge/session_store.go:103-112 | Saving a chunk newer than the stored ones appends it to the chunks of its session |
| `Journal.PutElsewhere` | internal/bridge/session_store.go:103-112 | Saving a chunk leaves every other session alone |
| `Journal.Store.SaveChunk` | internal/bridge/session_store.go:103-112 | The bucket stays in strict key order; a failed database write changes nothing |
| `Journal.Store.LoadChunkPage` | internal/bridge/session_store.go:30-56 | The cursor loop with its running total returns the page that `PageOf` describes, or the too-large error |
| `Journal.Store.LoadChunks` | internal/bridge/session_store.go:114-129 | The full scan returns every chunk under the prefix, in key order |
| `Journal.ScanAfterIsExactIff` | internal/bridge/session_store.go:30-56 | What a page is cut from is exactly the stored chunks of the session past the cursor if and only if no nested id is stored from there on |
| `Journal.PageIsMaximal` | internal/bridge/session_store.go:30-56 | A page is the longest run within 1024 chunks and the byte limit; an error is returned exactly when the first chunk alone is over the limit |
| `Journal.PagesPartition` | internal/bridge/session_store.go:30-56 | Loading page after page from the bucket, feeding back the last sequence, yields exactly the stored chunks of the session past the cursor, in order, without loss or repeat |
| `Journal.LoadIsExactIffUnnested` | internal/bridge/session_store.go:114-129 | Loading a session returns exactly its own chunks if and only if no stored id is nested below it |
| `Journal.NestedLeaks` | internal/bridge/session_store.go:114-129 | Whatever else is stored, every chunk of an id nested below another is also loaded for that other one |
| `Journal.NestedIdsLeak` | internal/bridge/session_store.go:114-129 | A concrete failure: a chunk of session `a/b` is loaded for session `a`, which has none |
| `Screen.LiveScreen.EnsureSize` | internal/bridge/screen.go:64-105 | Creates or resizes the emulator, or disables the screen, as the abstract screen does |
| `Screen.LiveScreen.ApplyChunk` | internal/bridge/screen.go:107-126 | Applies a chunk only in sequence order and carries the unfinished input with it |
| `Screen.LiveScreen.FreezeScreen` | internal/bridge/screen.go:128-136 | Stops further changes to the screen |
| `Screen.LiveScreen.FinalizeScreen` | internal/bridge/screen.go:138-147 | Takes the final picture once and drops the emulator |
| `Screen.LiveScreen.TakeCheckpoint` | internal/bridge/screen.go:149-164 | Serves the drawing for a sequence only when the screen stands exactly there |
| `Screen.ApplyTracks` | internal/bridge/screen.go:107-126 | A usable screen has applied exactly the chunks of the history, each once and in order, and the next chunk keeps it so |
| `Screen.CheckpointIsPicture` | internal/bridge/screen.go:149-164 | A checkpoint is served only for the newest sequence, only as the drawing of chunks 1 to that sequence, and within 65536 bytes |
| `Screen.CheckpointIff` | internal/bridge/screen.go:149-164 | A usable screen, open, closed or finalized, serves a checkpoint of the whole history if and only if its drawing exists and has 1 to 65536 bytes |
| `Screen.PictureIff` | internal/bridge/screen.go:166-271 | There is a drawing if and only if the emulator can draw what an uninterrupted terminal shows and the unfinished input is not refused; it is the one followed by the other |
| `Screen.DisabledIff` | internal/bridge/screen.go:64-126 | A screen in step with the history is given up exactly at a chunk whose size is zero or over 500 by 300 |
| `Screen.ClosedScreenStays` | internal/bridge/screen.go:64-126 | Nothing that comes after closing changes the screen |
| `Screen.PlayAtOneSize` | internal/bridge/screen.go:64-126 | Output of one size gives the terminal that writing all of it to a blank one gives |
| `Screen.PlayAcrossResize` | internal/bridge/screen.go:64-126 | A chunk of another size resizes the picture once, keeps the unfinished input, and is then written |
| `Screen.FinalizeKeeps` | internal/bridge/screen.go:138-164 | Whether the final picture has been taken yet makes no difference to a checkpoint |
| `Screen.PlayFollows` | internal/bridge/screen.go:107-126 | Through output and resizes, the input the emulator carries is what the tracker follows |
| `Screen.Redrawn` | internal/bridge/screen.go:166-271 | On any viewer, the drawing followed by the unfinished input reproduces the whole terminal, parser included |
| `Screen.LawCanBeMet` | internal/bridge/screen.go:166-271 | A small emulator with drawings for every printable byte meets the redraw law, so the results that assume it are not empty |
| `Terminal.Gather` | internal/bridge/terminal.go:105-137 | The loop that grows the data and advances the sequence returns the window that `GatherWindow` describes |
| `Terminal.WindowContinues` | internal/bridge/terminal.go:105-137 | A window without a gap holds exactly the payloads after the cursor, of one geometry, at most 65536 bytes, and carries a terminal from the cursor to `NextSequence` |
| `Terminal.JournalCoversRing` | internal/bridge/terminal.go:52-137 | With every chunk saved and none over 65536 bytes, every cursor up to the newest is served without gap or error, and below it with progress |
| `Terminal.ReadAllIsComplete` | internal/bridge/terminal.go:52-137 | Iterating from any cursor yields exactly the concatenation of the remaining payloads, in at most one call per chunk |
| `Terminal.EndedMeans` | internal/bridge/terminal.go:89-137 | `Ended` is reported exactly when the output is closed and nothing remains past the window |
| `Terminal.EndedIsFinal` | internal/bridge/terminal.go:89-137 | After a window said `Ended`, nothing is ever appended past its `NextSequence`, in any run |
| `Terminal.GapMeans` | internal/bridge/terminal.go:74-104 | A gap window skips to the newest sequence and carries the drawing of everything so far, or nothing |
| `Terminal.AnswerIff` | internal/bridge/terminal.go:52-137 | A poll is answered by the store error, the recovery error, a gap or plain output, each exactly when ring, journal and drawing call for it |
| `Terminal.GapFirst` | internal/bridge/terminal.go:74-104 | A gap names the first sequence of the journal page past the cursor, or of the ring, or none |
| `Terminal.WriterIsPassedOn` | internal/bridge/terminal.go:58-58 | A window names its reader the writer exactly when the caller holds the slot |
| `Terminal.NextKeepsValid` | internal/bridge/supervisor.go:857-880 | Output, resize, close, final picture and poll keep ring, journal, screen and history consistent |
| `Terminal.PollKeepsSync` | internal/bridge/terminal.go:32-138 | One poll takes a viewer in sync to a viewer in sync unless a gap is drawn at a size it was not made for; it is lost only by a gap for which no drawing exists |
| `Terminal.ViewerSimulation` | internal/bridge/terminal.go:32-138 | For every interleaving of output, resizes before and after the end, evictions, failed journal writes and polls, a viewer that feeds `NextSequence` back shows what an uninterrupted terminal shows after chunks 1 to its cursor if and only if no gap was drawn for it while the reported size was not that of the picture |
| `Terminal.LostIff` | internal/bridge/terminal.go:74-104 | Over every run, a poll takes the picture from a viewer if and only if its next chunk is not at hand and the session cannot be drawn: some size was over 500 by 300, or there is no drawing of 1 to 65536 bytes |
| `Terminal.DrawableIsNeverLost` | internal/bridge/terminal.go:74-104 | A viewer of a session that can be drawn at every poll is never lost |
| `Terminal.OpenIsNeverMisdrawn` | internal/bridge/supervisor.go:1167-1205 | As long as the output is open the condition holds, in every run |
| `Terminal.SavedViewerSeesAll` | internal/bridge/terminal.go:32-138 | Over every run in which each chunk is saved and none is over 65536 bytes, a viewer never meets a gap or an error, is never lost or misdrawn, and shows what an uninterrupted terminal shows at its cursor; nothing is assumed of the emulator |
| `Terminal.LateResize` | internal/bridge/supervisor.go:1167-1205 | Closing and then resizing leaves the size of the picture exactly when the new size is another one |
| `Terminal.LateResizeBreaksGap` | internal/bridge/supervisor.go:1167-1205 | A gap drawing shows the session if and only if the reported size is the one it was drawn for |
| `Terminal.WaitMissesNothing` | internal/bridge/terminal.go:142-163 | A waiting call that subscribed, read an empty window and sleeps has missed nothing: while its channel is open, nothing past its cursor has been produced |
| `Attachments.SlotInvariant` | internal/bridge/supervisor.go:1214-1357 | Over every run of attach, detach, claim, release and stop while output is live: the writer is attached, every writer-role entry is the writer, the attachment fields mirror it, the observer count counts observer entries, and a running session has no writer |
| `Attachments.RoleKeptIff` | internal/bridge/supervisor.go:1214-1303 | A step keeps the entry of the writer in the writer role if and only if it is not the writer attaching again as an observer |
| `Attachments.RoleInvariant` | internal/bridge/supervisor.go:1214-1357 | Over every run without such a step, the entry of the writer has the writer role |
| `Attachments.WriterCountedAsObserver` | internal/bridge/supervisor.go:1214-1303 | A concrete failure: a writer that attaches again as an observer holds the slot and is counted as an observer |
| `Attachments.InputsAreExclusive` | internal/bridge/supervisor.go:1068-1094 | Between accepted inputs of two clients lies a step that ended the turn of the first: its detach, its release, or a forced claim |
| `Attachments.TurnEndsIff` | internal/bridge/supervisor.go:1320-1659 | At any point of a run, a step takes the slot from its writer if and only if it is its detach, its release, or the forced claim of another attached client |
| `Attachments.TurnBeginsIff` | internal/bridge/supervisor.go:1250-1626 | A client gets the slot if and only if it attaches as writer to a free slot, or, attached, claims a free one or forces its claim |
| `Attachments.AttachedIff` | internal/bridge/supervisor.go:1214-1357 | A client is attached after a step if and only if it attached with it, or was and did not detach |
| `Attachments.EntriesAfter` | internal/bridge/supervisor.go:1214-1659 | A step gives a new channel to who attaches and leaves every other channel alone; roles change only by release and claim, for the writer and the claimant |
| `Attachments.ReleaseFrees` | internal/bridge/supervisor.go:1630-1659 | After a release the slot is free and the client still attached, as an observer |
| `Attachments.RefusedIff` | internal/bridge/supervisor.go:1214-1659 | Attach, detach, release and claim are refused exactly when they should be, a claim with the error of the first check that fails |
| `Attachments.StateAfter` | internal/bridge/supervisor.go:930-1357 | The state after every step: attached by a writer, running again with the last detach, stopping, stopped or failed |
| `Attachments.AttachedMeansSomeone` | internal/bridge/supervisor.go:1320-1357 | Over every run, an attached session has someone attached |
| `Attachments.InputAcceptedIff` | internal/bridge/supervisor.go:1068-1094 | At any point of a run, input is accepted if and only if the session is attached, the client its writer and the size within the limit; otherwise the first check to fail gives the error |
| `Attachments.AttachAfterEnd` | internal/bridge/supervisor.go:1266-1303 | Once the output has ended, a successful attach keeps the invariant if and only if it is an observer who is not the writer |
| `Attachments.UnreportedIff` | internal/bridge/supervisor.go:1583-1659 | At any point of a run, a step changes the state of a session without a notification if and only if it is the claim of an attached client on a running session |
| `Attachments.ReplayThenLive` | internal/bridge/supervisor.go:1266-1303 | For every attach, replay then live output is strictly increasing, and unless the 128-slot channel overflowed it is the retained chunks past the cursor followed by every later chunk; control events never enter the history |
| `Attachments.KeepingUpLosesNothing` | internal/bridge/supervisor.go:872-879 | A client that never has 128 chunks unread when one is sent loses nothing |
| `Attachments.ReplayGapMeaning` | internal/bridge/supervisor.go:1287-1294 | The gap flag holds exactly when the ring is non-empty, the cursor non-zero, and some chunk past the cursor was evicted |
| `Supervisor.ManagedSession.constructor` | internal/bridge/supervisor.go:485-546 | A new session is valid, empty and unattached, with the default geometry where none is given |
| `Supervisor.ManagedSession.AppendChunkLocked` | internal/bridge/supervisor.go:857-880 | Sequence, screen, journal and fan-out move together as one output step of `Terminal.Next`, and nothing happens after closing |
| `Supervisor.ManagedSession.PersistChunk` | internal/bridge/supervisor.go:300-307 | A chunk reaches the journal or, on a failed write, nothing changes |
| `Supervisor.ManagedSession.Resize` | internal/bridge/supervisor.go:1167-1205 | Only the writer resizes; success is one resize step, recorded while output is live as a zero-byte chunk that is sent to every attached client |
| `Supervisor.ManagedSession.CloseLive` | internal/bridge/supervisor.go:821-829 | Closing marks the output exhausted and freezes the screen |
| `Supervisor.ManagedSession.Fanout` | internal/bridge/supervisor.go:872-879 | Every attached client is sent the chunk unless its channel is full |
| `Supervisor.ManagedSession.FanoutControlEvent` | internal/bridge/supervisor.go:887-902 | A control event goes to the attached clients and never to the history |
| `Supervisor.ManagedSession.CountObservers` | internal/bridge/supervisor.go:1307-1315 | Counts the observer-role entries |
| `Supervisor.ManagedSession.AttachClient` | internal/bridge/supervisor.go:1214-1303 | The new slot state, the replay, the gap flag and the checkpoint, or the error with nothing changed |
| `Supervisor.ManagedSession.DetachClient` | internal/bridge/supervisor.go:1320-1357 | Removes the client, clearing the writer slot if it held it |
| `Supervisor.ManagedSession.ClaimWriter` | internal/bridge/supervisor.go:1583-1626 | Takes the slot if it is free, already held by the caller, or forced; returns who lost it |
| `Supervisor.ManagedSession.ReleaseWriter` | internal/bridge/supervisor.go:1630-1659 | Gives the slot up, staying attached |
| `Supervisor.ManagedSession.StopSession` | internal/bridge/supervisor.go:975-1066 | Moves the session to stopping |
| `Supervisor.ManagedSession.WriteInput` | internal/bridge/supervisor.go:1068-1094 | The guard: only the writer of a session that takes input, within the size limit |
| `Supervisor.ManagedSession.ReadWindow` | internal/bridge/terminal.go:32-138 | The window call on the real objects returns the window of `Terminal.Window` on their abstract value and changes nothing but the pending final picture |
| `Supervisor.ManagedSession.PickSource` | internal/bridge/terminal.go:55-73 | Prefers a journal page when the cursor predates the ring |
| `Supervisor.ManagedSession.WindowFrom` | internal/bridge/terminal.go:83-137 | From the chosen chunks, the gap, the error or the gathered window |
| `Supervisor.ManagedSession.CheckpointGap` | internal/bridge/terminal.go:74-82 | The current drawing as a gap window, or the recovery error |
| `Interaction.UnchangedMeansSameContent` | internal/bridge/interaction.go:154-190 | `changed` is false exactly when effective state, capability and pending id, type and summary agree, so its negation is an equivalence |
| `Interaction.UnsetIsUnknown` | internal/bridge/interaction.go:154-190 | Before the first report the state counts as unknown |
| `Interaction.UpdatedMeaning` | internal/bridge/supervisor.go:1128-1165 | A report is stored with its own content, source and activity time, and moves the revision by one, and the time of the update, exactly when the content differs |
| `Interaction.KindAfter` | internal/bridge/supervisor.go:1146-1158 | A report of the same content can classify the pending request but not take its kind back |
| `Interaction.Holder.UpdateInteraction` | internal/bridge/supervisor.go:1128-1165 | A report without a source is refused; any other updates the stored interaction |
| `Interaction.SameRevisionSameContent` | internal/bridge/supervisor.go:1128-1165 | Any two stored interactions of a session with the same revision agree on everything a consumer is told |
| `Revision.Store.Next` | internal/bridgecontrol/revision.go:60-69 | The next revision is one above the current one and is persisted if the file can be written |
| `Revision.Store.CurrentRev` | internal/bridgecontrol/revision.go:71-77 | The last revision assigned, zero if none |
| `Revision.Store.Forget` | internal/bridgecontrol/revision.go:79-91 | Drops the counter of a session, persisting only a change |
| `Wire.RevisionContinuity` | internal/bridgecontrol/client.go:726-757 | Over every run of events, snapshots, discarded notifications, failed writes, reconnects, failed counter writes, and restarts at which the counters of a session are on disk: an event of the session carries its previous revision plus one, a row repeats it, a first message carries 1 |
| `Wire.RevisionNeverFalls` | internal/bridgecontrol/client.go:851-878 | Until a session is forgotten its revision never falls, and every later event exceeds it |
| `Wire.InteractionRevisionRises` | internal/bridgecontrol/client.go:775-820 | The interaction revision never falls, and rises whenever the local revision differs or the process restarted in between |
| `Wire.OmittedPayloadIsKnown` | internal/bridgecontrol/client.go:775-820 | An event that omits the interaction omits one whose content was already placed in a message of this process, whatever counter writes fail, as long as a local revision stands for one content |
| `Wire.OmissionIsKnown` | internal/bridgecontrol/client.go:775-820 | The same for whatever states a session has by its reports, of which that is proved |
| `Wire.CounterWriteDecides` | internal/bridgecontrol/revision.go:99-126 | At any point of such a run, the first event after a restart continues the revisions of its session if and only if the counter on disk is the one in memory, on either axis |
| `Wire.LaterWriteSaves` | internal/bridgecontrol/revision.go:60-91 | An event whose counter writes succeed leaves every lifecycle counter on disk; it leaves an interaction counter there if and only if it carries an interaction, forgets a session that has one, or the counter was there |
| `Wire.SnapshotSavesIff` | internal/bridgecontrol/client.go:726-757 | A snapshot whose counter writes succeed leaves the lifecycle counters on disk exactly when it gives a session its first revision, or they were there |
| `Wire.StopForgetsIff` | internal/bridgecontrol/client.go:851-878 | A stop event that was written drops counters and bookkeeping of its session, and no other event drops any |
| `Wire.RevisionIsRepeated` | internal/bridgecontrol/revision.go:99-126 | A concrete failure: an event whose counter write fails and the first event after a restart both carry revision 1 |
| `Connection.BasicsAreMade` | internal/bridgecontrol/client.go:851-878 | What a connection says of provider, project and status is what the last message about the session was made from |
| `Connection.ContentKnownIff` | internal/bridgecontrol/client.go:775-820 | After an event, the far side of the connection knows the content of the interaction if and only if the event carried it or an earlier message on the connection did |
| `Connection.ActivityTimeForwardedIff` | internal/bridge/supervisor.go:1122-1127 | A repeated report brings its activity time to the far side if and only if it changes the content or the time is the one already sent |
| `Connection.RepeatedReportIsNotForwarded` | internal/bridge/supervisor.go:1122-1127 | A concrete failure: the same interaction reported a second later goes out without its new time |
| `Publication.NotifyOk` | internal/bridgecontrol/client.go:228-252 | After every notification the order list is the queue keys, each once, oldest first, at most 64 |
| `Publication.NotifyIff` | internal/bridgecontrol/client.go:228-252 | The queue then holds the session, last in order, and all others as they were, except for the oldest if 64 others were there; exactly then a snapshot is asked for |
| `Publication.DrainStaleOk` | internal/bridgecontrol/client.go:618-632 | Exactly the entries from before the cutoff go, and the list stays in order |
| `Publication.StepKeeps` | internal/bridgecontrol/client.go:408-462 | Every step of sessions, queue, serve loop and connection keeps the coverage invariant: sessions change with or without a report, states are copied and delivered later and in any order, and a snapshot reads the states the sessions are in, one at a time |
| `Publication.NoLostUpdate` | internal/bridgecontrol/client.go:408-462 | At every step of every run in which a snapshot finds at most 500 active sessions, what was last reported about a session, or a later state of it, is queued with a wake-up outstanding, being sent, what the last message was made from, in a snapshot, or due one |
| `Publication.QuietMeansTold` | internal/bridgecontrol/client.go:408-462 | When the client has nothing left to do, the messages of the connection give the provider, project and status of a state each reported session was in at or after its last report, and a session none speaks of had ended then or later |
| `Publication.VersionsCount` | internal/bridge/supervisor.go:1661-1668 | The versions by which states are told apart count the changes of a session within a process |
| `Publication.CurrentIff` | internal/bridge/supervisor.go:1377-1390 | On any connection, the last message about a session was made from the state the session is in if and only if it has not changed since that state; leaving it out is right if and only if it has ended |
| `Publication.ReportedIsCurrent` | internal/bridgecontrol/client.go:408-462 | When the client has nothing left to do, a session whose newest state is the last one reported is told as it is |
| `Publication.SnapshotIsCompleteIffFits` | internal/bridgecontrol/client.go:726-734 | A snapshot of sessions that do not change meanwhile is right, whichever rows survive the cut, if and only if at most 500 are active |
| `Contents.MeaningHolds` | internal/bridge/supervisor.go:1128-1165 | Over every run, a local interaction revision of a session stands for one content within a process, in everything queued, read, copied or sent |
| `Contents.ContentToldIff` | internal/bridgecontrol/client.go:775-820 | At every point of a connection, the interaction of the state that the last message about a session was made from is known if and only if some message on the connection carried one for it |
| `Contents.ActiveIsTold` | internal/bridgecontrol/client.go:775-820 | When the client has nothing left to do, the interaction of every reported active session is known, as of a state no older than the last report, unless an ended session was revived |
| `Contents.EventTellsIff` | internal/bridgecontrol/client.go:851-878 | At any point of a run, sending an event makes the content known if and only if its local revision is not the one last placed or a payload was sent before on this connection |
| `Behind.UnreportedIsNotTold` | internal/bridge/supervisor.go:263-284 | A concrete run for any status: a session that changes without a report leaves the far side with the old state and nothing to do, as when a recovered process exits |
| `Behind.ClaimIsNotTold` | internal/bridge/supervisor.go:1583-1626 | A concrete run: a claim on a running session leaves the far side with running, and a later snapshot tells it attached, which was never reported |
| `Behind.OvertakenReportWins` | internal/bridge/supervisor.go:1155-1165 | A concrete run: reports are delivered outside the lock, so an older one can overtake the stop of its session; all are delivered and the far side is left with the session running |
| `Behind.ContentCanBeLost` | internal/bridgecontrol/client.go:851-878 | A concrete run that ends quiet with an interaction never delivered: its event fails, and the session ends between the next cutoff and its reading |
| `ControlClient.Client.Notify` | internal/bridgecontrol/client.go:228-252 | The map and the list change as the abstract queue does: coalesce, evict the oldest and schedule a snapshot, move to the back, set the token |
| `ControlClient.Client.ScheduleReconcile` | internal/bridgecontrol/client.go:258-263 | Sets the snapshot token and nothing else |
| `ControlClient.Client.DrainAllPending` | internal/bridgecontrol/client.go:589-603 | Empties the queue and returns every entry exactly once, in any order |
| `ControlClient.Client.DrainStalePending` | internal/bridgecontrol/client.go:618-632 | Drops exactly the entries from before the cutoff, and forgets exactly those of ended sessions |
| `ControlClient.Client.ToInteractionPayload` | internal/bridgecontrol/client.go:775-820 | The payload and the bookkeeping are those of `Wire`, including when it is left out |
| `ControlClient.Client.ForgetInteraction` | internal/bridgecontrol/client.go:824-829 | Drops the interaction counter and the last local revision |
| `ControlClient.Client.ForgetSession` | internal/bridgecontrol/client.go:627-628 | Drops both revision axes of a session |
| `ControlClient.Client.SendEvent` | internal/bridgecontrol/client.go:851-878 | One event is one event operation of `Wire`, with the forgetting that follows a stop |
| `ControlClient.Client.SendSnapshot` | internal/bridgecontrol/client.go:726-757 | The row-by-row loop is one snapshot operation of `Wire` over the first 500 sessions |
| `ControlClient.UnlinkKeeps` | internal/bridgecontrol/client.go:228-252 | Unlinking one list element keeps exactly the others, in order |
| `Ledger.CommandLedger.WriteCommandRecord` | internal/bridgecontrol/command.go:133-168 | The claim and the final write, with a failure or a crash at any of their operations |
| `Ledger.CommandLedger.ExecuteCommand` | internal/bridgecontrol/command.go:43-131 | The checks, the replay, the claim, the dispatch and the final write leave the state and reply of `Execute` |
| `Ledger.ExecuteKeeps` | internal/bridgecontrol/command.go:43-131 | Every delivery, however it ends, keeps the ledger invariant |
| `Ledger.RebootKeeps` | internal/bridgecontrol/command.go:133-168 | Whatever a crash leaves behind still holds the record of every dispatched command |
| `Ledger.AtMostOnce` | internal/bridgecontrol/command.go:43-168 | Over every sequence of deliveries, crashes and failed writes, with the ledger directory on disk for good before the first command, an id is dispatched at most once, and at most 10000 dispatches ever occur |
| `Ledger.InvHolds` | internal/bridgecontrol/command.go:43-168 | Whatever crashes take away, the ledger keeps its invariant, and with it at most one dispatch per id, for everything since its directory was last lost |
| `Ledger.OnceIffRooted` | internal/bridgecontrol/command.go:94-98 | No run dispatches an id twice if and only if the directory was on disk for good before the first command |
| `Ledger.LostDirectoryRepeats` | internal/bridgecontrol/command.go:94-98 | A concrete failure: the directory is made without syncing its parent, a crash takes it away, and a second delivery dispatches the command again |
| `Ledger.LogGrows` | internal/bridgecontrol/command.go:105-111 | Nothing leaves the dispatch log, and a delivery adds at most its own call |
| `Ledger.AcceptedMeansSucceeded` | internal/bridgecontrol/command.go:69-131 | A reply of accepted means that this very command was dispatched under this credential and succeeded, even if the directory was lost before |
| `Ledger.RepliesIff` | internal/bridgecontrol/command.go:110-131 | A dispatched command is answered with accepted, writer conflict, request mismatch, session unavailable, unsupported or unknown, each exactly for that ending of the dispatch |
| `Ledger.DispatchHasHandler` | internal/bridgecontrol/command.go:56-68 | Only a well-formed command whose handler is configured is dispatched, to the handler of its action |
| `Ledger.FirstFailureDecides` | internal/bridgecontrol/command.go:43-109 | The first of nine checks that fails refuses the command with its code; if none fails it is answered by its record if there is one and dispatched if not |
| `Ledger.DispatchNeeds` | internal/bridgecontrol/command.go:90-109 | A command is dispatched only between its time limits, for this installation, never before, and with its claim on disk for good |
| `Ledger.ReplayIsFaithful` | internal/bridgecontrol/command.go:76-88 | Once an id is dispatched, no delivery under it changes anything, and the reply is the recorded one, unknown, a conflict exactly when command or credential differs, or a refusal made without the record |
| `Ledger.OnlyProperCalls` | internal/bridgecontrol/command.go:43-68 | Over every run, only commands that pass validation reach a session, through the handler of their action, with the decision of an approval and the text of anything else |
| `Ledger.ProperCall` | internal/bridgecontrol/command.go:170-178 | A command that passes validation carries the decision accept or cancel if it is an approval and a valid text otherwise, and a request id unless it is an instruction |
| `Ledger.AsciiResponseIff` | internal/bridge/respond.go:26-36 | Text of printable ASCII, tabs and newlines is valid if and only if it is not all blank and has at most 16384 characters |
| `Ledger.ControlsAreRefused` | internal/bridge/respond.go:26-36 | No other control character is let through |
| `Ledger.RepeatsIff` | internal/bridgecontrol/command.go:127-130 | A second delivery in the same process repeats the reply exactly when the final write got as far as the rename |
| `Ledger.SurvivesIff` | internal/bridgecontrol/command.go:127-130 | A delivery after any crash repeats the reply exactly when the final write completed |
| `Hooks.Tracker.ApplyEvent` | internal/claudehooks/hooks.go:265-379 | The event handler changes the maps as `Apply` does and sends out an interaction that `Emits` describes |
| `Hooks.Tracker.HandleEvent` | internal/claudehooks/hooks.go:285-361 | The switch on the event name changes the state as `Handle` does |
| `Hooks.Tracker.SelectPending` | internal/claudehooks/hooks.go:362-372 | Whatever the order of visiting, the loop selects the one request that beats all others |
| `Hooks.Tracker.DropAgent` | internal/claudehooks/hooks.go:331-336 | Deletes exactly the requests of one agent |
| `Hooks.EmissionIsUnique` | internal/claudehooks/hooks.go:362-378 | The state and request sent out do not depend on map iteration order |
| `Hooks.EmissionMeans` | internal/claudehooks/hooks.go:362-378 | Waiting for approval if and only if some approval is pending, waiting for input if and only if only inputs are, otherwise the base state with no request |
| `Hooks.PendingAfter` | internal/claudehooks/hooks.go:265-361 | For every event and every key: a request is pending afterwards if and only if the event asks for it anew, or it was and is neither wiped nor dismissed, and it is then that one |
| `Hooks.ToolsAfter` | internal/claudehooks/hooks.go:285-325 | For every event and every slot: which tool id is remembered afterwards |
| `Hooks.BaseAfter` | internal/claudehooks/hooks.go:265-361 | For every event, what the session is doing afterwards |
| `Hooks.SessionAfter` | internal/claudehooks/hooks.go:265-284 | For every event, which session and prompt are followed afterwards |
| `Hooks.SentIff` | internal/claudehooks/hooks.go:265-361 | An update goes out exactly for a session start of the main agent and for every counting event with a meaning of its own |
| `Hooks.StopClears` | internal/claudehooks/hooks.go:331-342 | The stop of an agent ends its own requests and no others; the stop of the main agent with nothing left sends idle, or unknown after a failure |
| `Hooks.WipeClears` | internal/claudehooks/hooks.go:265-353 | A new prompt, the end of the session and a new session leave nothing pending or remembered and send working, unknown and idle |
| `Hooks.TraceMeans` | internal/claudehooks/hooks.go:265-361 | Over every trace, a request is pending if and only if it was asked for and neither ended, nor its agent stopped, nor a prompt or session begun or ended since; the base state is that of the last event that sets it |
| `Hooks.ToolsAreClassified` | internal/claudehooks/hooks.go:236-251 | The kind and type of a request by the tool that makes it |
| `Hooks.CallsDoNotInterfere` | internal/claudehooks/hooks.go:285-325 | For every interleaving of tool calls with distinct keys, each with its own events in order, the tracker holds for each call exactly what its own events call for |
| `Hooks.RequestIsStable` | internal/claudehooks/hooks.go:285-325 | Once raised, a request keeps its id until the end of its own call |
| `Hooks.KeysAreDistinct` | internal/claudehooks/hooks.go:285-297 | With agent ids and fingerprints free of slashes, calls share keys exactly when agent, tool and fingerprint, or agent and id, agree |
| `Hooks.ElicitationsAreApart` | internal/claudehooks/hooks.go:326-330 | Tool requests and elicitations never share a key |
| `Hooks.SlashesCollide` | internal/claudehooks/hooks.go:285-285 | A slash in an agent id lets two different calls share a slot |
| `Hooks.SlotsDecide` | internal/claudehooks/hooks.go:285-321 | A permission request without an id, after two calls began, is filed under its own call if and only if their slots differ |
| `Activity.ActivityBuffer.AppendEvent` | internal/bridge/activity.go:34-43 | Numbers and keeps an acceptable event, ignores any other, then trims |
| `Activity.ActivityBuffer.Trim` | internal/bridge/activity.go:44-52 | The trimming loop drops as few of the oldest events as possible |
| `Activity.ActivityBuffer.GetWindow` | internal/bridge/activity.go:53-91 | The window loop with its rollback returns the window that `WindowOf` describes |
| `Activity.EventLimit` | internal/bridge/activity.go:57-59 | A request within 1 to 128 events is taken as it is, any other as 128 |
| `Activity.ByteLimit` | internal/bridge/activity.go:60-62 | A request within 1024 to 32768 bytes is taken as it is, any other as 32768 |
| `Activity.DroppedIsLeast` | internal/bridge/activity.go:44-52 | What is left fits 128 events, 32768 bytes and 15 minutes, and nothing longer does |
| `Activity.WindowMeans` | internal/bridge/activity.go:53-91 | A window is the run right after the cursor or the trimmed events; a gap means the next event is gone or the cursor is ahead; the encoding fits; it is empty exactly when nothing is left or the next event alone is too large |
| `Activity.CursorProtocol` | internal/bridge/activity.go:34-91 | Across any appends, trims and polls, the windows since the last gap hold every event in order with no repeats |
| `Activity.GapMeansTrimmed` | internal/bridge/activity.go:67-71 | A fed-back cursor meets a gap exactly when the next event was trimmed |
| `Activity.StalledUntilTrimmed` | internal/bridge/activity.go:72-89 | When the next event alone is over the limit asked for, a reader that keeps asking for it gets nothing, whatever is appended and however often it polls, until that event is trimmed |
| `Activity.ReaderStalls` | internal/bridge/activity.go:72-89 | A concrete failure: an event of 512 control characters stops a reader that asks for 1024 bytes |
| `InputWriter.Coalescer.Run` | cmd/bridgectl/inputwriter.go:59-150 | The select loop handles what it is given, turn by turn, until it returns |
| `InputWriter.Coalescer.OnData` | cmd/bridgectl/inputwriter.go:90-125 | Buffers and flushes at 4096 bytes, or flushes what precedes the detach key and stops |
| `InputWriter.Coalescer.OnError` | cmd/bridgectl/inputwriter.go:130-147 | Everything left in the channel goes out in a last batch |
| `InputWriter.Coalescer.FlushNow` | cmd/bridgectl/inputwriter.go:152-168 | Sends and empties the buffer, unless it is empty |
| `InputWriter.KeystrokesAreConserved` | cmd/bridgectl/inputwriter.go:59-168 | For every schedule of reads, timer fires and errors, the batches concatenate to exactly the bytes read, or to those before the first detach byte; no batch is empty or over 4095 + 32 * 1024 bytes, below the limit of 65536 |
| `InputWriter.FireSends` | cmd/bridgectl/inputwriter.go:126-129 | A timer fire sends what is buffered as one batch and leaves nothing |
| `InputWriter.TakeSendsIff` | cmd/bridgectl/inputwriter.go:90-125 | Data sends a batch if and only if it makes 4096 bytes, or the detach key comes with something before it |
| `InputWriter.DetachSentIff` | cmd/bridgectl/inputwriter.go:130-147 | When a read error ends the loop, a detach byte is sent if and only if one is still queued, which is when one was read |
| `InputWriter.DetachIgnored` | cmd/bridgectl/inputwriter.go:130-147 | A concrete failure: a detach key followed by a read error is sent to the session |

## Left out

- Terminal.ViewerSimulation: covers live PTY sessions with non-zero geometry; recovered, history and stream-JSON sessions, whose sequences may have holes, are not modelled. A viewer that met a gap without a drawing is marked lost and not spoken of until the next drawing.
- Wire.RevisionContinuity: one event or snapshot is one operation, whose counter writes all succeed or all fail; a crash between two counter writes of one operation is not modelled. Zero instants, which the client replaces by the current time, are not modelled.
- Wire.OmittedPayloadIsKnown: speaks of one process; a session id is never used twice within one (internal/bridge/supervisor.go:452).
- Publication.NoLostUpdate: the flush on graceful shutdown, which is best effort, is not modelled; heartbeats and the read loop only appear as reasons to disconnect or to schedule a snapshot.
- Terminal.Gather: chunks without a size, for which the loop skips its size test, are not modelled: a session starts with a size (internal/bridge/supervisor.go:485-490) and the two callers of `Resize` in the daemon refuse a zero one.
- Supervisor.ManagedSession.Resize: a zero size is not modelled; the daemon refuses it before the call (internal/server/server.go:506, internal/bridgecontrol/terminal.go:154), the embedding library passes it on.
- `RespondToInput` and `DecideApproval` (internal/bridge/respond.go:46-96): a flat list of guards before the call into the provider; how the call ends is a parameter of `Ledger`.
- Attachments.SlotInvariant: is for non-empty client ids while output is live; the branch after closing is covered by `AttachAfterEnd`.
- Terminal.WaitMissesNothing: the one-second heartbeat and the context cancellation of `WaitTerminalWindow`, which only end the wait earlier, are not modelled.
- Journal.Store.SaveChunk: the stored chunk is a value; its JSON encoding and bolt transactions are not modelled.
- Ledger.CommandLedger.ExecuteCommand: the dispatch deadline is part of how the dispatched call ends; other programs writing to the ledger directory are excluded.
- Activity.WindowMeans: takes any size function for which a window without events is within 1024 bytes.
- How `render` and `drawGrid` draw a picture, and the emulator internals: they depend on an unseen library and are the subject of the redraw law.
- `AppendChunk` and recovery of sequences from a previous daemon.
- 64-bit wrap-around of sequence and revision numbers: numbers are unbounded except where the journal key needs 16 digits.
- Closing of observer channels, PTY and process control, signals, stop timers, the reader goroutine beyond its channel.
- WebSocket, gRPC and HTTP transport, hello and heartbeat messages, status files.
- Terminal leases, backoff, codexapp, certificates, configuration, CLI commands other than the keystroke coalescer: flat or external code.
