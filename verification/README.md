# runbaypty: zero-gap replay and the state beside it

runbaypty keeps PTY sessions alive in a daemon. Every byte a session's child writes has an absolute
sequence number, and a reader may lose its connection, or have the daemon replaced under it, and go
on at the exact byte. This project models that promise layer by layer on one sequence axis, and the
daemon's shared state beside the stream, and proves what each layer owes the next.

| module | what it models |
|---|---|
| `Bytes` | bytes, 64-bit words with their wrap-around, big-endian integers |
| `RingBuffer` | the circular byte array, as an array, against the plain stream |
| `SessionPump` | the read pump that moves each chunk into the ring, the monitor and the log |
| `OutputPump` | one subscriber's pump, step by step, against a concurrent writer |
| `ZeroGapFollow` | pump, wire, client stream and reconnecting follower as one state machine |
| `Handover` | the two daemons, their read pumps, the children and the kernel PTY buffers, as steps |
| `PerformHandover` | the old daemon's ritual with its rollback, over its session objects |
| `TakeoverStream` | the private stream of control bytes, descriptors and blobs |
| `CommandMonitor` | the OSC 133 scanner and its command window |
| `ReplayCommand` | the last-command reply, over ring and monitor together |
| `Watch` | the pattern scanner with its bounded overlap |
| `FrameCodec`, `Varint`, `SessionLog` | the wire frames and the durable log, and the log-then-ring stitch |
| `MetaJson`, `SessionMeta` | merge patch, atomic increments, versioned metadata |
| `Registry` | ids, unique names, caps, and the two critical sections of a spawn |

Code that updates an object is a class whose methods are proved against a function on values; the
properties are then proved of the function. Concurrency is a list of steps: a theorem about every
list is a theorem about every interleaving. A step that cannot happen in a state leaves it alone.

## Assumptions

- A pump is attached at a position the stream has reached, and a reader's buffer is not empty.
  `OutputPump.ExitIffAttachedWithin` says what happens otherwise: a pump attached beyond the end of
  an exited session spins and never sends EXIT.
- In a takeover `SetReadDeadline` succeeds, a pump told to pause leaves by its deadline, and an ACK
  that is written is read: its read does not fail after it was written, nor had it failed before.
  Nothing in the code sees to the latter, as the connection stays open through the rollback
  (pkg/daemon/takeover.go:212). And takeovers do not overlap, which nothing in the code sees to
  either: every request starts a goroutine of its own (pkg/daemon/takeover.go:161).
  `Handover.TwoPumpsIffBroken` shows that of a lost ACK, a late ACK and an overlap each can lead to
  two pumps, and nothing else can; `Handover.OnePumpIffDeadlinesAgree` gives the number of pumps for
  every combination of failing deadlines, and `PerformHandover.Server.Run` the outcome of every stage.
- `Remove` is called with ids that `List` returned; `Registry.RemoveKeepsIffListed` shows this is needed.
- Minted ids are new and of the id's shape.
- Sequence numbers and counters stay below 2^64. Clock values in the log stay within ±2^62 ms, so
  that their differences fit an int64. Blobs on the takeover stream are shorter than 4 GiB.

## Where the code differs from what is said of it

- A failed takeover is said to be rolled back so that sessions never notice
  (pkg/daemon/takeover.go:164-165). When the ACK is written although its read has failed or fails,
  or when two takeovers overlap, the old and a new daemon both pump one PTY, each getting part of its
  output (`Handover.LateAckRun`, `Handover.LostAckRun`, `Handover.OverlapRun`; the exact condition
  is `Handover.TwoPumpsIffBroken`).
- `Decoder.Read` documents `io.ErrUnexpectedEOF` for a peer that dies inside a frame, and connection
  handling relies on it (pkg/daemon/conn.go:89). When the peer dies right after a length prefix, and
  only then, the error wraps a plain `io.EOF` (pkg/proto/codec.go:147-149): `FrameCodec.CutAnywhere`,
  `FrameCodec.DiesAfterPrefix`.
- The watch documentation bounds a match by the overlap of 1024 bytes. A literal pattern is reported
  exactly, for every chunking, if and only if it is at most 1025 bytes long and cannot overlap itself
  (`Watch.ExactIff`).
- After a replay that the ring truncated, a watch goes on counting from where it was. An event is
  where it says, if and only if its round's replay was not truncated and it begins in the output
  received since the last truncated one. Otherwise it is too early by the bytes skipped, if it begins
  in the new bytes, or it joins bytes that are not adjacent, if it begins in the tail, and may then be
  a match the output does not hold (`Watch.TruePlaceIff`, `Watch.SeamInput`).
- `ReadSessionLog` drops a torn tail, but makes room for a payload before it reads it: a length that
  cannot be allocated, which no writer writes, ends the program (`SessionLog.ReadLoop`,
  `SessionLog.UnallocatableLength`).
- A last-command request whose window has left the ring is answered with the whole ring under an end
  that precedes its start, because a length is computed in uint64 (`ReplayCommand.StaleWindowReply`;
  the exact condition is `ReplayCommand.ReplyCoherentIffRetained`).
- Names may have an id's shape, and then they do not find their session
  (`Registry.LookupByNameIff`, `Registry.AnIdShapedName`).

## Model

| member | source | states |
|---|---|---|
| RingBuffer.ReplayIsStreamSuffix | pkg/host/ring.go:43-136 | After any writes of any sizes, a replay is stream[max(since, oldest)..end) with that fromSeq, truncated exactly when since predates the oldest retained byte |
| RingBuffer.SnapshotIndistinguishable | pkg/host/ring.go:84-100 | A ring rebuilt from a snapshot answers every replay after every later run of writes as the original does, and as the whole stream dictates |
| RingBuffer.AdoptedIsOriginal | pkg/host/ring.go:93-100 | Writing a snapshot into an empty ring and setting its end gives back the value the snapshot was taken of |
| RingBuffer.CopiedInHolds | pkg/host/ring.go:54-65 | After the wrapped copies the array read from `next` holds the newest bytes of old contents plus written bytes |
| RingBuffer.HeldSuffix | pkg/host/ring.go:125-135 | The two slices the replay cuts from the array are the newest `count` bytes in stream order |
| RingBuffer.Ring.constructor | pkg/host/ring.go:33-38 | A new ring of the given capacity represents the empty stream |
| RingBuffer.Ring.FromSnapshot | pkg/host/ring.go:93-100 | The rebuilt ring holds the newest `cap` bytes of the snapshot and continues its axis |
| RingBuffer.Ring.Write | pkg/host/ring.go:43-66 | The array represents the newest `cap` bytes of what it held followed by p, and end advances by the length of p |
| RingBuffer.Ring.ReplayFrom | pkg/host/ring.go:108-136 | Data, fromSeq and truncated are those the stream specification gives for `since` |
| RingBuffer.Ring.Snapshot | pkg/host/ring.go:84-89 | Returns everything retained, in order, and the end |
| SessionPump.Session.ReadPump | pkg/host/session.go:272-303 | It makes all the reads if none of them fails, and otherwise stops with the first that does: pausing, with the session still running, if and only if that is a deadline while a pause is asked for, and finishing the session on any other error. Ring, marks and log together describe exactly the bytes of the reads made, whatever the chunks and log failures, and the log has one record, stamped with its time, for each read with bytes, until it fails |
| SessionPump.Session.TakeIn | pkg/host/session.go:278-287 | One chunk reaches the ring, the monitor and the log, which gets one record of it unless it fails, keeping all three on the output |
| SessionPump.Session.AppendLog | pkg/host/session.go:308-318 | The log holds a prefix of the output; the first failed append ends it for good |
| SessionPump.Session.Finish | pkg/host/session.go:322-375 | The session becomes exited without losing what ring, marks and log hold |
| SessionPump.LogAndRingAreTheOutput | cmd/runbaypty/tail.go:44-69 | For the real objects: the log read back at any cut followed by the ring from there is the whole output exactly while the ring reaches back that far |
| OutputPump.PumpIsSound | pkg/daemon/conn.go:500-535 | Under every interleaving with the writer, frames are bounded, non-empty, true and contiguous except across a jump over bytes the ring no longer holds; EXIT is last, unique, and only at the final end after the exit flip |
| OutputPump.JumpsLandOnOldest | pkg/daemon/conn.go:503-511 | Over every run, a jump, announced or not, lands exactly on what was the ring's oldest byte at the moment the pump read it |
| OutputPump.NoSkipMeansContiguous | pkg/daemon/conn.go:500-535 | Without an announced skip the payloads are one slice of the stream from `since` to the cursor |
| OutputPump.TurnKeepsInv | pkg/daemon/conn.go:500-535 | A pump step keeps the invariant and, unless the pump is done or waits with everything sent, strictly decreases the measure built on end minus lastSeen, on a running session too |
| OutputPump.LiveDelivery | pkg/daemon/conn.go:500-535 | At every moment of every run, whether or not the session still runs, the pump's own next turns, as many as the measure counts, bring it to have sent every byte written so far at its position, except those a jump passed over; all of them as one piece if the ring dropped nothing |
| OutputPump.CatchesUp | pkg/host/session.go:446-462 | From every state of the invariant those turns bring the cursor to the end of the stream, and end in EXIT exactly if the session has exited |
| OutputPump.Drains | pkg/daemon/conn.go:526-533 | Once the session has exited, as many steps as the measure counts lead to EXIT |
| OutputPump.ExitIffAttachedWithin | pkg/daemon/conn.go:500-535 | On an exited session EXIT is reached within end plus 3 steps if `since` is at most the end, and otherwise never, with nothing ever sent |
| OutputPump.ExitIsAlwaysReached | pkg/host/session.go:446-462 | From every state a run can reach, once the session has exited, the pump's remaining steps end in EXIT |
| OutputPump.SendChunks | pkg/daemon/conn.go:512-523 | The chunk loop extends a well-formed frame sequence exactly to the end of the replayed data |
| OutputPump.ReadRing | pkg/host/session.go:431-433 | Over the real ring, a subscriber within the stream gets everything retained from its position to the end |
| OutputPump.DrainExited | pkg/daemon/conn.go:500-535 | The loop as written, over the real ring of an exited session, terminates having sent a well-formed sequence that ends in EXIT |
| ZeroGapFollow.ZeroGapReplay | pkg/client/follow.go:85-142 | Over every interleaving of output, pump steps, deliveries, partial reads, losses, reconnects and daemon replacement: bytes read are true and at increasing positions, one contiguous slice unless a skip was announced; at reconnect lastSeq is the first unread position; at EOF nothing is missing |
| ZeroGapFollow.AlwaysCatchesUp | pkg/client/follow.go:85-142 | After any run in which the follower has not given up, the pump's turns, deliveries, reads and, if the connection is down, one reconnect bring the consumer to the end of the stream without a gap: to end of file if the session has exited, and else to waiting for more |
| ZeroGapFollow.HappenKeeps | pkg/client/follow.go:85-142 | Every single happening keeps the invariant that ties lastSeq, the stream's position and its buffer to the bytes read |
| ZeroGapFollow.ReconnectsAtFirstUnread | pkg/client/follow.go:114-132 | In any state from which the follower reconnects, everything that arrived has been read and lastSeq is the position after it |
| ZeroGapFollow.EofIsComplete | pkg/client/stream.go:105-145 | End of file means the session has exited and the last byte read is the stream's last |
| ZeroGapFollow.FrameFacts | pkg/client/stream.go:123-135 | The payloads of a well-formed frame sequence are true bytes at strictly increasing positions that end at the receiver's position |
| ZeroGapFollow.Join | pkg/client/follow.go:85-108 | A prefix of one connection's bytes continues what earlier connections delivered, contiguously when nothing was skipped |
| ZeroGapFollow.Stream.Receive | pkg/client/stream.go:123-145 | A frame appends its payload and moves the position, or marks the exit, unless the stream is closed |
| ZeroGapFollow.Stream.Finish | pkg/client/stream.go:148-157 | A lost connection closes an open stream with its error and keeps the buffered bytes |
| ZeroGapFollow.Stream.Take | pkg/client/stream.go:105-120 | Buffered bytes come first, in order; only an empty closed stream reports its end or its error |
| ZeroGapFollow.Follower.Pass | pkg/client/follow.go:86-97 | With nothing arriving in between, lastSeq takes the stream's position, which counts buffered bytes, exactly when bytes were returned |
| ZeroGapFollow.Follower.NoteSeq | pkg/client/follow.go:89 | The second critical section of a read: lastSeq becomes the stream's position at that moment |
| ZeroGapFollow.Follower.Resume | pkg/client/follow.go:125-132 | The new stream starts empty at lastSeq |
| Handover.TakeoverIsSafe | pkg/daemon/takeover.go:166-267 | In every run of the daemons, children and kernel that keeps to the assumptions, with any number of takeovers one after another: at most one pump per PTY; what a child wrote is the ring's axis, the pump's hand and the kernel buffer, in that order; the old daemon pumps whenever it serves; after the ACK only the new one does, on the same axis, with the PTY of exactly the sessions that were running; an exit shows only when all the child wrote is on the axis |
| Handover.PumpsDeliver | pkg/host/session.go:272-303 | In every state of every such run, a pump that has not been told to stop brings all the child wrote so far to its daemon's ring on its own, and once the child is gone the session's exit shows |
| Handover.FailureEndsServing | pkg/daemon/takeover.go:186-264 | A failure at dial, stream, lock fd or finale, or a missing ACK, leads to rollback; and whatever children, pumps and new daemons do meanwhile (short of an ACK now, and while no other takeover begins), once the old daemon has resumed its sessions and relistened it serves, with every running session pumped once |
| Handover.TwoPumpsIffBroken | pkg/daemon/takeover.go:150-267 | From any state of a run that kept to the assumptions, after any step (with working deadlines), two pumps can come to read one PTY, keeping to the assumptions from there, if and only if the step fails the read of a written ACK, writes an ACK whose read has failed, or begins a takeover while an earlier one still holds a running session |
| Handover.LateAckRun | pkg/daemon/takeover.go:186-264 | A run in which the ACK's read fails, the ACK is written during the rollback, and both daemons pump the session |
| Handover.LostAckRun | pkg/daemon/takeover.go:259-264 | A run in which the ACK is written, its read fails, and both daemons pump the session |
| Handover.OverlapRun | pkg/daemon/takeover.go:150-205 | A run in which a second takeover rolls back and resumes the session that the first one then hands over, so that both daemons pump it |
| Handover.DoKeeps | pkg/daemon/takeover.go:166-267 | Every step of the protocol and its environment keeps the invariant |
| Handover.OnePumpIffDeadlinesAgree | pkg/host/handover.go:69-103 | After a pause and a rollback a session has one pump exactly when SetReadDeadline worked both times or failed both times |
| Handover.AdoptKeeps | pkg/host/handover.go:128-179 | Adopting the snapshot of a frozen session continues its axis in the new daemon with one pump, an exited one's too |
| PerformHandover.Server.Run | pkg/daemon/takeover.go:166-267 | The daemon retires exactly when every stage works, having sent every session's snapshot in order and pumping none; otherwise it has rolled back, listens, and with working deadlines pumps every running session once |
| PerformHandover.Server.PauseAll | pkg/daemon/takeover.go:199-205 | Pausing freezes sessions in order and stops at the first that cannot be paused |
| PerformHandover.Server.Rollback | pkg/daemon/takeover.go:186-196 | Gives, per session, how many pumps run after the rollback of a pausing that stopped at any session |
| PerformHandover.Server.StreamAll | pkg/daemon/takeover.go:222-246 | Sends the snapshot of each session in order, or stops at one that cannot be sent |
| PerformHandover.PtySession.PauseReader | pkg/host/handover.go:69-84 | A running session, paused before or not, is flagged and loses its pump if the deadline could be set, as the pause and stop steps of module Handover say; an exited one is untouched |
| PerformHandover.PtySession.ResumeReader | pkg/host/handover.go:87-103 | A paused running session is unflagged and gets a pump if the deadline could be cleared, as the resume step of module Handover says; any other is untouched |
| PerformHandover.PtySession.HandoverState | pkg/host/handover.go:107-121 | The snapshot is the ring's contents, end and capacity, and whether the session runs: that of module Handover |
| TakeoverStream.ReceivesWhatWasSent | pkg/daemon/takeover.go:347-389 | For every session list the receiver rebuilds the same states, rings, descriptors, count and lock before ACKing, if and only if every blob is within the cap |
| TakeoverStream.AcksIff | pkg/daemon/takeover.go:347-389 | Of any stream whatsoever the receiver ACKs, with given sessions and lock, if and only if it carries exactly these sessions, each with a state that parses, blobs within the cap, and a descriptor if it is live, and then a finale that counts them |
| TakeoverStream.NeverAcksAPrefix | pkg/daemon/takeover.go:347-389 | On every proper prefix of the stream the receiver gives up without ACKing |
| TakeoverStream.ReadBlobCut | pkg/daemon/takeover.go:88-110 | A blob cut anywhere is read back exactly if it is whole and within the cap |
| TakeoverStream.SendSessions | pkg/daemon/takeover.go:222-257 | The send loop produces the specified stream |
| TakeoverStream.ReceiveSessions | pkg/daemon/takeover.go:347-389 | The receive loop as written computes the specified outcome on every input |
| CommandMonitor.FedConcat | pkg/host/monitor.go:81-140 | Feeding p then q leaves the scanner as feeding p+q does and emits the same events |
| CommandMonitor.FedKeepsOk | pkg/host/monitor.go:81-188 | The captured payload never exceeds 64 bytes; window start, window end and stream position stay ordered; the position advances by the bytes fed |
| CommandMonitor.CommandWindow | pkg/host/monitor.go:81-188 | A C mark, any output made of text, bells, escape sequences and OSCs that are no marks, and a D mark, each ended by BEL or by ESC backslash, record the window from the output's first byte to after the D mark; the events are a started one, one bell for each bell in the clear, and a finished one with the positions and the code |
| CommandMonitor.FedQuiet | pkg/host/monitor.go:97-140 | Text, bells, ESC and one byte other than `]`, and OSCs that are no marks, with lone ESCs inside and ended either way, leave the scanner in the clear with nothing captured and emit one bell for each BEL in the clear and nothing else |
| CommandMonitor.FedInside | pkg/host/monitor.go:113-136 | An OSC body is captured without its lone ESCs and the byte each takes along, up to 64 bytes |
| CommandMonitor.EveryOutput | pkg/host/monitor.go:97-140 | Every output is a list of such pieces and marks, and perhaps the beginning of one |
| CommandMonitor.PlainMark | pkg/host/monitor.go:156-167 | A payload of at most 64 ordinary bytes is a mark of a letter exactly if it begins with `133;` and that letter |
| CommandMonitor.CodeOf | pkg/host/monitor.go:171-176 | The code of a D mark is its second field, with or without fields after it |
| CommandMonitor.OneField | pkg/host/monitor.go:171-176 | A D mark of one field carries no code |
| CommandMonitor.FedKeepsWindow | pkg/host/monitor.go:156-188 | After any output the recorded window is that of the last command-finished event, and there is none exactly while there is no such event |
| CommandMonitor.Monitor.Feed | pkg/host/monitor.go:81-140 | The byte loop over the fields reaches the specified scanner state and appends the specified events |
| CommandMonitor.Monitor.Finish | pkg/host/monitor.go:156-188 | The mark parser sets the window fields and emits as specified |
| CommandMonitor.Monitor.LastCommand | pkg/host/monitor.go:190-196 | Succeeds exactly if a command-finished event has been emitted, with the positions of the last one |
| ReplayCommand.ReplyCoherentIffRetained | pkg/daemon/conn.go:650-665 | The reply is exactly the retained part of the window with matching bounds if and only if the ring still reaches the window's end |
| ReplayCommand.StaleWindowReply | pkg/daemon/conn.go:656-662 | A concrete reply whose end precedes its start |
| ReplayCommand.EveryReply | pkg/daemon/conn.go:639-666 | Over every run, window start, window end, monitor position and ring end are ordered; and a request that reads the window and, any time later, the ring is answered coherently exactly if that ring reaches the window's end |
| ReplayCommand.NoReplyBeforeFirst | pkg/daemon/conn.go:650-655 | In every run without adoption there is no reply exactly while no command has finished in what the monitor has seen |
| ReplayCommand.MarksDependOnStreamOnly | pkg/host/session.go:278-287 | Without adoption the marks are a function of the output alone, whatever its chunks |
| ReplayCommand.OnReplayCommand | pkg/daemon/conn.go:650-665 | The handler over the real ring and monitor computes the specified reply, and answers that there is none exactly if no command-finished event was emitted |
| Watch.ExactIff | pkg/daemon/watch.go:77-123 | For every pattern: every occurrence after registration is reported once, in order, at its true position, for every chunking, if and only if the pattern cannot overlap itself and is at most 1025 bytes |
| Watch.ExpectedMeans | pkg/daemon/watch.go:91-107 | What is to be reported is one event for every occurrence, in order: at its position, with the output's own bytes there, as many as the pattern has but at most 256 |
| Watch.FindAllIsLeftmost | pkg/daemon/watch.go:91 | The matches of one buffer are leftmost and non-overlapping: an occurrence is passed over exactly if it overlaps an earlier match |
| Watch.LongPatternMissed | pkg/daemon/watch.go:109-112 | Any longer pattern has a cut at which its occurrence is not reported |
| Watch.TruePlaceIff | pkg/daemon/watch.go:84-113 | In every run with any truncated replays, a round's events are one for each new place in its buffer, and an event's bytes are the output at its position if and only if its replay was not truncated and it begins after the last truncated one; otherwise it is off by the bytes skipped, or joins bytes that are not adjacent |
| Watch.PassRightIff | pkg/daemon/watch.go:84-113 | Until something has been skipped, a round adds an event for each new place, and places all of them truly if and only if its replay was not truncated or it reports nothing |
| Watch.PassExact | pkg/daemon/watch.go:84-113 | An untruncated round reports, of the output since the last skip, exactly the occurrences that end in the new bytes, once, in order, at their positions |
| Watch.SeamInput | pkg/daemon/watch.go:84-107 | A concrete run with a truncated replay that reports a match in output that holds none |
| Watch.UnskippedExact | pkg/daemon/watch.go:77-123 | A run without a truncated replay has reported exactly the occurrences in the output so far |
| Watch.SelfOverlapMissed | pkg/daemon/watch.go:91-107 | For every pattern that overlaps itself, an output with two occurrences of which at most one is reported, even uncut |
| Watch.RunWatch | pkg/daemon/watch.go:77-123 | The loop as written, with any truncated replays, reports what the scanner specification says; without truncation and for patterns within the promise, exactly the occurrences |
| Watch.ScanBuffer | pkg/daemon/watch.go:91-107 | The match loop leaves out exactly the matches that end in the part already seen, and caps the text |
| FrameCodec.RoundTrip | pkg/proto/codec.go:59-159 | Decoding the concatenation of any encodable frames returns them and then a clean EOF |
| FrameCodec.ReEncodes | pkg/proto/codec.go:132-159 | A decoded frame is encodable and re-encodes to exactly the bytes it consumed |
| FrameCodec.ReEncodesAll | pkg/proto/codec.go:132-159 | The frames of any byte stream re-encode to a prefix of it, to all of it exactly on a clean EOF |
| FrameCodec.GotIffEncoded | pkg/proto/codec.go:132-159 | A frame is decoded exactly from its own encoding, with the rest left |
| FrameCodec.WireLayout | pkg/proto/codec.go:59-73 | The wire form is the big-endian length of what follows, the type, the header's big-endian length, the header, the payload |
| FrameCodec.RefusedIff | pkg/proto/codec.go:139-153 | Too large, malformed, or cut in the body, each for exactly the lengths that make it so |
| FrameCodec.CutAnywhere | pkg/proto/codec.go:123-149 | Bytes cut anywhere yield exactly the frames complete before the cut, then EOF if and only if the cut is at a frame boundary; any other error is the documented unexpected EOF if and only if the cut is not right after a length prefix |
| FrameCodec.DiesAfterPrefix | pkg/proto/codec.go:147-149 | Cut right after its length prefix, every encodable frame gives an error that wraps a plain EOF |
| FrameCodec.Encoder.Write | pkg/proto/codec.go:89-101 | An encodable frame adds its wire form to the connection and any other adds nothing |
| FrameCodec.Decoder.Read | pkg/proto/codec.go:132-159 | Each call returns the first frame of what is left and consumes it, or the specified failure with the error it wraps |
| Varint.RoundTrip | pkg/host/seslog.go:139-185 | Every 64-bit value is read back from its varint, leaving what follows |
| Varint.CutIsTorn | pkg/host/seslog.go:139-185 | A varint cut short is never read as a value |
| Varint.UvarintIsGroups | pkg/host/seslog.go:54-70 | A varint is the number in groups of seven bits, the least significant first, with the high bit on every byte but the last |
| Varint.ReadMeans | pkg/host/seslog.go:139-185 | Of any bytes: the groups up to the first byte below 128 if that is within ten bytes and 64 bits, torn if it has not come in fewer than ten, and an overflow otherwise |
| SessionLog.ReadsBack | pkg/host/seslog.go:54-185 | Any calls of Append under any clock are read back in order, record i stamped with the running maximum of the start time and the clocks so far |
| SessionLog.ReadsBackCut | pkg/host/seslog.go:139-185 | A file cut at any byte after its header yields exactly its complete records |
| SessionLog.FileLayout | pkg/host/seslog.go:54-109 | Magic, version 1 and start time, then delta, length and bytes of each record, are what the reader takes them for |
| SessionLog.HeaderCut | pkg/host/seslog.go:150-166 | A log cut within its header is refused, for the part that is missing |
| SessionLog.OtherFormat | pkg/host/seslog.go:154-162 | Another magic or another version is refused |
| SessionLog.CompleteIsMaximal | pkg/host/seslog.go:168-183 | The number of records counted as complete is the greatest number that fits before the cut |
| SessionLog.EntriesStamped | pkg/host/seslog.go:88-109 | The clamped deltas add up to the running maximum |
| SessionLog.StitchWholeIffRetained | cmd/runbaypty/tail.go:44-69 | A cut log's payloads are a prefix of the output, and with the ring from there they are the whole output exactly when the ring still holds that position |
| SessionLog.StitchFollowsOn | cmd/runbaypty/tail.go:44-69 | What a pump attached where the log ends sends, live, continues the log's bytes along the output |
| SessionLog.SessionLogWriter.constructor | pkg/host/seslog.go:54-70 | The file starts as the header and the empty record list |
| SessionLog.SessionLogWriter.Append | pkg/host/seslog.go:88-109 | The file is the encoding of the calls so far plus this one; a closed writer changes nothing and fails |
| SessionLog.ReadLoop | pkg/host/seslog.go:168-183 | The record loop as written panics exactly on a length it cannot allocate, and otherwise returns the specified records |
| SessionLog.CutLengthsOk | pkg/host/seslog.go:168-183 | Reading a log that a writer wrote, cut anywhere, never asks for more room than its longest payload |
| SessionLog.UnallocatableLength | pkg/host/seslog.go:173-177 | A record whose length is beyond any allocation |
| SessionLog.PrintHistory | cmd/runbaypty/tail.go:48-58 | Prints the payloads in order and counts exactly their bytes |
| MetaJson.MergeValue | pkg/metajson/merge.go:54-73 | Deleting and assigning in the target, in whatever order the members come, computes MergePatch of section 2 of RFC 7386 |
| MetaJson.MergeNodes | pkg/metajson/merge.go:54-73 | At every path the patch has, the merge leaves an object where it has an object, exactly its value where it has any other, and nothing where it has a null member |
| MetaJson.MergeLeaves | pkg/metajson/merge.go:54-73 | At every path it does not have, under an object it has, the merge leaves what the target has |
| MetaJson.MergeIdempotent | pkg/metajson/merge.go:54-73 | The same patch applied twice equals once |
| MetaJson.DisjointCommute | pkg/metajson/merge.go:54-73 | Patches that touch disjoint paths commute on every document |
| MetaJson.MergeKeepsNoNulls | pkg/metajson/merge.go:54-73 | An object patch on a document without null members (outside arrays) yields one without |
| MetaJson.LeafAdds | pkg/metajson/incr.go:44-98 | A successful increment changes every leaf by its delta, in int64, and no other leaf |
| MetaJson.IncrNodes | pkg/metajson/incr.go:44-98 | At every path the patch has, an increment leaves an object where it has an object, and the sum with the number there, or with 0, where it has a number |
| MetaJson.IncrLeaves | pkg/metajson/incr.go:44-78 | At every path it does not have, under an object it has, an increment leaves what was there |
| MetaJson.LeavesAreSums | pkg/metajson/incr.go:18-98 | After any sequence of successful increments a leaf is its initial value plus the sum of its deltas, in int64 |
| MetaJson.LeavesAreExactSums | pkg/metajson/incr.go:83-98 | It is the exact sum if and only if that sum fits an int64 |
| MetaJson.IncrementsCommute | pkg/metajson/incr.go:18-78 | Increments of compatible shape commute in success and in result |
| MetaJson.SucceedsIffShapesFit | pkg/metajson/incr.go:44-78 | An increment succeeds if and only if at every path the patch has a number where the document has a number or nothing, or an object where it has an object or nothing, and every sum of two numbers exists (one with a float may fail) |
| MetaJson.IncrInto | pkg/metajson/incr.go:44-78 | The loop, with members in any order, succeeds and computes exactly as the order-free specification does |
| MetaJson.IncrField | pkg/metajson/incr.go:46-75 | One member's case analysis agrees with the specification |
| SessionMeta.VersionCountsWrites | pkg/host/meta.go:135-187 | Over any interleaving the version has grown by the number of successful writes |
| SessionMeta.ConditionalWriteSawTheLatest | pkg/host/meta.go:135-187 | A conditional write succeeds only if nothing was written since its version was read, and then writes on exactly that document |
| SessionMeta.OneConditionalWinner | pkg/host/meta.go:135-187 | Of two writers that read one version at most one conditional write succeeds |
| SessionMeta.ReservedUntouched | pkg/host/meta.go:38-53 | No run of merge and incr writes changes an `rpty` or `rpty.*` member |
| SessionMeta.StaysObject | pkg/host/meta.go:135-187 | The document stays a JSON object |
| SessionMeta.DocumentsFit | pkg/host/meta.go:135-187 | No run of JSON writes makes a document longer than the cap |
| SessionMeta.WriteSucceedsIff | pkg/host/meta.go:135-187 | A JSON write succeeds exactly if the version it names is the current one, its mode is known, its patch parses to an object without reserved keys, an increment finds what it can add to, and the result is within the cap; a version conflict is reported first and a reserved key next |
| SessionMeta.WriteLands | pkg/host/meta.go:154-187 | A merge or a replacement leaves at every path of its patch what the patch says |
| SessionMeta.IncrLands | pkg/host/meta.go:154-187 | An increment adds at every path of its patch |
| SessionMeta.WriteLeaves | pkg/host/meta.go:154-187 | At a path the patch does not have a merge or an increment leaves what was there, and a replacement nothing |
| SessionMeta.FlatLands | pkg/metajson/merge.go:139-145 | A flat write leaves its strings and nothing else |
| SessionMeta.ReservedNames | pkg/host/meta.go:36-40 | `rpty` and `rpty.` with anything after it are reserved, other names that begin `rpty` are not |
| SessionMeta.Session.SetMetaJSON | pkg/host/meta.go:135-187 | Refuses for the specified reason, in the code's order, changing nothing, or makes the specified document and the next version |
| SessionMeta.Session.SetMeta | pkg/host/meta.go:215-230 | Replaces the document by the flat map and advances the version |
| SessionMeta.Session.HasReservedKey | pkg/host/meta.go:45-53 | Finds a reserved top-level key exactly if there is one |
| Registry.RunKeeps | pkg/host/registry.go:74-247 | Over every interleaving: ringReserved is the sum of ringByID; each byName entry is one spawn's reservation or the one session of that name; every named registered session is indexed; placeholders are exactly the spawns in flight |
| Registry.RunWithinCaps | pkg/host/registry.go:87-97 | Without adoption no interleaving exceeds the session cap or the ring memory cap |
| Registry.EveryRunIsSound | pkg/host/registry.go:48-60 | Every legal run of a new registry satisfies all of these invariants, and the caps if it adopts nothing |
| Registry.RemoveKeepsIffListed | pkg/host/registry.go:232-247 | Remove keeps the invariant exactly when the id is not a spawn in flight |
| Registry.NamesAreUnique | pkg/host/registry.go:26-43 | A name is borne by one session, and by none while a spawn holds it |
| Registry.LookupIsRegistered | pkg/host/registry.go:166-180 | What Lookup returns is a registered session under that id or that name, never a placeholder |
| Registry.LookupById | pkg/host/registry.go:166-180 | An id finds its session exactly when one is registered under it |
| Registry.LookupByNameIff | pkg/host/registry.go:166-180 | A session's name finds it if and only if the name has not an id's shape or is that id |
| Registry.RenameTakesEffect | pkg/host/registry.go:183-213 | A rename that is not refused: the session is found under its new name, its old one is free, and no other id, name or ring memory changes |
| Registry.RenameSucceedsIff | pkg/host/registry.go:183-203 | It is refused exactly for a bad name, an unknown session, or a name somebody else holds |
| Registry.SpawnSucceedsIff | pkg/host/registry.go:74-109 | A spawn may begin exactly if its name is good and held by nobody, and there is room for a session and its ring; each refusal has its reason |
| Registry.SpawnTakesEffect | pkg/host/registry.go:74-134 | The first section holds id, name and ring memory with nothing to be found, the second makes the session found, and nothing else changes |
| Registry.AdoptTakesEffect | pkg/host/registry.go:142-162 | An adopted session is found under its id and name and holds the larger of its ring's length and capacity; only a known id or a held name is refused |
| Registry.RemoveTakesEffect | pkg/host/registry.go:232-247 | A removed session is found no more, its name is free, its ring memory is given back, and nothing else changes |
| Registry.RunKeepsNames | pkg/host/registry.go:74-213 | Without adoption every name held is one that nameRe admits |
| Registry.AnIdShapedName | pkg/host/registry.go:18-22 | There is a name that nameRe admits and that has an id's shape |
| Registry.RacingSpawnWins | pkg/host/registry.go:79-138 | Whatever happens between a spawn's two sections, its name is refused to everybody else, it is not found, and its second section registers exactly its session under its name |
| Registry.FailedSpawnLeavesNothing | pkg/host/registry.go:109-129 | A reservation that is aborted, or committed and removed, restores the registry exactly |
| Registry.Registry.SpawnReserve | pkg/host/registry.go:74-115 | The first critical section refuses for the specified reason or reserves id, name and ring memory |
| Registry.Registry.SpawnCommit | pkg/host/registry.go:119-134 | The second critical section puts the session under its id and its name |
| Registry.Registry.SpawnAbort | pkg/host/registry.go:120-129 | A failed start gives back id, name and ring memory |
| Registry.Registry.AdoptSession | pkg/host/registry.go:142-162 | Adoption refuses a known id or a taken name, else registers without a cap check |
| Registry.Registry.Find | pkg/host/registry.go:166-180 | Resolves a key through the maps as specified |
| Registry.Registry.RenameSession | pkg/host/registry.go:183-213 | Renames in place, or refuses for the specified reason and changes nothing |
| Registry.Registry.RemoveSession | pkg/host/registry.go:232-247 | Drops a session with its name and its ring memory |
| Registry.ListedStaysRemovable | pkg/host/registry.go:218-247 | An id that a list showed stays removable, with the accounting and the index kept sound, whatever happens between the listing and the removal |
| Registry.Registry.ReapExpired | pkg/host/registry.go:218-228 | Removes and reports exactly the exited sessions whose retention is over, and keeps the accounting and the index sound |

## Left out

- ZeroGapFollow.ZeroGapReplay: a session that has exited stays so across a daemon replacement; the code shows it running again until the adopted pump's first read fails, and nothing is written in between.
- ZeroGapFollow.Follower.Pass: does not model waiting or the backoff of the retry loop, so the class has single passes; the loop is the state machine in the same module, which claims that the follower can always catch up, not that an attempt to reconnect eventually succeeds.
- OutputPump.DrainExited: runs the pump's loop on an exited session only, since the loop on a running one waits for the writer; that case is the state machine in the same module.
- SessionLog.ReadsBack: takes an append as whole; bytes the writer has buffered but not flushed, and the torn bytes of a failing append, are covered only as a cut of the file.
- Registry.Registry.ReapExpired: is one step here, so nothing comes between its listing and its removals; that they stay legal whatever does is `Registry.ListedStaysRemovable`. The order of the report is left open.
- PerformHandover.PtySession.PauseReader: is modelled where it returns. After a resume whose deadline failed there is no pump and it waits for ever; after a pause whose deadline failed, a resume makes a second pump, and two close one channel twice, which ends the program.
- PerformHandover.Server.Run: takes the children as still; what they write meanwhile is in module Handover.
- MetaJson.LeafAdds: leaves float addition as an arbitrary function; only integers add up.
- PTY allocation, exec, signals and spawn retries: the child is a source of bytes and an exit event.
- Sockets, WebSocket, HTTP, tokens, file permissions, discovery and installation: input and output.
- JSON text: documents are values, frame headers and handover states are opaque bytes with a given decoder.
- The RE2 engine: a watch searches for a literal, leftmost and non-overlapping.
- Exit codes of adopted or exited sessions, scanner state, unflushed log bytes and the reopening of the log after a takeover: the code does not transfer them.
- Spawns in flight when a takeover lists the sessions.
- A relisten that fails after a rollback: the daemon is then headless, and the model only records that it does not listen.
- The Truncated flag of the attach reply, write locks, silence timing, event fan-out and the rest of the command line.
