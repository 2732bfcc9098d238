# Verification of the atsq session and wire codec

atsq is an asyncio client for the TeamSpeak ServerQuery protocol. This Dafny project models its two
hard layers and proves what they promise.

* **The session.** Many `exec` callers, one receive loop, event waiters, a closer, timeouts and the
  server interleave on one connection whose responses carry no request id. `Session.dfy` is the pure
  state machine (one step = what one task does between two awaits), `SessionSafety.dfy` the invariant
  of every run, `SessionMatching.dfy` the matching of answers to callers, `SessionTheorems.dfy` the
  results about whole runs. `SessionEffects.dfy` says field by field, in the words and numbers of the
  protocol, what each step does; `Scenarios.dfy` follows a call through its ordinary courses.
  `RawConnection.dfy` is the connection object in its own imperative form: each atomic block is a method
  whose new state is exactly the machine's next state, and around it a method that keeps the object valid
  and states its effect. `Keepalive.dfy` is the keepalive loop
  in a timed model; `Client.dfy` and `Backoff.dfy` are connecting, setup and the reconnect loop;
  `SetupTrace.dfy` is the setup on the wire of a session.
* **The wire codec.** `Escape.dfy` (eleven ordered replacements, one index loop), `Protocol.dfy`
  (rendering and parsing), `Codec.dfy` (what printer and parsers promise together), `Utf8.dfy`
  (UTF-8 as section 3 of RFC 3629 defines it, and Python's `"replace"` decoding), `Transport.dfy`
  (framing and reading over arbitrary cuts), `Demux.dfy` (responses and events), `Flood.dfy` (the
  retry hint), and `EndToEnd.dfy`, where the layers meet. `Documented.dfy` has command lines that the
  docstring and the tests spell out, `Sequences.dfy` splitting and joining.

Methods stand where the source changes things step by step; each is proved equal to a specification
function, and the properties are lemmas about those functions. The clock, the fate of sends, the cuts
of the byte stream, the server's lines and the interleaving are parameters or actions, quantified over.
Automatic induction is switched off throughout: an inductive proof is the recursion it shows, and no
hypothesis comes into a proof unseen.

The main results:

* In every run with a server that answers in order and with no in-flight cancellation, every answer a
  call takes is the response to a line that the call itself wrote (`SessionMatching.AnswersAreOwn`,
  `SessionMatching.ResultsAreOwn`), from the bytes the server sends to the rows the caller gets
  (`EndToEnd.CallerGetsTheServersRows`). Cancelling an unanswered command is ruled out exactly because
  it breaks this, for every such call and in a run from the start
  (`SessionMatching.CancelIsHarmlessIffAllowed`, `SessionMatching.CancelMisleadsInARun`).
* The wire carries commands and then at most one `quit`; once closed, nothing more is written, no future
  stays open, and the waiters get the rest of the events in order and then the news of the closing for ever.
* A task that issues the setup in turn leaves exactly the setup on the wire, keepalives and flood retries
  aside (`SetupTrace.SetupIsTheTrace`).
* Any commands, rendered, framed, cut anywhere, read back and parsed, give the records they stand for.

Where the code does more or less than its text says, the model follows the code:

* The assertion marked unreachable at the end of `exec` is reached for every negative `flood_retries`,
  and only then; that no retry runs past the range needs the invariant (`SessionTheorems.LoopEndIsUnreachable`).
* `run_forever` says that `on_ready` runs after every reconnect. When `on_ready` raises and the connection
  stays open, the next pass neither reconnects nor calls it again (`Client.Client.RunForever`).
* Banned waits also double the delay of the waits that follow (`Client.Client.RunForever`).
* `min(max_delay, initial_delay * 2**k)` is the delay from the second wait on exactly for maxima that are
  not negative or that the first doubling does not reach; another negative maximum sinks with each
  doubling (`Backoff.DelayIsCappedPower`, `Backoff.NegativeCapSinks`, `Backoff.DelayClosedForm`).
* The keepalive interval bounds the idle time exactly when the command timeout does not exceed it
  (`Keepalive.IntervalBoundsIdleIff`), as long as every keepalive is sent and answered with success. An
  error answer or a failed send ends the loop and leaves the connection open, for as long as the stream
  lasts (`Keepalive.RefusedKeepaliveIsLast`, `Keepalive.UnsentKeepaliveIsLast`,
  `SessionTheorems.FailedSendLeavesItOpen`), and a flooded keepalive is not tried again before the
  server's wait is over (`Keepalive.FloodedKeepaliveIsLate`).
* The data parser and the terminator parser agree on an error line exactly when no later chunk of the line
  is `error` or begins with `error=` (`Codec.ParsersAgreeOnErrorLines`).
* `escape` undoes `unescape` exactly on the texts without a raw special character in which every
  backslash starts a table escape (`Escape.EscapeInvertsUnescape`).

## Model

| member | source | states |
|---|---|---|
| Escape.EscapeValue | src/atsq/escape.py:29-33 | eleven whole-string replacements in table order are one character-by-character map |
| Escape.SpecialsEscaped | src/atsq/escape.py:14-26 | the eleven special characters become the eleven escapes, spelled out |
| Escape.OthersNotEscaped | src/atsq/escape.py:29-33 | every other character stands for itself |
| Escape.EscapedConcat | src/atsq/escape.py:29-33 | escaping goes character by character: the escaped form of two texts joined is the two escaped forms joined |
| Escape.PassExtends | src/atsq/escape.py:13-33 | the ordering argument: replacement pass `k` on text already escaped by the earlier entries extends the map by one entry |
| Escape.LaterRawNotInEarlierEscape | src/atsq/escape.py:13-26 | no later raw character occurs in an earlier replacement, because the backslash comes first |
| Escape.TableIsOneToOne | src/atsq/escape.py:14-37 | the table and its reversal look each other up: no raw character and no letter stands twice |
| Escape.UnescapeValue | src/atsq/escape.py:40-63 | the index loop, with its shortcut, reads the text left to right, a table escape at a time |
| Escape.EscapesRead | src/atsq/escape.py:14-63 | each of the eleven escapes, wherever it stands, is read as its character, spelled out |
| Escape.OthersRead | src/atsq/escape.py:45-63 | all else is kept: other characters, a backslash before any other character, a backslash at the end |
| Escape.UnescapeInvertsEscape | src/atsq/escape.py:29-63 | unescaping the escaped text gives every text back |
| Escape.EscapedIsCanonical | src/atsq/escape.py:14-33 | escaped text has no raw special character and every backslash in it starts a table escape |
| Escape.EscapeInvertsUnescape | src/atsq/escape.py:29-63 | escaping undoes unescaping if and only if the text is of that form |
| Escape.EscapedHasNoStructure | src/atsq/escape.py:14-33 | escaped text holds no space, pipe, newline or carriage return |
| Utf8.DecodeInvertsEncode | src/atsq/protocol.py:71 | every text survives encoding, and encodings are well formed (section 3 of RFC 3629) |
| Utf8.EncodedBits | src/atsq/protocol.py:71 | the encoding is the bit pattern of section 3 of RFC 3629: length by range, the marks of leading and following bytes, the bits of the number |
| Utf8.EncodeInvertsDecode | src/atsq/protocol.py:149 | re-encoding what `"replace"` decoding gives returns the bytes if and only if they were well formed |
| Utf8.StrayByteRead | src/atsq/protocol.py:149 | a byte that can begin no character is replaced by itself |
| Utf8.CutShortRead | src/atsq/protocol.py:149 | a character cut short, for one leading byte of each length at each place where it can be cut, is replaced as one, and reading goes on behind it |
| Utf8.ImpossibleRead | src/atsq/protocol.py:149 | overlong forms of three and four bytes, surrogates and numbers above U+10FFFF are not read: their first byte is replaced alone |
| Utf8.DecodeAroundAscii | src/atsq/protocol.py:147-149 | an ASCII byte is never inside a longer character, so decoding cuts there, even next to malformed bytes |
| Utf8.DecodeCommutesWithSplit | src/atsq/protocol.py:147-149 | splitting the bytes and then decoding equals decoding and then splitting, for all bytes |
| Utf8.EncodeKeepsAsciiOut | src/atsq/protocol.py:71 | an ASCII character that is not in the text has no byte in its encoding |
| Protocol.AttachText | src/atsq/protocol.py:61-69 | text written after a space runs the last row before it on into the first row after it |
| Protocol.BlockRowsProper | src/atsq/protocol.py:74-85 | a block has no empty row, or it leaves no trace at all, which is exactly when all its values are `None` or empty lists |
| Protocol.RenderBlock | src/atsq/protocol.py:74-85 | the text is that of the block's rows, and is empty exactly for a block that leaves no trace |
| Protocol.AddSegment | src/atsq/protocol.py:61-66 | the first block continues the shared parameters, each later one becomes a segment of its own |
| Protocol.JoinBlock | src/atsq/protocol.py:57-66 | one pass of the loop over the blocks: a block is refused exactly if it renders empty |
| Protocol.JoinBlocks | src/atsq/protocol.py:55-66 | the loop stops at the first block that renders empty, or has the segments of all blocks |
| Protocol.RenderSegments | src/atsq/protocol.py:55-68 | the joined segments are the text of the shared row and the blocks' rows |
| Protocol.AppendOptions | src/atsq/protocol.py:70-71 | options end the last row as value-less keys with a dash |
| Protocol.RenderCommand | src/atsq/protocol.py:27-71 | succeeds exactly on a valid name and blocks that leave a trace, and then encodes the command's text, which is the text of its rows; a bad name goes first, then the first empty block |
| Protocol.CommandTextIsOfRows | src/atsq/protocol.py:53-71 | the rows a command stands for print as the command line written down piece by piece: name, shared parameters with the first block, further blocks behind pipes, dashed options |
| Protocol.BlockIsNotEmpty | src/atsq/protocol.py:74-85 | a block prints nothing if and only if all its values are `None` or empty lists |
| Protocol.ArgumentIsRendered | src/atsq/protocol.py:88-91 | `key=value`, a flag being `1` or `0`, any other value its text escaped |
| Documented.ArgumentsFollowTheName | src/atsq/protocol.py:44-45 | the docstring's `clientkick clid=5 reasonid=5` |
| Documented.OptionsCarryADash | src/atsq/protocol.py:35-47 | two options: `clientlist -uid -away` |
| Documented.ArgumentsByKind | src/atsq/protocol.py:35-38 | a piped list, both flags as digits, `None` and an empty list as nothing |
| Documented.BlocksArePiped | src/atsq/protocol.py:40-51 | shared parameters, two blocks and an option, for all texts: one space, one pipe and one dash in between |
| Protocol.RecordsOfTexts | src/atsq/protocol.py:154-156 | no record that parsing returns is empty |
| Protocol.ParseRow | src/atsq/protocol.py:148-153 | the property loop of one row builds the row's record, a later property replacing an earlier one |
| Protocol.ParseDataLine | src/atsq/protocol.py:136-156 | the loop over the pieces gives the non-empty records of the line, in order |
| Protocol.ParseDataBlock | src/atsq/protocol.py:159-164 | the records of all lines, in order |
| Protocol.ParseErrorProps | src/atsq/protocol.py:125-130 | the properties after the first word of a terminator |
| Protocol.ParseErrorLine | src/atsq/protocol.py:117-133 | id, message and the remaining properties; refuses other lines and unreadable ids |
| Codec.TerminatorRead | src/atsq/protocol.py:117-133 | for every text behind `error `: the number behind `id` (-1 without one), the text behind `msg`, all other properties; an id that is no number makes it unreadable |
| Codec.NumberedTerminatorRead | src/atsq/protocol.py:117-133 | `id=n msg=m` is read as the number n and the message m and nothing else, for every integer n in decimal digits and every message |
| Codec.RowTerminatorRead | src/atsq/protocol.py:117-133 | the same reading for a terminator that carries any clean row |
| Codec.NoNumberParsed | src/atsq/protocol.py:131 | a text that is empty or has a character no number has is no number |
| Codec.LastPropertyWins | src/atsq/protocol.py:148-153 | a key is in the record exactly if a property has it, and the last such property decides its value |
| Codec.WordRead | src/atsq/protocol.py:149-153 | a word without `=` is a key with an empty value |
| Codec.PairRead | src/atsq/protocol.py:152-153 | the first `=` ends the key, all that follows is the value, escaped |
| Codec.SpacedRead | src/atsq/protocol.py:149-153 | a space puts two texts together, the later one deciding common keys |
| Codec.LineRead | src/atsq/protocol.py:147-155 | a line without a pipe is one record, or none if it has no properties |
| Codec.PipeRead | src/atsq/protocol.py:147 | the pipe, byte 0x7C, ends one record and begins the next |
| Codec.ParsePropOfText | src/atsq/protocol.py:88-91 | one printed property parses back to itself, whatever its value |
| Codec.CommandRowsProper | src/atsq/protocol.py:53-71 | a command that renders has no empty row |
| Codec.RowsRoundTrip | src/atsq/protocol.py:27-156 | rows with clean keys and any values survive printing, UTF-8 and parsing |
| Codec.CommandRoundTrip | src/atsq/protocol.py:27-156 | a rendered command parses to the records of its rows: name first, shared parameters in the first block's row, list items split, options last |
| Codec.RowsAreOneLine | src/atsq/protocol.py:74-91 | printed rows hold neither newline nor carriage return |
| Codec.CommandIsOneLine | src/atsq/protocol.py:27-71 | a rendered command is one line |
| Codec.DataRecordsOfPiped | src/atsq/protocol.py:136-156 | the parser is a homomorphism: a pipe cuts a line of any bytes into lines that parse on their own |
| Codec.BlockRecordsOfJoined | src/atsq/protocol.py:159-164 | parsing line by line equals parsing the lines joined by pipes |
| Codec.DataRecordsOfDecoded | src/atsq/protocol.py:147-149 | parsing the decoded whole line gives the same records as decoding piece by piece, for all bytes |
| Codec.ParsersAgreeOnErrorLines | src/atsq/protocol.py:117-156 | a pipe-free error line is one row for the data parser: the terminator's properties plus `error`; without that key they are equal if and only if no later chunk of the line is `error` or begins with `error=` |
| Codec.KeysOfChunks | src/atsq/protocol.py:125-130 | a key is collected if and only if a chunk that is not empty carries it |
| Codec.ErrorIsRepeated | src/atsq/protocol.py:125-130 | the terminator parser collects the key `error` if and only if a chunk is that word or sets it |
| Codec.TerminatorRoundTrip | src/atsq/protocol.py:117-133 | the properties a server puts into a terminator, with clean keys and any values, come out of the terminator parser |
| Codec.OkTerminator | src/atsq/protocol.py:117-133 | the everyday terminator `error id=0 msg=ok` parses to id 0, message `ok` and nothing else |
| Transport.ReadLineTakesFirstLine | src/atsq/transport.py:105-130 | one read takes exactly the first newline-terminated segment, carriage returns stripped, and loses no byte; it reports the closed connection exactly when no complete line is left |
| Transport.ReadAllGivesLines | src/atsq/transport.py:105-130 | reading until the closed error returns every complete line in order and never the unterminated rest |
| Transport.ChunkingDoesNotMatter | src/atsq/transport.py:123-130 | two streams that deliver the same bytes give the same lines, whatever the cuts |
| Transport.ClosedStaysClosed | src/atsq/transport.py:120-129 | once reported, the closed connection is reported for good |
| Transport.FramedLines | src/atsq/transport.py:106-136 | newline-first framing and carriage-return stripping cancel out: framed lines read back as they were |
| Transport.FrameIs | src/atsq/transport.py:21-136 | a frame is the line, a newline and a carriage return |
| Transport.StripTrims | src/atsq/transport.py:117 | stripping takes carriage returns from both ends, all of them, and nothing else |
| Transport.FramedConcat | src/atsq/transport.py:136 | writing one more line extends the framed output |
| Transport.SshTransport.NextLine | src/atsq/transport.py:105-130 | the reading loop over the mutable buffer computes the reading function and leaves exactly its state |
| Transport.SshTransport.SendLine | src/atsq/transport.py:132-144 | a closed transport writes nothing, a failed send closes it for good, a sent line is framed |
| Transport.SshTransport.Close | src/atsq/transport.py:146-152 | closing sets the flag for good and touches neither what is buffered nor what was written |
| Demux.KindsByWords | src/atsq/protocol.py:94-101 | which kind a line is of, for all bytes: an event if and only if its first six bytes read `notify`, a terminator if and only if it begins with `error ` or is `error` |
| Demux.KindOfText | src/atsq/protocol.py:94-101 | the same for every line a server writes as text |
| Demux.MergeIsSortedApart | src/atsq/connection.py:262-279 | any interleaving of response lines, events and blank lines sorts into the two streams, each in order |
| Demux.SortGrows | src/atsq/connection.py:264-279 | what has been sorted stays sorted: more lines only add responses and events |
| Demux.SortInvertsResponseLines | src/atsq/connection.py:270-279 | sorting gives back the responses whose lines a server wrote |
| Demux.DemuxSeparates | src/atsq/connection.py:262-279 | the receive loop's sorting refines the pure demultiplexer for every merge |
| Flood.HintSkips | src/atsq/errors.py:62 | the search finds a hint behind any text without its first letter |
| Flood.ServerPhraseIsUnderstood | src/atsq/errors.py:55-63 | the phrase both server generations send is read as its number, for every number |
| Flood.HintFound | src/atsq/errors.py:62 | the search finds the leftmost place where the pattern stands, and its number |
| Flood.NoHintFound | src/atsq/errors.py:62 | where the pattern stands nowhere, nothing is found |
| Flood.PhraseIsWaitedFor | src/atsq/errors.py:55-63 | `please wait n seconds` makes the client wait n seconds |
| Flood.NoPhraseWaitsASecond | src/atsq/errors.py:62-63 | without the message or the pattern in it, the wait is one second |
| Flood.DecimalDigits | src/atsq/errors.py:62 | the numbers in these statements are in decimal digits |
| SessionSafety.QueueKeptByPublish | src/atsq/connection.py:288-298 | publishing keeps the queue a suffix of the published events, at the price of the oldest |
| SessionSafety.QueueKeptBySentinel | src/atsq/connection.py:311-320 | the sentinel goes behind everything, once |
| SessionSafety.QueueKeptByTake | src/atsq/connection.py:239-247 | a waiter gets the oldest event; the sentinel survives every waiter |
| SessionSafety.LockKept | src/atsq/connection.py:197-217 | every step but a received line keeps this: the pending slot is the lock holder's, and exactly the holder is between write and release |
| SessionSafety.LifeKept | src/atsq/connection.py:117-122 | every step but a received line keeps this: the receive loop lives exactly as long as the connection, and closing leaves no future open |
| SessionSafety.WireKept | src/atsq/connection.py:199-205 | the wire only grows, `quit` comes last and only when closed, and nothing is written once closed |
| SessionSafety.CallsKept | src/atsq/connection.py:182-220 | every step but a received line keeps this: each call's attempts are its own lines on the wire, all but the last flooded and waited for |
| SessionSafety.LineKeeps | src/atsq/connection.py:264-286 | one line received keeps the whole invariant, buffer and published events being those of the pure sorting |
| SessionSafety.StepKeepsSafe | src/atsq/connection.py:109-320 | every step of every task keeps the invariant |
| SessionSafety.RunIsSafe | src/atsq/connection.py:109-320 | the invariant holds in every state of every run, whatever the interleaving and whatever the server sends |
| SessionEffects.CloseCloses | src/atsq/connection.py:109-129 | closing writes `quit` exactly if it is the first closing, the transport is open and the send succeeds; every open future fails, and a second closing does nothing |
| SessionEffects.EndOfStreamEnds | src/atsq/connection.py:280-281 | the end of the stream closes both sides, fails every open future and writes nothing |
| SessionEffects.ReceiveReceives | src/atsq/connection.py:264-286 | a line beginning with `notify` is published, one beginning with the word `error` empties the buffer and settles the open future with the lines buffered or closes if it cannot be read, a blank one does nothing, any other is buffered |
| SessionEffects.AcquireAcquires | src/atsq/connection.py:198-205 | closed, broken or failing: the closed error and nothing on the wire; else the line goes out and lock and slot are the caller's |
| SessionEffects.SendReturnsReturns | src/atsq/connection.py:205-206 | a drained send is noted; a failed one breaks the transport and ends the call, but not the connection |
| SessionEffects.TimeoutTimesOut | src/atsq/connection.py:210-214 | the timeout closes the connection, with `quit` as any closing, or finds it closed and ends the call |
| SessionEffects.ResumeResumes | src/atsq/connection.py:182-220 | a failed future is the closed error; an answer is recorded and noted: rows for the number 0, the error for others, after 524 another try a tenth of a second after the wait asked for, while tries are left; the lock is free |
| SessionEffects.LastSteps | src/atsq/connection.py:210-216 | the last step after a timeout ends the call as timed out, a cancelling as cancelled, and both free what the call held |
| SessionMatching.StepKeepsMatched | src/atsq/connection.py:197-279 | every step with an orderly server keeps every answer taken, and every settled future, the reply to the call's own line |
| SessionMatching.ConformingRunIsMatched | src/atsq/connection.py:197-279 | so does every run |
| SessionMatching.AtMostOneUnanswered | src/atsq/connection.py:198-216 | while open at most one command is unanswered, the buffer is its response so far, and a call with an open future holds lock and slot and wrote it |
| SessionMatching.AnswersAreOwn | src/atsq/connection.py:197-279 | every answer a call takes is the server's response, by number, to a line that this call wrote |
| SessionMatching.ResultsAreOwn | src/atsq/connection.py:209-220 | what a finished call returns or raises comes from such a response |
| SessionMatching.CancelIsHarmlessIffAllowed | src/atsq/connection.py:215-216 | cancelling a call keeps the matching if and only if its line is answered, it does not hold the lock, or the connection is closed |
| SessionMatching.CancelMisleadsNextCaller | src/atsq/connection.py:215-216 | otherwise the next caller that writes takes the response to the cancelled line, for every such state |
| SessionMatching.RefusedCancelIsReached | src/atsq/connection.py:197-216 | such a state is reached: an orderly run leads to a cancelling that is possible but not allowed, with another caller queued |
| SessionMatching.CancelMisleadsInARun | src/atsq/connection.py:197-220 | the whole run, from the start to the second caller returning no rows because of the `error id=0 msg=ok` that answered the first caller's line, while its own line is unanswered |
| SessionTheorems.WireIsCommandsThenQuit | src/atsq/connection.py:109-129 | in every run the wire is command lines and then at most one `quit`, written by a closed connection |
| SessionTheorems.ClosingWritesQuit | src/atsq/connection.py:123-128 | every step that closes an open connection from this side writes `quit` if the transport is open and the send succeeds, and in every continuation that stays the end of the wire |
| SessionTheorems.OnlyClosingWritesQuit | src/atsq/connection.py:117-128 | no other step writes one |
| SessionTheorems.ClosedForGood | src/atsq/connection.py:117-129 | once closed, in every continuation: still closed, nothing written, received or published any more |
| SessionTheorems.ClosedLeavesNothingOpen | src/atsq/connection.py:300-320 | in every closed state the receive loop is over, no future is open, and exactly one sentinel ends the queue |
| SessionTheorems.WaitersDrainClosedQueue | src/atsq/connection.py:228-247 | after the closing any series of waiters gets the remaining events in order and then the closed error for ever |
| SessionTheorems.OnlyOldestIsDropped | src/atsq/connection.py:288-320 | an event is lost only as the oldest of a queue that is bounded and holds exactly its bound, one at a time |
| SessionTheorems.EventsAreConserved | src/atsq/connection.py:262-320 | published = delivered + dropped + queued; published is what sorting finds; the waiters were handed exactly the events not dropped, in order |
| SessionTheorems.FloodRetriesAreBounded | src/atsq/connection.py:182-195 | at most `flood_retries + 1` writes of a call's line, each earlier one flooded and followed by a wait longer than the hint; a flood error surfaces only after all of them |
| SessionTheorems.LoopEndIsUnreachable | src/atsq/connection.py:183-195 | the loop's range test runs before every try, first or later, and fails in some run if and only if `flood_retries` is negative: a call that sleeps always has a try left |
| SessionTheorems.IdleClockRestarts | src/atsq/connection.py:205-217 | the idle clock that the keepalive looks at restarts exactly when a send has returned or an answer is taken, never on a line received |
| SessionTheorems.FailedSendLeavesItOpen | src/atsq/connection.py:197-217 | a send that fails ends its call with the closed error and leaves the connection open, its receive loop running and its idle clock untouched, for any time |
| SessionTheorems.ClosedHolderLetsGo | src/atsq/connection.py:208-216 | once closed, in every continuation the lock is free after its holder has taken three steps of its own, whichever they are, and nobody else ever holds it |
| SessionTheorems.ClosedHolderCanMove | src/atsq/connection.py:208-216 | until then a step of its own is always possible, without being cancelled |
| SessionTheorems.TwoStepsMayNotDo | src/atsq/connection.py:205-211 | two are not always enough: the send may return and the timeout fire before the failure is seen |
| SessionTheorems.WaitingCallerIsTold | src/atsq/connection.py:183-200 | a caller queued or asleep when the connection closes: in every continuation it writes nothing more, stops waiting only for the closed error unless it is cancelled, and gets that error at its next turn at the lock |
| SessionTheorems.TimeoutIsFinal | src/atsq/connection.py:210-214 | a call whose timeout has fired ends as timed out in every continuation, unless it is cancelled |
| SessionTheorems.FailureIsFinal | src/atsq/connection.py:209-306 | a call whose future has failed ends with the closed error in every continuation, unless it is cancelled or its timeout fires first |
| Scenarios.CallWrites | src/atsq/connection.py:197-206 | on an open and idle connection a call writes its line and waits |
| Scenarios.CallIsAnswered | src/atsq/connection.py:264-275 | one data line and a terminator come to it |
| Scenarios.GoodAnswerReturnsRows | src/atsq/connection.py:209-220 | number 0: the rows of the data lines, and the next call may write |
| Scenarios.ErrorAnswerRaises | src/atsq/connection.py:218-219 | another number: the error, and the next call may write |
| Scenarios.FloodAnswerSleeps | src/atsq/connection.py:183-194 | 524: the call sleeps for the wait asked for and a tenth of a second, or raises if it may not retry; others may write |
| Scenarios.SleeperWakes | src/atsq/connection.py:183-194 | when its time has come a sleeper queues again, and not before |
| Scenarios.CallTimesOut | src/atsq/connection.py:207-214 | the timeout fires: the wire ends with the line and `quit`, the call is timed out |
| Scenarios.CallSeesTheEnd | src/atsq/connection.py:280-306 | the stream ends: the call is told, and no `quit` is written |
| Scenarios.CallSeesTheClosing | src/atsq/connection.py:117-128 | somebody closes: the wire ends with the line and `quit`, the call is told |
| Scenarios.EventIsQueued | src/atsq/connection.py:288-292 | an event that finds room is queued behind the others |
| Scenarios.EventCostsTheOldest | src/atsq/connection.py:288-298 | one that finds the queue full costs the oldest |
| Scenarios.WaiterTakesTheOldest | src/atsq/connection.py:239-247 | a waiter takes the oldest |
| RawConnection.Connection.constructor | src/atsq/connection.py:80-102 | a started connection is valid and is the machine's initial state |
| RawConnection.Connection.PutItem | src/atsq/connection.py:288-298 | the retry loop ends and leaves the item behind the newest items that fit |
| RawConnection.Connection.SettlePending | src/atsq/connection.py:274-275 | the pending future is settled unless it is done or absent |
| RawConnection.Connection.MarkClosed | src/atsq/connection.py:300-309 | closing sets the flag, fails the open future and queues the sentinel |
| RawConnection.Connection.CloseBlock | src/atsq/connection.py:117-128 | `close` up to its await: shutdown, end of the receive loop and `quit` in one block |
| RawConnection.Connection.EndOfStreamBlock | src/atsq/connection.py:280-281 | the block of the receive loop's end |
| RawConnection.Connection.ReceiveBlock | src/atsq/connection.py:264-279 | one pass of the receive loop |
| RawConnection.Connection.AcquireBlock | src/atsq/connection.py:198-205 | closed check, pending slot and write in one block |
| RawConnection.Connection.SendReturnsBlock | src/atsq/connection.py:205-206 | a drained send is noted, a failed one ends the call and the transport |
| RawConnection.Connection.CloseAfterTimeoutBlock | src/atsq/connection.py:210-214 | the timed-out call closes the connection, if nobody has |
| RawConnection.Connection.ResumeBlock | src/atsq/connection.py:209-220 | a settled future becomes rows, an error or another try |
| RawConnection.Connection.WakeBlock | src/atsq/connection.py:183-194 | the loop's head decides about the next try |
| RawConnection.Connection.TakeEventBlock | src/atsq/connection.py:239-247 | an event goes for good, the sentinel goes back |
| RawConnection.Connection.Close | src/atsq/connection.py:109-128 | writes `quit` exactly if it is the first closing, the transport is open and the send succeeds; afterwards no receive loop, no open future, one sentinel last |
| RawConnection.Connection.EndOfStream | src/atsq/connection.py:280-281 | the receive loop's end leaves the connection shut down in the same sense, both sides closed and nothing written |
| RawConnection.Connection.Receive | src/atsq/connection.py:264-279 | by the words it begins with, the line is published, ends a response, is ignored or is buffered; buffer and published events are those of sorting all lines so far |
| RawConnection.Connection.EndResponse | src/atsq/connection.py:270-277 | a terminator empties the buffer and hands the response to the pending call, or ends the session if it cannot be read |
| RawConnection.Connection.Acquire | src/atsq/connection.py:198-205 | closed, broken or failing, the caller gets the closed error and nothing is written; else the line is written by the holder of lock and slot, counted, and within the allowed tries |
| RawConnection.Connection.SendReturns | src/atsq/connection.py:205-206 | a drained send leaves lock and slot with the caller and restarts the idle clock; a failed one frees both, breaks the transport and ends the call |
| RawConnection.Connection.CloseAfterTimeout | src/atsq/connection.py:210-214 | a timeout leaves the connection shut down; `quit` is written exactly if nobody had closed, the transport is open and the send succeeds |
| RawConnection.Connection.Judge | src/atsq/connection.py:182-220 | rows on success, the error otherwise, another try after a flood while tries are left |
| RawConnection.Connection.Resume | src/atsq/connection.py:209-220 | a failed future is the closed error; an answer becomes rows, an error or another try by its number; lock and slot are free afterwards |
| RawConnection.Connection.Cancel | src/atsq/connection.py:215-216 | the call ends as cancelled, holds neither lock nor slot, and nothing else changes |
| RawConnection.Connection.TakeEvent | src/atsq/connection.py:239-247 | the waiter gets exactly the oldest event that is not gone yet; if none is left, the closed error, and the sentinel stays alone in the queue; nothing but the queue changes |
| RawConnection.Connection.Wake | src/atsq/connection.py:183-194 | a sleeper queues again: it always has a try left |
| RawConnection.Connection.Perform | src/atsq/connection.py:109-320 | every possible step of every task keeps the object valid and is the machine's step |
| RawConnection.Connection.PerformAll | src/atsq/connection.py:109-320 | any number of steps is the machine's run; once closed nothing is written and the waiters are handed the rest of the events in order and then the closed error |
| RawConnection.Live | src/atsq/connection.py:80-320 | a connection from its start through any run: commands and then at most one `quit`, and published events as sorting finds them |
| Keepalive.StepKeepsTimed | src/atsq/connection.py:322-332 | every step, failed sends, refusals and flood retries included, keeps commands within their timeout and, while the loop is on time, sleeps within the interval |
| Keepalive.RunIsTimed | src/atsq/connection.py:322-332 | so does every run |
| Keepalive.IdleIsBounded | src/atsq/connection.py:322-332 | as long as every keepalive that is due is sent and answered with success, an open connection is never idle for longer than the interval and the command timeout |
| Keepalive.OnlyKeepalivesStrayTheLoop | src/atsq/connection.py:329-332 | while the connection is open, only a keepalive that goes wrong (its send fails, or it is refused or flooded) ends the loop or makes it late; failed sends of other callers do not |
| Keepalive.RefusedKeepaliveIsLast | src/atsq/connection.py:329-332 | a run with a refused keepalive: the loop is over and the open connection is idle for any time |
| Keepalive.UnsentKeepaliveIsLast | src/atsq/connection.py:329-332 | a run with a keepalive whose send fails: likewise, and not even the idle clock was restarted |
| Keepalive.FloodedKeepaliveIsLate | src/atsq/connection.py:182-194 | a run with a flooded keepalive: the open connection is idle for the wait the server asked for, however long |
| Keepalive.EndedForGood | src/atsq/connection.py:322-332 | from any state whose loop has ended, in every continuation it stays so: no keepalive is decided or sent any more |
| Keepalive.ClosedHasNoLoop | src/atsq/connection.py:300-309 | in every run a closed connection, closed by a timeout or otherwise, has no keepalive loop |
| Keepalive.FailedSendIsLast | src/atsq/connection.py:205-206 | after a failed send nothing can be sent on that transport, in every continuation |
| Keepalive.KeepaliveIsDecidedWhenIdle | src/atsq/connection.py:324-330 | a keepalive is decided only after exactly a full idle interval, and with a shorter command timeout the lock is then free for it |
| Keepalive.SlowCommandIsIdle | src/atsq/connection.py:322-332 | with a longer command timeout there is a run that is idle beyond the interval |
| Keepalive.IntervalBoundsIdleIff | src/atsq/connection.py:322-332 | as long as all keepalives go well, the interval bounds the idle time of all runs if and only if the command timeout does not exceed it |
| Keepalive.KeepaliveTask.Pass | src/atsq/connection.py:324-330 | one pass asks for the lock exactly after a full idle interval, and otherwise sleeps until exactly then |
| Keepalive.KeepaliveTask.Send | src/atsq/connection.py:329-332 | a keepalive that is sent restarts the idle clock, one whose send fails ends the loop and leaves the clock as it was |
| Keepalive.KeepaliveTask.Return | src/atsq/connection.py:329-332 | an answered keepalive starts a new interval, a flooded one waits for its retry, a refused one ends the loop |
| Backoff.DelayClosedForm | src/atsq/client.py:262-288 | the `k`-th delay since the reset, in closed form, for all initial delays and all maxima |
| Backoff.DefaultDelays | src/atsq/client.py:250-288 | with the defaults: 5, 10, 20, 40, 80, 160 seconds, then 300 for good |
| Backoff.DelayIsCappedPower | src/atsq/client.py:262-288 | `min(max, initial * 2^k)` from the second wait on, for all `k`, if and only if the maximum is not negative or the first doubling is already below it |
| Backoff.NegativeCapSinks | src/atsq/client.py:288 | otherwise the third wait is twice the maximum and the formula is wrong |
| Backoff.DelaysGrowIff | src/atsq/client.py:288 | the delays never shrink if and only if the initial delay lies between zero and the maximum |
| Backoff.UncappedTotal | src/atsq/client.py:287-288 | below the cap, `k` delays sum to `initial * (2^k - 1)` |
| Client.FirstStopIs | src/atsq/client.py:163-176 | the setup stops at the first command that does not go through |
| Client.StartErrorIffNot | src/atsq/client.py:151-181 | an attempt ends without an error exactly when every part of it went well |
| Client.SucceedsIff | src/atsq/client.py:151-181 | an attempt succeeds if and only if transport and greeting went well and every setup command was accepted, but for a refused nickname |
| Client.WaitFollowsAnswer | src/atsq/client.py:264-280 | the answer at which setup stops decides: a cancellation ends the loop, any other failure waits, and the banned delay is for a banned one alone |
| Client.WaitFollowsFailure | src/atsq/client.py:264-280 | so does an attempt that does not come to its setup, and an `on_ready` that raises; without an error the wait is not the banned one |
| Client.SinceIs | src/atsq/client.py:262-288 | the passes a delay counts reach back to the last start that succeeded, or to the first pass |
| Client.Client.Do | src/atsq/client.py:169-176 | one setup command goes through, or setup stops at it |
| Client.Client.SelectServer | src/atsq/client.py:164-167 | `use` by id, else by port, else not at all |
| Client.Client.ApplyNickname | src/atsq/client.py:168-174 | a refused nickname is tolerated, any other failure is not |
| Client.Client.RegisterEvents | src/atsq/client.py:175-176 | the registrations in order, up to the first that fails |
| Client.Client.SetUp | src/atsq/client.py:162-176 | the whole setup in order, or its beginning up to the command that failed |
| Client.Client.Start | src/atsq/client.py:151-181 | a transaction over `exec` calls: it succeeds exactly when everything went well and has then issued the setup and nothing else; otherwise the new connection is closed, has issued exactly the setup up to the command that failed, and the client keeps the one it had |
| SetupTrace.RunKeepsTrace | src/atsq/client.py:162-176 | in every session run in which a task issues a plan in turn, its lines on the wire, flood retries counted once, are the first lines of the plan, whatever others write in between |
| SetupTrace.SetupIsTheTrace | src/atsq/client.py:162-176 | for the setup: its trace on the wire is the beginning of the rendered setup commands, and all of them once each went through, with only a refused nickname tolerated |
| Client.Client.Close | src/atsq/client.py:183-187 | the loop is told to stop and the current connection is closed |
| Client.Client.OnePass | src/atsq/client.py:264-278 | a start exactly when there is no open connection, `on_ready` once for each success, and the error of the pass |
| Client.Client.OneRound | src/atsq/client.py:264-288 | a pass ends the loop on cancellation or `close` alone, else waits the banned or the backoff delay and doubles |
| Client.Client.RunForever | src/atsq/client.py:246-288 | over any passes: starts, `on_ready` calls, the end of the loop, and every wait as a function of the passes since the last successful start |
| EndToEnd.FramedLinesAreRead | src/atsq/transport.py:105-136 | framed lines, however the bytes are cut, are what a reader reads |
| EndToEnd.CommandsSurviveTheWire | src/atsq/protocol.py:27-156 | commands rendered, framed, cut anywhere, read and parsed give one line each and the records they stand for |
| EndToEnd.DataSurvivesTheWire | src/atsq/protocol.py:136-156 | so do a server's tables of any values |
| EndToEnd.SetupIsSendable | src/atsq/client.py:163-176 | every setup command renders and is clean, whatever nickname and event names the configuration holds |
| EndToEnd.SetupSurvivesTheWire | src/atsq/client.py:163-176 | the setup reaches a reader as its commands, in order |
| EndToEnd.SetupLine | src/atsq/client.py:163-176 | the setup line by line as text: `use sid=..`, or `use port=..` if there is only a port, `clientupdate client_nickname=..`, `servernotifyregister event=..` with ` id=..` exactly when a channel is given; the nickname alone may be refused |
| EndToEnd.IntTextIs | src/atsq/client.py:164-176 | a number is written in decimal digits, behind a minus sign if it is negative |
| EndToEnd.StreamSortsApart | src/atsq/connection.py:262-279 | responses and events, merged, framed and cut in any way, come apart again in order |
| EndToEnd.BlockRecordsOfTables | src/atsq/protocol.py:159-164 | the data lines of a response parse to the tables printed on them |
| EndToEnd.CallerGetsTheResponseRows | src/atsq/connection.py:197-279 | a call that returns rows returns exactly the tables on the data lines of the response to a line it wrote |
| EndToEnd.ReceivedIsSent | src/atsq/connection.py:264-279 | what a session has received, sorted, is a beginning of the responses and of the events the server sent |
| EndToEnd.CallerGetsTheServersRows | src/atsq/connection.py:197-279 | from the server's bytes to the caller's rows: greeting, responses, events and blank lines merged, framed and cut in any way; a call that returns rows returns exactly the tables of the server's response to a line it wrote itself |
| EndToEnd.WaitersGetTheServersEvents | src/atsq/connection.py:228-298 | from the server's bytes to the waiters: in every run the events handed to waiters are the server's events in order, up to some point, missing only those dropped |

## Left out

- Protocol.ParseErrorLine: `int` is modelled on an optional sign and ASCII digits; Python also accepts surrounding whitespace, underscores between digits and other Unicode digits.
- Flood.ServerPhraseIsUnderstood: `\d` is modelled on ASCII digits; the regular expression also matches other Unicode digits, which `float` accepts.
- Codec.CommandRoundTrip: keys, options and command names are not escaped by the code, so their being free of space, `=`, pipe and line ends is a precondition; values are arbitrary.
- Protocol.RenderCommand: `str` of a value other than `None` or a bool is a parameter, so nested lists are the text Python gives them; text has no lone surrogates, which UTF-8 cannot encode.
- SessionMatching.AnswersAreOwn: a server that sends data or error lines while no command is unanswered, and the cancelling of a call whose line is unanswered, are excluded by assumption; the second is shown to be harmful without exception.
- SessionMatching.ResultsAreOwn: the same assumption; the rows are those of the data lines as the parser reads them.
- Session steps are finer than the source's where two blocks can run back to back (one line a receive step, send return and answer apart), so the runs are a superset of the real interleavings.
- Runs are finite and streams and scripts of answers are finite; a stream that runs out counts as ended.
- That the underlying transport is closed whenever the connection is: after the stream ends `close` returns early, and a keepalive that times out cancels its own task, so this is not claimed.
- That `Client.close` always ends `run_forever`: a `close` during `start` does not see the new connection. Cancelling the loop while it waits for events or sleeps only cuts a run short.
- Several connection attempts share nothing but the client: the greeting lines, the dialect sniffing and `Event.from_line` are not modelled, nor is a receive loop that crashes in the latter.
- Client.Client.Start: over `exec` calls, one entry each; the lines of these calls on the wire, with keepalives in between and flood retries, are in SetupTrace.
- Keepalive.StepKeepsTimed: how many flood retries a keepalive has, and what hint a flood carries, are left open; sends take no time.
- Rounding of floating-point delays and times: they are exact reals.
- The text test for "banned" and the text of errors: whether an error, a timeout among them, counts as banned is a parameter.
- `Client` construction (both id and port given), the normalising of `register_events`, handlers and dispatch, the typed wrapper commands, definitions, file transfer and logging: thin or I/O.
- SSH, TCP and DNS: the transport is a source of chunks and a sink whose sends may fail before the bytes are written or while draining.
