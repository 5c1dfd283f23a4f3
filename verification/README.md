# pgshadow in Dafny

pgshadow watches PostgreSQL connections passively and replays what it saw: bytes become protocol
frames, frames become SQL events, a filter decides which events are kept, a bounded queue buffers
them, and a replayer executes them on a target database, one lane per source connection. This
project models that path and proves what holds of it on every input, every interleaving and every
run.

How the files follow the program:

- `Core.dfy`: connection keys, parameters, events, messages.
- `Framing.dfy`, `Bind.dfy`, `Copy.dfy`: the per-connection parsers (`pkg/protocol`). Wire formats
  follow the section "Message Formats" of the PostgreSQL manual.
- `Processor.dfy`, `Pipeline.dfy`, `NonInterference.dfy`, `Grouping.dfy`, `Transcript.dfy`, `Capture.dfy`,
  `Session.dfy`: the stream processor, once as a function of one connection's state and once as the object
  with its shared maps, and the theorems about whole runs. Classification and the keep decision are
  arbitrary functions there.
- `Lexer.dfy`, `Lexemes.dfy`, `Classifier.dfy`, `Classes.dfy`, `CaseFolding.dfy`, `ClassifierLimits.dfy`,
  `PoolerReset.dfy`, `CopyStatements.dfy`: the SQL scanners and the grammar they read, the statement
  classifier and what its classes mean (`pkg/filter`), which statements reset a pooled session, and the
  COPY statements that capturing mistakes.
- `Guard.dfy`, `Segments.dfy`: the replay guard's two quote-aware scanners (`pkg/replayguard`), and the
  grammar of what they take for quoted.
- `Codec.dfy`, `Fifo.dfy`, `RingBuffer.dfy`, `FileQueue.dfy`, `Wakeup.dfy`: the queue (`pkg/queue`):
  record format, the abstract FIFO, its two implementations, and the condition-variable protocol.
- `Replay.dfy`, `Progress.dfy`, `UnboundedLane.dfy`, `Pool.dfy`, `Affinity.dfy`, `Leases.dfy`, `Returns.dfy`,
  `Drain.dfy`: dispatcher, lanes, semaphore and connection pool (`pkg/replayer`), that the replayer can
  always finish, session affinity, the replayer over the pool and that it leaves nothing behind, and
  graceful shutdown (`cmd/pgshadow`).
- `EndToEnd.dfy`: processor, queue, replayer and shutdown joined.

Objects whose methods update fields are classes, and each method's contract ties the new state to a
function of the old one. Loops are loops, with the scanner, reader or fold they compute as the
specification. Protocols between threads are state machines whose steps are the lock sections,
channel operations and calls of the program, and the theorems quantify over all step sequences.
Clocks, timeouts, cancellation, executor results, pings and acquisitions are inputs of steps.

Where the code and its comments differ, the model follows the code:

- `DEALLOCATE ALL` is on the list of pooler resets but is not a utility statement, and only utility
  statements reset: alone it never does, followed by `SET x` it does, and `DISCARD ALL` followed by
  `BEGIN` does not (`PoolerReset.ResetIff` and the instances after it).
- The semicolon scanners look into double-quoted identifiers and the tokenizer does not
  (`Classifier.LexOfPieces`, `ClassifierLimits.QuotedIdentifiersMislead`).
- A dead pooled connection is released even if its lease has been replaced meanwhile
  (`Pool.DeadLeaseIff`, `Pool.UndisciplinedDoubleRelease`); the replayer never causes that
  (`Leases.ReplayerNeverReleasesTwice`).
- The file queue ends early, although it is open, when it consists of over-long records
  (`Fifo.EarlyEnd`), and a queue drained in this way neither rewinds nor gives up its file
  (`Wal.FileQueue.Dequeue`).
- A source execution time is recorded under the latest statement that was dispatched. While a COPY waits for
  its rows that is the statement before it, although the clock was started by the COPY; and a prepared
  statement is timed from its Bind, not from Execute or Sync (`Transcript.TimedByClock`).
- A producer that waits in the file queue keeps a slice of a buffer that other producers encode into,
  and writes what it finds there when it is woken (`Wal.OwnRecordIff`,
  `QueueRefinement.TwoBlockedProducers`). With one producer, which is what the pipeline has, nothing
  happens to it (`QueueRefinement.Lockstep`).
- A client stream with a startup message longer than 256 MiB can be lost in one way of cutting it and
  parsed in another (`Framing.ChunkInvariance`).
- A signal of the ring buffer's one condition variable can reach a thread that cannot use it. For which
  policies and threads nobody is ever left asleep un-notified beside a reason to run is
  `Wakeup.WakeupsAreSafeIff`; whether everybody can then be left asleep is another question: with a
  dropping policy never, under blocking with enough producers (`Wakeup.DroppingNeverSticks`,
  `Wakeup.BlockingCanStick`).
- Whether rows follow a statement is decided by the class of a simple query alone. A COPY from a file or a
  program, or one that the server rejects, opens a COPY that nothing completes, and is never captured; the
  rows of a COPY that stands in one query with BEGIN, or is bound, are lost, or are captured under a COPY
  that is still open (`Session.CapturedIff` and the instances after it, `CopyStatements.CopiesAreLost`).
- A time function directly after a literal is rewritten to a literal that joins the one before
  (`Guard.RewriteCutIff`, `Guard.JoinedLiterals`).

## Model

| member | source | states |
|---|---|---|
| Framing.GreedyOfWire | pkg/protocol/framing.go:190-220 | framing the wire form of any list of typed messages gives back exactly those messages, nothing left over |
| Framing.StreamIsMessages | pkg/protocol/framing.go:190-270 | conversely, every stream in either phase is the bytes of its messages followed by a bad header (a length below 4, or above 256 MiB after startup) or by an incomplete message; the startup phase lasts exactly while encryption and cancel requests come |
| Framing.GreedyExtends | pkg/protocol/framing.go:91-135 | framing a longer stream is framing its prefix and going on from what the prefix left |
| Framing.EveryChunking | pkg/protocol/framing.go:91-145 | however a stream is cut into calls, the emitted messages are its greedy frames up to the first bad header, if no startup message exceeds 256 MiB |
| Framing.ServerDirection | pkg/protocol/framing.go:91-145 | the same without condition for the server direction; the parser never stalls, an error is reported exactly when the stream so far has a bad header, and after one every call yields only the error |
| Framing.ClientDirection | pkg/protocol/framing.go:91-145 | the client direction without over-long startup messages: unless the parser has stalled, an error is reported exactly when the stream so far has a bad header, and after one every call yields only the error |
| Framing.HugeIsLost | pkg/protocol/framing.go:121-143 | a stream with an over-long startup message has a way of being cut that loses messages |
| Framing.ChunkInvariance | pkg/protocol/framing.go:91-165 | all ways of cutting a stream emit its greedy frames if and only if none of them is longer than 256 MiB |
| Framing.StallIff | pkg/protocol/framing.go:121-165 | a call makes the parser drop the stream for good if and only if it completes no message and leaves more than 1 MiB of a startup message announced as longer than 256 MiB |
| Framing.StreamParser.Feed | pkg/protocol/framing.go:91-145 | the parser object makes the abstract step: messages, error, retained bytes, phase and stall flag |
| Bind.BindRoundTrip | pkg/protocol/bindcorrelator.go:183-279 | decoding an encoded Bind gives back statement, formats and values, NULL distinct from empty, whatever follows |
| Bind.ParseRoundTrip | pkg/protocol/eventbuilder.go:210-237 | decoding an encoded Parse gives back name, text and type OIDs |
| Bind.DecodeBindIff | pkg/protocol/bindcorrelator.go:183-279 | for every payload: it is decoded to a message if and only if it is laid out as that message, at most 10000 values, any negative length for NULL, anything after the values; all other payloads are refused |
| Bind.DecodeParseIff | pkg/protocol/eventbuilder.go:210-237 | the same for Parse, with as many whole OIDs as are declared and present |
| Bind.ParseBindMessage | pkg/protocol/bindcorrelator.go:183-247 | the decoding loops compute the specified decoder, malformed payloads included |
| Bind.ParseParseMessage | pkg/protocol/eventbuilder.go:210-237 | the same for Parse; a truncated OID list is read as far as it goes |
| Bind.ZipParams | pkg/protocol/bindcorrelator.go:129-170 | parameters as many as the longer of OIDs and values, formats expanded by the none/one/many rule |
| Bind.SplitParams | pkg/replayer/replayer_impl.go:495-506 | splits parameters into three lists of equal length, position by position |
| Bind.ReplayedParams | pkg/replayer/replayer_impl.go:495-506 | zipping and splitting gives back the bound values and the OIDs, the shorter list padded with NULL or zero, and formats by the none/one/many rule |
| Bind.BindIsReplayed | pkg/replayer/replayer_impl.go:466-506 | from the encoded Bind to the three lists of the driver: the bound values, the OIDs of the latest Parse padded with zeros, the expanded formats |
| Bind.TableIsLatest | pkg/protocol/bindcorrelator.go:60-118 | after any interleaving of operations of all connections, a name is bound to the latest Parse of that name on that connection since it was last forgotten |
| Bind.BindFidelity | pkg/protocol/bindcorrelator.go:84-106 | an encoded Bind is correlated with exactly that Parse, and carries its own values and formats |
| Bind.BindCorrelator.OnBind | pkg/protocol/bindcorrelator.go:84-106 | the object answers what the table of its connection gives, and changes nothing |
| Copy.AllOrNothing | pkg/protocol/copybuffer.go:96-165 | for every interleaving across connections, finishing returns exactly the segments since the last start, in order, if a COPY is active and their total is within the cap, and nothing otherwise; what is retained never exceeds the cap |
| Copy.CopyTracker.Data | pkg/protocol/copybuffer.go:106-129 | the object's maps make the abstract step for one connection and leave the others alone |
| Copy.CopyTracker.Done | pkg/protocol/copybuffer.go:135-146 | the same for finishing |
| Processor.LogStep | pkg/pipeline/processor.go:145-185 | one callback adds to the log of its own connection only |
| Pipeline.StreamProcessor.OnBytes | pkg/pipeline/processor.go:145-185 | the object with its shared maps, parsers and collaborators makes the abstract step on its connection, leaves all others alone, and enqueues exactly the kept statements |
| Pipeline.StreamProcessor.OnClose | pkg/pipeline/processor.go:187-196 | after a close the object stands for a processor that has never seen the connection |
| Pipeline.StreamProcessor.Drive | pkg/pipeline/processor.go:145-377 | over any sequence of callbacks the object realizes the abstract run and the queue receives the kept statements of its log in order |
| Transcript.KeptByState | pkg/pipeline/processor.go:335-377 | in every run, a client message gives at most one statement, which is kept if and only if the filter keeps its text in the transaction state that the latest of these before it left: a ReadyForQuery with I, T or E, a BEGIN, a COMMIT or ROLLBACK, a close (idle if none); class, reset flag, connection and time are those of its text and callback |
| Transcript.TimedByClock | pkg/pipeline/processor.go:383-407 | in every run, a server message gives an execution time if and only if it completes a statement, a simple query or correlated Bind has started the clock, and no completion, close or reset has stopped it since; the time is the difference, if positive, and goes with the text of the latest statement |
| Transcript.TurnsAreLog | pkg/pipeline/processor.go:145-185 | the transcript that these speak of is the connection's log, message by message |
| Transcript.LatestIff | pkg/filter/state.go:35-80 | what "the latest that says something" means, without recursion |
| Pipeline.StreamProcessor.DispatchEvent | pkg/pipeline/processor.go:335-377 | one statement: group opened or joined, sequence number, keep decision, state inference, group end, pooler reset, on the object as in the abstract step that `KeptByState` and `GroupedIff` are about |
| Pipeline.StreamProcessor.HandleClientMessage | pkg/pipeline/processor.go:246-330 | routing of one client message against the abstract handler |
| Pipeline.StreamProcessor.HandleServerMessage | pkg/pipeline/processor.go:383-393 | routing of one server message against the abstract handler |
| Pipeline.TxIdGenerator.Advance | pkg/protocol/txid.go:66-78 | a new id, larger than every earlier one, for this connection only |
| Pipeline.TxStateMachine.OnStatement | pkg/filter/state.go:58-73 | inferred transaction status of this connection only |
| NonInterference.RunInStep | pkg/pipeline/processor.go:145-377 | a connection among others and the same connection alone emit the same log, up to an increasing renaming of transaction ids |
| NonInterference.ConnectionsDoNotInterfere | pkg/pipeline/processor.go:145-377 | two runs with the same callbacks for a connection emit the same for it: statements, sequence numbers, names, parameters, COPY data and keep decisions, transaction ids corresponding in order with 0 fixed |
| NonInterference.ClosedIsFresh | pkg/pipeline/processor.go:187-196 | whatever happened before, after a close everything emitted for the connection is what a new processor would emit, up to the naming of ids |
| NonInterference.CloseLeavesOthersAlone | pkg/pipeline/processor.go:187-196 | a close changes nothing in any other connection's log, up to the naming of ids |
| Capture.RunSays | pkg/pipeline/processor.go:145-330 | in any run that does not close a connection, the statements captured of it are what its client parser emitted, message by message |
| Capture.CapturedFromBytes | pkg/pipeline/processor.go:145-330 | what is captured of a connection is a function of the concatenated bytes of its client: cutting, timing, the server's side and other connections make no difference |
| Session.HearSession | pkg/pipeline/processor.go:246-330 | what is captured of every session, statement by statement: simple queries of the COPY class open a COPY, rows go to the COPY that is open, whichever statement they followed, and their ending completes or drops it |
| Session.MeansIff | pkg/pipeline/processor.go:246-330 | with no COPY open, an utterance is captured as it was said if and only if it does not offend |
| Session.CapturedIff | pkg/pipeline/processor.go:246-330 | what is captured is what was said, at every point of a session, if and only if no utterance offends: a simple query of the COPY class without rows, or rows after any other statement |
| Session.SessionIsCaptured | pkg/pipeline/processor.go:145-377 | end to end: if a client sent any encryption requests, a startup packet and any session, in whatever pieces, the statements captured are those, in order; if no utterance offends they are what the client said, prepared statements with their parameters and completed COPYs with their rows |
| Session.FileCopyIsLost | pkg/pipeline/processor.go:314-318 | a COPY from a file followed by another query: only the other query is captured |
| Session.BatchLosesRows | pkg/pipeline/processor.go:311-326 | rows after a query that is not of the COPY class are lost |
| Session.RowsUnderWrongCopy | pkg/pipeline/processor.go:263-307 | a COPY from a file and then a bound COPY with rows: the rows are captured under the first |
| Session.OffencesCanCancel | pkg/pipeline/processor.go:246-330 | two offences after which captured and said are the same again, so the condition is needed at every point |
| CopyStatements.FileCopy | pkg/filter/classifier.go:175-180 | the text of a COPY from a file has the COPY class |
| CopyStatements.BeginThenCopy | pkg/filter/classifier.go:121-138 | BEGIN and a COPY FROM in one query have the class of BEGIN |
| CopyStatements.CopiesAreLost | pkg/pipeline/processor.go:311-326 | with this classifier the first is never captured and the rows of the second are lost |
| Grouping.LogGrouped | pkg/pipeline/processor.go:335-377 | in every run every connection's log obeys the grouping discipline |
| Grouping.TransactionsAreGrouped | pkg/pipeline/processor.go:335-377 | two statements of a connection, the first in a group, share their transaction id if and only if no BEGIN, COMMIT/ROLLBACK, pooler reset or close separates them |
| Grouping.GroupedIff | pkg/pipeline/processor.go:338-347 | in every run, a statement is in a group at all, its id nonzero, if and only if it is or follows a BEGIN, DML, DDL or COPY FROM with no COMMIT/ROLLBACK, reset or close in between |
| Grouping.SequenceNumbersIncrease | pkg/pipeline/processor.go:350-352 | sequence numbers strictly increase on a connection between closes |
| Grouping.IdsAreNotShared | pkg/protocol/txid.go:57-84 | no two connections share a nonzero transaction id |
| Lexer.LexLoop | pkg/filter/classifier.go:515-621 | the tokenizer loop computes the specified tokens of every text |
| Lexemes.SpelledIsRead | pkg/filter/classifier.go:515-642 | a text spelled from lexemes (nested comments, literals and identifiers with doubled quotes, dollar-quoted texts, names, parameters, signs) is tokenized as exactly those |
| Lexemes.TokensIff | pkg/filter/classifier.go:515-642 | and every text is: it has given tokens if and only if they are what the lexemes say from which it is spelled |
| Lexer.IndexDepthZeroSemicolon | pkg/filter/classifier.go:329-402 | with loops and index arithmetic of its own, the fast check finds the first top-level semicolon unless only blanks follow it |
| Lexer.SplitOnDepthZeroSemicolons | pkg/filter/classifier.go:406-475 | with loops and index arithmetic of its own, the splitter returns the pieces between top-level semicolons |
| Classifier.SplitRejoins | pkg/filter/classifier.go:406-475 | joined by semicolons the pieces are the text again, up to a final semicolon, after which there is no empty piece |
| Lexer.DollarTag | pkg/filter/classifier.go:627-642 | recognizes a dollar-quote opener and its length |
| Lexer.TopLevelCut | pkg/filter/classifier.go:329-621 | if quoted identifiers hold nothing the semicolon scanners react to, their first cut starts a unit of the tokenizer and is the first semicolon at depth zero among the tokens |
| Lexer.AlignedCut | pkg/filter/classifier.go:406-621 | a cut that starts a unit cuts the tokens: those before, one semicolon, those after |
| Lexer.CutTokens | pkg/filter/classifier.go:515-621 | before a blank, a quote or a semicolon that starts a unit, tokenizing the text is tokenizing both halves, quoted identifiers included |
| Lexer.CutInName | pkg/filter/classifier.go:564-580 | cutting a text at a semicolon inside a quoted identifier changes a token |
| Lexer.CutAstray | pkg/filter/classifier.go:515-621 | cutting it inside any other unit keeps that unit's tokens |
| Lexer.SameUnits | pkg/filter/classifier.go:515-621 | what follows such a character does not change how the text before it is cut into units |
| Lexer.TokensSnoc | pkg/filter/classifier.go:515-621 | white space at the end makes no token, whatever the text ends in, unless it is an unclosed identifier |
| Classifier.LexOfPieces | pkg/filter/classifier.go:406-621 | tokenizing a text is tokenizing the split pieces joined by one punctuation token per top-level semicolon, if every cut starts a unit; it is not if a cut goes through a quoted identifier; so, unless a cut goes astray, if and only if every cut starts a unit |
| Classifier.AstrayIff | pkg/filter/classifier.go:406-621 | where a cut goes through another unit, which takes an identifier that has misled the scanners before, the two agree if and only if what follows happens to match |
| Classifier.LexIff | pkg/filter/classifier.go:406-621 | one condition for every text, along its cuts: each starts a unit, until one goes astray and what follows there matches, and none goes through an identifier |
| Classifier.QuietAligned | pkg/filter/classifier.go:406-475 | if quoted identifiers hold nothing the scanners react to, or there are none, every cut starts a unit |
| Classifier.QuietInStep | pkg/filter/classifier.go:329-475 | and the cuts are the semicolons at depth zero |
| Classifier.PiecesAreGroups | pkg/filter/classifier.go:121-138 | the splitter's trimmed pieces and the tokenizer's groups lead to the same class |
| Classifier.ClassifyByGroups | pkg/filter/classifier.go:96-138 | on the fast path and on the slow path alike, the class is the best class over the token groups of the whole text, if the scanners' cuts are the depth-zero semicolons and the text does not end in a blank inside an open identifier |
| Classifier.ClassifyQuiet | pkg/filter/classifier.go:96-138 | so it is for every text whose quoted identifiers are closed and hold nothing the scanners react to |
| Classifier.BestIsFirstHighest | pkg/filter/classifier.go:121-138 | the fold returns the first class of the highest priority |
| Classes.BatchIff | pkg/filter/classifier.go:104-138 | for any list of classes, which one the batch has: COMMIT/ROLLBACK wins over BEGIN, that over DDL, that over DML and CALL, of which the first wins, those over COPY, a SELECT that calls, utility, plain SELECT, unknown |
| Classes.ClassifyBatchIff | pkg/filter/classifier.go:96-138 | a text with the scanners in step has a class if and only if the statement that wins is of that kind |
| Classes.WritesAreNotHidden | pkg/filter/classifier.go:104-138 | a batch with a write never passes for a SELECT, a utility statement or a COPY, and one with a COMMIT always ends the transaction |
| Classifier.InvokesIff | pkg/filter/classifier.go:227-252 | the scan for calls answers yes if and only if somewhere a whole qualified name is followed by a parenthesis and is neither keyword nor built-in |
| Classifier.LiteralTextIsIgnored | pkg/filter/classifier.go:96-138 | replacing the inside of a quoted literal by any text without a quote changes neither tokens nor class |
| Classifier.IsProcInvoking | pkg/filter/classifier.go:227-252 | the loop computes the specified scan for calls |
| Classifier.FindOutside | pkg/filter/classifier.go:281-322 | the first of the given words outside parentheses |
| Classifier.HasSecondWord | pkg/filter/classifier.go:266-277 | whether the second word is the given one |
| Classifier.ClassifySingle | pkg/filter/classifier.go:141-202 | the running code computes the class that `ClassIff` characterizes |
| Classes.ClassIff | pkg/filter/classifier.go:141-322 | for each of the ten classes, the statements that have it, by their words: which first word in any case, whether the second is TO, whether FROM stands outside parentheses, which command outside parentheses comes first after WITH, whether a function is called |
| Classes.ClassifyIff | pkg/filter/classifier.go:96-102 | so for every text without a second statement, of the answer of the classifier |
| Classes.CallsIff | pkg/filter/classifier.go:227-252 | the scan for calls answers yes if and only if a whole name, words joined by dots, is followed by a parenthesis and neither its first nor its last word is a keyword nor the last a built-in |
| Classes.FirstSemiIff | pkg/filter/classifier.go:329-475 | the first statement of a token list ends at the first semicolon before which no parenthesis is left open, stray closing ones notwithstanding |
| Classifier.ClassifyMultiStatement | pkg/filter/classifier.go:121-138 | the best class over the pieces that are not blank |
| Classifier.ClassifyText | pkg/filter/classifier.go:96-102 | the classifier, and where the scanners are in step the best class over the token groups |
| CaseFolding.CaseIsIgnored | pkg/filter/classifier.go:96-252 | texts that differ only in the case of letters are classified alike, if no dollar tag with letters opens where the scanners look; placeholders, empty tags and what stands in comments and literals do not count |
| CaseFolding.LowerTokens | pkg/filter/classifier.go:515-621 | lower-casing a text in which no unit opens with such a tag lower-cases its words and changes no other token |
| ClassifierLimits.TagsAreCaseSensitive | pkg/filter/classifier.go:580-600 | two texts that differ only in the case of a dollar tag and are classified differently |
| ClassifierLimits.QuotedIdentifiersMislead | pkg/filter/classifier.go:564-580 | a text that is one double-quoted identifier and is classified as the end of a transaction: its cut goes through the identifier |
| ClassifierLimits.AstrayCanAgree | pkg/filter/classifier.go:406-621 | a text with a cut that starts no unit and pieces that have the same tokens all the same, so that alignment is not necessary there |
| PoolerReset.ResetClass | pkg/pipeline/processor.go:227-238 | the class of every listed text is the best over the listed statement and the statements after it, DISCARD and RESET being utility and DEALLOCATE unknown |
| PoolerReset.ResetIff | pkg/pipeline/processor.go:374-376 | a listed text resets the session if and only if the statements after it are utility, plain SELECT or unknown and, after DEALLOCATE, one is utility |
| PoolerReset.DispatchResets | pkg/pipeline/processor.go:335-377 | dispatching a listed text forgets the session's prepared statements, COPY and transaction group exactly then |
| PoolerReset.DispatchKeeps | pkg/pipeline/processor.go:335-377 | dispatching a text that is not listed never does |
| PoolerReset.DeallocateAlone | pkg/pipeline/processor.go:227-238 | DEALLOCATE ALL is listed and never resets |
| PoolerReset.DeallocateThenSet | pkg/pipeline/processor.go:227-238 | followed by SET it resets |
| PoolerReset.DiscardThenBegin | pkg/pipeline/processor.go:227-238 | DISCARD ALL followed by BEGIN is listed and does not reset |
| Guard.CutIsPartition | pkg/replayguard/replayguard.go:456-522 | the plain and quoted segments make up the text |
| Segments.CutIff | pkg/replayguard/replayguard.go:370-522 | a text is cut into given parts if and only if they make it up and are proper: literals with inner quotes doubled and no quote after them, dollar texts closed by the first recurrence of their tag, nothing that opens in the plain parts, an unclosed quote only at the end |
| Segments.StripKeepsPlain | pkg/replayguard/replayguard.go:370-418 | stripping keeps the plain parts, empties closed quoted parts, drops the body of an unclosed literal and keeps that of an unclosed dollar text |
| Guard.RewriteKeepsQuotes | pkg/replayguard/replayguard.go:456-522 | the text is plain and quoted parts in turn, and the output is the rewritten plain parts and the same quoted parts in turn, whatever the rewriter |
| Guard.RewriteIdentity | pkg/replayguard/replayguard.go:456-522 | the identity rewriter leaves every text as it is |
| Guard.StripCutsAlike | pkg/replayguard/replayguard.go:370-418 | a stripped text is cut where the text is, with empty quoted segments |
| Guard.StripIdempotent | pkg/replayguard/replayguard.go:370-418 | stripping twice is stripping once |
| Guard.SpliceIff | pkg/replayguard/replayguard.go:456-522 | on segmentations: the rewritten parts and the old quoted parts, spliced, are the segmentation of the output if and only if they fit |
| Guard.RewriteCutIff | pkg/replayguard/replayguard.go:456-522 | the output is cut into the segments of the rewritten parts and the old quoted parts if and only if every rewritten part fits between its neighbours: no quote left open, no quote meeting a quote, no '$' at its end completed to a tag |
| Guard.RewriteStripCommute | pkg/replayguard/replayguard.go:370-522 | then the output's quoted parts are those of the rewritten parts and the old ones in turn, and stripping it does not depend on whether the text was stripped before |
| Guard.RewriteAllIff | pkg/replayguard/replayguard.go:283-313 | for any list of rewriters applied in turn, the text is cut as spliced at every stage if and only if every rewriter fits what the ones before have left |
| Guard.JoinedLiterals | pkg/replayguard/replayguard.go:278-313 | a time function that follows a literal does not fit: the inserted literal and the old one become one |
| Guard.StripStringLiterals | pkg/replayguard/replayguard.go:370-418 | the loop renders the segmentation with quoted segments emptied |
| Guard.ReplaceOutsideStrings | pkg/replayguard/replayguard.go:456-522 | the loop renders the same segmentation with plain segments rewritten: input and output have the same quoted parts in the same places |
| Guard.ParseDollarTag | pkg/replayguard/replayguard.go:422-439 | the opener at a position; digits may come first |
| Codec.RoundTrip | pkg/queue/filequeue_codec.go:74-335 | decoding an encoded event gives the event without user, address zone and empty parameter values, the zero address read as ::, whatever follows it |
| Codec.Carries | pkg/queue/filequeue_codec.go:74-335 | the same field by field: what is read back of every field, and what is not carried |
| Codec.EncodeInjective | pkg/queue/filequeue_codec.go:74-152 | two events have the same encoding if and only if they are the same up to what the format carries |
| Codec.EncodeNorm | pkg/queue/filequeue_codec.go:74-152 | storing what was read back writes the same bytes |
| Codec.ShortRecordFits | pkg/queue/filequeue_codec.go:74-152 | a record shorter than 4 GiB has lengths and counts that fit their fields |
| Codec.EstimateEventSize | pkg/queue/filequeue_codec.go:55-72 | the estimate is the encoded length plus 12 for each IPv4 endpoint |
| Codec.EncodeBinary | pkg/queue/filequeue_codec.go:74-152 | the appending encoder writes the specified record |
| Codec.DecodeBinary | pkg/queue/filequeue_codec.go:158-335 | the decoder with its offset and bounds checks computes the specified decoder, short and malformed records included |
| Fifo.Conservation | pkg/queue/ringbuffer.go:54-180 | over any run nothing is lost, duplicated or reordered: initial content and admissions are departures and final content; drops are counted, the capacity is kept |
| Fifo.LossIsReported | pkg/queue/ringbuffer.go:70-120 | per enqueue, by the items before and after: the reply is dropped and the counter moves if and only if an open queue, without making the caller wait, holds no more than before; which event is gone under which policy, and when the caller waits |
| Fifo.LossesAreCounted | pkg/queue/ringbuffer.go:62-120 | over any run the counter grows by the evicted departures and the events turned away, and the events offered to the open queue are those admitted, turned away and told to wait |
| Fifo.FileLossesAreCounted | pkg/queue/filequeue.go:185-270 | the same of the file queue, whatever records it skips |
| Fifo.ConsumersAreTold | pkg/queue/ringbuffer.go:125-180 | the oldest event; without one the end if closed or cancelled, and to wait otherwise |
| Fifo.BlockingLosesNothing | pkg/queue/ringbuffer.go:95-105 | under the blocking policy no event is evicted or dropped |
| Fifo.StepsAgree | pkg/queue/filequeue.go:185-353 | the file queue does what the FIFO does, up to the codec, if and only if it does not meet a record over 64 MiB |
| Fifo.EarlyEnd | pkg/queue/filequeue.go:301-325 | an open file queue reports its end if and only if it holds records and all of them are over 64 MiB |
| Fifo.RunsAgree | pkg/queue/filequeue.go:110-379 | over whole runs with records of at most 64 MiB both queues give the same replies, counts and contents |
| Ring.RingBuffer.Enqueue | pkg/queue/ringbuffer.go:70-120 | one lock section of the ring makes the FIFO's step under every policy, reply and counter included, to which `LossIsReported` applies |
| Ring.RingBuffer.Dequeue | pkg/queue/ringbuffer.go:125-160 | the same for dequeue, with wrap-around of the head |
| Wal.LogAppend | pkg/queue/filequeue.go:110-124 | the bytes of one more record follow the bytes of the records before |
| Wal.LogFront | pkg/queue/filequeue.go:128-150 | at the read offset stand the length and the encoding of the oldest record, then the rest of the log |
| Wal.StoredRecordDecodes | pkg/queue/filequeue.go:384-391 | a stored record decodes to the event up to the codec |
| Wal.OwnRecordIff | pkg/queue/filequeue.go:194-245 | a slice of the encode buffer still holds its event's record after others were encoded into the array if and only if there were none or the last has the same encoding |
| Wal.PrefixFree | pkg/queue/filequeue_codec.go:74-152 | no encoding continues another |
| Wal.FileQueue.EncodeInto | pkg/queue/filequeue_codec.go:74-83 | encodes into the reused array and overwrites its front, or into a new one if it is too small |
| Wal.FileQueue.Resume | pkg/queue/filequeue.go:228-249 | a woken producer writes its slice as it is; if that still holds its record, this is the FIFO's enqueue |
| QueueRefinement.WokenProducer | pkg/queue/filequeue.go:185-249 | a producer that waits while any others come and wait writes its own record if and only if no other event was encoded into its array, or the last one has the same encoding |
| QueueRefinement.TwoBlockedProducers | pkg/queue/filequeue.go:185-249 | two waiting producers of different records, the second of which fits the buffer: the first one's record is lost |
| Wal.FileQueue.Enqueue | pkg/queue/filequeue.go:185-270 | up to its return or first wait: the bytes between the offsets stay the encodings of the buffered events, and the object makes the FIFO's step |
| Wal.FileQueue.Dequeue | pkg/queue/filequeue.go:276-353 | the same for dequeue; after the last record is delivered the file is rewound or, once closed, given up, and not if it was skipped |
| QueueRefinement.Lockstep | pkg/queue/filequeue.go:110-379 | ring and log driven by the same calls of one producer, waits and wakeups included, and any consumers give the same drop results, counts and depths, and the same events up to the codec |
| Wakeup.WakeupsAreSafeIff | pkg/queue/ringbuffer.go:70-180 | for every capacity, policy and set of threads, no schedule leaves anybody asleep un-notified beside a reason to run if and only if the queue broadcasts, or there is at most one consumer unless there are no producers, and under the blocking policy at most one producer unless there are no consumers |
| Wakeup.WakeupsAreNeverLost | pkg/queue/ringbuffer.go:70-180 | the safe half, also when the context is cancelled from the start |
| Wakeup.UnsafeThreadsLose | pkg/queue/ringbuffer.go:70-180 | the other half: a schedule that leaves somebody asleep un-notified beside a reason to run, whatever the capacity, though another thread has been notified |
| Wakeup.DroppingNeverSticks | pkg/queue/ringbuffer.go:70-180 | with a dropping policy, for any number of threads, no schedule leaves somebody asleep beside a reason to run and nobody notified |
| Wakeup.BlockingCanStick | pkg/queue/ringbuffer.go:95-110 | under the blocking policy one does, whatever the capacity, given a consumer and twice as many producers as slots |
| Wakeup.StepKeepsInv | pkg/queue/filequeue.go:228-353 | every lock section keeps that, whichever sleeper a signal picks |
| Wakeup.SectionsFollowFifo | pkg/queue/ringbuffer.go:70-160 | the protocol's sections move the count as the FIFO does, and a thread sleeps exactly when the FIFO tells it to wait |
| Replay.ConfigureMode | pkg/replayer/replayer_impl.go:206-247 | serial exactly in serial mode, with one at a time; bounded is the smaller of workers and pool size, 32 and 100 by default; faithful its own cap, or the workers; the configured lane depth, or 100000 |
| Replay.StepKeepsInv | pkg/replayer/replayer_impl.go:263-442 | every step of dispatcher, workers and surroundings keeps the invariant of routing, execution, slots and depth |
| Replay.InOrderAtMostOnce | pkg/replayer/replayer_impl.go:367-442 | in every run, cancelled or not, what a connection had executed is a prefix of what was dequeued for it, and at most one of its events has not returned |
| Replay.ExactlyOnce | pkg/replayer/replayer_impl.go:263-348 | when the replayer returns uncancelled, in any mode and from either queue, every dequeued event was executed exactly once, each lane in dequeue order, and the queue is closed and empty unless the file queue has skipped a record |
| Replay.SerialOrder | pkg/replayer/replayer_impl.go:354-442 | in serial mode, over all connections together: in every run what was executed is a prefix of what was dequeued, all but at most the last has returned, and at an uncancelled end both are all of it |
| Replay.SerialModeOrder | pkg/replayer/replayer_impl.go:206-222 | the same of the configuration that serial mode is given |
| Replay.LanesAreConnections | pkg/replayer/replayer_impl.go:315-360 | in every run two events wait or execute in one lane if and only if the mode is serial or their connections have the same key |
| Replay.StartsUnlessFull | pkg/replayer/replayer_impl.go:385-395 | in every run an event that a worker holds can start if and only if fewer than `concurrency` are executing |
| Replay.Bounds | pkg/replayer/replayer_impl.go:206-341 | in every run at most `concurrency` events execute at once, no two of one connection, and the lanes buffer at most `maxDepth` although their lengths are summed one by one while workers drain them |
| Progress.SomeStepHelps | pkg/replayer/replayer_impl.go:263-442 | in every state with a closed queue before the end, a step of the dispatcher or a worker is possible that decreases a measure of the work left |
| Progress.ReplayerCanFinish | pkg/replayer/replayer_impl.go:263-348 | so from every state a run can reach with the queue closed, cancelled or not, they can bring the replayer to its end |
| Replay.OneCallPerConnection | pkg/replayer/replayer_impl.go:354-395 | while a lane executes an event no other lane has anything to execute or release for its connection |
| UnboundedLanes.UnboundedLane.Enqueue | pkg/replayer/unbounded_lane.go:41-46 | appends, never blocks |
| UnboundedLanes.UnboundedLane.Dequeue | pkg/replayer/unbounded_lane.go:50-75 | hands out the oldest event, also after close; waits if empty and open, ends if empty and closed |
| UnboundedLanes.UnboundedLane.Close | pkg/replayer/unbounded_lane.go:79-84 | closes and keeps what is buffered |
| Pool.LeaseConservation | pkg/replayer/pool.go:86-195 | in every run of callers that make one call at a time per connection and none during close, every acquired handle is in exactly one place: leased to one connection, held by one call, taken over by close, or released once |
| Leases.MovesAreDisciplined | pkg/replayer/exec_decorators.go:190-244 | in the replayer over the pool, executions with their retries, releases of retiring lanes and the closing of the pool keep the discipline that the pool asks of its callers |
| Leases.ReplayerNeverReleasesTwice | pkg/replayer/replayer_impl.go:263-442 | so in every run of both, cancelled or not, no handle is released twice and no two lanes use one handle |
| Returns.NothingLeftBehind | pkg/replayer/replayer_impl.go:367-395 | in every run of both, when the replayer has returned, cancelled or not, no connection is leased and every handle ever acquired has been released exactly once, before the pool is closed |
| Pool.NoSharingNoDoubleRelease | pkg/replayer/pool.go:86-195 | so no handle is released twice, no two calls use one handle, and a handle in use is its connection's lease |
| Pool.StepAccounts | pkg/replayer/pool.go:86-195 | where every handle is after each step |
| Affinity.HandleIsKept | pkg/replayer/pool.go:80-160 | in every disciplined run a connection keeps its handle, and every call for it uses that one, until a release of it begins, a ping of it fails or the pool closes |
| Affinity.AcquireAlone | pkg/replayer/pool.go:86-160 | an undisturbed call whose acquisition succeeds ends with the leased handle if that is alive, and otherwise with a new one that is now the lease, a dead one having been released; nothing else changes |
| Affinity.ReleaseAlone | pkg/replayer/pool.go:162-173 | an undisturbed release drops the lease and releases its handle, if there is one |
| Pool.DeadLeaseIff | pkg/replayer/pool.go:117-126 | in any state, dropping a dead lease keeps every handle in one place if and only if the lease is still the one that was found dead |
| Pool.UndisciplinedDoubleRelease | pkg/replayer/pool.go:117-126 | a run of two concurrent calls for one connection that releases a handle twice |
| Drain.MoveKeepsInv | cmd/pgshadow/pipeline.go:296-366 | every move of the drain, the producer and the replayer keeps the order of the shutdown |
| Drain.PoolClosesLast | cmd/pgshadow/pipeline.go:346-366 | in every run the pool is closed after the replayer has returned and all its workers are gone, timeouts or not |
| Drain.DrainLosesNothing | cmd/pgshadow/pipeline.go:296-366 | with either queue: if no wait times out, nothing aborts the replayer and the file queue skips nothing, then by the time the pool closes every event dequeued before or queued at the closing of the queue was executed exactly once, in lane order, and the producer had finished |
| Drain.TimeoutStopsReplayer | cmd/pgshadow/pipeline.go:346-360 | while the drain waits for the replayer to end: if a wait has timed out the replayer has been cancelled, and it is cancelled only for that or an abort |
| Drain.DrainCanEnd | cmd/pgshadow/pipeline.go:296-366 | from every state a run can reach, timed out, aborted or neither, the producer's exit, the replayer and the drain can complete the shutdown |
| Drain.SmallRunsSkipNothing | pkg/queue/filequeue.go:319-325 | the queue in memory never skips, nor does the file queue if no record over 64 MiB is put into it |
| EndToEnd.LogTagged | pkg/pipeline/processor.go:246-330 | a logged statement carries the connection whose callback it came from |
| EndToEnd.QueuesDoNotInterfere | pkg/pipeline/processor.go:145-377 | on the queue: two runs with the same callbacks for a connection enqueue the same events for it, up to the naming of transaction ids |
| EndToEnd.ProducerFinishes | pkg/queue/filequeue.go:228-249 | a producer that offers its events until each is let in has had all of them let in when it exits |
| EndToEnd.EnqueuedIsExecuted | cmd/pgshadow/pipeline.go:296-366 | with a blocking queue and an undisturbed shutdown, what has been executed for a connection when the pool is closed is what was enqueued for it, in order, as the queue stores it |
| EndToEnd.CapturedIsExecuted | cmd/pgshadow/pipeline.go:296-366 | from the processor's log to the target: with the queue in memory, what has been executed for a connection is exactly what its own log enqueues |

## Left out

- Classifier.LexIff: where a cut goes astray, which takes an identifier that has misled the scanners before, its condition compares the tokens that follow; `AstrayCanAgree` shows that alignment is not necessary there.
- Classifier.ClassifyByGroups: has no converse, since different groups can have the same best class.
- Classifier.LiteralTextIsIgnored: requires closed quoted identifiers that hold nothing the semicolon scanners react to.
- Framing.EveryChunking: for the client direction requires the length bound whose necessity `ChunkInvariance` states.
- Capture.CapturedFromBytes: requires the same length bound.
- Session.SessionIsCaptured: is about statements' content; times, sequence numbers and transaction ids are the subject of `Grouping`. It requires a connection that is not closed in between; after a close `ClosedIsFresh` applies.
- Fifo.RunsAgree: requires records of at most 64 MiB, as `StepsAgree` says it must.
- QueueRefinement.Lockstep: requires a single producer, as the pipeline has; `WokenProducer` says what happens with several.
- EndToEnd.CapturedIsExecuted: is for the queue in memory; with the file queue `EnqueuedIsExecuted` gives the events as the codec carries them.
- Text is a sequence of characters that stand for bytes; upper and lower case and white space are those of ASCII. The keyword and built-in tables of the classifier are a parameter.
- Sequence numbers, transaction ids and counters are unbounded; they do not wrap at 64 bits. Records of 4 GiB and more are not stored.
- Read and write failures of the queue file, and recovery from a damaged file.
- Reuse of the write buffer, shrinking of slices, clearing of slots and the token pool: values are copied.
- Wakeups of lane workers: a worker step is enabled whenever the lane has something for it.
- Parse-error counters and all other metrics, except the source execution time of a statement.
- The rule matrix of the filter, its patterns and the guard's patterns: arbitrary functions.
- Error policies, pacing and rate limits around the executor: an execution starts, may acquire several times, and returns. An abort is a cancellation.
- Fairness, and that a lane gets a connection when there are more connections than pool handles: the executor is taken to return.
- Rows without a statement before them, and statements sent in the middle of a COPY's rows.
- The Kafka queue, packet capture and reassembly, configuration loading, the control plane, failover and pause/resume.
