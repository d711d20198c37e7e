# A verified model of the Lite2API gateway

Lite2API is a single-process gateway in front of several AI providers. It decides which
account serves a request, tries another one when that is safe, and passes the answer on only
as far as it can tell that the answer is complete. This project models the parts of the
gateway in which those decisions are made, in Dafny, and proves what they promise.
`dafny verify dfyconfig.toml` checks all of it.

There are three groups of modules.

**Is the answer complete?** A byte-at-a-time JSON scanner with a bounded stack drives a
checker that keeps counters and a few short strings; a framer for event streams drives three
protocol machines (Chat, Responses, Messages). None of them builds a document.

- `GoText`, `Machines`: library functions of the Go runtime written out, and machines that
  consume an input symbol by symbol (an input may be cut into pieces, machines may be piped).
- `JsonGrammar`: JSON text as concrete syntax trees. `JsonScanner`: the scanner.
  `JsonReading` and `JsonBuilding`: the two directions of "the scanner is the grammar".
- `Places`, `CompletionContract`: what a path string stands for, and what the checker
  concludes from each value. `ChatDocument`, `AnswerDocument`: complete answers as
  predicates on their trees, which mention no scan. `ChatReading`, `ChatVerdict`,
  `ItemReading`, `RootReading`, `RootAccount`, `BodyVerdict`: the proof that the checker
  decides exactly those predicates, from the values of one call up to the whole body.
- `JsonOneTree`: the grammar is unambiguous, which makes "the tree of a text" well defined.
- `EventStream`, `Compact`, `StreamEvents`, `ChatStream`, `ResponsesStream`,
  `MessagesStream`, `StreamVerdict`: streamed answers, from bytes to verdict. `ChatShape`,
  `ResponsesShape`, `MessagesShape`, `StreamShape`: which texts are accepted streams, said
  of their events alone, in both directions.
- `JsonCompletion`, `ResponseCompletion`: the two objects of the gateway, with their fields,
  loops and branches, each method proved against the functions above.
- `Delivery`: what reaches the client. `Samples`: small answers for which the findings
  below occur.
- `LooseScanner`, `Envelope`: the request side, where a bracket scanner walks the top level
  of a body to bound its fields and to find duplicates.

**Which account serves?**

- `Capacity`: concurrency slots shared across hot reloads and the broadcast that wakes
  waiters, as a transition system over atomic steps in any order.
- `Breaker`: the circuit breaker whose sequence numbers make the order of reports irrelevant.
- `Accounts`, `TargetSelection`, `Failover`, `Readiness`, `Continuation`: how a route
  resolves, in which order targets are tried, and two other pieces of code, readiness and the
  continuation check, that have to agree with what selection really does.

**What happens to the request?**

- `RequestLoop`: the attempt loop, which must not repeat a submission that may have been
  accepted. `CredentialRefresh`: the refresh of a rejected credential that requests share.
- `BodyLease`: the memory budget of request bodies.
- `StartupScan`: the bounded heap that recovers the newest records of the request log.
- `Ranges`, `Sorting`: the pigeonhole principle and sorting.

Conventions. A byte is a `char`, and every theorem holds for all characters. Where the
gateway returns an error the model returns a rejection; which message it carries is not
modelled. Objects that the gateway updates in place are classes here, and their `State`,
`Scan`, `Kept`, `Verdict` or `Contents` functions give the value the theorems are about.
Concurrent code is a machine over its atomic steps: one compare-and-swap, one locked section,
one load.

## Model

| member | source | states |
|---|---|---|
| JsonBuilding.ScannerIsGrammar | internal/gateway/response_completion.go:380-651 | the scanner accepts a text if and only if it is a JSON object of RFC 8259 (sections 2 to 7) nested at most 128 deep, with numbers and literals of at most 512 bytes and no tracked member name twice in one object |
| JsonBuilding.AcceptedIsDocument | internal/gateway/response_completion.go:380-651 | from an accepted text the syntax tree can be rebuilt: a tree within the limits whose text is exactly the text read |
| JsonOneTree.OneTree | internal/gateway/response_completion.go:380-651 | the grammar is unambiguous: documents with the same text are equal but for pads that no text shows, so the tree of an accepted text is the only one |
| JsonReading.ReadDocument | internal/gateway/response_completion.go:380-651 | the text of every tree within the limits is read to its end, and observers are told exactly its values: path, raw key, decoded text, kind, in document order |
| JsonReading.ReadValue | internal/gateway/response_completion.go:514-640 | wherever a value is expected, the text of any value within the limits is read, reported under the path of the place, and leaves the enclosing stack as it was |
| JsonReading.ReadMembers | internal/gateway/response_completion.go:477-512 | the members of an object, one after the other, with the tracked names remembered and each value under the path of its key |
| JsonReading.ReadItems | internal/gateway/response_completion.go:477-525 | the items of an array, each under the path of the array followed by [] |
| JsonReading.ReadKey | internal/gateway/response_completion.go:423-448 | a key and its colon, when its name is not a tracked name the object already has, make the decoded name the current key of the frame and note it |
| JsonReading.ReadStr | internal/gateway/response_completion.go:399-459 | a string value is reported decoded, or as one NUL byte when it is longer than its place allows |
| JsonReading.ReadLit | internal/gateway/response_completion.go:461-470 | a number or literal ends at the delimiter after it and is reported as written |
| JsonReading.CloseContainer | internal/gateway/response_completion.go:623-640 | the right bracket closes the innermost container, is reported with its path, and completes a value of the frame around it |
| JsonCompletion.CheckIsJoint | internal/gateway/response_completion.go:380-390 | checking the meaning while scanning gives the same outcome as scanning first and judging the reported values afterwards |
| JsonCompletion.SyntaxCheck | internal/gateway/response_completion.go:380-390 | without an operation, running to the end and finishing decides the grammar |
| JsonCompletion.BodyCheck | internal/gateway/response_completion.go:251-309 | with an operation, the state reached at the end decides whether the whole body is accepted |
| JsonCompletion.CheckSound | internal/gateway/response_completion.go:461-470 | a number or literal is only ever pending inside an open container, so the end of input cannot complete one unobserved |
| Places.MemberPlace | internal/gateway/response_completion.go:514-525 | comparing path strings is following the tree: the path of a member is one the checker looks for exactly when the place of its object and its key say so; only an empty key at the root is excluded |
| Places.ItemPlace | internal/gateway/response_completion.go:514-525 | the same for the items of an array, without exception |
| Places.Recognised | internal/gateway/completion_json_contract.go:80-126 | each path string stands for one place and no other |
| JsonCompletion.JsonCompletion.constructor | internal/gateway/response_completion.go:37-53 | a fresh checker is at the start of a document, with nothing seen |
| JsonCompletion.JsonCompletion.AppendToken | internal/gateway/response_completion.go:391-397 | a byte is kept up to the limit of its place; the first one beyond it marks the token as overflowing |
| JsonCompletion.JsonCompletion.BeginString | internal/gateway/response_completion.go:578-584 | a string starts with an empty token, as a key or under the path of its value |
| JsonCompletion.JsonCompletion.ValueDone | internal/gateway/response_completion.go:616-622 | a finished value completes the document or makes the enclosing frame expect a comma or its end |
| JsonCompletion.JsonCompletion.FinishKey | internal/gateway/response_completion.go:435-448 | a repeated tracked name is refused; otherwise the name is noted and becomes the current key |
| JsonCompletion.JsonCompletion.FinishText | internal/gateway/response_completion.go:424-452 | a string value is observed once, under its path, and then done |
| JsonCompletion.JsonCompletion.FinishString | internal/gateway/response_completion.go:423-453 | the closing quote of a key or of a value |
| JsonCompletion.JsonCompletion.ScalarDone | internal/gateway/response_completion.go:585-597 | a number or literal is refused if it overflowed or is not JSON, else observed and done |
| JsonCompletion.JsonCompletion.NoteLeaf | internal/gateway/completion_json_contract.go:38-130 | what a leaf tells the frame of its object, and which leaves are refused, key by key and then path by path |
| JsonCompletion.JsonCompletion.IdentityTooLong | internal/gateway/completion_json_contract.go:44-48 | an id, name or call_id of a call that has more than 256 bytes, or was cut off |
| JsonCompletion.JsonCompletion.ObserveField | internal/gateway/completion_json_contract.go:49-79 | the switch on the key: what the innermost frame notes, and the index a choice may have |
| JsonCompletion.JsonCompletion.ObservePlace | internal/gateway/completion_json_contract.go:80-129 | the switch on the path: payloads, finished choices, and arguments that must be complete |
| JsonCompletion.JsonCompletion.ObserveResult | internal/gateway/completion_json_contract.go:38-130 | both switches, as one update of the innermost frame |
| JsonCompletion.JsonCompletion.ObserveStatus | internal/gateway/response_completion.go:61-67 | only a string "completed" makes a Responses body terminal; failed, incomplete and cancelled fail it |
| JsonCompletion.JsonCompletion.ObserveJson | internal/gateway/response_completion.go:55-74 | error, status, stop reason and token count are taken from the root of the document |
| JsonCompletion.JsonCompletion.ObserveLeaf | internal/gateway/response_completion.go:598-615 | all observers of a leaf, in the order they run |
| JsonCompletion.JsonCompletion.RecordToolId | internal/gateway/completion_json_contract.go:271-287 | at most 128 calls, and no identity twice |
| JsonCompletion.JsonCompletion.ResultFrameAt | internal/gateway/completion_json_contract.go:29-36 | the innermost open frame at a place, or none |
| JsonCompletion.JsonCompletion.EnterResult | internal/gateway/response_completion.go:540-558 | the frame of an opening container, what its parent notes, and the counts and flags |
| JsonCompletion.JsonCompletion.OpenResult | internal/gateway/response_completion.go:540-558 | a container in a forbidden place is refused; otherwise it is entered and observed |
| JsonCompletion.JsonCompletion.CloseCall | internal/gateway/completion_json_contract.go:144-159 | a function call needs a name, complete arguments, an identity and type unless it is of the older kind, and permission |
| JsonCompletion.JsonCompletion.CloseChoice | internal/gateway/completion_json_contract.go:168-186 | a choice needs a payload, an index not seen before when a number was asked for, and calls exactly if its finish reason says so |
| JsonCompletion.JsonCompletion.CloseOutputItem | internal/gateway/completion_json_contract.go:200-218 | a Responses output item: a complete function call, a message with content, or another typed item |
| JsonCompletion.JsonCompletion.CloseBlock | internal/gateway/completion_json_contract.go:219-233 | a Messages content block: a complete tool use or another block with content |
| JsonCompletion.JsonCompletion.CloseFrame | internal/gateway/completion_json_contract.go:132-252 | what each kind of closing frame tells the frames around it, or refuses |
| JsonCompletion.JsonCompletion.CloseResult | internal/gateway/completion_json_contract.go:132-252 | the frame leaves the stack, and the frames around it learn of it |
| JsonCompletion.JsonCompletion.Close | internal/gateway/response_completion.go:623-640 | a closing bracket on the scanner and on the contract together |
| JsonCompletion.JsonCompletion.OpenAt | internal/gateway/response_completion.go:526-559 | an opening bracket on both, at most 128 deep and at the root only a brace |
| JsonCompletion.JsonCompletion.StartValue | internal/gateway/response_completion.go:514-577 | the first byte of a value decides what is read |
| JsonCompletion.JsonCompletion.StepString | internal/gateway/response_completion.go:399-459 | one byte inside a string: escapes, the closing quote, control characters |
| JsonCompletion.JsonCompletion.StepBetween | internal/gateway/response_completion.go:471-513 | one byte between tokens, by the state of the innermost frame |
| JsonCompletion.JsonCompletion.Step | internal/gateway/response_completion.go:398-577 | one byte: the object does what the scanner and the contract do |
| JsonCompletion.JsonCompletion.Feed | internal/gateway/response_completion.go:380-390 | any piece of input: the object is in the state of the machine after that piece, or the piece is refused |
| JsonCompletion.JsonCompletion.Finish | internal/gateway/response_completion.go:641-651 | true exactly if the text read is a whole document |
| BodyVerdict.BodyIsComplete | internal/gateway/response_completion.go:251-309 | on every document within the limits, the incremental checker accepts a buffered body exactly if a predicate on the syntax tree holds. Chat: choices with message, finish reason and payload, complete and permitted calls with distinct identities, indexes that differ. Responses: a last status that says completed and an output of whole items. Messages: a last stop reason and content of whole blocks, with tool uses exactly if the reason is tool_use, or a token count on the counting endpoint. No reported error |
| BodyVerdict.AcceptedBody | internal/gateway/response_completion.go:251-309 | and exactly the texts of such documents are accepted, for each of the three operations |
| BodyVerdict.PlainBody | internal/gateway/response_completion.go:423-448 | where no root member with an empty or over-long key has an object as its value, that predicate looks at the root as it is written |
| BodyVerdict.EmptyKeysMatter | internal/gateway/response_completion.go:514-525 | to every document, under every empty or over-long key, an object can be added that the names of the root do not show, so that the plain reading is complete or not as before, and the checker refuses |
| AnswerDocument.SplicedPlain | internal/gateway/response_completion.go:514-525 | reading such members in place of the root changes nothing exactly if no object stands under an empty or over-long root key |
| Samples.SpokenAnswer | internal/gateway/response_completion.go:262-266 | an answer of one choice that says something is within the limits, plain, complete, and accepted |
| Samples.HiddenErrors | internal/gateway/response_completion.go:423-448 | that answer with an error report under an empty key, or under one of 513 bytes, is as complete as before by the names of its root, and refused |
| ChatDocument.NamedByFunction | internal/gateway/completion_json_contract.go:132-143 | a call is checked under the name of its last function object exactly if no other name is written behind that object |
| ChatDocument.LaterNameWins | internal/gateway/completion_json_contract.go:63-66 | every complete call stays complete, and is checked under any permitted name one likes, when a direct name is added behind its unchanged function object |
| ChatDocument.LaterNameFits | internal/gateway/response_completion.go:435-448 | such a call is a value within the limits, unless it already had a direct name |
| Samples.RenamedCallAccepted | internal/gateway/completion_json_contract.go:144-159 | an answer is accepted whose only call is of a function the request did not offer, because an offered name is written behind the function |
| RootAccount.RootAccounts | internal/gateway/completion_json_contract.go:132-252 | what reading the root one member after the other has counted, flagged and remembered at the end is one condition on the whole list of members, and is refused when that condition fails |
| RootAccount.AdmitMore | internal/gateway/completion_json_contract.go:168-186 | admitting choices one by one, with running counters and sets, is one condition on the list of choices and what came before |
| RootAccount.TakeMore | internal/gateway/completion_json_contract.go:200-233 | the same for output items and content blocks, with their calls |
| BodyVerdict.IndexesCovered | internal/gateway/completion_json_contract.go:175-180 | when n choices were asked for, a complete answer has exactly the indexes 0 to n-1 |
| RootReading.ReadingTells | internal/gateway/response_completion.go:55-74 | reading a document tells the checker its root members in order, with the members of objects under empty or over-long keys in their place |
| ItemReading.SeeUnit | internal/gateway/completion_json_contract.go:200-233 | reading one output item of a Responses answer, or one content block of a Messages answer, refuses it or counts its call once |
| ItemReading.SeeTolerated | internal/gateway/completion_json_contract.go:200-221 | items that another operation would judge are only checked for the length of their identities |
| ChatVerdict.SeeChoice | internal/gateway/completion_json_contract.go:168-186 | reading one choice of any shape either refuses it or counts it once, with its calls, its index and whether it finished |
| ChatVerdict.SeeMessageObject | internal/gateway/completion_json_contract.go:160-167 | reading one message: its calls are counted for its choice, and it needs text or a call |
| ChatReading.SeeCall | internal/gateway/completion_json_contract.go:138-159 | reading one tool call: the later of its own name and its function's counts, and it is recorded once |
| ChatReading.SeeIgnored | internal/gateway/response_completion.go:526-640 | values in places the checker does not look at change nothing, however deep they are |
| CompletionContract.SeenInRange | internal/gateway/completion_json_contract.go:175-180 | no choice index is negative and the array of 128 seen choices is never indexed outside of it |
| EventStream.FrameByLine | internal/gateway/response_completion.go:76-126 | framing byte by byte is cutting the text at every LF and handling line after line |
| EventStream.CutAtEveryLine | internal/gateway/response_completion.go:84-97 | the lines and the unfinished rest are the text, cut at every LF and nowhere else |
| EventStream.CollectEvent | internal/gateway/response_completion.go:101-126 | the data of an event is its data values joined by LF, without the leading empty ones; its name is the last one given |
| EventStream.RenderedIsRead | internal/gateway/response_completion.go:101-135 | an event and its data written on single lines are read back as that one event |
| Compact.SqueezesText | internal/gateway/completion_stream_contract.go:389-395 | compacting the text of a tree gives the text of the tree without white space |
| Compact.SameTrees | internal/gateway/completion_stream_contract.go:389-395 | two documents count as the same arguments exactly if their syntax trees are equal once white space is dropped |
| ChatStream.LedgersAgree | internal/gateway/completion_stream_contract.go:85-250 | after any accepted chunks, the tool ledger and the choice ledger both say exactly which choices were mentioned and which have ended, the counters are the sizes of those sets, and nothing follows the end of a choice |
| ChatStream.EndedStream | internal/gateway/completion_stream_contract.go:240-250 | if [DONE] is accepted, every choice ended exactly once with nothing for it afterwards, and when n were asked for they are the choices 0 to n-1 |
| ChatStream.CallsAreDistinct | internal/gateway/completion_stream_contract.go:207-230 | every call of a finished choice is named and permitted with complete arguments, and calls whose kind in the state is not "legacy" have identities, no two of them the same |
| ChatStream.TypesAreTold | internal/gateway/completion_stream_contract.go:167-172 | at every point, in a choice without an older function_call the calls of kind legacy are exactly those for which some tool_calls delta declared the type legacy, and in a choice with one no delta did |
| ChatStream.CallsAreIdentified | internal/gateway/completion_stream_contract.go:207-230 | only calls with a tool_calls delta that declares the type legacy escape the identity checks: a finished call without an identity, or one of two with the same, has such a delta, and where no delta declares it every tool call has an identity and no two share one |
| ChatStream.DeclaredCallsEscape | internal/gateway/completion_stream_contract.go:216-230 | the condition is needed: a stream of one choice whose three calls declare the type legacy is accepted to its end, though two calls share an identity and one has none |
| ChatStream.ArgumentBytesCounted | internal/gateway/completion_stream_contract.go:50-61 | the argument budget is charged for exactly the pieces that arrived, and never exceeds 1 MiB |
| ChatShape.TakesExactlyWhatFits | internal/gateway/completion_stream_contract.go:85-238 | the tool contract takes the choices of chunks if and only if each has a good index and text and each of its parts fits the parts sent before it: slots, identities, types, budgets, and at the end of a choice whole calls with new identities; the state of the checker is not mentioned |
| ChatShape.EndsExactly | internal/gateway/completion_stream_contract.go:240-250 | [DONE] is taken if and only if every choice mentioned has ended, with nothing for it afterwards, and they are the choices 0 to n-1 when n were asked for |
| ResponsesStream.CallsTell | internal/gateway/completion_stream_contract.go:298-387 | at every point the state of a call is its story: announced, some deltas, arguments done, item done, in that order, and its arguments are the deltas so far |
| ResponsesStream.CompletedStream | internal/gateway/completion_stream_contract.go:264-297 | if the completed response is accepted, its function calls are exactly the streamed ones, each from announcement to end: every notice that names an item id, call id or name gives that of the output item, and the arguments of the done event, and of the deltas if there were any, are those of the output up to white space |
| ResponsesShape.TakesExactlyWhatFits | internal/gateway/completion_stream_contract.go:298-387 | Responses events are taken if and only if each fits the events before it: a call is announced, extended, filled and closed in that order, with identities that agree and arguments that match, within the numbers and the budget |
| ResponsesShape.MatchesExactlyWhatFits | internal/gateway/completion_stream_contract.go:279-295 | the final output is taken if and only if its calls are exactly those sent, each closed and with the identities and arguments that were sent |
| MessagesStream.BlocksTell | internal/gateway/completion_stream_contract.go:397-517 | at every point each block started, grew and stopped in that order, the start notices of tool blocks carry different identities, the counter is the number of tool blocks that started and stopped, and the bytes charged are the initial inputs plus all deltas |
| MessagesStream.StoppedStream | internal/gateway/completion_stream_contract.go:425-435 | if message_stop is accepted, every block ran from start to stop, the start notices of tool_use blocks have distinct identities, and there are such notices exactly if the last stop reason is tool_use |
| MessagesShape.TakesExactlyWhatFits | internal/gateway/completion_stream_contract.go:397-517 | Messages events are taken if and only if each fits the events before it: a block starts once, grows by pieces of its kind, and stops with whole input, within the numbers and the budget |
| MessagesShape.StopsExactlyAtTheEnd | internal/gateway/completion_stream_contract.go:425-435 | message_stop is taken if and only if every block that started has stopped and there are tools exactly if the last stop reason says so |
| StreamVerdict.AcceptedChat | internal/gateway/response_completion.go:128-148 | an accepted Chat text is chunks followed by [DONE], the chunks tell every choice to its end with whole and permitted calls, and their calls have identities of their own, but for those that a delta declares legacy |
| StreamVerdict.AcceptedResponses | internal/gateway/response_completion.go:213-220 | an accepted Responses text ends with a completed response whose output corresponds, in that sense, to the notices streamed before it |
| StreamVerdict.AcceptedMessages | internal/gateway/response_completion.go:221-245 | an accepted Messages text ends with message_stop after whole blocks |
| StreamVerdict.ChatLedgersAgree | internal/gateway/response_completion.go:196-212 | after every event of a Chat stream both ledgers agree, choice by choice |
| StreamVerdict.PiecesMakeNoDifference | internal/gateway/response_completion.go:76-99 | however the bytes are split, the verdict is that of the whole text |
| StreamShape.ChatExactly | internal/gateway/response_completion.go:128-212 | a text is an accepted Chat stream if and only if it is framed to its end, its events decode and report no failure, their choices fit one after the other, and [DONE] comes once every story is complete |
| StreamShape.ResponsesExactly | internal/gateway/response_completion.go:128-220 | the same for Responses: events that fit, none of them the completion, and then a completed response whose body is accepted and whose output is what was sent |
| StreamShape.MessagesExactly | internal/gateway/response_completion.go:128-249 | the same for Messages: events that fit, a message that began and a reason to stop, and then message_stop |
| ResponseCompletion.CheckPieces | internal/gateway/response_completion.go:76-99 | a body checked in the pieces it arrives in gets the verdict of the whole, buffered or streamed |
| ResponseCompletion.ValidToolArguments | internal/gateway/completion_json_contract.go:20-27 | trimmed, starting with a brace, at most 1 MiB, and a JSON object within the scanner's limits |
| ResponseCompletion.CompleteBody | internal/gateway/response_completion.go:251-309 | a body checked in one piece |
| ResponseCompletion.FinishCalls | internal/gateway/completion_stream_contract.go:216-230 | in whatever order the map yields them, the calls of a choice finish exactly if each is whole and their identities are new and distinct |
| ResponseCompletion.ResponseCompletion.constructor | internal/gateway/response_completion.go:37-53 | a requested stream that does not come, or an unsolicited one, is an error from the start |
| ResponseCompletion.ResponseCompletion.ObserveChatTools | internal/gateway/completion_stream_contract.go:85-238 | the choices of a chunk, one by one, as the choice machine takes them |
| ResponseCompletion.ResponseCompletion.ChatChoiceChunk | internal/gateway/completion_stream_contract.go:115-235 | one choice of a chunk: index, text, deltas, and the end of the choice |
| ResponseCompletion.ResponseCompletion.EnterChoices | internal/gateway/response_completion.go:197-212 | the ledger of seen and finished choices |
| ResponseCompletion.ResponseCompletion.AdvanceCall | internal/gateway/completion_stream_contract.go:345-386 | one event of a function call, refused out of order |
| ResponseCompletion.ResponseCompletion.ObserveResponsesTools | internal/gateway/completion_stream_contract.go:252-387 | one Responses event before the last |
| ResponseCompletion.ResponseCompletion.OutputMatches | internal/gateway/completion_stream_contract.go:279-295 | the final output and the streamed calls match in both directions |
| ResponseCompletion.ResponseCompletion.StartBlock | internal/gateway/completion_stream_contract.go:442-478 | a content block starts once, and a tool block with input and a new identity |
| ResponseCompletion.ResponseCompletion.GrowBlock | internal/gateway/completion_stream_contract.go:483-503 | a delta must fit the kind of its block |
| ResponseCompletion.ResponseCompletion.StopBlock | internal/gateway/completion_stream_contract.go:504-515 | a tool block stops with complete input that agrees with what it began with |
| ResponseCompletion.ResponseCompletion.ObserveMessagesTools | internal/gateway/completion_stream_contract.go:397-517 | one Messages event before the last |
| ResponseCompletion.ResponseCompletion.MayStop | internal/gateway/completion_stream_contract.go:425-435 | all blocks stopped, and tools counted exactly if the stop reason says so |
| ResponseCompletion.ResponseCompletion.SseEvent | internal/gateway/response_completion.go:128-249 | one event: nothing after the terminal one, [DONE] only for Chat, failures refused, then the protocol of the operation |
| ResponseCompletion.ResponseCompletion.SseLine | internal/gateway/response_completion.go:101-126 | one line: comment, event name, data, or dispatch |
| ResponseCompletion.ResponseCompletion.FeedStream | internal/gateway/response_completion.go:84-98 | any piece of a stream leaves the object in the state of the machine |
| ResponseCompletion.ResponseCompletion.Feed | internal/gateway/response_completion.go:76-99 | once something is wrong nothing more is looked at |
| ResponseCompletion.ResponseCompletion.Finish | internal/gateway/response_completion.go:251-309 | a stream must have nothing left over and have reached its end; a buffered body must satisfy its contract |
| Delivery.StreamResponse | internal/gateway/gateway.go:1630-1771 | delivered bytes are a prefix of the body the checker never objected to; a buffered body is delivered whole exactly if it ends properly and is accepted; one of at most 64 KiB that is not accepted commits nothing, not even a status; a stream is reported delivered exactly if the piece that brings its last event completes a whole stream, and that much of it is then what was delivered |
| Delivery.SplitsMatter | internal/gateway/gateway.go:1728-1735 | an accepted stream followed by a comment line is delivered when the line arrives with its last event, and refused when the line is split behind its colon |
| Samples.SplitIsRefused | internal/gateway/gateway.go:1728-1735 | a stream of one chunk and the end marker for which that happens |
| Delivery.FeedPiece | internal/gateway/gateway.go:1724-1728 | the checker has read exactly what has arrived |
| Delivery.Judge | internal/gateway/gateway.go:1729-1736 | the verdict before a terminal chunk or at the end is that of everything read |
| LooseScanner.SkipsExactly | internal/gateway/gateway.go:1376-1434 | on every valid value nested at most 256 deep, the bracket scanner returns exactly the end of the value |
| LooseScanner.SkipValue | internal/gateway/gateway.go:1376-1434 | the end of any value, by its first byte |
| LooseScanner.SkipContainer | internal/gateway/gateway.go:1389-1434 | the loop over a container with its array of 256 brackets is the bracket machine |
| LooseScanner.ScanString | internal/gateway/gateway.go:1355-1374 | the end of a string, escapes skipped and control characters refused |
| Envelope.EnvelopeSeesKeys | internal/gateway/gateway.go:1261-1320 | on every valid object the walk sees exactly its top-level keys, and judges them in order against the limits |
| Envelope.EnvelopeWithinLimits | internal/gateway/gateway.go:1261-1341 | within the limits an object is accepted exactly if no two decoded keys are equal |
| Envelope.DuplicatesAreFound | internal/gateway/gateway.go:1322-1341 | among keys that decode and have legal length a duplicate is reported exactly if two denote the same name |
| Envelope.LimitsMean | internal/gateway/gateway.go:1276-1295 | the raw limits are at most 256 fields of at most 1536 bytes each |
| Envelope.ValidateTopLevelEnvelope | internal/gateway/gateway.go:1261-1320 | the walk itself, with the fault it reports first |
| Envelope.ValidateKeys | internal/gateway/gateway.go:1322-1341 | the first key that does not decode, is too long or repeats an earlier one |
| Capacity.RunKeeps | internal/gateway/runtime.go:425-506 | after any interleaving of requests, releases and reloads: one cell per account id, each counting its leases, one notifier, and nothing missed by a waiter |
| Capacity.NoLostWakeUp | internal/gateway/runtime.go:663-694 | as long as the notifier has not moved since a sleeping request subscribed, every account it found full is still full, or a release of that very account has decremented and is about to broadcast |
| Capacity.OneCounterPerAccount | internal/gateway/runtime.go:35-53 | all generations count an account id on one cell, also after it was removed and added again, and the cell holds the number of outstanding leases |
| Capacity.AcquireWithinLimit | internal/gateway/runtime.go:218-233 | a bounded acquire that succeeds leaves the counter at most at the limit of the generation that acquired |
| Capacity.ReloadKeeps | internal/gateway/runtime.go:478-506 | a reload keeps every counter, every lease and every waiter's claim |
| Capacity.DecrementKeeps | internal/gateway/runtime.go:235 | a decrement keeps all of it: the counter again equals the leases on it, and waiters are excused while its broadcast is pending |
| Capacity.HeldMayReturn | internal/gateway/runtime.go:235 | a lease that is held can always be given back, so no counter goes below zero |
| Capacity.AnnounceKeeps | internal/gateway/runtime.go:441-446 | a broadcast keeps all of it, because no waiter is at the current epoch any more |
| Capacity.AnnounceWakes | internal/gateway/runtime.go:441-446 | after a broadcast every sleeping request may go on |
| Breaker.VerdictIsOfTheHistory | internal/gateway/runtime.go:316-366 | in whatever order attempts report, the failure count is zero exactly if every failed attempt is older than some successful one |
| Breaker.NewestDecides | internal/gateway/runtime.go:321-366 | the newest reported attempt decides: zero failures exactly if it succeeded, and an open circuit only if it failed |
| Breaker.SameReportsSameVerdict | internal/gateway/runtime.go:321-366 | the same reports in another order give the same verdict |
| Breaker.TripsOnThreshold | internal/gateway/runtime.go:358-365 | a trip that was not forced means at least threshold failures, all newer than the newest success that was applied (none applied: newer than none) |
| Breaker.HistoryRemembered | internal/gateway/runtime.go:55-63 | what the fences remember of a history: every applied success has at most the sequence of the success fence, which is that of one of them or zero; failures since then are counted |
| Breaker.BreakerRuntime.BeginAttempt | internal/gateway/runtime.go:316-319 | attempts are numbered without gaps |
| Breaker.BreakerRuntime.ReportSuccess | internal/gateway/runtime.go:321-339 | a success older than the newest failure changes nothing; any other closes the circuit |
| Breaker.BreakerRuntime.ReportFailure | internal/gateway/runtime.go:347-366 | a failure older than the newest success changes nothing; any other counts, and may open the circuit |
| Accounts.RequirementsCompatible | internal/gateway/request_requirements.go:275-306 | only an explicit negative fact, scoped to interface, model, effort and credential, excludes an account |
| Accounts.SupportsRequestedReasoning | internal/gateway/request_requirements.go:335-351 | an effort is supported if it is declared, or if nothing is known about the model |
| TargetSelection.KeysDiffer | internal/gateway/runtime.go:840-842 | keys of different positions differ, whatever the names contain |
| TargetSelection.OrderedKeeps | internal/gateway/runtime.go:849-899 | ordering neither loses nor invents candidates |
| TargetSelection.CollectCandidates | internal/gateway/runtime.go:708-732 | the targets that may serve a request, as authored, and those that never can |
| TargetSelection.TrySelectTargets | internal/gateway/runtime.go:702-765 | the first candidate in order that is available and has a free slot at the moment it is tried, what is excluded from then on, and why nothing was selected |
| Failover.SelectionExcludes | internal/gateway/runtime.go:738-752 | after a selection in a static order, everything of its rank or earlier that could serve the request is excluded |
| Failover.LaterSelection | internal/gateway/runtime.go:702-765 | so the next selection has a strictly later rank, though breakers and capacity changed meanwhile |
| Failover.TriedInOrder | internal/gateway/gateway.go:625-674 | over a whole request, targets are visited in strictly increasing rank for the empty, priority and sticky strategies |
| Failover.NoTargetTwice | internal/gateway/gateway.go:625-674 | for every strategy, no target is tried twice and attempts are at most the length of the chain |
| Readiness.TrySelectAccounts | internal/gateway/runtime.go:767-827 | on a route of accounts: a serving account with a free slot, or the reason why there is none |
| Readiness.LegacySelectsOrWaits | internal/gateway/runtime.go:767-827 | every answer selects or reports capacity exactly if some account serves now |
| Readiness.TargetAgrees | internal/gateway/operations.go:266-296 | readiness and selection agree on each target and operation |
| Readiness.AccountAgrees | internal/gateway/operations.go:277-295 | and on each account |
| Readiness.ReadinessAgrees | internal/gateway/runtime.go:625-645 | on a validated configuration a route is ready exactly if, for some operation, an unconditional selection would succeed or report capacity |
| Readiness.RouteHealthTargets | internal/gateway/operations.go:313-349 | the accounts and models readiness looks at |
| Readiness.CheckRoute | internal/gateway/runtime.go:625-645 | the loop over them |
| Continuation.StableLogicalModel | internal/gateway/continuation.go:85-97 | a logical model is stable if all its declared upstream models agree |
| Continuation.ValidateContinuation | internal/gateway/continuation.go:15-83 | accepted exactly if there is one owner, its model is fixed, and it is a direct upstream |
| Continuation.CollectTargetOwners | internal/gateway/continuation.go:34-45 | the owners by way of targets, whatever their availability |
| Continuation.CollectAccountOwners | internal/gateway/continuation.go:46-69 | the owners by way of accounts |
| Continuation.SelectedIsOwner | internal/gateway/runtime.go:696-827 | whatever selection returns is one of the owners the check looked at |
| Continuation.ContinuationIsStable | internal/gateway/continuation.go:15-83 | if a continuation is accepted, any two selections for it have the same account, model and credential, for any exclusions, breakers, loads and sessions |
| RequestLoop.ServeAttempts | internal/gateway/gateway.go:611-919 | no submission that may have been accepted is followed by another; at most two per selection; the loop ends within its attempts, and such a submission is delivered or reported as uncertain |
| RequestLoop.DoUpstream | internal/gateway/oauthrecovery.go:182-207 | a second submission only after an explicit 401 from the trusted adapter |
| RequestLoop.RetriesExactlyWhenUnaccepted | internal/gateway/gateway.go:1926-1959 | the loop goes on in exactly the cases where nothing can have been accepted: not written; 401, 402, 403 or 429; 404 on an explicit target; or an attested retryable answer |
| CredentialRefresh.Coordinator.Enter | internal/gateway/oauthrecovery.go:89-116 | expired results are forgotten; then a request joins the call of its key, is declined, or leads a new one |
| CredentialRefresh.Coordinator.End | internal/gateway/oauthrecovery.go:120-128 | the result is kept for a minute, unless the leader was cancelled |
| CredentialRefresh.Coordinator.Prune | internal/gateway/oauthrecovery.go:95-100 | exactly the expired results are forgotten |
| CredentialRefresh.RefreshesAreSpaced | internal/gateway/oauthrecovery.go:87-129 | over any run, two refreshes of one credential never overlap, and the second begins more than a minute after the first ended unless that one was cancelled; at most 128 are remembered |
| CredentialRefresh.OthersJoin | internal/gateway/oauthrecovery.go:101-109 | while a refresh is in flight, everyone else who asks for it waits for that one |
| CredentialRefresh.ToldTheTruth | internal/gateway/oauthrecovery.go:101-129 | whoever is told of success asked for that credential, and a refresh of it has succeeded |
| BodyLease.BudgetIs | internal/gateway/gateway.go:998-1010 | the budget is the saturating value of three bodies and two growth allowances, at least 64 MiB |
| BodyLease.BudgetSuffices | internal/gateway/gateway.go:983-1010 | it covers the worst legal request exactly if that does not exceed 64 bits, which no body limit up to 256 MiB does |
| BodyLease.CounterIsSum | internal/gateway/gateway.go:965-1050 | after any interleaving of the steps the counter is the sum of what is reserved and within the largest limit given |
| BodyLease.StepsAreLocal | internal/gateway/gateway.go:1020-1048 | a step on one of many leases does to it and to the counter what it does when the lease is alone, which is what the methods are proved to do, and touches no other |
| BodyLease.Gateway.TryAcquire | internal/gateway/gateway.go:965-981 | bytes are taken only if they fit, without overflow |
| BodyLease.BodyByteLease.Acquire | internal/gateway/gateway.go:1020-1030 | lease and counter grow together, or not at all |
| BodyLease.BodyByteLease.ShrinkTo | internal/gateway/gateway.go:1031-1038 | lease and counter shrink together, never below what is kept |
| BodyLease.BodyByteLease.Release | internal/gateway/gateway.go:1039-1048 | released once, everything is given back |
| BodyLease.ReadBody | internal/gateway/gateway.go:1436-1479 | while a body is read the reservation covers it, and at the end it is its length |
| BodyLease.ReserveForm | internal/gateway/gateway.go:508-526 | room for the largest changed body is reserved, and what it came to is kept |
| BodyLease.ReserveAttempts | internal/gateway/gateway.go:680-732 | the changed body of each attempt is given back before the next |
| BodyLease.ReserveForRequest | internal/gateway/gateway.go:428-519 | a lone legal request is never refused memory, at no stage and no attempt, on every body limit whose budget does not saturate |
| StartupScan.LoadRequestState | internal/gateway/requestlog.go:329-396 | of N valid records the newest min(N, k) are returned, in time order: no discarded record is newer than a kept one |
| StartupScan.ScanFile | internal/gateway/requestlog.go:349-376 | line by line, what is kept are the newest of what was seen |
| StartupScan.Offer | internal/gateway/requestlog.go:361-368 | a record is kept if there is room or it is newer than the oldest one kept |
| StartupScan.RecordHeap.Push | internal/gateway/requestlog.go:318 | the heap order is kept and the record added |
| StartupScan.RecordHeap.Pop | internal/gateway/requestlog.go:319-327 | the oldest record leaves and the heap order is kept |
| StartupScan.SortByTime | internal/gateway/requestlog.go:390-394 | the same records in time order, those of the same time in the order they had |
| Sorting.SortByStable | internal/gateway/requestlog.go:390-394 | sorting keeps the order of elements that come neither before nor after one another |
| Machines.RunAllIsRun | internal/gateway/response_completion.go:380-390 | consuming an input in pieces is consuming it whole, for every machine of the model |
| Machines.PipeIsFed | internal/gateway/response_completion.go:598-602 | a machine that consumes the reports of another as they come does what it would do with all of them at the end |

## Findings

Four things one would expect of the code are not true of it. Each has an input that shows
it and the exact condition under which the expectation holds.

| expected | fails for | holds | members |
|---|---|---|---|
| the calls of a finished Chat stream have identities, and no two share one | a `tool_calls` delta whose `type` is the word `legacy`: the kind of a call is the upstream's own `type` (`internal/gateway/completion_stream_contract.go:167-172`), and calls of that kind skip the identity checks at the finish (`:216-230`), although the buffered checker refuses them (`internal/gateway/completion_json_contract.go:146`) | for every call without such a delta, so for all calls where no delta declares that type; every call without an identity or with a shared one has such a delta | `ChatStream.DeclaredCallsEscape`, `ChatStream.CallsAreIdentified`, `StreamVerdict.AcceptedChat` |
| a buffered body is judged by the members of its root | a root member whose key is empty, or longer than 512 raw bytes and so not decoded: its path is that of the root again (`internal/gateway/response_completion.go:423-448` and `:514-525`), and an object under it is read as if its members stood at the root. `{"choices":[{"message":{"content":"a"},"finish_reason":"stop"}]}` is accepted, and refused with `"":{"error":true}` behind `choices`, or with a key of 513 bytes in place of the empty one | the root is read as it is written exactly if no such key has an object as its value; where one has, with those members spliced in | `Samples.SpokenAnswer`, `Samples.HiddenErrors`, `BodyVerdict.EmptyKeysMatter`, `AnswerDocument.SplicedPlain`, `BodyVerdict.PlainBody`, `BodyVerdict.BodyIsComplete` |
| the name of a tool call is that of its function | a direct `name` of the call written behind its `function` object (`internal/gateway/completion_json_contract.go:63-66` and `:132-143`): with the tools `g` offered and no others, the call `{"id":"1","type":"function","function":{"name":"f","arguments":"{}"},"name":"g"}` is accepted; every complete call can be renamed like this | exactly if the last string under a direct `name` behind the last `function` object is that function's name, or there is none | `Samples.RenamedCallAccepted`, `ChatDocument.LaterNameWins`, `ChatDocument.LaterNameFits`, `ChatDocument.NamedByFunction` |
| whether a stream is delivered depends on its text alone | a comment line behind the last event of an accepted stream: delivered when it arrives with that event, refused when a read ends behind its colon, because the checker is asked at the end of the read that brings the last event (`internal/gateway/gateway.go:1728-1735`) | the stream is delivered exactly if what has arrived with the read that brings the last event is itself an accepted stream; the verdict on a given text depends on the text alone | `Samples.SplitIsRefused`, `Delivery.SplitsMatter`, `Delivery.StreamResponse`, `StreamVerdict.PiecesMakeNoDifference` |

## Left out

- Embeddings, images and rerank answers: their contracts are counters of the same kind, and two of them need the parsing of floating-point numbers.
- Decoding an event into its fields: `decode` is an arbitrary function of the event name and its data, called only after the syntax check; every result holds for each such function.
- `json.Compact` of two argument texts: the object takes it as a function that agrees with `Compact.SameArguments`, which is defined and proved here.
- ResponseCompletion.ResponseCompletion.ObserveChatTools: the calls of a choice are values in a map, so that two names for one call record (aliasing) are not modelled; the gateway never keeps such a second name across an event.
- ResponseCompletion.ResponseCompletion.SseEvent: the messages of errors, and which of several faults of one event is reported first, are not modelled.
- JsonCompletion.JsonCompletion.Step: the frames of the scanner and of the contract are two parallel stacks instead of one, and the 33-bit mask of tracked names is the set of those names.
- Parsing the promises of a request (`n`, tool choice, tool names, parallel calls): its result is a parameter, with the bounds it guarantees.
- Delivery.StreamResponse: downstream writes succeed and timers are outcomes of a read; answers passed on without a checker (errors, and operations without a contract) are copied as they come. Response headers are not part of this model.
- Capacity.NoLostWakeUp: nothing is claimed about breaker expiry or a new configuration as wake-up sources, since the code does not wake waiters for them; a waiter learns of them at its deadline or at the next release.
- Capacity.AcquireWithinLimit: generations with different limits share a counter, so the bound is that of the generation that acquires and no other.
- The deadline of a waiting request, its context, and `sync.Once` around a release: a request may give up at any time, and each lease is released once.
- Breaker.BreakerRuntime.ReportFailure: the time at which a circuit closes again is a parameter, and the table of breakers by operation, model and credential is a lookup given from outside.
- TargetSelection.TrySelectTargets: which breakers are open is one snapshot for a whole selection, while slots may come and go between two candidates; the rendezvous hash, the load and the round-robin counter are parameters of the instant; sorting is by an insertion sort that is proved stable and ordered, not the library's algorithm.
- Readiness.OrderAccounts: for accounts without targets only membership in the order is used; a tie between equal accounts may fall either way, as with an unstable sort.
- Accounts.RequirementsCompatible: names are compared as strings, and lower case is that of ASCII letters.
- Health windows, success rates and the reasons shown on the operations page: counters over recent requests.
- RequestLoop.ServeAttempts: what the network does is an arbitrary function of the attempt; the rewriting of bodies for normalised error answers (status 401, 403 and 503) and the metadata of a request are not modelled.
- CredentialRefresh.Coordinator.Enter: the digest of management address, management key and credential is the key itself; the refresh call to the adapter is an outcome.
- BodyLease.ReserveForRequest: the request that is served alone is legal, which means that its body and its rewritten forms have the lengths the gateway allows; what happens to one that is refused for its length is left to the branches that refuse it. The transport that may hold on to a body after an error is not part of this model.
- BodyLease.CounterIsSum: a step is the moment at which the compare-and-swap of its method succeeds; attempts that fail and are repeated change nothing.
- StartupScan.LoadRequestState: files are lists of lines that decode or do not; reading errors, the newest observation per route and the rotation of the log are left out.
- Administration, OAuth login, import and export of accounts, discovery of capabilities, client keys and their rate limits, statistics: plumbing, or comparatively easy members.
