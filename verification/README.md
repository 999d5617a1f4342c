# SaivBot in Dafny

SaivBot is a chat bot for Twitch.  It reads IRC messages from one connection,
keeps the recent messages of every channel it is in, and answers commands; two
of them, `count` and `find`, download months or days of chat logs from a log
service and search them.  This project models the parts of the bot that keep
state across handlers, that do arithmetic, or that undo each other, and proves
what they promise for every input, every run and every interleaving of their
handlers.

**Log queries** (`Calendar`, `TimeDetail`, `Periods`, `LogRequest`, `Downloader`,
`QueryProtocol`, `LogParser`, `LogRoundTrip`, `OwnedLine`, `Search`, `Hits`,
`LineForms`, `Pipeline`, `DirectPass`, `CountQuery`, `FindQuery`).  A query's period is cut into calendar
months or days, one download per source and unit; the downloader walks the
targets, and each body is parsed, filtered by the exact period and searched; the
results meet in data shared with the error handler.  `CountCommandRun` and
`FindCommandRun` run these pieces together for any sequence of handler events.
Whatever the interleaving, a count that is sent is the count of one direct pass
over the complete logs, and the lines found are the lines of that direct pass.
`DirectPass` writes that pass out as a sum over the listed channels, the listed
users and the records of their logs.
The complete logs are an `Archive`: the records of every user's and every
channel's log.  The services are assumed to serve, for a target, exactly the
records of its unit, or their "no log" text when there are none.

**Sending** (`WireForm`, `SendQueue`, `SendResults`, `Reconnects`, `Pacing`,
`Pauses`, `Delivery`, `SenderClass`).  The send queue with its single outstanding operation, its pause
of 1500 ms, the suffix that tells a repeated message from its predecessor, and
the draining before a reconnect.  Most results are about *calm* runs: runs in
which no RECONNECT is carried out on a suspended, idle sender that has a
reconnect open already.  That restriction is exact
(`Reconnects.OverrunExactly`), and runs with one RECONNECT a session keep it
(`Reconnects.OneReconnectEach`).  Handlers posted to the send strand run one at a
time and in any order: they are posted through the event loop, which several
threads run.

**Receiving** (`Framing`, `IRCMessages`, `IRCRoundTrip`, `ViewOrder`,
`MessageBuffers`, `Channels`, `ChatStream`, `TimedBuffer`).  Reads of any size are cut into lines,
lines are parsed into views on their own text, and messages go to the bounded
history of their channel.  The message format is that of section 2.3.1 of
RFC 2812.

The handlers that change fields are methods of classes; each is proved to take
the state that its class represents through one step of a state machine, and
the theorems about runs are lemmas about that machine.  A handler is one atomic
step, except the downloader's `readHandler`: its arrival, what it does once it
holds the mutex, and its callback are three steps, and other handlers may run
between them.  The error handler does not take that mutex.

What the code does differently from what one might expect of it, each stated by
a lemma:

- A RECONNECT is never carried out if a write had failed before it
  (`SendResults.RestMeansDone`, with `Reconnects.StuckExample`).
- `consumeMsgBuffer` goes on with the lines already read after a RECONNECT, so two
  RECONNECT lines of one read are both posted.  The second one joins a reconnect
  that still waits for the sender to be drained.  But if it is carried out when the
  sender is idle and a reconnect is open, a second one is opened; that one can empty
  the queue of the next session under its first write, and the completion then pops
  an empty queue (`Reconnects.OverrunExactly`, with `Reconnects.CollisionExample`).
- The pause after a completion can be relied on exactly when sending is not suspended
  at that moment; otherwise the next session may write at once, as the completion is
  not noted (`Pauses.PauseExactly`, with `Pacing.UnpacedExample`).
- The first parameter of a PRIVMSG is read without a check; a line without one, such
  as `PRIVMSG :hi`, is undefined behaviour (`ChatStream.ReadableExactly`, with
  `ChatStream.UnreadableExample`).
- A command without arguments is also its own parameter
  (`IRCRoundTrip.RoundTripExactly`); a nick without `@` keeps the space after it,
  so such a prefix is never the bot's own (`ChatStream.OwnExactly`).
- The views of a line without a space after its prefix or its command overlap
  (`ViewOrder.InOrderExactly`).
- Copying a message into one that has parameters keeps those in front
  (`IRCMessages.CopyOf`).  A view that the parser left unset cannot be copied
  (`IRCRoundTrip.LineCopyableExactly`).
- A line of a gempir log that ends in its name's colon is undefined behaviour
  (`LogParser.LineDefined`); so is the first target of an empty list
  (`QueryProtocol.FirstTargetDefined`) and a read that ends between CR and LF
  (`Framing.FramingIsChunkIndependent`).
- The unit that contains the end of the period is downloaded even when no
  instant of the period lies in it (`Periods.LastUnitNeeded`).
- A failure before the first network operation gets no reply
  (`QueryProtocol.MaximalRunsReply`).

## Model

| member | source | states |
|---|---|---|
| Calendar.SysDaysCountDays | src/SaivBot.cpp:1105-1108 | day numbers count from 1970-01-01; the civil successor of any date, over month ends, leap days and centuries, has the next number, and the next value of a closed formula |
| Calendar.CivilFormula | src/SaivBot.cpp:1103-1108 | the day number of every date in closed form, counting years and months from March: this fixes the length of every month and the leap years of the proleptic Gregorian calendar |
| Calendar.SysDaysOrder | src/SaivBot.cpp:1106-1106 | comparing dates by year, month and day agrees with comparing their day numbers, in both directions |
| Calendar.SysDaysInverse | src/SaivBot.cpp:1103-1108 | date to day number and day number to date are inverse to each other over the whole proleptic Gregorian calendar |
| Calendar.MonthIndexing | src/SaivBot.cpp:1092-1096 | months correspond one to one with the integers, in order, and adding a month is adding one |
| TimeDetail.DayPeriodIsTheDay | include/TimeDetail.hpp:205-211 | an instant is inside a day's period exactly when its date is that day, and exactly when it lies within the day's 86 400 000 000 000 ticks |
| TimeDetail.MonthPeriodIsTheMonth | include/TimeDetail.hpp:196-203 | an instant is inside a month's period exactly when its date is in that month |
| TimeDetail.UnitsMeet | include/TimeDetail.hpp:196-211 | a unit ends where the next one begins, December to January included |
| Periods.PeriodToDates | src/SaivBot.cpp:1100-1111 | the loop ends with the dates whose numbers, by the closed formula, run from the day of the begin to the day of the end, both included |
| Periods.PeriodToYearMonths | src/SaivBot.cpp:1085-1098 | the loop ends with the months indexed from that of the begin to that of the end, both included |
| Periods.DatesAreConsecutive | src/SaivBot.cpp:1100-1111 | the list is never empty, starts and ends with the dates of the period's ends, and each date is the civil successor of the one before |
| Periods.MonthsAreConsecutive | src/SaivBot.cpp:1085-1098 | the same for months |
| Periods.DayPeriodsCover | include/SaivBot.hpp:315-324 | the day periods tile a stretch of time that contains the query's period |
| Periods.MonthPeriodsCover | include/SaivBot.hpp:303-314 | the month periods tile a stretch of time that contains the query's period |
| Periods.TilesHoldOnce | include/TimeDetail.hpp:150-158 | tiles that share their endpoints hold every instant of their stretch once and every other instant never |
| Periods.CoveredOnce | include/TimeDetail.hpp:150-158 | counted over the units, every instant of the period is held exactly once |
| Periods.CoveredByExactlyOne | include/TimeDetail.hpp:150-158 | every instant of the period lies in one unit and in no other |
| Periods.LastUnitNeeded | src/SaivBot.cpp:1090-1095 | the last unit shares an instant with the period exactly when it begins before the period's end and the period is not empty |
| LogRequest.FillLogRequestTargetFields | include/SaivBot.hpp:294-350 | the request holds the parser and host of the service; the target for channel i, user j and unit k stands at position (i * users + j) * units + k and has that channel, that user's log in it and that unit, and likewise for all users; there are no other targets |
| LogRequest.YearMonthUserList | include/SaivBot.hpp:303-314 | the nested loops give every channel, user and month its target at its position, and no other targets |
| LogRequest.DateList | include/SaivBot.hpp:315-324 | the nested loops give every channel and date its target at its position, and no other targets |
| LogRequest.UserTargetAt | include/SaivBot.hpp:306-312 | where the target of a channel, a user and a month stands, and what it holds |
| LogRequest.ChannelTargetAt | include/SaivBot.hpp:318-322 | where the target of a channel and a date stands, and what it holds |
| LogRequest.TargetCount | include/SaivBot.hpp:306-322 | there are as many targets as sources times units |
| LogRequest.UnitCount | src/SaivBot.cpp:1085-1111 | the number of units is the difference of the month indices, or of the day numbers, plus one; there is always a unit |
| LogRequest.RequestSize | include/SaivBot.hpp:303-345 | the number of targets in closed form; there is none exactly when no channel, or no user in a query by user, is named |
| LogRequest.UnitsCover | include/SaivBot.hpp:303-324 | whichever unit a query uses, its units tile a stretch that contains the period |
| Search.CountTargetOccurrences | include/SaivBot.hpp:548-558 | the search loop counts the positions, overlapping ones included, from which on the text spells the target, up to the case of the letters A to Z if so asked |
| Search.FindAgreesWithCount | src/SaivBot.cpp:809-812 | a message is found exactly when the target occurs in it, that is, when the count is positive |
| Search.CaselessIsLowered | src/SaivBot.cpp:625-631 | matching without case gives the positions of exact matching on the lowered texts, which hold no capital letter and differ from the texts in the case of letters only |
| Search.MatchesAreOccurrences | src/SaivBot.cpp:625-631 | the matches under the character predicate are the positions from which on the text spells the target |
| Search.ExactOccurrences | src/SaivBot.cpp:629-631 | an exact match is a slice equal to the target, and is a match without case, too |
| Search.CaseDoesNotMatter | src/SaivBot.cpp:626-628 | changing the case of any letters of text or target changes no match without case |
| Search.EmptyTarget | include/SaivBot.hpp:548-558 | the empty target is counted once for each character |
| Search.CaselessCompare | src/SaivBot.cpp:1127-1138 | true exactly when the texts have the same length and agree at every position up to the case of a letter |
| LogParser.ParseLog | src/LogDownloader.cpp:420-472 | either parser's loop yields what parsing each newline-terminated line by itself yields, successes only; the log is invalid for the literal text of its service and for nothing else |
| LogParser.ParseDistributes | src/LogDownloader.cpp:425-470 | parsing a concatenation at a newline is parsing the two parts, the second at its offset |
| LogParser.TailIgnored | src/LogDownloader.cpp:426-427 | an unterminated last line contributes nothing |
| LogParser.ViewsInsideOwnLine | src/LogDownloader.cpp:428-466 | every emitted view lies inside its own line, names and messages in place, and the lines follow each other without overlap |
| LogParser.ViewsReadLines | src/LogDownloader.cpp:460-466 | read in the whole log, the views spell the times, names and messages of the lines |
| LogParser.LineDefined | src/LogDownloader.cpp:444-450 | the parser steps past the end of a line exactly when it is a gempir line that ends in the colon of its name |
| LogParser.ParseDefined | src/LogDownloader.cpp:425-470 | a log is parsed without undefined behaviour exactly when no line of it is of that kind |
| LogParser.UndefinedExample | src/LogDownloader.cpp:450-450 | a concrete log for which the parser is undefined |
| LineForms.GempirForm | src/LogDownloader.cpp:430-466 | any line with the three separators of the gempir format, whatever stands between them, is read as the texts between them, is skipped if its time is not valid, and is undefined if nothing follows the colon |
| LineForms.GempirSkips | src/LogDownloader.cpp:430-448 | every line that lacks one of the separators is skipped |
| LineForms.OverrustleForm | src/LogDownloader.cpp:518-547 | any line with the two separators of the overrustle format is read as the texts between them, the name without its last character, or as the whole rest if it is empty |
| LineForms.OverrustleSkips | src/LogDownloader.cpp:518-529 | every line that lacks one of the separators is skipped |
| LogRoundTrip.GempirLineRoundTrip | src/LogDownloader.cpp:428-466 | a rendered gempir line is parsed to its time, name and message |
| LogRoundTrip.OverrustleLineRoundTrip | src/LogDownloader.cpp:516-547 | a rendered overrustle line is parsed to its time, name and message |
| LogRoundTrip.RoundTrip | src/LogDownloader.cpp:506-552 | rendering any list of well-formed records and parsing gives back the same times, names and messages in order, for both services and any time parser |
| LogRoundTrip.NeverTheSentinel | src/LogDownloader.cpp:508-508 | no rendered log, not even an ill-formed one, is taken for the sentinel text |
| OwnedLine.CopyKeepsContent | include/Log.hpp:113-125 | a line copied out of a log spells the same time text, name and message, and its views lie inside its own text |
| OwnedLine.CopyOfCopy | include/Log.hpp:127-139 | copying an owned line, as inserting it into the shared lines does, gives a line that spells the same, with views inside its own text again |
| Downloader.LogDownloader.Run | src/LogDownloader.cpp:227-247 | starts resolving, or, if the host name is refused, nothing at all |
| Downloader.LogDownloader.Error | src/LogDownloader.cpp:249-255 | calls the error handler and ends the chain of handlers, remembering how many bodies were taken |
| Downloader.LogDownloader.ResolveHandler | src/LogDownloader.cpp:257-272 | one step of the exchange: connecting, or the error handler |
| Downloader.LogDownloader.ConnectHandler | src/LogDownloader.cpp:274-287 | one step of the exchange: the TLS handshake, or the error handler |
| Downloader.LogDownloader.HandshakeHandler | src/LogDownloader.cpp:289-307 | one step: the write for the first target, undefined when there is none, or the error handler |
| Downloader.LogDownloader.WriteHandler | src/LogDownloader.cpp:309-327 | one step: the read for the same target, or the error handler |
| Downloader.LogDownloader.ReadHandler | src/LogDownloader.cpp:329-336 | up to the mutex: the body waits in the response parser, or the error handler is called |
| Downloader.LogDownloader.ReadHandlerLocked | src/LogDownloader.cpp:336-368 | under the mutex: the body is moved out for its own target, and the next write or the shutdown is started |
| Downloader.LogDownloader.ReadHandlerCallback | src/LogDownloader.cpp:368-371 | the log that is held goes to the callback and the mutex is released |
| Downloader.LogDownloader.ShutdownHandler | src/LogDownloader.cpp:373-377 | the connection is closed and no reply depends on it |
| QueryProtocol.StepKeepsInv | src/LogDownloader.cpp:249-371 | every handler keeps the invariant that ties the position in the target list, the bodies received, the log held, the reference count and the replies together |
| QueryProtocol.RunKeepsInv | src/LogDownloader.cpp:249-371 | hence it holds after every run |
| QueryProtocol.AtMostOneReply | include/SaivBot.hpp:380-402 | in every run there is at most one reply, never an error and an answer; an answer has the logs of all targets in order; until an error the reference count plus the delivered callbacks is the number of targets |
| QueryProtocol.FirstTargetDefined | src/LogDownloader.cpp:294-295 | no run dereferences a missing first target exactly when the request has a target |
| QueryProtocol.StepDecreases | src/LogDownloader.cpp:249-377 | every handler brings the end of the query nearer |
| QueryProtocol.RunsAreFinite | src/LogDownloader.cpp:249-377 | a run for n targets has at most 4n + 5 steps |
| QueryProtocol.FailureIsRemembered | src/LogDownloader.cpp:249-255 | a downloader has failed exactly when some handler of the run was given a network error, and was refused exactly when the run began with a host name that could not be set; never both |
| QueryProtocol.MaximalRunsReply | include/SaivBot.hpp:380-402 | a run that cannot go on has sent nothing if the host name was refused, the error if a handler was given a network error, and otherwise the answer with all logs |
| QueryProtocol.HeldIsTarget | src/LogDownloader.cpp:368-370 | the log passed to the callback is that of an existing target |
| QueryProtocol.ReceivedAreBodies | src/LogDownloader.cpp:329-340 | what a run has received are the bodies of its successful reads, in order |
| QueryProtocol.ScriptFollowed | src/LogDownloader.cpp:227-371 | as long as nothing fails, a run resolves, connects, shakes hands, then writes, reads and takes over the log of one target after the other, and then closes; only callbacks may come at other times |
| Hits.CutAndFiltered | include/SaivBot.hpp:370-374 | cutting a log into covering units and filtering by the period gives the same lines, with multiplicity, as filtering the whole log |
| Hits.CountIgnoresOrder | include/SaivBot.hpp:382-382 | the count depends on the multiset of lines only |
| Hits.ContainingIgnoresOrder | include/SaivBot.hpp:444-446 | the multiset of lines found depends on the multiset of lines only |
| Pipeline.ServedLogHits | src/LogDownloader.cpp:368-370 | parsing a body served for a target gives exactly the source's lines of that unit, and the parser is defined on it |
| Pipeline.PipelineIsDirect | include/SaivBot.hpp:294-376 | cutting, downloading and parsing everything and filtering by the period loses and duplicates no line of a direct pass over the complete logs |
| Pipeline.CountIsDirect | include/SaivBot.hpp:362-390 | in every run, the logs behind an answer have the count of the direct pass |
| Pipeline.FoundIsDirect | include/SaivBot.hpp:418-450 | in every run, the logs behind an answer hold the found lines of the direct pass, with multiplicity |
| DirectPass.DirectCount | include/SaivBot.hpp:362-390 | the count of the direct pass is the sum, over the listed channels, the listed users (or all), and the records of their logs, of the occurrences in messages with a time in the period |
| DirectPass.DirectFinds | include/SaivBot.hpp:429-435 | the direct pass finds a line with its channel, time, name and message as often as such a record of a listed channel and user contains the target in the period |
| Pipeline.RunPrefix | src/LogDownloader.cpp:329-371 | in a run with honest servers every step is enabled in turn, and every log that reaches a callback can be parsed |
| CountQuery.CountCallbackSharedData.constructor | src/SaivBot.cpp:660-676 | starts with one reference for each target and nothing counted or sent |
| CountQuery.CountCallbackSharedData.CountLines | include/SaivBot.hpp:367-376 | the loop counts the matches in the log's messages inside the period; an invalid log counts nothing |
| CountQuery.CountCallbackSharedData.CountCommandCallback | include/SaivBot.hpp:362-390 | adds the log's count once, drops a reference, answers with the last one, and does nothing after an error; the shared count stays the count of the logs delivered |
| CountQuery.CountCallbackSharedData.CountCommandErrorHandler | include/SaivBot.hpp:392-402 | sends the error and makes every later callback do nothing |
| CountQuery.CountCommand.Handle | src/LogDownloader.cpp:249-377 | handling one event, with the callback or error handler it leads to, is one step of the protocol and keeps its invariant |
| CountQuery.CountEvents | src/SaivBot.cpp:656-692 | after any sequence of events the real fields are in the state the protocol predicts |
| CountQuery.CountCommandRun | include/SaivBot.hpp:294-402 | end to end, with servers that serve the bodies of the read events honestly: at most one message is sent; a count that is sent is the sum of the occurrences over the listed channels, users and records in the period; an error is sent exactly when some handler was given a network error; a run without errors that cannot go on has sent that count |
| FindQuery.SortByTime | src/SaivBot.cpp:821-825 | a time-sorted permutation of the lines |
| FindQuery.LookupNeverFails | include/SaivBot.hpp:427-428 | the channel of every target's log is in the query's channel set |
| FindQuery.FindCallbackSharedData.constructor | src/SaivBot.cpp:806-840 | starts with one reference for each target and nothing found or sent |
| FindQuery.FindCallbackSharedData.FindLines | include/SaivBot.hpp:423-436 | the lines collected are those of the log inside the period that contain the target, in order, each with the log's channel and as owned copies |
| FindQuery.FindCallbackSharedData.FindCommandCallback | include/SaivBot.hpp:418-468 | adds the log's lines once, drops a reference, uploads the sorted lines or reports no hit with the last one, and does nothing after an error |
| FindQuery.FindCallbackSharedData.FindCommandErrorHandler | include/SaivBot.hpp:470-480 | sends the error and makes every later callback do nothing |
| FindQuery.FindCommand.Handle | src/LogDownloader.cpp:249-377 | handling one event, with the callback or error handler it leads to, is one step of the protocol and keeps its invariant |
| FindQuery.FindEvents | src/SaivBot.cpp:802-855 | after any sequence of events the real fields are in the state the protocol predicts |
| FindQuery.FindCommandRun | include/SaivBot.hpp:418-480 | end to end, with servers that serve the bodies of the read events honestly: at most one message is sent; an upload is a time-sorted permutation of the lines a direct pass finds, each with its channel and as often as its records say it; an error is sent exactly when some handler was given a network error; a run without errors that cannot go on has sent one message, which is "no hit" exactly when a direct pass finds nothing and an upload otherwise |
| WireForm.WireCarriesMessages | src/SaivBot.cpp:213-217 | each text on the wire is its message, with a space and the three bytes of the suffix exactly when it would repeat the text before it |
| WireForm.IdenticalMessagesAlternate | src/SaivBot.cpp:213-217 | a block of identical messages alternates between the plain and the suffixed form |
| SendQueue.StepKeepsInv | src/SaivBot.cpp:187-284 | every handler that does not overrun keeps the invariant that ties the flags, the queue, the pending operations, the posted handlers, the open reconnects and the wire together |
| SendQueue.RunKeepsInv | src/SaivBot.cpp:187-284 | hence it holds after every calm run, however many RECONNECTs come and in whatever order the posted handlers run |
| SendResults.BusyMeansOneOutstanding | src/SaivBot.cpp:187-284 | in every calm run the busy flag is set exactly when one of timer, posted send, write, drained reconnect or failed write is outstanding, never two; `front` and `pop` never meet an empty queue |
| Delivery.HandedIsFifo | src/SaivBot.cpp:187-284 | in every calm run the messages handed to a session, in the order in which the strand ran their handlers, are those on the wire, with the suffix where due, followed by the queue |
| Delivery.AcceptedIsHanded | src/SaivBot.cpp:187-197 | in every calm run a session has accepted PASS, NICK and the messages of all handlers that the strand has run in it while sending was not suspended, in that order, whether or not the sender was busy |
| Delivery.NothingIsLost | src/SaivBot.cpp:187-205 | in any run, the strand has run the handlers of all messages posted and all greetings of its sessions, each once, but those still posted |
| Delivery.EveryMessageIsWritten | src/SaivBot.cpp:187-284 | at rest, an unsuspended session without a failed write has every message handed to it on the wire, once and in order, and no message is left in a handler or in the queue |
| Delivery.HandshakePosts | src/SaivBot.cpp:133-141 | after a handshake the bot joins its own channel, greets it and joins every channel it is in, in order, behind what is posted already |
| Delivery.OwnChannel | include/SaivBot.hpp:575-584 | the own channel is the nick in lower case after one hash sign |
| Delivery.WrittenIsFramed | src/SaivBot.cpp:211-231 | framing the bytes of the buffers that were written gives back the texts |
| SendResults.WireNeverRepeats | src/SaivBot.cpp:213-218 | in any run whatsoever no two consecutive texts on the wire are equal, over reconnects too |
| SendResults.SessionOpening | src/SaivBot.cpp:127-131 | in every calm run the first two texts of every session are "PASS " with the password and "NICK " with the nick, up to the suffix |
| SendResults.TimerLeadsToNextWrite | src/SaivBot.cpp:233-258 | in every calm run a timer is the only thing outstanding and set for the end of the pause; when it fires it leads, through one posted send, to writing exactly the next accepted message |
| Reconnects.SuspendedAcceptsNothing | src/SaivBot.cpp:189-196 | in any run, from a suspension to the next successful handshake, no message enters the queue whatever is posted; only the reconnect handler empties it |
| Reconnects.ReconnectsAddUp | src/SaivBot.cpp:261-272 | in every calm run each RECONNECT is handled, joined to another, posted, awaiting its handler or awaiting the drain, exactly one of these; at most one reconnect is open |
| Reconnects.AccountIsCounted | src/SaivBot.cpp:455-488 | the account is counted by events: the RECONNECT messages, the reconnect handlers, and the RECONNECTs carried out on a suspended and busy sender |
| Reconnects.RestingAccount | src/SaivBot.cpp:455-488 | at rest after a calm run, every RECONNECT has had its handler, but those that joined another and the one, if any, that met a failed write |
| Reconnects.OneReconnectEach | src/SaivBot.cpp:455-488 | with one RECONNECT a session the run is calm, none is joined to another, and all but the latest have had exactly one reconnect handler, whether the sender was idle or busy |
| Reconnects.TwoOpenEndInFault | src/SaivBot.cpp:457-488 | from any state with two open reconnects and an idle sender, whatever is posted, the run has a continuation that uses an empty queue |
| Reconnects.OverrunExactly | src/SaivBot.cpp:457-488 | after a calm run, an event leaves every calm continuation free of uses of an empty queue exactly when it is not a RECONNECT carried out on a suspended, idle sender with a reconnect open; if it is, the failing continuation needs neither a further RECONNECT nor posted handlers out of order |
| Reconnects.CollisionExample | src/SaivBot.cpp:301-395 | a concrete run: two RECONNECT lines of one read end in popping an empty queue while a write of the next session is in flight |
| SendResults.InternalStepDecreases | src/SaivBot.cpp:187-284 | every handler the bot runs by itself brings it nearer to rest |
| SendResults.InternalStepsEnd | src/SaivBot.cpp:187-284 | in every calm run, without new messages or requests the sender comes to rest after a bounded number of steps |
| SendResults.RestMeansDone | src/SaivBot.cpp:455-488 | at rest after a calm run, an unsuspended and unfailed session has everything accepted on the wire; the RECONNECTs carried out are all but those joined to another and the one, if any, that met a failed write |
| SendResults.FailureIsRemembered | src/SaivBot.cpp:263-275 | in any run the sender has failed exactly when a write of the run completed with an error outside a suspension |
| SendResults.FailureIsFinal | src/SaivBot.cpp:273-275 | however a calm run with a failed write goes on, it stays calm, nothing is written any more and no reconnect is handled |
| Reconnects.StuckExample | src/SaivBot.cpp:261-275 | a concrete run that rests with a RECONNECT that is never carried out |
| Pacing.WritesArePaced | src/SaivBot.cpp:233-258 | in every calm run with a clock that does not go back and timers that are not early, every write of a session starts 1500 ms or more after the one before completed |
| Pacing.PacedSpan | src/SaivBot.cpp:245-257 | paced writes spread: from write i to write j there are at least j - i pauses |
| Pacing.WriteStartsSpan | src/SaivBot.cpp:245-257 | hence any k write starts of a session span at least (k - 1) times 1 500 000 000 nanoseconds |
| Pacing.PausesAcrossSessions | src/SaivBot.cpp:245-276 | over whole such runs, reconnects included, every write starts 1500 ms or more after every earlier one that completed without error outside a suspension |
| Pacing.EndedIsEndings | src/SaivBot.cpp:261-276 | which writes those are, and when they completed, is what the completion events of the run say |
| Pauses.PauseExactly | src/SaivBot.cpp:245-276 | at any completion in a calm and timely run: in every calm and timely continuation all later writes start 1500 ms or more after it, if and only if sending is not suspended then; if it is, some continuation writes at the very instant of the completion, with no further RECONNECT and no posted handlers out of order |
| Pauses.NextSessionWrites | src/SaivBot.cpp:245-258 | a sender that is being connected again with the pause over can write at once, whatever handlers are still posted |
| Pacing.UnpacedExample | src/SaivBot.cpp:261-276 | a concrete calm run in which a write completes during a suspension and the next session writes at the same instant |
| SenderClass.Sender.constructor | include/SaivBot.hpp:195-202 | starts suspended, idle and with an empty queue |
| SenderClass.Sender.PostSendIRC | src/SaivBot.cpp:187-205 | adds the handler to those the strand may take next |
| SenderClass.Sender.EnqueueHandler | src/SaivBot.cpp:189-197 | drops the message while suspended; otherwise the queue grows by it, at its end if the sender was busy, and the sender is busy |
| SenderClass.Sender.PostDoRECONNECT | src/SaivBot.cpp:455-481 | stops reading and posts the suspension |
| SenderClass.Sender.SuspendWriteHandler | src/SaivBot.cpp:457-470 | suspends; an idle sender posts the reconnect at once, a busy one leaves it to the completion |
| SenderClass.Sender.DoSendQueue | src/SaivBot.cpp:245-258 | waits until the pause is over or writes at once; an empty queue is recorded as undefined behaviour |
| SenderClass.Sender.WaitHandler | src/SaivBot.cpp:233-244 | turns the wait into one posted send; under the invariant that send is then the only thing outstanding, the timer was set for the end of the pause, and there is a message to send |
| SenderClass.Sender.SendFront | src/SaivBot.cpp:209-232 | decorates the front in place, remembers it without its line end, and passes it with its line end to the write |
| SenderClass.Sender.OnSendQueue | src/SaivBot.cpp:261-284 | pops and goes on, falls idle, or posts the drained reconnect without touching the queue or the time; popping an empty queue is recorded as undefined behaviour |
| SenderClass.Sender.ReconnectHandler | src/SaivBot.cpp:483-488 | empties the queue, clears the busy flag and connects again |
| SenderClass.Sender.OnHandshake | src/SaivBot.cpp:120-159 | puts PASS and NICK directly into the queue, opens both directions and posts the greeting |
| SenderClass.Sender.Handle | src/SaivBot.cpp:120-284 | the handler of any enabled event takes the real fields and the event loop through one step of the state machine |
| SenderClass.RunSender | src/SaivBot.cpp:120-284 | after any run the real fields are in the state the machine predicts, so the results about runs are about them; in a calm run no handler called for the front of an empty queue |
| Framing.LineReader.ParseBuffer | src/SaivBot.cpp:286-296 | the loop moves every complete line from the buffer to the messages and keeps the rest |
| Framing.LineReader.OnRead | src/SaivBot.cpp:161-168 | the same for the buffer with the chunk appended |
| Framing.ReadAll | src/SaivBot.cpp:161-185 | reading chunk after chunk gives the lines and rest of feeding them in order |
| Framing.FrameAppend | src/SaivBot.cpp:286-296 | framing a text that arrives in two parts is framing the first and then its rest with the second |
| Framing.ChunksDoNotMatter | src/SaivBot.cpp:167-168 | wherever the reads are cut, defined framing equals framing the whole text at once |
| Framing.PairedDefined | src/SaivBot.cpp:290-293 | on text with CR and LF in pairs the erasure stays inside the buffer exactly when the buffer does not end in a CR |
| Framing.FrameInvertsStream | src/SaivBot.cpp:286-296 | framing gives back the lines that were joined with CR-LF, and the rest |
| Framing.FrameAnyEnd | src/SaivBot.cpp:290-293 | also in text with single CRs or LFs, whichever comes first ends the line and takes the next character with it, and is undefined if there is none |
| Framing.FramePaired | src/SaivBot.cpp:286-296 | joining what was framed gives back the text |
| Framing.FeedPaired | src/SaivBot.cpp:161-185 | reading in chunks is defined exactly when no read ends inside a CR-LF pair |
| Framing.FramingIsChunkIndependent | src/SaivBot.cpp:161-185 | any two cuts of a stream that avoid its pairs give its lines and its rest; a cut is defined exactly when it avoids them |
| IRCMessages.IRCMessage.constructor | include/IRCMessage.hpp:26-31 | a message is parsed as it is made |
| IRCMessages.IRCMessage.ParsePrefix | src/IRCMessage.cpp:10-34 | sets nick, user and host as the separators in the prefix say and moves behind it |
| IRCMessages.IRCMessage.ParseParams | src/IRCMessage.cpp:45-61 | the loop collects the parameters up to the body and stops at its colon or at the end |
| IRCMessages.IRCMessage.ParseImplementation | src/IRCMessage.cpp:5-67 | sets every view and leaves the data alone |
| IRCMessages.IRCMessage.CopyImplementation | src/IRCMessage.cpp:69-117 | rebases every view on the copied data; parameters are appended to those already there |
| IRCMessages.CopyOf | src/IRCMessage.cpp:69-117 | a copy equals its source exactly when the target had no parameters before |
| IRCMessages.ParamsInOrder | src/IRCMessage.cpp:45-59 | the parameters lie in order, without overlap, inside what was read |
| IRCMessages.AllViewsInBounds | src/IRCMessage.cpp:5-67 | for every text whatsoever all views are in bounds, and parameters lie in order and before the body |
| IRCMessages.PrefixInOrder | src/IRCMessage.cpp:13-30 | nick, user and host lie inside the prefix; user and host are in order exactly when its first `!` comes before its first `@` |
| IRCMessages.PrefixWithoutHost | src/IRCMessage.cpp:28-30 | for any text, a prefix without at sign is the nick, trailing space included |
| IRCMessages.PrefixWithHost | src/IRCMessage.cpp:15-27 | for any text, the host is what follows the first at sign, and without exclamation mark the nick is what precedes it |
| IRCMessages.PrefixWithUser | src/IRCMessage.cpp:17-22 | for any text, with an exclamation mark the nick is what precedes the first one, and the user what lies between it and the at sign, or everything after it if the at sign comes first |
| ViewOrder.InOrderExactly | src/IRCMessage.cpp:5-67 | for any text whatsoever, nick, user, host, command, parameters and body follow each other without overlap exactly when the prefix ends in a space with its separators in order and a command, if there is one, ends in a space or is a lone colon after a prefix |
| ViewOrder.CompleteInOrder | src/IRCMessage.cpp:5-67 | if the prefix is closed by a space and the command by another, the prefix lies before the command, and command, parameters and body follow each other without overlap; nick, user and host do too exactly when the prefix has its separators in order |
| ViewOrder.PrintedInOrder | src/IRCMessage.cpp:5-67 | all views of a printed message are pairwise in order and disjoint exactly when it has a parameter or a body |
| IRCRoundTrip.RoundTrip | src/IRCMessage.cpp:5-67 | printing a well-formed message with a parameter or a body and parsing it gives back every field, for any number of parameters, empty ones included, with the host and a bare nick up to their trailing space |
| IRCRoundTrip.CommandAlone | src/IRCMessage.cpp:38-42 | without parameter and body the command comes back as a parameter too |
| IRCRoundTrip.RoundTripExactly | src/IRCMessage.cpp:5-67 | a well-formed message survives the round trip exactly when it has a parameter or a body |
| IRCRoundTrip.CopyableExactly | src/IRCMessage.cpp:78-116 | a parsed message has all the views that copying subtracts exactly when its prefix is complete and it has a body |
| IRCRoundTrip.BodyExactly | src/IRCMessage.cpp:45-66 | for any text, a body is found exactly when some word after the command starts with a colon |
| IRCRoundTrip.LineCopyableExactly | src/IRCMessage.cpp:78-116 | for any line whatsoever, all the views that copying subtracts are set exactly when the line has a prefix with both separators, something after it, and a word after the command that starts with a colon |
| MessageBuffers.MessageBuffer.Push | src/IRCMessageBuffer.cpp:11-19 | appends the message, and drops the oldest one exactly if the buffer is full |
| MessageBuffers.MessageBuffer.AccessLinesFromNow | src/IRCMessageBuffer.cpp:27-49 | hands over the end of the queue in arrival order, as many lines as asked for or as there are; nothing happens for zero |
| MessageBuffers.LastNTwice | src/IRCMessageBuffer.cpp:27-49 | asking a bounded history for lines is asking the full history for the smaller number |
| MessageBuffers.LastNPush | src/IRCMessageBuffer.cpp:11-19 | dropping the oldest message at every push is the same as keeping everything and looking at the newest |
| Channels.ChannelKeeper.AddChannel | src/SaivBot.cpp:371-379 | an unknown channel gets an empty history, a known one keeps its own |
| Channels.ChannelKeeper.ConsumeMessage | src/SaivBot.cpp:303-391 | one message changes the channels as its command, its sender and its first parameter say |
| Channels.ChannelKeeper.ConsumeMsgBuffer | src/SaivBot.cpp:299-396 | the loop consumes the waiting messages in order and leaves none |
| Channels.ChannelHistory | src/SaivBot.cpp:299-396 | after any messages, a channel is kept exactly when the bot's own JOIN and PART messages and the initial channels say so, and holds the end of what was said in it since it was last added, up to 1000 messages |
| Channels.SaidCounts | src/SaivBot.cpp:303-331 | what was said in a channel are the PRIVMSGs with it as first parameter, each as often as it came |
| Channels.SaidAppend | src/SaivBot.cpp:303-331 | and in the order in which they came |
| Channels.InChannelExactly | src/SaivBot.cpp:369-391 | the bot is in a channel exactly when it has joined it, or was configured to, and has not left it since; its own messages are those whose nick is its own up to case |
| Channels.ClipOfHistory | src/IRCMessageBuffer.cpp:27-49 | a clip of k lines has k, 1000, or all messages said since then, whichever is fewest, and they are the last ones in order |
| Channels.Started | src/SaivBot.cpp:38-40 | the configured channels start with empty histories |
| Channels.Fed | src/SaivBot.cpp:161-169 | however the messages are batched, the channels are those of the whole sequence |
| Channels.ClipAfter | src/SaivBot.cpp:866-874 | a clip after any batches is found exactly when the bot is in the channel and lines are asked for, and is the end of what was said there since, in arrival order, of the length asked for, 1000, or all, whichever is fewest |
| TimedBuffer.IRCMessageTimedBuffer.Push | src/IRCMessageTimedBuffer.cpp:12-31 | appends the message and arms the timer exactly when the queue was empty |
| TimedBuffer.IRCMessageTimedBuffer.TimerHandler | src/IRCMessageTimedBuffer.cpp:39-58 | drops the front and arms the timer for the next one, if there is one |
| TimedBuffer.RunBuffer | src/IRCMessageTimedBuffer.cpp:12-58 | after any run the real queue is the one the state machine predicts, and the handler never meets an empty queue |
| TimedBuffer.OneTimer | src/IRCMessageTimedBuffer.cpp:12-58 | in every run one timer is outstanding when the queue is not empty, for its front's time plus the timeout, and none when it is; the queue is a time-sorted suffix of everything pushed |
| TimedBuffer.PushedArePushes | src/IRCMessageTimedBuffer.cpp:12-31 | what has ever been pushed are the messages of the push events, in order |
| TimedBuffer.NoMessageLeavesEarly | src/IRCMessageTimedBuffer.cpp:45-49 | with a clock that does not go back and timers that are not early, no message leaves before its time plus the timeout |
| TimedBuffer.BufferIsWindow | src/IRCMessageTimedBuffer.cpp:12-58 | when no timer is overdue the buffer holds exactly the messages of the push events younger than the timeout |
| ChatStream.LineSeen | src/IRCMessage.cpp:5-67 | what the channels see of a printed line is its message, trailing space and doubled command included |
| ChatStream.StreamToChannels | src/SaivBot.cpp:161-169 | from the wire to the histories: printed messages read in any chunks that avoid CR-LF pairs are framed and parsed to themselves, nothing is left over, and every channel's history is that of the messages |
| ChatStream.ReadableExactly | src/SaivBot.cpp:327-384 | the parameter that the handling of a printed message reads unchecked is there exactly when the message has a parameter or no body |
| ChatStream.UnreadableExample | src/SaivBot.cpp:327-327 | a concrete line whose first parameter is read although it has none |
| ChatStream.OwnExactly | src/SaivBot.cpp:369-369 | a message from the bot's own nick, in any case and without spaces, is taken for the bot's own exactly when its prefix names a host |
| ChatStream.BareNickIsNotOwn | src/SaivBot.cpp:369-369 | as long as the bot's nick has no space in it, a message whose prefix is a nick alone is never taken for the bot's own |

## Left out

- Sockets, TLS, name resolution, HTTP headers and certificates: a network operation is a step that succeeds or fails.
- The configuration file and JSON: what is loaded is a parameter, and saving is not modelled.
- The option parser, the command functions, the texts of replies other than the count, and uploads: they hold no state of their own.
- `std::regex` counting and finding: they rest on the library's engine.
- The time formats of the two log services: the time parser is any partial function from texts to times.
- The target URLs: a target is its source and unit, and the archive answers for those.
- IRC message times in framing, and the channel data other than the message buffer.
- Shutdown, whispers, inserted test messages, raffles and the PONG reply: they do not change what is modelled, except by posting messages.
- Object lifetime and data races on memory, including what a moved line of a short string does to its views when lines are sorted: sorting is modelled on lines as values.
- Handlers are atomic steps apart from `readHandler`; so are the two critical sections of the shared data.
- An exception thrown and caught inside a callback, which would leave out the rest of a log.
- Clock ticks are nanoseconds, and times, years and counters are unbounded integers; characters are compared and lowered as ASCII.
- FindQuery.SortByTime: does not fix the order of equal times, because `std::sort` does not; only its contract is used.
- Reads are not steps of the send protocol: a RECONNECT may come at any time after the first handshake, which covers every number of lines in one read. A second read loop, which a suspension posted late can leave behind, is not modelled.
- SendQueue.StepKeepsInv: asks that the event does not overrun; Reconnects.OverrunExactly shows that this is needed.
- Pacing.WritesArePaced: covers the writes of one session; Pauses.PauseExactly says what holds between sessions.
- What a run does after it has used the front of an empty queue: that is undefined behaviour, and the model stops there.
- Channels.ChannelKeeper.ConsumeMessage: requires the first parameter of PRIVMSG, and of the bot's own JOIN and PART, because the code reads it unchecked.
- IRCMessages.IRCMessage.CopyImplementation: requires all views to be set and the source to be another object, because the code subtracts the pointers of the views.
- Downloader.LogDownloader.ShutdownHandler: an error at closing is thrown by the code, after which nothing of the query is left to do.
- Framing.LineReader.ParseBuffer: requires that no line end is the last character of the buffer, because the code then erases past its end.
- An empty line given to the message parser is read up to its terminator, as the code does.
