# GraphServ: the session/core multiplexer

GraphServ lets many line-based clients, over TCP or HTTP, share a few GraphCore processes. It collects bytes into
lines and lines into commands, queues a command for the core its session is connected to, writes one command at a
time to each core, and routes each line of the reply back to the client that issued the command. This project
models that server and proves what its clients and its cores can rely on, in every run: for any order of events,
input chopped in any way, any interleaving of sessions, cores that stop at any time and clients that vanish at any
time.

## How the model is built

* `Framing`, `HttpRequest`, `HttpResponse`, `Writers`, `Auth` hold the pieces with their own algorithms: words, the
  data set protocol, the URI decoder, the response header, the buffered writer, the credential files.
* `Model` is the server as a state machine over values, one function for each operation of the source. Fields
  marked as history (what was received, issued, accepted, written, answered, sent) are never looked at by the
  operations. `Machine` adds the events of the select loop and `Run`, the state after any sequence of them.
* `Objects` and `Server` are the server in the source's own form: classes whose fields the methods update in place,
  with the source's loops. Every method is proved to take the state its objects stand for to the state that `Model`
  says. `Graphserv.AtRest` says that the objects stand for a state of a run, so every theorem about runs is one
  about the objects; `Graphserv.Turn` is one turn of the select loop.
* `Invariants`, `Evolution`, `Commands`, `Handling`, `ClientLines`, `HttpSessions`, `Steps`, `Reachable` prove one
  invariant for all events; `Theorems`, `Wire`, `History`, `Reconnects`, `Provisos`, `StoppedCores` state what follows
  from it, and `Pipelining`, `LateReplies`, `HttpRuns` hold the runs in which a condition fails. `Typing` and `Logs`
  relate single bytes to lines typed and to what a turn of the loop reads.
* `Inputs` and `Responses` close the gap to the bytes: what the server takes the bytes for that it reads, and what a
  client can read out of the bytes that it is sent. `ServerCommands` says what each command that manages graphs does.
* `AuthCache` takes a refresh of the credential cache apart into its system calls and lets file writes and the clock
  happen in between.

## Two provisos

Two claims that one would like to make are not true of the code as it stands. They are proved with the proviso that
is needed, and what happens without it is proved too.

1. The drain loop stops as soon as it opens a data set (src/main.cpp:135, src/servapp.h:495). Lines still queued
   behind it are then overtaken by fresh lines. `jumped` records that this happened to a session.
   `Provisos.DrainOneJumpsIff` says when one iteration does it, from the held lines alone, and `Provisos.JumpedIff`
   when the loop does; `Provisos.NothingLeftBehind` is what a client can do to be safe, and `Provisos.OvertakenIff`
   says exactly when the order of lines suffers. If fresh lines end the data set, the held lines are stranded for
   good exactly if the session's core does not take the command (`Provisos.EndedDatasetStrandsIff`).
   `Pipelining.PipelinedCommandHangs` and `Pipelining.RefusedCommandStrands` are complete runs in which a client that
   pipelines a command with a data set hangs, though its core runs and answers properly.
2. A session whose core stops running no longer counts as waiting (src/main.cpp:136-137). `Undisturbed` says that this
   did not happen to a session. Without it two things go wrong.
   - Held lines are stranded. `StoppedCores.StoppedStrandsIff` says exactly when, for every event of a run that stops
     the core, and `History.StrandedForever` that it is for good; `StoppedCores.StoppedByOtherStrands` and
     `StoppedCores.CoreLossStrands` are the cases of a command typed elsewhere and of a core that exits.
     `Pipelining.DroppedCommandHangs` and `Pipelining.AbandonedCommandHangs` are runs.
   - The output is no longer in one piece for each command. The stopped core still sends the reply it owes, and the
     session may have had answers to later commands by then. `StoppedCores.LateReplyIff` says exactly when a line of a
     reply comes too late: if some output of a later command reads differently. `LateReplies.LateReplyOvertaken` is a
     run, of a client that sends `shutdown` and `list-graphs`.

## Claims that hold with a condition

* A credential cache whose first reading was disturbed is not always right: `AuthCache.StartCoherentIff` says exactly
  when it is, in every run, and `AuthCache.TornStartIsStale` is a start after which it stays wrong.
* A request for "/name/command" does not reach that core with that command in every legal spelling. The decoder drops
  the leading slash only if it is a literal one (src/servapp.h:1057-1059); spelled `%2F` it stays, and the cut behind
  the name (src/servapp.h:1068-1073) leaves a slash in front of the command. `HttpRequest.AddressRoundTrip` says so for
  every spelling, and `HttpRequest.EncodedSlashStays` is a request.
* An HTTP response is not always one response. `HttpRuns.HelpRequestIff` says that the answer to a request for help
  keeps a single header exactly if the core command table has `help`. If it has, but above read level, the conversation
  is never ended (`HttpRuns.RefusedHelpNeverEnds`), although the documentation says that the server closes the
  connection after responding (doc/usage.rst:116). `Responses.ConversationEndsIff` says exactly when a conversation
  with a core is ended: not if the server's help is followed by a reply without a data set.
* That HTTP clients never run a command above read level (doc/usage.rst:120) holds of clients that send one request.
  `HttpRuns.HttpClientRunsAtAdminLevel` is a run with two requests in one stretch of input; for any number of requests,
  `Theorems.HighLevelWasEarned` says that an earlier command earned the level.

Order, routing, framing, conservation and the access gate need no proviso except where their row says so.

## Assumptions about code that is not part of this model

`clibase.h` and `corecommands.h` are not part of this model. Splitting a string drops empty words and by default
splits at blank, tab and newline; a line announces a data set when its last character that is not blank is a colon;
a server command is found by its exact name; the table of core commands is any finite map. The word for failures,
`FAILED!`, is the one the user documentation shows (doc/usage.rst). What server commands report (texts, lists,
statistics), whether a process could be started or killed, the users cached at the moment and the hash function are
answers of the outside world, taken in the order in which they are asked for; of `help` it is kept that its status
line announces a data set and, asked about one server command, ends with that name, and that the lines of its list
begin with a hash mark.

A write that fails in the middle of an operation marks its client for removal. Nothing looks at the mark before the
byte that caused the operation is dealt with, so the mark appears as an event of its own, right after that byte. The
line buffer of a session or core is emptied before its line is handled instead of after; nothing looks at it in
between.

The user documentation says that the HTTP server accepts GET requests; the code never looks at the verb, and neither
does the model. A first status line that is empty is answered with status 500 and the client is shut down, as the
code does.

## Model

| member | source | states |
|---|---|---|
| Theorems.SequentialSession | src/servapp.h:958-1002 | A live TCP session whose cores kept running was sent exactly its commands' own outputs, each contiguous, in the order of the commands, all but an awaited last one complete, whatever other sessions did on the same cores |
| Theorems.InArrivalOrder | src/servapp.h:965-1001 | Unless the drain loop left lines behind a data set, the commands handled are the protocol's reading of the received lines in order of arrival, the held lines are the rest |
| Theorems.LinesConserved | src/servapp.h:481-504 | With or without that proviso no line of a TCP session is lost or duplicated, and an open command is an unfinished data set |
| Theorems.AtMostOneOutstanding | src/coreinstance.h:303-310 | Over all running cores at most one command of a TCP session is queued or in flight; it is the session's last one, at the core it is connected to |
| Theorems.NothingPendingWhenFree | src/servapp.h:986-996 | Whenever a TCP session may run a command, also inside the drain loop, no running core has anything for it |
| Reconnects.NeverWarnsOnReconnect | src/servapp.h:663-679 | In no run, and by no command that the drain loop ran, did a TCP session ever take the "old core still has data" branch |
| Theorems.NoStrandedLines | src/servapp.h:986-990 | Under both provisos a live TCP session with held lines is waiting for the reply of its running core, and for nothing else |
| Theorems.DrainEnds | src/servapp.h:494-501 | From any state the drain loop ends, takes lines off the front only, and leaves the queue empty or the session waiting |
| Theorems.LineFromCoreDrains | src/servapp.h:486-502 | The core line that ends a session's wait drains its queue until it is empty or the session waits again |
| Theorems.ReplyRouting | src/main.cpp:69-102 | Each session got, of every core's lines, exactly those of the replies to its own commands, complete and in order; one marked for removal got a first part of that |
| Theorems.RepliesMatchCommands | src/main.cpp:73-101 | If a core speaks only when asked, its raw output parses into one reply for each command written, in order, the last one possibly unfinished |
| Theorems.CoreInputFraming | src/main.cpp:105-118 | The lines written to a core parse back into exactly the commands written, none cut off, each with a command line that is not blank; a client that vanishes mid data set contributes nothing |
| Wire.CoreBytesFraming | src/main.cpp:109-112 | The same for the bytes: cut into lines and then into protocol blocks they are the written commands, with nothing left over |
| Inputs.CoreLinesAreTheStream | src/servapp.h:481-486 | However a core's output arrives, the lines that the server takes it for are the bytes printed, without carriage returns, cut at the newlines, and the buffer is the rest |
| Inputs.ClientLinesAreTheStream | src/servapp.h:414-451 | However the bytes of a live client arrive, the lines handed over for a TCP session, or the requests counted and the one begun for an HTTP session, are those of what was typed, without carriage returns |
| Inputs.MarkedHandsNothing | src/servapp.h:437-438 | What a client sends that is marked for removal is kept aside and never handed over |
| Inputs.NamesAreValid | src/main.cpp:280-300 | In every run every core has a valid graph name |
| Theorems.CompleteEntries | src/servapp.h:848-884 | Every queued command is complete in every reachable state, so removing a session never ends a data set and changes nothing but the session map |
| Theorems.FifoConserved | src/coreinstance.h:290-293 | Commands accepted by a core are those written followed by those queued, and none is written before all earlier replies are complete |
| Theorems.BoundedWait | src/servapp.h:348-357 | After the loop's flush an idle core has an empty queue, and the command with k predecessors is written exactly when k replies are complete |
| Theorems.QuiescentMeansHandled | src/servapp.h:348-357 | Under both provisos, once the queues are flushed and no core owes a reply, nothing of a live TCP session is held: its commands are the protocol's reading of all it sent, each completely answered, its output theirs in order |
| Theorems.AccessGate | src/servapp.h:887-909 | Every command a core ever accepted was permitted at the level its session had earned by then: its first word, up to a blank, colon or angle bracket, is in the table at no higher level, and a command with an angle bracket in it has admin level. It is the session's command of that number |
| Theorems.TakenIffPermitted | src/servapp.h:887-924 | A running core takes a command, at the end of what it accepted, exactly if it is permitted in that sense; otherwise no core changes and the answer says whether the word is unknown or the level too low |
| Theorems.LevelIsEarned | src/main.cpp:454-486 | A session's level is the one its last successful authorize earned, read before the first |
| Theorems.EarnedByPassword | src/auth.h:182-208 | What earning means, read off its definition: a level is earned only by naming the password authority with a cached user and the matching password, and it is the level cached for that user |
| Theorems.EarnedIff | src/main.cpp:454-486 | Both directions: a command earns a level exactly if it reads authorize, password, and the name of a cached user with its password, without angle brackets, and then the level cached for that user |
| Theorems.OnlyAdminsManageCores | src/main.cpp:216-223 | No command of a session below admin level starts or stops a core |
| Theorems.HttpRunsAtReadLevel | src/servapp.h:1076-1106 | An HTTP client that sends one request never gets a command above read level to a core, nor one with an angle bracket in it |
| Theorems.HighLevelWasEarned | src/servapp.h:887-909 | A core accepted a command above read level, from a TCP or HTTP session with any number of requests, only after an earlier command of the session had earned a level high enough, the last one that earned any |
| HttpRuns.HttpClientRunsAtAdminLevel | src/servapp.h:1076-1106 | A run, byte by byte, in which an HTTP client sends two requests at once and a core accepts the second one's command, which needs admin level |
| Theorems.NamesAreUnique | src/servapp.h:558-564 | A running core is the only one of its name, so the search by name does not depend on the order of the map |
| Theorems.HttpOpensNothing | src/servapp.h:1086-1106 | An HTTP session never has an open data set or holds a line that would open one |
| Theorems.HttpResponseComplete | src/servapp.h:521-534 | When the conversation rule ends an HTTP session of one request, its output is one whole response: one header, first, and the complete reply of the core if one had to answer, provided help is in the core command table |
| Responses.ConversationEndsIff | src/servapp.h:521-534 | The rule ends the conversation of a session whose only request went to a core exactly if its output is gone, the core's reply is whole, and the reply's status line is not empty or, behind the server's own help, announces a data set |
| Responses.AnsweredConversationEndsIff | src/servapp.h:521-534 | If the server answered by itself, exactly if its output is gone and the answer has an ending call |
| Responses.FinishedIff | src/session.h:171-183 | An output ends a conversation exactly if it has the report of an unknown command, an empty data line, or a first status line that is neither empty nor announces data |
| Responses.SweepEndsIff | src/servapp.h:520-534 | The sweep ends exactly the conversations of HTTP sessions whose output is finished and gone and for which their core, if it runs, holds nothing; it changes nothing else |
| Responses.EmptyStatusCloses | src/main.cpp:150-156 | A line from a core shuts its client down exactly if it is an empty status line and the first one to an HTTP client |
| Theorems.HelpHeaderIff | src/main.cpp:617-640 | Without that assumption: a help listing continued by the core keeps a single header exactly if the core command table has help |
| HttpRuns.HelpRequestIff | src/main.cpp:617-640 | The same for the first request of an HTTP session in any reachable state: a single header exactly if the table has help, two and the end of the conversation if not, and the core is asked exactly if help needs no more than read level |
| HttpRuns.RefusedHelpNeverEnds | src/servapp.h:521-534 | If help needs more, the client is sent nothing more and the conversation rule never fires, whatever happens, unless it sends another request |
| HttpRuns.SilentForever | src/servapp.h:521-534 | An HTTP session with nothing at a core is sent nothing and handles nothing in any continuation, until its next request is complete |
| Model.FindNamed | src/servapp.h:558-564 | Finds the running core of a name with the smallest ID, and none exactly if there is none |
| History.CoresMoveOn | src/servapp.h:575-588 | In any continuation of a run a core keeps its name and histories, replies only progress, and a core that stopped or was removed never comes back; IDs are never used again |
| History.StrandedForever | src/servapp.h:986-990 | A TCP session with held lines and nothing awaited never handles a line again, whatever happens; new lines join the held ones |
| Provisos.DrainOneJumpsIff | src/servapp.h:494-501 | One drain iteration leaves lines behind exactly if the front line opens a data set and is not the last |
| Provisos.JumpedIff | src/servapp.h:494-501 | The drain loop leaves lines behind exactly if it comes to a held line that opens a data set and is not the last |
| Provisos.NothingLeftBehind | src/servapp.h:494-501 | If no held line except the last opens a data set, nothing is left behind |
| Provisos.EndedDatasetStrandsIff | src/servapp.h:965-974 | When a fresh line ends a data set with lines held behind it, the session is stranded exactly if its core does not take the command: a server command, no running core, an unknown command, or too low a level |
| Provisos.EndedDatasetStrandsForever | src/servapp.h:965-990 | From then on no command of that session is handled in any continuation of the run |
| Provisos.OpenDatasetNeedsClient | src/main.cpp:133-139 | While a data set is open only its client can take lines off the queue |
| Provisos.OvertakenIff | src/servapp.h:965-976 | A line joining an open data set keeps the order of arrival exactly if every held line reads the same, so in particular if none is held |
| StoppedCores.StoppedCoreStrandsIff | src/main.cpp:133-139 | However its core stops counting as running, a TCP session is stranded exactly if it holds lines and has no open data set |
| StoppedCores.StoppedStrandsIff | src/main.cpp:133-139 | In any run, for any event that stops the core of a TCP session, be it another session's command typed, sent over HTTP or run by the drain loop, or a core's exit: the session is stranded exactly if the event is not its own input or reply, it holds lines, and has no open data set; and then in every continuation |
| StoppedCores.StoppedByOtherStrands | src/main.cpp:341-362 | The case of a drop-graph or shutdown command typed at the prompt of another TCP session |
| StoppedCores.CoreLossStrands | src/servapp.h:609-623 | When a core exits it is no longer read from, and a session connected to it is stranded exactly if it holds lines and has no open data set |
| StoppedCores.LateReplyIff | src/main.cpp:79-99 | If a session's output is that of its commands one after the other and a core sends it one more line, it stays so exactly if all output of commands later than the one answered reads the same as that line, so in particular if there is none |
| Provisos.StrandedBreaksAProviso | src/servapp.h:488-501 | A live session is stranded only if one of the two provisos fails for it |
| Pipelining.PipelinedCommandHangs | src/servapp.h:494-501 | A run, byte by byte, in which a pipelined command with a data set was received completely and is not handled although the only core is idle and never stopped |
| Pipelining.RefusedCommandStrands | src/servapp.h:937-938 | A run in which the pipelined command is one for the server: its data set ends without its lines, it is refused, no core changed, and the session is stranded in every continuation |
| Pipelining.DroppedCommandHangs | src/main.cpp:341-362 | A run in which a second client arrives, authorizes and drops the graph while the first holds a line; the first is stranded in every continuation |
| Pipelining.AbandonedCommandHangs | src/main.cpp:136-137 | A run in which a core exits and a pipelined command stays unhandled in every continuation |
| LateReplies.LateReplyOvertaken | src/main.cpp:726-754 | A run in which a client shuts its core down and sends another command: the core's reply arrives behind the answer to that, so the output of a live session is no longer its commands' outputs in order |
| Reachable.AlwaysInv | src/servapp.h:295-538 | Every sequence of events keeps the invariant of cores, sessions and their histories |
| Reachable.RemovalIsClean | src/servapp.h:868-878 | Removing a session from a state with complete queues deletes it and touches no core |
| Wire.OneRequestOneLine | src/servapp.h:1005-1119 | A request hands over at most one line; it ends in its only newline and opens no data set |
| Framing.ProtocolRoundTrip | src/coreinstance.h:34-54 | Joining complete commands and an unfinished one into a stream of lines and reading it by the protocol gives them back |
| Framing.LinesRoundTrip | src/coreinstance.h:61-74 | Cutting a byte stream at newlines gives back its lines and the unfinished rest |
| Framing.FlatOfCut | src/coreinstance.h:61-74 | Cutting any stream loses and reorders nothing, and every block cut off is complete |
| Framing.LineRecvQ.NextLines | src/coreinstance.h:61-74 | However a stream is chopped into chunks, the lines that come out are those of the stream and the buffer is the unfinished rest |
| Framing.OpensByLastWord | src/coreinstance.h:34-40 | A line announces a data set exactly if its last word ends in a colon |
| Framing.RebuiltLineKeepsOpens | src/main.cpp:656-662 | A command line rebuilt from its words announces a data set exactly if the original did |
| Writers.NonblockWriter.WriteString | src/utils.h:170-181 | A write hands any first part of the string to the descriptor, or nothing |
| Writers.NonblockWriter.Flush | src/utils.h:116-130 | For every pattern of partial and failed writes: bytes sent followed by the buffer stay what was written, the loop ends, and the result is true exactly when the buffer is empty |
| Writers.NonblockWriter.Write | src/utils.h:136-140 | Appends to what was written; nothing sent is taken back |
| HttpResponse.OneHeaderFirst | src/main.cpp:142-194 | Output of one response carries exactly one header, and it comes first |
| Responses.TcpReadsAnswers | src/session.h:95-105 | The bytes of a TCP session's outputs are the lines that answer its commands, joined |
| Responses.HttpReadsAnswer | src/session.h:138-176 | The bytes of a response that begins with a status line, read as a message (the lines before the first empty one, and what follows), have the status, the type and the trimmed status line as head, and the text of the answer as body |
| Responses.HttpReadsNotFound | src/session.h:178-183 | The same for the report of an unknown command |
| Responses.ResponseIsMessage | src/servapp.h:521-534 | The same in runs: what an HTTP client of one request was sent when its conversation ends is such a message of the command's answer, the core's whole reply included |
| Responses.CoreStatusFits | src/main.cpp:160-170 | A status line of a core that only speaks when asked never breaks the header, whatever it says |
| HttpRequest.DecodeURI | src/servapp.h:1027-1065 | The decoding loop ends and computes the decoding of the URI, or reports a bad escape |
| HttpRequest.BadEscapeRefused | src/servapp.h:1046-1052 | A request whose URI has, behind any legal spelling, a percent sign followed neither by another one nor, after white space, by two hexadecimal digits of a printable character, is refused for its bad hex, whatever comes behind |
| HttpRequest.HexDigits | src/servapp.h:1048 | The hexadecimal digits and their values, in both cases, and nothing else |
| HttpRequest.OtherVersionRefused | src/servapp.h:1012-1025 | A request of three words is refused for its version exactly if that is neither HTTP/1.0 nor HTTP/1.1 in any case |
| HttpRequest.ThreeWordsNeeded | src/servapp.h:1012-1018 | A request line is refused as malformed exactly if it is not of three words |
| HttpRequest.DecodedHasNoNewline | src/servapp.h:1048-1054 | Decoding never yields a newline that the URI did not hold |
| HttpRequest.DecodeUndoesSpell | src/servapp.h:1033-1064 | Every legal spelling of a text, chosen character by character (literal, plus, double percent, hexadecimal), decodes to it behind anything; as a whole URI it does so without its first character if that is a literal slash |
| HttpRequest.AddressRoundTrip | src/servapp.h:1012-1073 | Every legal spelling of "/name/command" in a request line reaches exactly that core name, with exactly that command if and only if the leading slash is a literal one; otherwise the command has a slash in front |
| HttpRequest.EncodedSlashStays | src/servapp.h:1057-1073 | A request line with a leading %2F, whose core is asked for a command that begins with a slash |
| HttpRequest.PlainRoundTrip | src/servapp.h:1092-1106 | Every legal spelling, behind a literal slash, of a text without slashes that is not blank asks for that text as a command by itself |
| HttpRuns.RefusedRequestRunsNothing | src/servapp.h:1005-1119 | In any reachable state, a request that is malformed, names no running core or announces a data set is answered with one status line; no line is handed over, no core changes |
| HttpRuns.OtherRequestsHandOver | src/servapp.h:1068-1106 | Any other request hands over its command as one line, to the session connected to the running core of that name |
| HttpRuns.BadEscapeRunsNothing | src/servapp.h:1046-1052 | The case of a bad escape, from the request line on |
| HttpRuns.EveryCoreIsAddressable | src/servapp.h:1068-1092 | In any run, a request that spells the name of a running core and a command, in any legal way behind a literal slash, asks for that command at that core |
| HttpRequest.RequestGivesOneLine | src/servapp.h:1068-1106 | What a request asks to run is not empty and holds no newline |
| HttpRequest.IsValidGraphName | src/servapp.h:542-555 | The loop accepts exactly the names that start with a letter, hyphen or underscore and go on with those and digits |
| Auth.SplitLine | src/auth.h:61-75 | The loop yields the fields between separators, after trailing white space is stripped |
| Auth.JoinOfFields | src/auth.h:61-75 | Joining the fields of a line gives the line back |
| Auth.SplitLineRoundTrip | src/auth.h:61-75 | Splitting a joined line, with any white space behind it, gives the fields back |
| Auth.PasswordAuth.constructor | src/auth.h:173-178 | Starts with the parse of the files, or without users if they do not parse |
| Auth.PasswordAuth.ReadCredentialFiles | src/auth.h:77-150 | The loops parse both files; the cache becomes the parse if there is one and is unchanged otherwise |
| Auth.UsersOfFiles | src/auth.h:77-150 | What the files mean together: the users are those named by the password file, each with the hash of its last line there, at admin level if an admin group lists it, else write level if a write group does, else read level |
| Auth.FilesParseIff | src/auth.h:91-132 | The files are accepted exactly if every line that is not empty is user:hash with a hash of 13 characters, or a group line of four fields that begins with read, write or admin |
| Auth.PasswordAuth.RefreshFileCache | src/auth.h:152-170 | Reads the files again exactly when a modification time has reached the last refresh, and dates the cache to the time sampled first |
| Auth.PasswordAuth.AuthorizeUser | src/auth.h:182-208 | Refreshes, then grants the cached level exactly to a cached user with the right password |
| Auth.GroupMergeIsMaximum | src/auth.h:133-142 | After a successful parse a user's level is the one it had before or that of some group line listing it, and no lower than any of these: their maximum |
| Auth.GroupOrderIrrelevant | src/auth.h:111-143 | Two group files that grant the same, in any order of lines and of names within lines, give the same users |
| Auth.GroupReordering | src/auth.h:111-143 | Reordering the lines of a group file, and the names within its lines, changes neither whether it is accepted nor the users it gives |
| Auth.GroupsKeepUsers | src/auth.h:136-142 | Group lines add and remove no user and change no password |
| AuthCache.CacheCoherent | src/auth.h:152-170 | Whatever is written whenever, also between the time sample, the checks and the reads of a refresh: when no refresh is under way, files that look older than the cache either do not parse or are what the cache holds |
| AuthCache.UndisturbedRefresh | src/auth.h:152-170 | A refresh that nobody interferes with does, call by call, what the refresh function says |
| AuthCache.RefreshServesCurrentFiles | src/auth.h:182-187 | A corollary of the refresh function in a reachable state: after such a refresh the cached users are those of the current files, if these parse |
| AuthCache.StartCoherent | src/auth.h:173-178 | A start leads to a coherent cache in every run if no file that changed since it was read looks older than the time sample |
| AuthCache.StartCoherentIff | src/auth.h:173-178 | It does exactly if, at the time sample, some file looks as young as the sample, or the files do not parse, or they give the users that were read |
| AuthCache.TornStartIsStale | src/auth.h:173-178 | A start in which a file changes between the first read and the time sample leaves a cache that is wrong after any number of refreshes and ticks, until a file is written, although both files look old |
| Objects.CommandQEntry.AppendToDataset | src/coreinstance.h:47-54 | Adds a line to an unfinished data set and nothing else; a blank line finishes it |
| Objects.CoreInstance.FindLastClientCommand | src/coreinstance.h:267-273 | The backward search finds a client's last queued command |
| Objects.CoreInstance.HasDataForClient | src/coreinstance.h:303-310 | True exactly if the core is answering this client or has a command of it queued |
| Objects.CoreInstance.FlushCommandQ | src/main.cpp:105-118 | The loop writes the next command, if the core is idle, byte for byte, and records whose reply is awaited |
| Objects.CoreInstance.LineFromCore | src/main.cpp:69-102 | Moves the reply state on and hands the line, as status line or data, to the session it is given |
| Objects.SessionContext.ForwardStatusline | src/main.cpp:142-194 | Writes exactly the bytes of a status line: as it is to a TCP client or a later one to an HTTP client, with the response header if it is the first |
| Objects.SessionContext.ForwardDataset | src/session.h:171-176 | Writes the line; for an HTTP client a blank line ends the conversation |
| Objects.SessionContext.CommandNotFound | src/session.h:178-183 | Writes the report of an unknown command, to an HTTP client as a whole error response |
| Objects.SessionContext.HttpWriteResponseHeader | src/session.h:138-151 | Writes a status line, the content type, an optional field without trailing white space, and the empty line |
| Server.Graphserv.FindNamedInstance | src/servapp.h:558-564 | The walk over the map finds what the state machine finds |
| Server.Graphserv.IsWaitingForCoreReply | src/main.cpp:133-139 | True exactly if the state machine says that the session waits |
| Server.Graphserv.ReconnectSession | src/servapp.h:663-679 | Connects the session and tells exactly whether the old core still has data for it |
| Server.Graphserv.ForwardToCoreOf | src/servapp.h:887-924 | Takes the objects to the state after forwarding a command: queued and flushed, refused, unknown, or the core is gone |
| Server.Graphserv.ExecuteCommand | src/main.cpp:216-241 | Takes the objects to the state after a server command |
| Server.Graphserv.HelpCommand | src/main.cpp:607-676 | The same for help, which may go on at the core |
| Server.Graphserv.ShutdownCommand | src/main.cpp:726-754 | The same for shutdown: the command is sent and the core no longer counts as running |
| Server.Graphserv.CreateGraph | src/main.cpp:280-300 | The same for create-graph: a valid new name and a started process give a core with the next ID |
| Server.Graphserv.DropGraph | src/main.cpp:341-362 | The same for drop-graph: the named core stops counting as running if its process could be killed |
| ServerCommands.UseGraphConnects | src/main.cpp:304-329 | From any state, use-graph leaves the session at the running core of that name and all cores as they were |
| ServerCommands.UseGraphFails | src/main.cpp:304-329 | If no core of that name runs, the session stays where it is |
| ServerCommands.CreateGraphCreatesIff | src/main.cpp:280-300 | An admin's create-graph makes an idle running core of that name with the next ID exactly if the name is valid, no running core has it, and the process starts |
| ServerCommands.DropGraphStopsIff | src/main.cpp:341-362 | An admin's drop-graph makes the running core of that name stop counting as running exactly if its process could be killed; it is still read from and nothing else changes |
| ServerCommands.ShutdownStopsOwnCore | src/main.cpp:726-754 | An admin's shutdown stops the session's own core, which is sent the bare command if its table has it; no other core changes |
| ServerCommands.ManagingNeedsAdmin | src/main.cpp:216-223 | Below admin level these three are refused and change nothing |
| ServerCommands.RedirectedServerCommand | src/servapp.h:937-940 | A server command with a data set or an angle bracket is refused and changes nothing |
| ServerCommands.QuitCloses | src/main.cpp:247-266 | quit is answered and ends the connection; with more words it does nothing |
| ServerCommands.UnknownWithoutCore | src/servapp.h:948-953 | An unknown command of a session without a core is reported and changes nothing |
| ServerCommands.GoneCoreIsForgotten | src/servapp.h:917-922 | A command for a core that no longer runs is answered with an error, and the session is no longer connected |
| ServerCommands.TellingCommands | src/main.cpp:227-240 | list-graphs, session-info and server-stats answer with a status line and all their data, with more words with a status line alone |
| ServerCommands.HelpWithoutCore | src/main.cpp:617-640 | help without a core lists the server's commands and ends the list with an empty line |
| ServerCommands.HelpOnWord | src/main.cpp:642-673 | help on a server command tells about that; on help itself or any other word the core is asked, with the command rebuilt from its words, if it runs and the command is permitted |
| Server.Graphserv.ProcessCommand | src/servapp.h:928-954 | Takes the objects to the state after a complete command |
| Server.Graphserv.LineFromClient | src/servapp.h:958-1002 | Takes the objects to the state after a line from a client or from the queue |
| Server.Graphserv.DrainQueue | src/servapp.h:494-501 | The drain loop takes the objects to the drained state |
| Server.Graphserv.LineFromHTTPClient | src/servapp.h:1005-1119 | Takes the objects to the state after a line of an HTTP request |
| Server.Graphserv.LineFromCore | src/servapp.h:486-502 | Takes the objects to the state after a line from a core and the drain it may cause |
| Server.Graphserv.RemoveOne | src/servapp.h:848-884 | Removes a session as the state machine does |
| Server.Graphserv.ReadFromClient | src/servapp.h:414-451 | The receive loop reads that many single bytes into the run, marking clients whose writes failed after each; it stops early only for a client marked for removal |
| Server.Graphserv.ReadFromCore | src/servapp.h:481-504 | The read loop reads each byte into the run, marking clients whose writes failed after each |
| Server.Graphserv.FlushQueues | src/servapp.h:348-357 | The loop over the cores is one flush event |
| Server.Graphserv.MarkBroken | src/main.cpp:126-130 | Every client whose socket failed is marked for removal before the next byte is looked at |
| Server.Graphserv.RemoveClients | src/servapp.h:318-321 | The deferred removal is one removal event |
| Server.Graphserv.SweepClients | src/servapp.h:520-534 | The loop over the HTTP sessions is one sweep event for the clients without buffered output |
| Server.Graphserv.Turn | src/servapp.h:295-538 | One turn of the select loop extends the run; it begins with removal and flush, reads from each client what that sent (or a beginning of it if it is to be removed) and from each core what that sent, and ends with the sweep |
| Server.Graphserv.ClientReadsItsOutputs | src/session.h:95-105 | The bytes written to a live TCP client whose cores kept running are, command by command, the lines that the server answered and those of the core's reply, joined |
| Server.Graphserv.CoreReadsItsCommands | src/main.cpp:105-118 | What was written to a core's pipe is the stream of its commands, and what is queued is what it accepted beyond them |
| Server.Graphserv.WholeResponseSent | src/servapp.h:526-532 | When the sweep ends an HTTP conversation of one request, the bytes handed to the socket are the whole response, and read as a message: the status, the type and the status line in the head, and in the body the lines that answer the command |

## Left out

- Sockets, pipes, select, fork and exec, signals and the handshake of `startCore`: only "these bytes arrived", "so many bytes were taken", "the core exited" and "the process was started" are kept, as events and answers.
- The libevent main loop and the recovery from bad descriptors: the former does not flush the queues on every turn, so the claims are about the select loop.
- `LineRecvQ` for the standard error of cores is proved by itself but not connected, as its lines only go to the log.
- Inputs on which the code reads out of range: a core command made only of colons, angle brackets and blanks is modelled as an unknown command; an all-blank line in the credential files or as credentials is excluded by `Readable` and `Splittable`.
- Embedded NUL characters, wrap-around of the session and core ID counters, credential lines of 1024 bytes or more, missing credential files, and the truncation of formatted output at 2048 bytes.
- Texts of status lines and lists of server commands, statistics, choke times, translations, logging and the command line.
- The table from status words to HTTP codes: any map from words to title and kind of report.
- `queueCommand` with separate arguments, `ServCli::execute` on a string, and the disabled commands: nothing calls them.
- The virtual methods of HTTP sessions: one class with a kind stands for both session classes, since only the output methods differ.
- CommandQEntry: entries in a core's queue are values, because the source copies them into the queue.
- Server.Graphserv.AuthorizeSession: the users cached by the password authority are an answer of the outside world there; that they are the users of the files is proved for `PasswordAuth` and `AuthCache`.
- That a reply ever arrives, and that a client ever reads: no claim says that something eventually happens, only how much has happened once replies are complete.
- "Every command gets exactly one status line" is not what the code does: `quit` with extra words is answered with none, and `shutdown` is answered twice.
