# crypto-market: verified models of the stateful cores

The crypto-market workspace moves market data between processes. Its I/O lives in libraries;
what is left are a few pieces of shared or long-lived state that several threads, tasks or
sessions update in any order. This project models these pieces in Dafny and proves what they
keep over unbounded runs. `dafny verify dfyconfig.toml` checks everything.

| file | models |
|---|---|
| `Basics.dfy`, `Text.dfy`, `PublisherTypes.dfy` | options, bytes, `split`, `replacen` and counting, publisher types |
| `Commands.dfy`, `ClientEncoding.dfy` | the publisher's text commands, and the client that encodes them |
| `RetryToken.dfy` | the address validation token (section 8.1.2 of RFC 9000) |
| `PublisherState.dfy` | the publisher's two shared maps and the code that runs on them under their locks |
| `PublisherThreads.dfy`, `PublisherSections.dfy`, `PublisherJobs.dfy`, `PublisherSetup.dfy`, `PublisherClients.dfy` | the publisher's threads interleaving on the two mutexes, and what becomes of each input: a read, a message, a topic list, a packet |
| `PublisherDeadlock.dfy`, `PublisherDeadlockStart.dfy`, `PublisherCompletion.dfy` | which systems can deadlock, and that everything else can be finished |
| `ReplayEngine.dfy`, `ReplayTrace.dfy`, `ReplayDelivery.dfy` | the replay server's subscription engine, its meaning as a trace specification, and what it sends to each channel |
| `SessionRequests.dfy`, `ReplaySessions.dfy`, `SessionRuns.dfy` | what a client's message makes its session do, the sessions around the engine, and their whole runs |
| `SessionInboxes.dfy`, `SessionNotices.dfy` | what a session's channel accepts from all who write to it |
| `Reconciler.dfy`, `MulticastConfig.dfy`, `ReplayConfig.dfy` | the two configuration reconcilers and their task ledger |
| `ChannelNames.dfy`, `Demux.dfy` | channel naming on both ends, and the integration writer's routing loop |

How the model is built:

- Code that changes fields or maps in place is a class (`Publisher`, `MessageLoop`, the two
  `DynamicConfigHandler`s, `Router`); its methods keep the source's loops and are proved
  equal to specification functions, or to a relation where iteration order is arbitrary. The
  main theorems are about these functions and relations.
- Interleaving is a labelled step function `Next(state, action)`; a run is any sequence of
  enabled actions. The publisher's machine uses the same functions that `Publisher`'s methods
  are proved against, and `PublisherSections` proves that an interleaved critical section
  has exactly the sequential effect. `PublisherJobs` extends this to the input a thread was
  given before it waited for its locks, and `PublisherCompletion` shows that the effect can
  always be had: the thread needs nobody's help once its locks are free.
- Results of foreign code are parameters or free choices: whether a packet parses or a
  connection is closed or established, whether a send fails, what a configuration file
  parses to, what data arrives. Mutexes are taken not to be poisoned and threads not to
  panic outside the modelled lookups.
- `Book.spawned` and `Book.aborted` are ledgers: task `id` is the `id`-th spawn ever, and
  every call of `abort` is recorded. `Engine.out` records every message the engine hands to
  a channel; `World.inbox` records what each session's channel accepts from the engine, the
  session itself and its history tasks.

What the code does, where it departs from what one would expect:

- The publisher can deadlock: a distribution holds the subscriptions while it waits for the
  client list, everybody else takes the two locks the other way round. Exactly the systems
  that have a topic to set up and run a connection loop or the alive check can get there
  (`DeadlockDependsOnStart`); `DeadlockIsEmbrace` says which states are deadlocked, and
  `EmbraceIsForever` that a deadlock never resolves.
- In the replay engine a user is refused a second symbol, a session's cancellation by name
  silences all recipients of that symbol (`CancelSilencesAll`), and a user that subscribes
  before the first data of its symbol is recorded as holding it but does not receive
  (`HoldingIsNotReceiving`). Holders and recipients agree exactly when no entry is created
  after somebody holds its symbol (`ConverseAgreement`).
- A history request that counts its first day lower than its last one is reported as a
  range error and replays nothing, although its task is spawned all the same; the test for
  a negative last day can never fail (`HistoryWarnsOrReplays`).
- The multicast reconciler loses a running task exactly when a configuration gives a url
  two types or the initial list repeats a url (`NoTaskIsLost`, an equivalence over runs).
- The lookup that makes a distribution skip a message for an unknown topic never misses
  (`TopicsAreThere`).
- Fields with underscores can make different data share a publisher
  (`FieldsAreAmbiguous`).
- Writer and replay server name the same channel only under the exact condition of
  `PathsAgree`; an empty period behind `@` never meets the writer.

## Model

| member | source | states |
|---|---|---|
| Text.JoinSplit | crypto-market-publisher/src/server.rs:519-520 | joining the pieces of `split` with the separator gives the text back, for every text |
| Text.SplitPiecesAreClean | crypto-market-publisher/src/server.rs:519-520 | no piece of a split holds the separator, and every character of a piece comes from the text |
| Text.SplitJoin | crypto-market-publisher/src/server.rs:519-520 | splitting joined separator-free pieces gives exactly those pieces: with JoinSplit, `split` is the inverse of joining |
| Text.ReplaceNAt | crypto-market-integration/src/writers/mod.rs:34-34 | replacing the first n occurrences changes exactly those, position by position |
| Commands.TopicsAreFixed | crypto-market-publisher/src/server.rs:525-545 | no command list creates or drops a topic |
| Commands.LastWordDecides | crypto-market-publisher/src/server.rs:519-545 | for each known topic the last sub or unsub naming it decides the client's membership, silence leaves the topic unchanged, and no other client's membership ever changes |
| Commands.LastWordExists | crypto-market-publisher/src/server.rs:519-545 | a topic that is mentioned at all has a last word |
| Commands.ComplaintsInOrder | crypto-market-publisher/src/server.rs:525-557 | each failing command (unknown action or unknown topic) is reported once, between the reports of the commands before and after it; other commands report nothing |
| Commands.HandlingConcatenation | crypto-market-publisher/src/server.rs:516-558 | handling `a;b` equals handling a and then b, in effect and in reports, if every action of a is well formed; otherwise b is never looked at |
| Commands.ActionGrammar | crypto-market-publisher/src/server.rs:519-547 | an action subscribes to t if and only if it reads `sub@` and t, unsubscribes from t if and only if it reads `unsub@` and t, with t free of `@`; it is malformed if and only if it does not hold exactly one `@`; every other action is unknown |
| Commands.TextGrammar | crypto-market-publisher/src/server.rs:519-523 | of actions joined by semicolons, the commands are those of the actions before the first malformed one, in order |
| Commands.SingleActions | crypto-market-publisher/src/server.rs:525-545 | the texts `sub@t` and `unsub@t` add and remove exactly the client in t and draw no complaint |
| ClientEncoding.EncodeSubscribeList | crypto-market-publisher/src/client.rs:148-160 | the client's loop and final cut produce the subscribe actions joined by semicolons; it panics exactly for the empty list |
| ClientEncoding.EncodedListParses | crypto-market-publisher/src/client.rs:150-158 | the publisher parses the buffer to one subscribe per listed topic, in order, if and only if no topic contains a separator |
| ClientEncoding.EncodedListSubscribes | crypto-market-publisher/src/server.rs:501-558 | after the buffer is handled in one read the client is in exactly its old topics plus the known listed ones, nobody else moved, and the reports are one unknown-subscription error per unknown listed topic |
| RetryToken.MintToken | crypto-market-publisher/src/server.rs:453-467 | the bytes appended one after the other are tag, address octets and dcid, for both address families |
| RetryToken.ValidIffMinted | crypto-market-publisher/src/server.rs:430-451 | a token validates to d for a source if and only if it is the token minted from d and that source |
| RetryToken.ForeignToken | crypto-market-publisher/src/server.rs:430-467 | a token minted for one source validates for another exactly when the other's octets are a prefix of its content; within a family, exactly for equal octets, ports ignored |
| RetryToken.TagSpellsQuiche | crypto-market-publisher/src/server.rs:455-455 | the tag is the six letters |
| PublisherState.OpenedNeedsOwnToken | crypto-market-publisher/src/server.rs:143-242 | a packet opens a connection if and only if its ids are unknown, it is a supported Initial with a dcid of full length, and its token was minted for its own address; the original dcid is the token's |
| PublisherState.KnownIsListed | crypto-market-publisher/src/server.rs:143-242 | a packet belongs to a known client if and only if its dcid is listed, or its dcid is not and its derived id is; the client is that one |
| PublisherState.RetryIsFirstContact | crypto-market-publisher/src/server.rs:151-200 | a Retry, with the token of the packet's dcid and address and the derived id, answers exactly the supported Initial packets of unlisted ids without token; version negotiation exactly the unsupported ones |
| PublisherState.DroppedHasReason | crypto-market-publisher/src/server.rs:143-218 | dropped are exactly the packets of unlisted ids that are not Initial, or that bring a token not minted for their address or a dcid of the wrong length |
| PublisherState.AdmissionOpens | crypto-market-publisher/src/server.rs:220-235 | the list changes only by opening, by one client under the packet's dcid that is not closed, not established and has been offered nothing |
| PublisherState.RetryHandshake | crypto-market-publisher/src/server.rs:178-235 | a first packet is answered by a Retry, and the packet that answers it from the same octets with its connection id and token is admitted, remembering the first dcid, whatever happened to the client list in between |
| PublisherState.CollectionKeepsConsistent | crypto-market-publisher/src/server.rs:305-319 | pruning closed clients from topics and list keeps every subscriber a client, at every point of the scan |
| PublisherState.CollectionLeavesTheOpen | crypto-market-publisher/src/server.rs:305-319 | a full collection keeps exactly the clients that are not closed, and in each topic exactly its subscribers among them |
| PublisherState.CommandsKeepConsistent | crypto-market-publisher/src/server.rs:233-286 | commands of a registered client keep every subscriber a client |
| PublisherState.Publisher.AdmitPacket | crypto-market-publisher/src/server.rs:141-243 | lookup and insertion decide as specified, change only the client list and that only on opening, and the connection found or opened is in the list, so both unwraps hold |
| PublisherState.Publisher.HandleSub | crypto-market-publisher/src/server.rs:501-559 | the loop over actions has the effect and the reports of the longest well-formed prefix; bytes that are not UTF-8 change nothing |
| PublisherState.Publisher.RunCommand | crypto-market-publisher/src/server.rs:525-545 | one command changes the topic set it names, if known, and yields its report |
| PublisherState.Publisher.CollectClosed | crypto-market-publisher/src/server.rs:305-319 | the nested loops drop exactly the closed clients and purge them from every topic, in any visiting order |
| PublisherState.Publisher.Unsubscribe | crypto-market-publisher/src/server.rs:312-315 | one client leaves all topics and nothing else changes |
| PublisherState.Publisher.AddTopics | crypto-market-publisher/src/server.rs:324-328 | every listed topic exists afterwards with no subscriber, others are untouched |
| PublisherState.Publisher.Distribute | crypto-market-publisher/src/server.rs:369-396 | given consistent maps every lookup succeeds, each established subscriber is offered the payload once in any order, a broken send closes its client, and nobody else is touched |
| PublisherThreads.DropKeepsInv | crypto-market-publisher/src/server.rs:306-319 | dropping a client from the list keeps the invariant, since it has left every topic by then |
| PublisherThreads.SendKeepsInv | crypto-market-publisher/src/server.rs:382-395 | a distribution's lookup finds its client and the loop's progress is kept |
| PublisherThreads.RunNextKeepsInv | crypto-market-publisher/src/server.rs:519-545 | running one command under both locks keeps the maps consistent and the request's partial effect exact |
| PublisherThreads.NextKeepsInv | crypto-market-publisher/src/server.rs:79-396 | every step of every kind of thread keeps lock ownership, consistency of the two maps and each thread's knowledge |
| PublisherThreads.LookupNeverFails | crypto-market-publisher/src/server.rs:369-395 | in every reachable state of every interleaving all subscribed ids are clients, each distribution's remaining subscribers are clients, and no thread has panicked on a lookup |
| PublisherThreads.MutualExclusion | crypto-market-publisher/src/server.rs:19-28 | no two threads ever hold the same mutex |
| PublisherSections.OnlyHoldersWrite | crypto-market-publisher/src/server.rs:19-28 | while a thread holds a lock no other thread's step changes the map behind it |
| PublisherSections.SectionRemembersEntry | crypto-market-publisher/src/server.rs:296-319 | throughout any run during which a thread stays in its critical section, it works on the maps found at entry |
| PublisherSections.CollectionRunsAsOne | crypto-market-publisher/src/server.rs:296-319 | an interleaved alive check gives its locks back only after exactly the sequential collection of the state it entered in |
| PublisherSections.CommandsRunAsOne | crypto-market-publisher/src/server.rs:514-558 | an interleaved command section is left only with exactly the sequential effect of its request, and changes no client |
| PublisherSections.DistributionRunsAsOne | crypto-market-publisher/src/server.rs:379-395 | an interleaved distribution is left only after the payload was offered once to each established subscriber the topic had at entry, and closes exactly those for whom the send broke |
| PublisherJobs.JobsBeginWithInput | crypto-market-publisher/src/server.rs:271-286 | a thread gets something to do from its own input alone: a connection the commands its text spells, for its client, a distribution its message, for its topic |
| PublisherJobs.ReadRunsItsText | crypto-market-publisher/src/server.rs:271-286 | for any interleaving from reading a text, over the wait for the lock, to giving it back: the subscriptions are those at the lock with the text's commands applied for the connection's client, and the loop is back at that client |
| PublisherJobs.MessageReachesSubscribers | crypto-market-publisher/src/server.rs:355-396 | for any interleaving from a message to giving the locks back: exactly the established subscribers the topic has at the lock have been offered that message, once |
| PublisherJobs.TopicIsForGood | crypto-market-publisher/src/server.rs:330-357 | a distribution serves the topic it was started for in every run |
| PublisherJobs.KindIsForGood | crypto-market-publisher/src/server.rs:41-77 | connection loops, the alive check, setups and distributions stay what they are in every run |
| PublisherJobs.TopicsAreThere | crypto-market-publisher/src/server.rs:369-378 | in every reachable state the topic of every distribution exists, so the lookup that skips a message never misses |
| PublisherSetup.SetupRunsAsOne | crypto-market-publisher/src/server.rs:323-340 | an interleaved setup resets exactly its listed topics and starts exactly one distribution for each topic there is |
| PublisherClients.OnlyTheClosedLeave | crypto-market-publisher/src/server.rs:305-319 | in every step a client leaves the list only because the alive check drops it, and only when it is closed |
| PublisherClients.ArrivalServes | crypto-market-publisher/src/server.rs:143-246 | a packet leads its loop to the client it belongs to or has opened, and to none otherwise |
| PublisherClients.OpenedStaysKnown | crypto-market-publisher/src/server.rs:143-242 | from the packet that opens a connection on, over any run in which the alive check does not drop it, every packet with its dcid is served by it and changes no list |
| PublisherClients.ConnectionGivesBack | crypto-market-publisher/src/server.rs:286-292 | a loop that is done with its client frees the list and changes nothing but that this client may be closed |
| PublisherDeadlock.CircularWaitHasEmbrace | crypto-market-publisher/src/server.rs:370-379 | every circular wait, of any length, contains a distribution that holds the subscriptions and waits for the client list, and the holder of that list waiting for the subscriptions |
| PublisherDeadlock.DeadlockIsEmbrace | crypto-market-publisher/src/server.rs:296-379 | a reachable state is deadlocked if and only if such a pair exists |
| PublisherDeadlock.NoDistributionNoDeadlock | crypto-market-publisher/src/server.rs:296-324 | without a distribution waiting for the client list there is no deadlock: connection, alive-check and setup threads alone cannot produce one |
| PublisherDeadlockStart.DeadlockDependsOnStart | crypto-market-publisher/src/server.rs:79-379 | an initial system can reach a deadlock if and only if some thread of it has a topic to set up and some thread is a connection loop or the alive check |
| PublisherDeadlockStart.DeadlockNeedsBoth | crypto-market-publisher/src/server.rs:296-379 | without a topic to set up, or without a connection loop or alive check, no run of any length deadlocks |
| PublisherDeadlockStart.DeadlockIsReachable | crypto-market-publisher/src/server.rs:296-379 | any such pair of threads, beside whatever others, can run into a deadlock: through the alive check, or through a connection that validates its address and sends one read |
| PublisherDeadlock.EmbraceIsForever | crypto-market-publisher/src/server.rs:296-379 | once embraced, the two threads never move and the two maps never change again, in any continuation |
| PublisherDeadlock.LockHoldersProgress | crypto-market-publisher/src/server.rs:79-396 | in every reachable state that is not deadlocked and has a lock taken, an owner of a lock can take a step |
| PublisherCompletion.SectionCompletes | crypto-market-publisher/src/server.rs:296-396 | a thread that enters its critical section can finish it alone, however many clients, topics or commands there are |
| PublisherCompletion.ReadCanBeDone | crypto-market-publisher/src/server.rs:271-286 | whatever a connection reads can be carried out to the end, with exactly its sequential effect, if the subscriptions are free |
| PublisherCompletion.CollectionCanBeDone | crypto-market-publisher/src/server.rs:293-321 | an idle alive check can carry out its collection if both locks are free |
| PublisherCompletion.MessageCanBeDone | crypto-market-publisher/src/server.rs:355-396 | an idle distribution can offer any message to all its established subscribers if both locks are free |
| PublisherCompletion.LocksComeFree | crypto-market-publisher/src/server.rs:79-396 | a thread of any kind that holds a lock can give all its locks back alone, provided nobody else holds one |
| ReplayEngine.MessageLoop.SubscribeHandle | crypto-market-replay/src/lib.rs:122-142 | both maps and the outcome are as specified: refusal of a second symbol, recording of the user even without an entry, channel stored in the entry |
| ReplayEngine.MessageLoop.UnsubscribeHandle | crypto-market-replay/src/lib.rs:143-162 | naming a symbol drops its entry for all; naming none drops the entries of the user's symbols, in any order, and the user |
| ReplayEngine.MessageLoop.ActionHandle | crypto-market-replay/src/lib.rs:91-120 | one action changes the maps and sends at most one reply, to the user's own channel if the user still exists |
| ReplayEngine.MessageLoop.DataHandler | crypto-market-replay/src/lib.rs:164-188 | each session of the entry is sent the message once, in any order; a missing entry is created and nobody is sent anything |
| ReplayEngine.RunLoop | crypto-market-replay/src/lib.rs:63-89 | the event loop computes the engine after the whole history |
| ReplayEngine.BroadcastMore | crypto-market-replay/src/lib.rs:179-183 | serving one more session appends one message to its channel: what channels carry does not depend on the serving order |
| ReplayTrace.UsersAreKnown | crypto-market-replay/src/lib.rs:130-159 | for every history the user index has exactly the ids that subscribed to something since they last left |
| ReplayTrace.UserIsFirst | crypto-market-replay/src/lib.rs:130-138 | a user's symbol and reply channel are those of its first subscription since it last left |
| ReplayTrace.HoldsIsUserIndex | crypto-market-replay/src/lib.rs:130-138 | a user's symbol set is exactly the symbol it holds in the trace sense: a singleton in every reachable state |
| ReplayTrace.ClearsRemoves | crypto-market-replay/src/lib.rs:151-159 | an event removes an entry exactly when it clears the symbol: a cancellation by anyone, or a holder leaving |
| ReplayTrace.EntriesFollowHistory | crypto-market-replay/src/lib.rs:139-187 | for every history a symbol has an entry exactly when data for it arrived since it was last cleared |
| ReplayTrace.RecipientsFollowHistory | crypto-market-replay/src/lib.rs:122-188 | for every history the ids in a symbol's entry are exactly those with an accepted subscription since the symbol was last cleared |
| ReplayTrace.RecipientHolds | crypto-market-replay/src/lib.rs:130-141 | a recipient holds the symbol and the symbol has an entry |
| ReplayTrace.SenderIsAccepted | crypto-market-replay/src/lib.rs:139-140 | the channel in an entry is that of an accepted subscription not cleared since |
| ReplayTrace.IndexSoundness | crypto-market-replay/src/lib.rs:122-162 | when sessions use one channel each, whoever is in an entry is a user holding exactly that symbol through the same channel, in every reachable state |
| ReplayTrace.ConverseAgreement | crypto-market-replay/src/lib.rs:136-187 | throughout a history every holder of a symbol that has an entry is in the entry, if and only if no data event ever created an entry while somebody already held its symbol |
| ReplayTrace.LateEntryMissesHolder | crypto-market-replay/src/lib.rs:184-187 | each such creation leaves a holder of a symbol with an entry who does not receive it |
| ReplayTrace.HoldingIsNotReceiving | crypto-market-replay/src/lib.rs:136-141 | the shortest disagreement: subscribing before the first data event |
| ReplayTrace.CancelSilencesAll | crypto-market-replay/src/lib.rs:151-154 | a cancellation by name ends the entry and every reception of the symbol while its holders still hold it |
| ReplayDelivery.SubscribeReplies | crypto-market-replay/src/lib.rs:98-118 | every Subscribe sends exactly one message, a reply to its session, and it says success if and only if the session is a recipient of the symbol afterwards |
| ReplayDelivery.UnsubscribeReplies | crypto-market-replay/src/lib.rs:98-118 | Unsubscribe-all never sends anything; a named one replies to a known user only, with success if and only if the symbol had an entry |
| ReplayDelivery.EntryReaches | crypto-market-replay/src/lib.rs:179-182 | a broadcast reaches a session's channel once if it is a recipient and otherwise never |
| ReplayDelivery.ChannelsCarryTranscripts | crypto-market-replay/src/lib.rs:68-120 | for every history each session's channel carries exactly the transcript the trace specification assigns to it, replies and live data interleaved in order |
| ReplayDelivery.LiveDataIsConserved | crypto-market-replay/src/lib.rs:164-188 | a session's live messages are exactly the data events that find it a recipient, once each and in arrival order |
| ReplayDelivery.EntryCreationReachesNobody | crypto-market-replay/src/lib.rs:184-187 | data for a symbol without entry sends nothing to anyone |
| SessionRequests.HandleJson | crypto-market-replay/src/handle_socket.rs:72-131 | the arms queue one action per argument under its channel name, Unsubscribe-all for an unsubscription without arguments, a notice for an unknown word or a reversed range, and fail on a range that does not parse |
| SessionRequests.SubscribeAsks | crypto-market-replay/src/handle_socket.rs:77-88 | an action that is `subscribe`, or that and an `@` and anything, queues one subscription per argument, in order, under its channel name and through the session's own channel |
| SessionRequests.UnsubscribeAsks | crypto-market-replay/src/handle_socket.rs:90-104 | `unsubscribe` queues one named cancellation per argument, in order, or exactly Unsubscribe-all without arguments |
| SessionRequests.OtherWordsQueueNothing | crypto-market-replay/src/handle_socket.rs:81-130 | no other word queues anything; an unknown one gives exactly one notice |
| SessionRequests.HistoryAsks | crypto-market-replay/src/handle_socket.rs:105-122 | from the text with the days in decimal: a range, one day or none at all decide the notice and the task by the numbers they spell |
| SessionRequests.HistoryFails | crypto-market-replay/src/handle_socket.rs:106-111 | a history request ends the session exactly when one of its days does not parse |
| SessionRequests.DaysFit | crypto-market-replay/src/handle_socket.rs:110-111 | a rendered number parses to itself exactly if it fits a signed 64-bit integer, on either side of zero |
| SessionRequests.ParsedIsRendered | crypto-market-replay/src/handle_socket.rs:110-111 | whatever parses is a rendered number up to a sign and leading zeros |
| SessionRequests.HistoryWarnsOrReplays | crypto-market-replay/src/handle_socket.rs:105-142 | neither day of a readable history range is negative, so the guard `0 <= end` never matters: a range error is reported exactly when the first day is below the last, and the task reads something exactly when none is and there are arguments |
| ReplaySessions.SubmittedNext | crypto-market-replay/src/handle_socket.rs:65-68 | processing and data arrival never lose, add or reorder what a session has queued; only its own queueing extends it |
| ReplaySessions.NextKeepsInv | crypto-market-replay/src/handle_socket.rs:11-70 | every step keeps: ids unused before, one channel per session, and a closed session's last queued action is Unsubscribe-all |
| ReplaySessions.LastLeaveForgets | crypto-market-replay/src/lib.rs:156-159 | an id whose last action is Unsubscribe-all is not a user |
| ReplaySessions.DrainedLeavesBothIndexes | crypto-market-replay/src/handle_socket.rs:65-68 | once a normally ended session's actions are processed it is in neither index, in every reachable system |
| ReplaySessions.DrainedStaysSilent | crypto-market-replay/src/handle_socket.rs:65-68 | and in no continuation does the engine send it anything again |
| ReplaySessions.AllClosedAllEmpty | crypto-market-replay/src/lib.rs:156-161 | when all sessions have ended normally and the queue is drained, the user index and every entry are empty |
| ReplaySessions.IdsAreFresh | crypto-market-replay/src/handle_socket.rs:169-174 | the next session id has never been used by a session or an action |
| ReplaySessions.SessionsAreSentTranscripts | crypto-market-replay/src/handle_socket.rs:11-14 | in every reachable system the engine has sent to each session's channel, named after the session that creates it, the transcript of the processed history |
| SessionRuns.SessionsSubmitWhatTheyAsk | crypto-market-replay/src/handle_socket.rs:65-104 | over any run from the start, what a session that did not panic has submitted, with what it has pending, is all its requests and its end ask for, in order |
| SessionRuns.AskIsSubmitted | crypto-market-replay/src/handle_socket.rs:72-104 | between a request and the session's next idle moment it submits exactly what the words of the request ask for |
| SessionRuns.LeaversCleanUp | crypto-market-replay/src/handle_socket.rs:41-68 | after a close or a failing request the session never panics, in any continuation, and once nothing is pending its last submitted action is Unsubscribe-all |
| SessionRuns.PhaseNext | crypto-market-replay/src/handle_socket.rs:17-68 | an open session ends in order exactly by a close or a failing request |
| SessionRuns.ConnectOpens | crypto-market-replay/src/handle_socket.rs:11-15 | sessions come to be only by connecting, open and idle, under an id that nobody had |
| SessionRuns.SessionsAreNumbered | crypto-market-replay/src/handle_socket.rs:9-14 | sessions are numbered from one in the order in which they connect |
| SessionRuns.ChannelIsBounded | crypto-market-replay/src/main.rs:32-32 | the engine's channel never holds more than 1024 actions, and a session waits to submit exactly while it is full |
| SessionRuns.DataIsDelivered | crypto-market-replay/src/lib.rs:79-83 | the engine meets every message delivered to it once, in order of arrival |
| SessionRuns.EverySessionCanDrain | crypto-market-replay/src/handle_socket.rs:65-68 | from every state every session that has not panicked can end and be drained, after which the engine does not know it |
| SessionInboxes.MoveKeepsInv | crypto-market-replay/src/handle_socket.rs:11-167 | every step, of a session, a history task, the engine or the data, keeps: the engine's messages in a channel are those sent to it, up to the session's end |
| SessionInboxes.ChannelsHoldTranscripts | crypto-market-replay/src/handle_socket.rs:11-167 | in every run, among all that a session's channel accepted the engine's messages are the transcript of the processed history, in order and without gaps, while the session listens, and a prefix of it afterwards |
| SessionInboxes.OverHearsNothing | crypto-market-replay/src/handle_socket.rs:12-165 | once a session is over, its channel never accepts anything again from anybody, in any continuation, and each of its history tasks ends at its next attempt to send |
| SessionNotices.RequestsAreAnswered | crypto-market-replay/src/handle_socket.rs:113-128 | an unknown word or a reversed range puts exactly its notice into the session's channel, and a readable range with arguments starts exactly one task |
| SessionNotices.ListenersAcceptAll | crypto-market-replay/src/handle_socket.rs:105-166 | over any run, the channel of a session that still listens has accepted every notice and every line of its history tasks, in order, and nothing else but the engine's messages; the tasks running are those started and not ended |
| SessionNotices.AcceptedWasSent | crypto-market-replay/src/handle_socket.rs:105-166 | whatever any channel accepts beside the engine's messages was sent by the session or its tasks, in that order and without gaps |
| Reconciler.UpdateMatchesConfig | crypto-market-multicast/src/file/config.rs:58-112 | from any prior map and for any iteration orders, the map's pairs equal the configuration if and only if it binds each key once; its keys always are the configured keys |
| Reconciler.UnchangedKeepTask | crypto-market-multicast/src/file/config.rs:73-92 | a pair that stays configured keeps its very task if and only if the configuration gives its key no second info |
| Reconciler.RepeatingIsIdle | crypto-market-multicast/src/file/config.rs:94-109 | applying the same configuration again spawns and aborts nothing, if and only if it binds each key once |
| Reconciler.AbortKeepsSound | crypto-market-multicast/src/file/config.rs:73-80 | removing a task aborts it and loses none |
| Reconciler.SpawnKeepsSound | crypto-market-multicast/src/file/config.rs:82-92 | inserting a task loses exactly the live task it overwrites, if any |
| Reconciler.SpawnAllLeaks | crypto-market-multicast/src/file/config.rs:82-92 | a sequence of registrations loses nothing if and only if every key is fresh when its turn comes; lost tasks stay lost |
| Reconciler.AddedAreFresh | crypto-market-multicast/src/file/config.rs:58-92 | after cleanup the added pairs have fresh keys if and only if the configuration binds each key once |
| Reconciler.UpdateLeaks | crypto-market-multicast/src/file/config.rs:94-112 | an update loses a running task if and only if its configuration gives some key two infos, whatever the prior map and the orders |
| Reconciler.NoLeaksMeansAccounted | crypto-market-multicast/src/file/config.rs:73-92 | without losses each task ever spawned is either held under exactly one key or was aborted exactly once |
| Reconciler.RunLeaks | crypto-market-multicast/src/file/config.rs:94-125 | over a whole run no task is lost if and only if every configuration that was read binds each key once |
| Reconciler.RunFollowsConfig | crypto-market-multicast/src/file/config.rs:94-125 | after any events the map equals the last configuration read, whatever came before, if and only if that configuration binds each key once; failed and other events change nothing |
| MulticastConfig.DiffIpc | crypto-market-multicast/src/file/config.rs:134-159 | for any iteration order the consuming loop yields current minus new and new minus current, disjoint, and the difference applied to current gives new; neither debug assertion fires |
| MulticastConfig.DynamicConfigHandler.Initiate | crypto-market-multicast/src/file/config.rs:52-56 | the initial list is registered as it stands, repetitions included; an unreadable file changes nothing |
| MulticastConfig.DynamicConfigHandler.Diff | crypto-market-multicast/src/file/config.rs:58-71 | the differences between the running (type, url) pairs and the configured ones |
| MulticastConfig.DynamicConfigHandler.Cleanup | crypto-market-multicast/src/file/config.rs:73-80 | every named url is removed and its task aborted, types disregarded |
| MulticastConfig.DynamicConfigHandler.Register | crypto-market-multicast/src/file/config.rs:82-92 | one task is spawned per pair, overwriting what the url held |
| MulticastConfig.DynamicConfigHandler.HandleEvent | crypto-market-multicast/src/file/config.rs:94-112 | a parsed modification performs an update in some iteration order; errors and other events change nothing |
| MulticastConfig.NoTaskIsLost | crypto-market-multicast/src/file/config.rs:52-112 | over a whole run from the initial list, no running task is ever lost if and only if the list repeats no url and no later configuration gives a url two types |
| MulticastConfig.EveryTaskIsAccounted | crypto-market-multicast/src/file/config.rs:52-112 | in such runs every task ever spawned is held under exactly one url or was aborted exactly once |
| MulticastConfig.RunningIsConfigured | crypto-market-multicast/src/file/config.rs:52-112 | after any event sequence the running pairs are those of the configuration in force, if and only if that binds each url to one type |
| ReplayConfig.DynamicConfigHandler.constructor | crypto-market-replay/src/config/dynamic.rs:35-45 | the handler starts as an update of the empty map by the first configuration |
| ReplayConfig.DynamicConfigHandler.Cleanup | crypto-market-replay/src/config/dynamic.rs:47-53 | every named record is removed and its task aborted |
| ReplayConfig.DynamicConfigHandler.Register | crypto-market-replay/src/config/dynamic.rs:55-62 | one task is spawned per record |
| ReplayConfig.DynamicConfigHandler.OnConfigUpdate | crypto-market-replay/src/config/dynamic.rs:64-82 | a readable file performs an update by the set of its records, an unreadable one changes nothing and is reported |
| ReplayConfig.DynamicConfigHandler.HandleEvent | crypto-market-replay/src/config/dynamic.rs:97-111 | only modifications update; errors and other events change nothing |
| ReplayConfig.VisitsAsItems | crypto-market-replay/src/config/dynamic.rs:71-76 | the two `difference` sets of records are the differences that the multicast loop computes |
| ReplayConfig.TasksFollowConfig | crypto-market-replay/src/config/dynamic.rs:35-111 | for any events, duplicates allowed, the task keys are the records of the last configuration read, no task is ever lost, and each was aborted at most once and only when not held |
| ReplayConfig.UnchangedRecordKeepsTask | crypto-market-replay/src/config/dynamic.rs:64-82 | a record that stays configured keeps its very task |
| ChannelNames.PathsAgree | crypto-market-replay/src/parameter_type.rs:47-61 | writer and replay server use the same path for the same fields if and only if no field has a slash, name and period have no `@`, and a given period is not empty |
| ChannelNames.RenamedSymbolAgrees | crypto-market-integration/src/writers/mod.rs:33-36 | for a symbol with slashes they meet when replay spells it with its first three slashes as dashes |
| ChannelNames.ReplayNameCount | crypto-market-replay/src/parameter_type.rs:49-60 | the replay name drops every `@` of the message type |
| Text.ReplaceIsIdle | crypto-market-integration/src/writers/mod.rs:34-34 | renaming leaves a key alone exactly when it has no slash |
| Demux.Router.RouteOne | crypto-market-integration/src/writers/mod.rs:203-226 | routing one datum extends exactly its key's stream, creating the publisher only on first use |
| Demux.Router.RouteMessage | crypto-market-integration/src/writers/mod.rs:203-226 | the loop over a message's data keeps every publisher equal to the projection of the stream |
| Demux.RunWriter | crypto-market-integration/src/writers/mod.rs:58-64 | for any message stream each used key's publisher is created once, in order of first use, and carries the in-order projection of the stream onto its key |
| Demux.CreatesMore | crypto-market-integration/src/writers/mod.rs:213-220 | the list of creations stays duplicate-free, complete and in order of first use |
| Demux.BytesAreConserved | crypto-market-integration/src/writers/mod.rs:203-226 | all publishers together carry each written byte exactly once |
| Demux.SharedPublisher | crypto-market-integration/src/writers/mod.rs:204-212 | two data reach one publisher if and only if their four joined fields read the same: for one exchange, market type and message type exactly for one symbol, and for fields without underscore exactly for the same four |
| Demux.PublisherCarriesSymbol | crypto-market-integration/src/writers/mod.rs:203-226 | in the writer of one exchange, market type and message type the publisher of a symbol carries the written bytes of exactly that symbol, in order of arrival |

## Left out

- ClientEncoding.EncodedListSubscribes: is about a buffer that arrives as one read; what a cut in the middle of an action does is not modelled.
- PublisherState.Publisher.Distribute: offering a payload to a client stands for the loop over its writable streams and `send_package`.
- PublisherState.Publisher.AdmitPacket: `accept` always succeeds, and the connection id derived by HMAC is an arbitrary value.
- PublisherThreads.LookupNeverFails: mutexes are not poisoned and threads do not panic outside the modelled lookups, although `tokio::task::spawn` called from a plain thread in `server_send` would.
- PublisherDeadlock.LockHoldersProgress: says that a step is possible, not that it is taken; there is no fairness and no timing.
- SessionInboxes.ChannelsHoldTranscripts: channel capacities are not modelled, so a sender never waits for room; a line that was accepted may still be lost when the session ends before it forwards it.
- ReplaySessions.IdsAreFresh: does not model the wrap-around of the session counter after 2^64 sessions.
- ReplaySessions.AllClosedAllEmpty: a session whose task panics before its final unsubscription (`Dead`) is in the model but gets no cleanup guarantee, as in the code.
- ReplayDelivery.ChannelsCarryTranscripts: `out` records what the engine hands to a channel, whether or not the channel still accepts it; `SessionInboxes` says what it accepts. Channel capacities are not modelled.
- Demux.RunWriter: a datum counts as written or not, so the bytes of a partial write before an error are not modelled; creating a publisher succeeds, since the code panics otherwise.
- ReplayConfig.DynamicConfigHandler.constructor: the first configuration is readable, since the code panics otherwise; likewise a modification event has a path.
- UTF-8 decoding: command text is a sequence of characters, and a read that does not decode is `None`.
- The session task of `handle_socket` is a step machine rather than a loop, and the end of the engine's input is the end of the history.
- quiche, mio, ZeroMQ, axum, notify and tokio internals, the client's packet loop and its `req_sent` flag: only their outcomes appear, as free choices.
- `handle_writable` and partial responses: nothing ever inserts one.
- `history_handle` sends arbitrary lines, as many as it likes: which files it reads is not modelled.
- `market_data_path`, JSON and base64 encoding, message parsing in the integration writer: no lasting state.
