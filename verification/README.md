# Chat server and client: a verified model

The program is a small chat service in C: a server that keeps a linked list of
clients and pairs them for chats, and a client whose terminal loop is driven by
three flags. This project models both, and the system they form, and proves
what the pairing protocol keeps.

How the model is built, bottom up:

- `Common`, `Names`, `CString`: constants, messages, the name made at
  registration, and NUL-terminated strings in fixed buffers.
- `Table` is the registry as a value: descriptors in list order and a record for
  each. `RecordList` is an independent reading of it, a list of records searched
  from the front; the two are proved to agree over every sequence of operations.
  `Registry` is the linked list itself, with its separate 8-bit counter, updated
  in place and proved against `Table`. `ClientListText` is the text of the
  client list.
- `Handlers` says what each request handler and the close branch do in one step.
  `Changes` sorts their branches by what they change: the record of the client
  that asks and that of at most one other; most invariants are proved there once
  for handlers and critical sections alike. `Server` is the class whose methods
  lock, look up, set, unlock and send, each proved to do exactly that step.
- `Commands`, `LineBuffer` and `Client` go from the characters a user types to
  the request that is sent, including the in-place trim and `strtok`, and hold
  the client's flag machine, as functions and as a class. `LineText` says what
  the text of a line and its second word are without these functions, and
  `Client.TypedExactly` what every line does.
- `Replies` says what each request, each close and each critical section means,
  in records and messages alone; `Outcomes.MeaningInEveryRun` states that of the
  handlers after every interleaving.
- `Composed` puts the server and any number of clients together, with one
  unbounded first-in-first-out inbox per client; a user may type at any time,
  whatever waits unread. A step is also seen as a move on eventual flags, those a
  client has once its inbox is read (`Composed.StepRefines`,
  `Realise.RunsAreMoves`). On top stand `ViewAgreement`, `Reachable`, `Pairing`,
  `Sessions`, `Routing`, `PeerNames`, `Requests`, `Outcomes`, and the runs of
  `Counterexamples`, which `Scenarios` helps to build.
- `Sections` cuts the handlers at their lock and unlock calls, and `Interleaved`
  lets the accept loop and the client threads run section by section in any
  order; `Overtaken` holds runs of it. `Midway` adds the clients and their
  inboxes to the threads, and `OutOfStep` is a run of that.
  `Sections.AloneIsAtomic` ties the sections to `Handlers`. `UniqueNames` says
  when names identify clients.

Assumptions, all visible in the definitions: the kernel gives out descriptors
that are not open; a client joins by registering and completing the handshake;
and the server handles a request in one step, except in `Interleaved` and
`Midway`.

What the code does not promise by itself, and exactly when it holds:

- A typed line can cross a message. One turn of the client's loop receives one
  message (client_lib.c:258-269) and then handles a line (284-309), so a user
  may answer while further messages wait unread. Clients and server then agree,
  with the mutex free, if and only if no line crosses
  (`ViewAgreement.CoreStep`, `Reachable.ViewsAgreeInEveryRun`).
  `Counterexamples.LateYesMisleads` leaves a client in a chat that the server has
  FREE, and `Counterexamples.LateYesKeepsMutex` loses the mutex for good. Between
  critical sections even a client that was asked can lose it
  (`Overtaken.OvertakenAnswer`). Runs in which users type on drained inboxes
  (`PromptRun`) cross nothing.
- The same between critical sections: `Midway.StepInStep` says exactly which
  sections put flags and statuses out of step. There drained inboxes are not
  enough (`OutOfStep.OvertakenAsk`): the threads themselves overtake each other.
- The name `NAME_NOT_DEFINED`, which the server also uses for "no such client",
  must not be taken (`NamedRun`): `Counterexamples.UndefNameBreaksViews`.
- "Every busy client has a busy partner" is false: `Pairing.ExactPairing` says
  exactly when, for whole handlers, and `Interleaved.SectionPairing` for
  critical sections. Each of the three cases is reached: by a close in
  `Counterexamples.PairsCanBreak`, a run on drained inboxes, and, while the
  accept-ack waits unread, by a connect in `Counterexamples.BusyClientWanders`
  and by an accept in `Counterexamples.BusyClientAccepts`. These two lines cross
  nothing: flags and statuses agree before and after. Sections break pairs that
  no order of whole handlers would: `Overtaken.BusyIsMarked` and
  `Overtaken.BusyWithNobody`.
- A session is stable only until its client itself asks somebody else:
  `Sessions.LinkFrozen` is exact, and `Counterexamples.BusyClientWanders` is a
  run.
- A session is private only while no other busy client is linked to the peer and
  types: `Routing.SessionIsPrivate` is exact. Where busy clients are in pairs
  there is none; after a pair is broken there is, on drained inboxes, too
  (`Counterexamples.IntruderIsHeard`).
- A shown peer name stays right only while no client in a chat is renamed:
  `PeerNames.ShowsStep` is exact, and `Counterexamples.BusyClientRenames` is a
  run. Typing on drained inboxes excludes this case and a link that moves.
- An answer reaches whom the asked client is linked to
  (`Requests.AnswersGoToTheAsker`): the asker's descriptor, which may be a
  stranger's by then (`Requests.CloseStrands`,
  `Counterexamples.StrangerIsAnswered`), until the asked client asks somebody
  itself; then that client, who answered nothing
  (`Counterexamples.YesGoesElsewhere`). A client stays pending exactly until its
  request is settled or a client called `NAME_NOT_DEFINED` that is linked to it
  accepts, which nobody is told (`Requests.PendingUntilSettled`).
- Names stay distinct only if requested names fit their field and are not of the
  form made at registration: `UniqueNames.SetNameDistinct` and
  `UniqueNames.RegisterDistinct` are exact, and
  `Counterexamples.LongNamesCollide` and `Counterexamples.MadeNamesCollide` are
  runs.

Where code and documentation differ the code is followed: the command summary
shows `connect <name>`, but any line that merely begins with `connect` or
`set_name` is taken as that command, its second word being the name.

## Model

| member | source | states |
|---|---|---|
| ViewAgreement.CoreStep | client/lib_src/client_lib.c:258-309 | from any agreeing state and on any inbox, a step keeps client flags and server statuses in agreement and the mutex free if and only if its line does not cross: an accept without a link; an answer by a pending client while another request waits unread, unless it is an accept whose asker is busy; an accept by a free client whose link is there and not busy, or by a busy one whose link is gone; a disconnect while the beginning of the next chat waits unread; or an accept nobody is told of |
| Reachable.SoundStep | client/lib_src/client_lib.c:420-460 | whoever types whatever and whenever, the registry stays well formed and linked with printable names, and a client that has read its inbox is in a chat exactly when it knows its peer's name |
| Reachable.ViewsAgreeInEveryRun | client/lib_src/client_lib.c:420-460 | a run keeps agreement and the mutex free in all its states if and only if no line crosses; then replaying a client's inbox gives busy exactly when the server has it BUSY, request-received exactly when REQ_PENDING, and a known peer exactly when BUSY |
| Reachable.PromptRunsAreTuned | client/lib_src/client_lib.c:258-309 | if users type on drained inboxes and nobody takes NAME_NOT_DEFINED, nothing crosses, so agreement holds throughout |
| Reachable.LockBalance | server/lib_src/server_mgmt.c:647-651 | a corollary of the handlers' contracts, over runs: the mutex is held at the end if and only if some step was an accept by a client without a link |
| Reachable.DeadBranchesInRuns | server/lib_src/server_mgmt.c:640-691 | after a run in which nothing crossed, the next line takes one of the branches for unsuitable requests if and only if unread messages take back what it acts on and, for an accept, its link is invalid or leads to a named client that is not busy, or it is an accept nobody is told of; on a drained inbox only the last is left, and nothing if nobody took NAME_NOT_DEFINED; in every other branch some message is sent |
| Counterexamples.LateYesMisleads | server/lib_src/server_mgmt.c:683-691 | for any two descriptors a run (ask, read, close, reuse, late "yes") after which the client believes itself in a chat and the server has it FREE |
| Counterexamples.LateYesKeepsMutex | server/lib_src/server_mgmt.c:647-651 | for any three descriptors a run (a broken pair, ask, read, disconnect, late "yes") after which the mutex is held |
| Composed.StepRefines | client/lib_src/client_lib.c:258-309 | with queues and delays, on any inbox, every step is its move on the registry and the eventual flags, and a delivery changes nothing there |
| Realise.RunsAreMoves | client/lib_src/client_lib.c:258-309 | every queued run takes registry and eventual flags through the run of its moves |
| Realise.RunsRefine | client/lib_src/client_lib.c:258-283 | every queued run with lines typed on drained inboxes is a run of the system that reads messages at once, with the same registry and eventual flags |
| Realise.RunsAreRealised | client/lib_src/client_lib.c:258-321 | conversely every run of that system is matched by such a queued run with the same registry and the same eventual flags |
| Pairing.ExactPairing | server/lib_src/server_mgmt.c:549-722 | from a paired state, whoever sends what, an atomic step unpairs busy clients if and only if a busy client asks a free other, a busy client accepts, or a non-busy client closes whose link is busy |
| Sessions.ComposedPairing | server/lib_src/server_mgmt.c:267-293 | in the composed system, on any inbox, a step unpairs busy clients if and only if its request or close is one of those three |
| Sessions.CalmRunsStayPaired | server/lib_src/server_mgmt.c:640-722 | in a run all busy clients are in pairs in every state if and only if no step breaks a pair, and then they are even in number |
| Counterexamples.PairsCanBreak | server/lib_src/server_mgmt.c:267-285 | for any three descriptors a run on drained inboxes (ask, decline, ask, accept, close) leaves one client BUSY whose link is FREE |
| Counterexamples.UndefNameBreaksViews | server/lib_src/server_mgmt.c:654-711 | for any two descriptors a run in which a client takes the name NAME_NOT_DEFINED leaves both BUSY at the server and neither ever told |
| Pairing.ChangePairing | server/lib_src/server_mgmt.c:586-701 | any change to the registry by a handler or a section, whatever the two clients were, keeps the pairs if and only if it neither takes a busy client from its partner nor makes busy one that gets none |
| Pairing.BusyIsEven | server/lib_src/server_mgmt.c:696-701 | in a paired state the link map on busy clients is an involution without fixed point, so they are even in number |
| Pairing.BusyCount | server/lib_src/server_mgmt.c:452-456 | a step that keeps the pairs raises the number of busy clients by exactly 2 on a successful accept, lowers it by exactly 2 on a disconnect or a busy client's close, and else leaves it |
| Pairing.BreakingCloseCount | server/lib_src/server_mgmt.c:271-277 | the breaking close lowers it by exactly 1 |
| Sessions.LinkFrozen | server/lib_src/server_mgmt.c:586-601 | while a client keeps the status BUSY or REQ_PENDING, paired or not, its link moves if and only if it itself asks a free client other than its link, and then to that client |
| Counterexamples.BusyClientWanders | server/lib_src/server_mgmt.c:586-604 | for any three descriptors a run without crossing after which a client in a chat asks a third: its link moves there and its partner is left busy with it |
| Counterexamples.BusyClientAccepts | server/lib_src/server_mgmt.c:670-681 | for any three descriptors a run without crossing after which a busy client says yes to another: it is freed and its partner left busy with it |
| Sessions.PromptIsSteady | client/lib_src/user_iterectaions.c:58-62 | if users type on drained inboxes, a client in a chat never does so |
| Routing.SessionRouting | server/lib_src/server_mgmt.c:465-471 | while a client is busy and asks nobody else, its link stays and the chat lines it types, read off the characters and its busy flag, and only those, are forwarded for it to that one link, complete and in order |
| Routing.SessionIsPrivate | server/lib_src/server_mgmt.c:436-483 | paired or not, the chat lines queued to the peer in a session are exactly those typed if and only if no other busy client linked to the peer types one; in a paired run none does |
| Routing.EndToEnd | client/lib_src/user_iterectaions.c:58-62 | while the peer stays, what it has read followed by what waits is what waited at first followed by every line typed since, if and only if no other busy client linked to it types; in a paired run it stays and none does |
| Counterexamples.IntruderIsHeard | server/lib_src/server_mgmt.c:465-471 | for any three descriptors and any word a run on drained inboxes (a pair broken by a close, a newcomer in a chat with the freed client) after which the client left over types the word and it goes to the freed client, in the middle of another's chat |
| Sessions.InboxIsFifo | client/lib_src/client_lib.c:258-269 | conservation in every run: messages read plus waiting equal those waiting before plus those queued, in order |
| PeerNames.ShowsStep | client/lib_src/client_lib.c:429-458 | a step that crosses nothing and breaks no pair keeps every shown peer name equal to the registry's if and only if it renames no client in a chat |
| PeerNames.PeerNamesAgree | client/lib_src/client_lib.c:429-458 | after every run of such steps a client in a chat that has read its inbox shows the name its peer has in the registry |
| Counterexamples.BusyClientRenames | server/lib_src/server_mgmt.c:303-330 | for any three descriptors and any name a run without crossing after which a client in a chat takes that name and its partner, with everything read, goes on showing the old one |
| PeerNames.PromptRunsAreSmooth | client/lib_src/user_iterectaions.c:58-62 | if users type on drained inboxes and nobody takes NAME_NOT_DEFINED, a run is of that kind, and keeps the pairs, exactly when no close breaks a pair |
| Requests.RequestsDoNotOverlap | server/lib_src/server_mgmt.c:586-609 | whatever is typed on whatever inbox and whatever names are taken, between two connection requests queued to one client lies its answer or leaving, or an accept-ack, termination or disconnected message to it; or else both an accept by a client linked to it that nobody is told of and its own disconnect |
| Requests.PendingUntilSettled | server/lib_src/server_mgmt.c:640-722 | a step takes a client out of REQ_PENDING if and only if that client answers or leaves, or is told accept-ack, termination or disconnected, or a client linked to it and called NAME_NOT_DEFINED accepts, which nobody is told |
| Requests.AnswersGoToTheAsker | server/lib_src/server_mgmt.c:409-427 | until a request is settled, or a client called NAME_NOT_DEFINED and linked to the asked one accepts unheard, the "no" is sent to the asked client's link, and the "yes" succeeds if and only if that link is there and not busy, pairs exactly these two and, unless the asked client has that name, tells both the right name; the link is the asker's descriptor until the asked client itself asks somebody else, and then the one it asked last; and the descriptor is the asker's as long as the asker does not close |
| Counterexamples.YesGoesElsewhere | server/lib_src/server_mgmt.c:586-604 | for any three descriptors a run (X asks Y, Y with that unread asks Z, Y reads it and says yes) that pairs Y with Z, who typed nothing, and tells X nothing |
| Requests.CloseStrands | server/lib_src/server_mgmt.c:267-285 | a close leaves behind a pending client linked to the closed descriptor if and only if it was pending on it while the closer was linked elsewhere |
| Counterexamples.StrangerIsAnswered | server/lib_src/server_mgmt.c:693-701 | for any three descriptors a run (ask, ask another, close, reuse, "yes") that pairs the pending client with a newcomer who typed nothing |
| Changes.HandleKeepsLinks | server/lib_src/server_mgmt.c:357-390 | any request from anyone keeps the list, no client linked to itself, and every non-free client linked |
| Changes.CloseShape | server/lib_src/server_mgmt.c:267-293 | a close removes the closer and frees at most its link, which keeps its own link and is told; nobody else's record changes |
| Outcomes.ConnectOutcome | server/lib_src/server_mgmt.c:549-638 | after any interleaving, asking for a name nobody bears is answered MSG_CLIENT_NOT_EXIST and asking for one's own name MSG_ATTEMPT_TO_CONNECT_TO_SELF, with at most 64 bytes of the name repeated and nothing changed; and after one with fair names an uninterrupted connect reaches exactly the client of that name, by its status, and nobody else's record changes |
| Outcomes.MeaningInEveryRun | server/lib_src/server_mgmt.c:267-722 | after any interleaving, for every client and request: which records change to what, which messages go to whom with which words, and who keeps the mutex; the same for a close, for the first section of a request (which ends it, or pauses with what it saw) and for a later section, which acts on what the thread remembers |
| Replies.RequestMeaning | server/lib_src/server_mgmt.c:303-722 | the part of this about whole requests, on any well-formed list: a connect meets the first client in list order that bears the name; the list reply is the names in list order, each followed by a space, as many as leave room for a terminator in 512 bytes; a stored name is the first 63 bytes |
| Outcomes.ConnectSections | server/lib_src/server_mgmt.c:562-592 | the same section by section, with any others in between: the first goes on exactly if the bearer of the name is free then, and the second marks exactly who bears the name by now, whatever its status |
| Outcomes.SetNameOutcome | server/lib_src/server_mgmt.c:303-336 | after any interleaving a name is refused exactly when some client bears it, otherwise only the asker's name changes, to its first 63 bytes |
| Outcomes.ListReplyDecodes | server/lib_src/server_mgmt.c:338-355 | in every composed run the list a client gets, split on spaces, is the longest prefix of the registry's names that fits |
| Interleaved.SafeStep | server/lib_src/server_mgmt.c:562-604 | every section of every thread in every order keeps links, captured locals, descriptors and counter sound, and the mutex is lost exactly by an accept without link, from a client that is free or between being marked and linked |
| Interleaved.SectionPairing | server/lib_src/server_mgmt.c:562-705 | from a paired state a section of any thread, on whatever it remembers, unpairs busy clients if and only if it marks a busy target, links or commits over a partner, commits to one that left, frees a busy client, cuts a partner, or is the breaking close |
| Interleaved.InterleavedPairs | server/lib_src/server_mgmt.c:562-705 | in every interleaving the busy clients are in pairs at every moment if and only if no such section runs |
| Interleaved.LinksSafeInEveryRun | server/lib_src/server_mgmt.c:589-604 | in every interleaving nobody is linked to itself, and a non-free client is linked unless another thread is between marking it and linking it |
| Interleaved.CapacityInEveryRun | server/lib_src/server_mgmt.c:161-164 | under racing admission the 8-bit counter is the list length, at most 20, and never wraps |
| Interleaved.AdmissionInEveryRun | server/lib_src/server_mgmt.c:158-251 | in every interleaving the accept loop reads the length of the list and starts a thread exactly if it read less than 20; the thread puts its client at the end of the list, free, unlinked and under its own made name, exactly if there are less than 20 by then; a descriptor hung up can come again |
| Interleaved.StaleCheckOverbooks | server/lib_src/server_mgmt.c:161-192 | the accept loop's own check admits any number of threads before one registers, so the bound rests on the check under the mutex |
| Interleaved.LossIsFinal | server/lib_src/server_mgmt.c:647-651 | a corollary of the step theorem: in any interleaving the mutex is held at the end if and only if some client without a link began an accept, and the registry stays what it was at the first such accept |
| Overtaken.OvertakenAnswer | server/lib_src/server_mgmt.c:447-457 | for any three descriptors an interleaved run (two partners disconnect at once, a third client asks one of them, the second disconnect's section runs, the asked one accepts) loses the mutex, although that client was pending and linked to its asker |
| Overtaken.BusyIsMarked | server/lib_src/server_mgmt.c:562-592 | for any three descriptors an interleaved run (C begins to ask the free B; A asks B and B accepts; C goes on) in which a section marks pending a client in a chat and so breaks the pair, while no whole request of C could |
| Overtaken.BusyWithNobody | server/lib_src/server_mgmt.c:693-714 | for any three descriptors an interleaved run (A asks B, B accepts, A closes between the two sections) after which B is BUSY with a descriptor nobody has, and nobody is told |
| Midway.StepInStep | server/lib_src/server_mgmt.c:549-722 | with an inbox per client and the handlers run section by section in any order, a deed keeps the mutex free and flags and statuses apart by no more than what threads in the middle of a handler still owe, if and only if it is none of: a first section of a line that crosses a message; marking a client in a chat; telling of a request one that is not pending, or is answering or leaving; coupling one that is leaving a chat, or unheard; a decline that frees one coupled meanwhile |
| Midway.InterleavedViewsAgree | client/lib_src/client_lib.c:420-460 | in every such interleaving that stays so if and only if no such deed occurs; and then, whenever all threads wait, replaying a client's inbox gives busy exactly when the server has it BUSY and request-received exactly when REQ_PENDING |
| Midway.DrainedFallsOut | client/lib_src/client_lib.c:258-309 | a line typed on a drained inbox is such a deed if and only if it is an accept or a disconnect without a link |
| OutOfStep.OvertakenAsk | server/lib_src/server_mgmt.c:562-592 | for any three descriptors an interleaving with all lines typed on drained inboxes and nothing out of step, after which one section marks a client in a chat pending: having read everything it believes itself in the chat and knows of no request |
| Interleaved.NamesIdentifyInEveryRun | server/lib_src/server_mgmt.c:303-330 | in every interleaving, if requested names are at most 63 bytes and not of the registration form, names stay distinct and the two lookups are mutual inverses |
| Sections.AloneIsAtomic | server/lib_src/server_mgmt.c:401-722 | uninterrupted, the sections of a handler give the same table, messages and lock as the atomic step |
| UniqueNames.SetNameDistinct | server/lib_src/server_queue.c:176-178 | a rename duplicates a name if and only if it is acknowledged and its first 63 bytes are another client's name |
| UniqueNames.RegisterDistinct | server/lib_src/server_queue.c:64-65 | a registration duplicates a name if and only if somebody already took the name made for it |
| Counterexamples.LongNamesCollide | server/lib_src/server_queue.c:176-178 | for any 63-character name a run in which two clients end up bearing it, one having asked for it with one more character |
| Counterexamples.MadeNamesCollide | server/lib_src/server_queue.c:64-65 | a run in which a client takes the name made for a descriptor before that descriptor registers, and both bear it |
| Names.DecimalRoundTrip | server/lib_src/server_queue.c:65 | the decimal text of a descriptor reads back as the descriptor |
| Names.TempNameFits | server/lib_src/server_queue.c:64-65 | the registration name and its terminator fit the 64-byte field, and it is one word |
| Names.TempNameIsOwn | server/lib_src/server_queue.c:64-65 | the registration name is `temp_client_name_` followed by the decimal digits of the client's own descriptor, which read back as it, and nothing else |
| RecordList.OpsAgree | server/lib_src/server_queue.c:35-137 | over every legal operation sequence the map keyed by descriptor and the record list are images of one another and descriptors stay distinct |
| RecordList.OpAgrees | server/lib_src/server_queue.c:35-79 | one operation on the map is the same on the record list; an added record is the last one, free, unlinked and named after its own descriptor |
| RecordList.LookupsAgree | server/lib_src/server_queue.c:184-209 | lookups by descriptor read the record at which the walk stops |
| RecordList.RemoveKeepsOthers | server/lib_src/server_queue.c:81-137 | a removal deletes one entry and keeps the others' data and order |
| Registry.Registry.Add | server/lib_src/server_queue.c:35-79 | the chain is the old one with one new node at its end, which holds the descriptor, the free status, no link and a name that says that descriptor, unless 20 clients are listed |
| Registry.Registry.RemoveByFd | server/lib_src/server_queue.c:81-137 | the chain is the old one without the node of that descriptor; the error cases are told apart |
| Registry.Registry.SetStatusByFd | server/lib_src/server_queue.c:388-420 | sets one node's status in place and nothing else, and tells whether there was one; for the three statuses callers pass |
| Registry.Registry.SetToByFd | server/lib_src/server_queue.c:422-446 | sets one node's link in place and nothing else, and tells whether there was one |
| Registry.Registry.SetNameByFd | server/lib_src/server_queue.c:145-182 | stores the first 63 characters of the name in one node, with the source's error codes |
| Registry.Registry.GetStatusByFd | server/lib_src/server_queue.c:364-385 | the walk returns the table's status, or "not found" |
| Registry.Registry.GetConnFd | server/lib_src/server_queue.c:448-472 | the walk returns the table's link, or the invalid descriptor |
| Registry.Registry.GetNameByFd | server/lib_src/server_queue.c:184-209 | the walk returns the table's name, or NAME_NOT_DEFINED |
| Registry.Registry.GetFdByName | server/lib_src/server_queue.c:211-235 | the walk returns the first descriptor under the name |
| Registry.Registry.GetStatusByName | server/lib_src/server_queue.c:337-362 | the walk returns the status of the first client under the name |
| Registry.Registry.CheckName | server/lib_src/server_queue.c:288-310 | tells an empty list, a taken and a free name apart |
| Registry.Registry.GetClientList | server/lib_src/server_queue.c:238-286 | the buffer loop stays in bounds and writes exactly the specified text |
| ClientListText.LongestFittingPrefix | server/lib_src/server_queue.c:253-282 | that text is name and space for the longest prefix of the list that leaves room for the terminator |
| ClientListText.ListInjective | server/lib_src/server_queue.c:253-282 | registries whose names contain no space print alike if and only if the same names fit |
| Server.ChatServer.CommitAccept | server/lib_src/server_mgmt.c:696-705 | one critical section: the table becomes that of the section "commit", both busy and linked |
| Server.ChatServer.MarkPending | server/lib_src/server_mgmt.c:589-592 | one critical section: the table becomes that of the section "mark" |
| Server.ChatServer.OnConnect | server/lib_src/server_mgmt.c:549-638 | refines the connect step, whose replies `Replies.RequestMeaning` gives, and leaves the mutex free |
| Server.ChatServer.OnAccept | server/lib_src/server_mgmt.c:640-722 | refines the accept step, keeping the mutex exactly when there is no link |
| Server.ChatServer.OnDecline | server/lib_src/server_mgmt.c:401-434 | refines the decline step and leaves the mutex free |
| Server.ChatServer.OnTx | server/lib_src/server_mgmt.c:436-483 | refines the chat and disconnect step and leaves the mutex free |
| Server.ChatServer.OnSetName | server/lib_src/server_mgmt.c:303-336 | refines the rename step in one critical section |
| Server.ChatServer.OnGetList | server/lib_src/server_mgmt.c:338-355 | sends the text the list buffer holds, whether or not the mutex is held |
| Server.ChatServer.OnClose | server/lib_src/server_mgmt.c:267-293 | refines the close step and leaves the mutex free |
| Server.ChatServer.OnArrive | server/lib_src/server_mgmt.c:240-251 | registers under the mutex, or at 20 clients refuses and says so to the connection |
| Commands.CommandRoundTrip | client/lib_src/user_iterectaions.c:94-135 | `connect` or `set_name` with any spaces and tabs in front, any positive number of spaces behind and any one-word name asks for exactly that name |
| Commands.ClaimsDisjoint | client/lib_src/user_iterectaions.c:157-172 | no line is claimed by two entries of the command table, so its order is immaterial |
| Commands.GetCmdId | client/lib_src/user_iterectaions.c:151-174 | the table loop returns the only entry that claims the line, and none exactly if none does |
| Commands.TypedNameIsWord | client/lib_src/user_iterectaions.c:94-129 | whatever is typed, a name that reaches the server, by set_name or connect, is a non-empty word without NUL |
| LineBuffer.NormaliseInPlace | client/lib_src/client_lib.c:296-307 | the in-place trim leaves exactly the characters behind the leading spaces and tabs, up to the first NUL or the final newline |
| LineText.TextExactly | client/lib_src/client_lib.c:296-307 | the same for the function: a text is what the trim leaves of a line if and only if it begins behind the spaces and tabs in front and ends at the first NUL, at a final newline or at the end |
| LineText.BlanksAndNewlineGo | client/lib_src/client_lib.c:296-307 | any spaces and tabs in front of a line without NUL go, and one newline at its end, and nothing else |
| LineText.SecondExactly | client/lib_src/user_iterectaions.c:102-103 | two calls of `strtok` find a word if and only if it is the second word of the text |
| LineText.IdleExactly | client/lib_src/user_iterectaions.c:89-149 | an idle client asks for the list exactly on the text `get_list`, for a chat or a name exactly on a text that begins with `connect` or `set_name` and has a second word, which is the name, and sends nothing exactly otherwise |
| LineBuffer.StrTok | client/lib_src/user_iterectaions.c:102-103 | in-place word splitting yields the next word and the rest |
| LineBuffer.WordSpan | client/lib_src/user_iterectaions.c:122-123 | the characters up to the next space or terminator are the next word, and what follows the space is left for the next call |
| Client.ReplayAppend | client/lib_src/client_lib.c:258-268 | a message queued behind an inbox acts after everything in it |
| Client.TypedExactly | client/lib_src/client_lib.c:291-309 | for every state and every line: a bare newline does nothing; any other line, by its trimmed text, is a line to the peer in a chat (where `disconnect` also ends it), an answer if it is `yes` or `no` to a request, nothing otherwise while a request waits, and a command of an idle client; there is nothing else |
| Client.GetListIsTyped | client/lib_src/user_iterectaions.c:96-98 | `get_list` behind any spaces and tabs asks an idle client's server for the list and changes no flag |
| Client.ChatIsTyped | client/lib_src/client_lib.c:291-294 | in a chat a bare newline sends nothing and keeps the flags, and any other line is sent as its trimmed text |
| Client.ChatClient.HandleRx | client/lib_src/client_lib.c:420-460 | the flag machine on a received message |
| Client.ChatClient.ProcessSendMsg | client/lib_src/user_iterectaions.c:50-149 | the flags and the request are those of a line with the text in the buffer, by client state |
| Client.ChatClient.OnLine | client/lib_src/client_lib.c:284-310 | the same from the raw characters read: a bare newline changes and sends nothing, any other line does what its text says |

## Left out

- Sockets, poll and select, partial sends and receives, timeouts, thread creation and joining: a send is one whole message appended to an inbox, a close is a step.
- A failed handshake, which leaves its node in the list, and the clean-up at server shutdown: neither is modelled and nothing is claimed about them.
- Memory allocation failure and the null-pointer guards of the C functions: the model has no null strings.
- A name passed on the command line of the client (client/main_client.c:35-38): it is sent whole as a set_name request before the terminal loop starts, and may be empty or contain spaces, which no typed line can send. A client started that way is outside the composed system: with it, names need not be printable and the client list need not decode.
- Outcomes.ListReplyDecodes: says nothing about systems in which a client took a name with a space from its command line, because only typed lines name clients in the model.
- Requests sent after the mutex is lost: the server's threads block on them, so only the client list, which does not lock, is still handled.
- Name pointers used after the mutex is released, and the 512-byte copy in `connect_with_client`: a name is a value copied at its lookup.
- Messages whose 512 bytes contain no terminator: texts and names in messages are C strings.
- Descriptors outside the range of a non-negative 32-bit integer.
- Logging, printing, help text, clearing the screen, time strings and enum-to-string tables.
- `handle_change_conn_fd_req`, which does nothing, and message types nobody handles.
- Requests and messages on their way between threads: in `Midway` a line begins its handler at once, so a user types requests only while its thread waits, and the messages of a section are queued with it, although the code sends them after unlocking, so that messages of two threads to one client may arrive the other way round.
- Server.ChatServer.OnGetList: the unlocked read of the list is taken as one step.
- Interleaved.CapacityInEveryRun: says nothing about connections that were refused, whose descriptors the code leaves open; the model keeps them open.
