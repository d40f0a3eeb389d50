# A model of Socksprox

Socksprox is a SOCKS5 proxy (RFC 1928): one thread runs an epoll loop over all connections, a
helper thread resolves names. This project models the connection state machine, its two ring
buffers, the hand-off to the resolver, the lifetime of the per-connection records, the CIDR
firewall and the tokenizer of the configuration file, and proves what holds over every run.

## How it is built

The program changes objects in place, and so does the model. `Connection.dfy` has the classes
`Info`, `Data` and `Shared` with one method per handler of `src/socks.c`, `src/net.c` and
`src/epoll_data.c`; each method is proved to leave exactly the state that a function of
`Machine.dfy` gives for the old state. The rings inside `Shared` are the array-backed `Ringbuff`
of `RingBuffers.dfy`, proved to be byte queues. What the server guarantees is then proved about
the functions.

| file | contents |
|---|---|
| `Wire.dfy` | addresses, reply frames, their encoding and decoding |
| `Bits.dfy` | bitwise and, prefixes and byte order, on natural numbers |
| `Firewall.dfy` | netmasks, block lists, the firewall decision |
| `RingBuffers.dfy` | the wrapping byte ring |
| `Machine.dfy` | the state machine as functions; results of system calls are arguments |
| `Invariant.dfy` | the invariant of a connection and its preservation by every handler |
| `Guarantees.dfy` | transcript, authorisation, firewall, buffers, wakeups, lifetimes |
| `Progress.dfy` | the handshake ends |
| `Segmentation.dfy` | independence of recv chunks; parsing of requests |
| `Relay.dfy` | conservation of relayed bytes |
| `Outcomes.dfy` | what each step leads to, from its inputs |
| `Lookups.dfy` | what a finished lookup leads to |
| `Journeys.dfy` | runs from the accept to the relay |
| `Replies.dfy` | how many frames a failed request gets |
| `Orphans.dfy` | when Shared can never be freed |
| `Fallback.dfy` | several addresses for one name |
| `Resolver.dfy` | main loop and resolver thread, interleaved |
| `Refinement.dfy` | the lookup as one step of a single connection |
| `EventLoop.dfy` | one batch of epoll events |
| `Server.dfy` | the guarantees for every connection of the server |
| `Connection.dfy` | the in-place handlers |
| `ConfigFile.dfy` | the line tokenizer |

An `Env` value holds what the system calls of one step return: received bytes, the count a send
accepted, SO_ERROR, a new descriptor, a peer. `History` records what happened; no handler reads it.

## Assumptions

- malloc and the epoll calls succeed; getsockname and accept give an IPv4 or IPv6 address.
- A new descriptor differs from those the connection uses (`NewFdOk`).
- recv returns between 1 byte and the space offered: the free space of the ring in the handshake,
  1024 bytes while relaying (`EnvOk`).
- getaddrinfo never returns -1, and leaves no list when it fails (`AnswerOk`).
- epoll reports a descriptor at most once per batch and only while it is registered. That its Data is
  still allocated then is proved (`Guarantees.FreedOnce`, `Server.EveryLifetime`).
- The method table has 255 entries; method 0xFF counts as not configured.
- The host is little-endian, as far as the byte swaps of the firewall matter.

## Where the code differs from its documentation, or surprises

- The firewall is documented for requests in general. Names are not filtered after they are
  resolved: a blocked address that a name resolves to first is contacted, while the same address given
  literally is not (`Guarantees.BlockedIsContactedIffNamed`); later addresses are contacted as
  their turn comes (`Fallback.ContactedIffReached`).
- A block rule whose length is out of range is not refused: its netmask stays zero, so it blocks
  its whole address family. An IPv4 rule of length 0 shifts a 32-bit word by 32, which C leaves
  undefined; the model lets it be any word (`Firewall.LinkBlocks`, `Firewall.WholeFamilyIff`).
- A name request is acted on one byte early; the port is wrong exactly when a chunk ends just before
  its last byte and that byte is not zero (`Segmentation.NameSegmentation`).
- A failed request gets one to three failure frames: the handlers `init_command` and
  `waitingcommand` both answer a disabled command, and a failed lookup falls through to both
  (`Replies.CommandFrames`, `Replies.LookupFailedFrames`, `Replies.DecisionFrames`).
- A chunk that does not fit into the ring of the peer is dropped whole while relaying. Nothing is
  lost exactly when every chunk fits (`Relay.NothingLost`); `Relay.FifthBurstLost` is a run that loses one.
- Further addresses of a name are tried only when the first connect() was under way
  (`Fallback.FirstAttemptFails`), and not after a failed getsockopt, or a failed getsockname on a
  connection that was made (`Fallback.GivesUpEarlyIff`).
- "Connection refused" is never reported as such (`Fallback.NeverReportsRefused`); unreachable network
  and host, timeout and refusal all get code 3 (`Lookups.CodesCollapse`).
- When getsockname fails after listen(), the server side keeps a Data that epoll never reports, so
  its Shared is never freed; a UDP relay, being a stub, never ends either. These are the only two
  ways for Shared to stay (`Orphans.NeverFreedIff`).
- A configuration key of 64 characters is terminated behind its buffer, a longer one is cut and its
  rest read as the value (`ConfigFile.ReadsBack`, `ConfigFile.CutKeyReads`).
- A configuration key without a separator runs on past the end of its line
  (`ConfigFile.KeyStaysOnLine`, `ConfigFile.KeyRunsOnExample`).

## Model

Paths are relative to the root of the repository.

| member | source | states |
|---|---|---|
| Guarantees.Transcript | src/socks.c:38-58 | For every run from the accept on: the bytes the client was sent before relaying are a prefix of [5, method] followed by whole reply frames, at most two successes and then only failures with codes 1 to 8; if no send failed, a connection that relays or closes has delivered all of it, for every pattern of partial sends |
| Guarantees.ClientDecodes | src/socks.c:338-389 | A client that reads to the end decodes exactly the reply frames that were queued, by the layout of section 6 of RFC 1928 |
| Guarantees.RelayAuthorised | src/socks.c:368-382 | Every run that reaches STATE_FULL had method 0 offered and configured, an enabled CONNECT or BIND, exactly one of `sa` and `ai`, two distinct live descriptors; CONNECT sent exactly one success frame (the bound address), BIND exactly two (an advertised address with the bound port, then the accepted peer, which is the host the client named) |
| Guarantees.RelayStartsEmpty | src/net.c:254-260 | Whatever step enters STATE_FULL leaves both rings empty, both descriptors watched for input only, and nothing recorded as relayed yet |
| Guarantees.FirewallSafety | src/socks.c:320-327 | No run serves a literal address that one of the configured block rules names: not while connecting, listening, announcing success or relaying; the all-zero address of UDP ASSOCIATE is excepted |
| Guarantees.FirewallRefuses | src/socks.c:320-336 | A literal request gets exactly one frame with code 2, and contacts nobody, if and only if some configured rule names its address and it is not the all-zero address of UDP ASSOCIATE; an enabled CONNECT that no rule names is contacted whenever there is a socket |
| Guarantees.DropsRefuses | src/socks.c:320-336 | The same in terms of the verdict over the linked blocks |
| Guarantees.FirewallSkipsNames | src/socks.c:216-226 | What follows a name lookup is the same for every block list: resolved names are not filtered |
| Guarantees.BlockedNameIsContacted | src/socks.c:216-226 | A name that resolves to an address on the block list: connect() is called with it if and only if there is a socket, and the connection is under way if and only if connect() does not fail at once |
| Guarantees.BlockedIsContactedIffNamed | src/socks.c:320-327 | With a socket, an address on the block list is the first one contacted for an enabled CONNECT if and only if the client gave it by a name that resolves to it first; given literally it gets one frame with code 2 |
| Guarantees.PrivateNetworkExample | src/socks.c:216-226 | The concrete case: the rule 10.0.0.0/8 covers 10.0.0.1, and a name that resolves to 10.0.0.1 is connected to |
| Guarantees.HandshakeBuffers | src/socks.c:343-355 | In every reachable handshake state at most 30 bytes wait for the client, so one 300-byte peek takes them all and no handshake write is refused; the states that call recv have room, so it is never asked for zero bytes |
| Guarantees.NoLostWakeup | src/epoll_data.c:119-165 | In every reachable state before half-close pending bytes keep their descriptor registered for EPOLLOUT; sending states have something to send; relaying never drops EPOLLIN; each waiting state is registered for the event it waits for |
| Guarantees.FreedOnce | src/epoll_data.c:173-203 | In every run whose events come from registered descriptors: each Data is freed at most once, Shared exactly when neither side is left, in either order, nothing before CLOSED, and no freed Data is still registered |
| Guarantees.EventsReachLiveData | src/socks.c:28-34 | The next event of any run, reported for a registered descriptor, reaches Data that has not been freed; the answer of the resolver finds Data and Info in place |
| Guarantees.FreedForGood | src/socks.c:625-631 | Once a side was freed, over every later run: the state is CLOSED, Info stays freed, and neither side comes back |
| Guarantees.StepFreesItsOwn | src/socks.c:28-36 | A step leaves the Data of the other side allocated and registered and counts no free against it; Shared is gone after the step exactly when neither side is left |
| Guarantees.ClosedForGood | src/socks.c:625-631 | CLOSED is final over every run |
| Guarantees.ClosedIgnoresInfo | src/socks.c:724-726 | The step of a closed connection has the same effect whatever Info holds |
| Guarantees.BlocksDoNotMatter | src/socks.c:60-97 | Starting a command never consults the block list |
| Guarantees.CommandNeverSaysRuleset | src/socks.c:60-97 | Starting a command queues no frame with code 2 |
| Progress.HandshakeEnds | src/socks.c:678-732 | From the accept on, however the client trickles bytes or accepts output, at most 4402 + n steps change a connection before it relays or closes, n being the number of addresses a lookup returns |
| Progress.ChangesBounded | src/socks.c:678-732 | From any reachable state the number of changing handshake steps is at most the budget of that state |
| Progress.StepSpends | src/socks.c:678-732 | In the handshake every step either changes nothing or strictly lowers the budget, through both visits of SENDING_REPLY and WAITING_COMMAND |
| Progress.ExpectedSpends | src/socks.c:99-623 | The event a state waits for, with successful I/O, always lowers the budget |
| Progress.ResolvedSpends | src/socks.c:216-226 | The answer of the resolver lowers the budget, for success and failure of the lookup |
| Progress.OthersChangeNothing | src/socks.c:212-214 | An event of the other descriptor or the other direction leaves a handshake unchanged |
| Relay.RelayConserves | src/net.c:493-549 | Over every run of a fresh relay, in each direction: the received chunks that fitted, joined in order, are the bytes sent on followed by the bytes still in the ring; after the close the bytes sent on are a prefix |
| Relay.NothingLost | src/net.c:539-548 | Over every run of a fresh relay, in each direction: all received bytes are sent on or still in the ring, in order, if and only if every chunk fitted when it arrived |
| Relay.KeptIffFits | src/epoll_data.c:17-21 | The recorded flags are all set if and only if every chunk of the run fitted into the ring it found |
| Relay.StoredIsAllIff | src/net.c:539-548 | The stored bytes are all the received bytes if and only if every chunk was stored |
| Relay.FifthBurstLost | src/net.c:539-548 | A run that loses bytes: five reads of 1024 bytes without a send overrun the ring of 4096 |
| Relay.LanesRecordRun | src/socks.c:638-672 | The recorded lanes are exactly what the run received from one side and sent to the other, with no mixing of directions |
| Relay.StepTraffic | src/socks.c:638-672 | One relaying step appends exactly its own chunk or its own sent bytes to one lane; no other step changes a lane |
| Relay.RoomyFits | src/net.c:539-548 | If every read of the run finds 1024 free bytes, every chunk fits |
| Segmentation.GreetingSegmentation | src/socks.c:99-161 | However the stream is cut into recv chunks, the greeting has the outcome the whole stream denotes, and the bytes after it are left over, in the ring or unread |
| Segmentation.GreetingIndependent | src/socks.c:99-161 | Two ways of cutting the same stream select the same method, queue the same reply and leave the same bytes |
| Segmentation.SelectFirst | src/socks.c:139-147 | The selected method is the first offered one that is configured; 0xFF exactly when none is |
| Segmentation.CommandSegmentation | src/socks.c:228-336 | However a request is cut, the handler takes the decision that the whole stream denotes (up to the last port byte of a name) and leaves the state that carrying it out gives; an undecided request only accumulates |
| Segmentation.NameSegmentation | src/socks.c:248-303 | However a name request is cut, the lookup asks for the name and port sent, except that the last port byte reads as zero if and only if a chunk ends just before it |
| Segmentation.CommandIndependent | src/socks.c:228-336 | Two ways of cutting any request leave the same connection apart from unread bytes, if and only if it is not a name request whose last port byte is nonzero and before which just one of the two cuts falls |
| Segmentation.DecisionStable | src/socks.c:242-317 | A decision once made is not changed by further bytes; a name request only by the last byte of its port, and not at all once it is complete |
| Segmentation.LiteralRoundTrip | src/socks.c:285-317 | A stream is decided as a literal request for an address if and only if it starts with that request as section 4 of RFC 1928 encodes it |
| Segmentation.NameRoundTrip | src/socks.c:299-303 | A name request that arrived in full is looked up with exactly the name and port sent |
| Segmentation.NameWithoutLastByte | src/socks.c:248-273 | The handler does not wait for the last byte of a name request: without it the lookup starts with the right name, and its port is right if and only if that byte is zero |
| Segmentation.PortLostExample | src/socks.c:248-273 | A concrete request for port 443 that is looked up with port 256 when its last byte comes late |
| Outcomes.ReadErrorCloses | src/socks.c:107-111 | A failed or empty read in the handshake unregisters and frees the client, and closes |
| Outcomes.ClosedFreesSide | src/socks.c:625-631 | In CLOSED an event on a side unregisters and frees that side and nothing else |
| Outcomes.HalfCloseEnds | src/socks.c:633-636 | Any event ends a half-closed connection |
| Outcomes.PartialSend | src/socks.c:345-353 | A send that takes k bytes but not all moves exactly the first k queued bytes to the client and changes nothing else |
| Outcomes.SendErrorCloses | src/socks.c:346-349 | A failed send closes, with nothing more delivered |
| Outcomes.MethodReplySent | src/socks.c:179-206 | Once the method reply has left: method 0 leads to WAITING_COMMAND, every other answer to the close |
| Outcomes.ReplyFullySent | src/socks.c:355-386 | Once a reply has left: a success leads CONNECT to FULL, BIND to BIND_LISTENING and UDP ASSOCIATE to FULL_UDPA with both sides alive and nothing queued; a failure leads to the close |
| Outcomes.SecondReplySent | src/socks.c:378-381 | Once the second reply of a BIND has left, it relays |
| Outcomes.FirstOfIsFirst | src/net.c:285-303 | The address found is the first of its family in the list, and none is found exactly when there is none |
| Outcomes.ConnectStarts | src/net.c:187-262 | An enabled CONNECT with a socket and a connect() under way is in CONNECTING to its destination, on the new descriptor, with the input ring cleared |
| Outcomes.ConnectRefused | src/net.c:197-237 | Without a socket, or when connect() fails at once, it is refused with code 1 |
| Outcomes.BindAnnounces | src/net.c:331-384 | An enabled BIND whose calls succeed announces the first advertised address of the family of its destination with the port that getsockname returned |
| Outcomes.BindRefused | src/net.c:266-343 | A BIND is refused with code 8 when there is a socket but no address of the family to listen on or to advertise, otherwise with code 1 |
| Outcomes.UdpaAnnounces | src/net.c:439-490 | An enabled UDP ASSOCIATE whose calls succeed is announced |
| Outcomes.UdpaRefused | src/net.c:388-437 | It is refused with code 8 without an address of the family, otherwise with code 1 |
| Outcomes.DisabledCommand | src/socks.c:60-94 | An unknown or disabled command is refused with code 7, twice |
| Outcomes.PendingIff | src/socks.c:242-273 | A request is undecided exactly while fewer than 5 bytes arrived, or fewer than its address type needs |
| Outcomes.BadAddressTypeIff | src/socks.c:249-270 | An address type is bad exactly when it is not IPv4 or IPv6, nor a name while names are allowed |
| Outcomes.BadVersionIff | src/socks.c:279-283 | A complete request of a good address type is refused for its version exactly when that is not 5 |
| Outcomes.BadAddressTypeAnswer | src/socks.c:256-270 | However the request is cut, a bad address type is answered with code 8 |
| Outcomes.BadVersionAnswer | src/socks.c:279-283 | However the request is cut, a bad version closes the connection |
| Outcomes.LiteralConnects | src/socks.c:275-336 | However it is cut, a literal CONNECT that no rule names contacts its destination |
| Outcomes.LiteralBinds | src/socks.c:275-336 | However it is cut, a literal BIND that no rule names announces its listener |
| Outcomes.NameAsked | src/socks.c:275-303 | However it is cut, a name request is remembered with its command byte and its name and port are asked for, up to the last port byte when a chunk ends just before it |
| Lookups.AnswerConnects | src/socks.c:216-226 | After a successful lookup an enabled CONNECT contacts the first address of the returned list and keeps the whole list |
| Lookups.AnswerBinds | src/socks.c:216-226 | After a successful lookup an enabled BIND announces its listener for the family of the first returned address |
| Lookups.FailedLookup | src/socks.c:216-226 | After a failed lookup the codes are 1 and 1 for an enabled command, 1, 7 and 7 otherwise |
| Lookups.AnswerKeepsList | src/resolver.c:85-87 | Whatever connects after a lookup has exactly the list that getaddrinfo returned as its candidates |
| Lookups.ResolvedFallback | src/socks.c:472-485 | After a lookup that returned a list and k failed attempts, the first k + 1 returned addresses were tried, in order |
| Lookups.NamedConnect | src/socks.c:275-303 | From the bytes on: a CONNECT by name asks for that name and then contacts the first returned address |
| Lookups.NamedBind | src/socks.c:275-303 | From the bytes on: a BIND by name announces its listener |
| Lookups.CodeOfError | src/socks.c:487-501 | The reply code of every socket error, by its bits |
| Lookups.CodesCollapse | src/socks.c:487-501 | The four errors the program means to tell apart all get code 3 |
| Journeys.ConnectRelays | src/socks.c:678-732 | There is a run from the accept in which a client that offers method 0 and sends a literal CONNECT no rule names is relayed to its destination, after [5, 0] and one success frame |
| Journeys.NamedConnectRelays | src/socks.c:678-732 | The same for a CONNECT by name and the first address it resolves to |
| Journeys.BindRelays | src/socks.c:678-732 | The same for a BIND, which is told the advertised address with the bound port, then its peer, and relayed to that peer |
| Fallback.RefusalStep | src/socks.c:472-503 | An attempt that fails with a socket error moves on to the next address of the list; a failure frame is queued exactly when no address is left, and by then all were tried in list order |
| Fallback.GivesUpEarlyIff | src/socks.c:395-417 | For every readiness of the connecting socket: the connection fails with addresses untried if and only if one is left and getsockopt failed, or getsockname failed after a success |
| Fallback.SecondAddressForgotten | src/socks.c:412-416 | The concrete case: getsockname fails on the first of two addresses, and the second is never tried |
| Fallback.ContactedIffReached | src/socks.c:472-485 | After k failed attempts the address at a position of the list was contacted if and only if its turn had come |
| Fallback.RefusalRun | src/socks.c:472-485 | k failures in a row try the next k addresses, in list order and once each, with no reply in between |
| Fallback.AllRefused | src/socks.c:472-503 | After the last failure every address was tried, in order, before the one failure frame |
| Fallback.FirstAttemptFails | src/net.c:225-238 | When the first connect() fails at once the command fails; then all addresses were tried if and only if there was a socket and only one address. Otherwise CONNECTING starts with the first address |
| Fallback.SecondAddressSkipped | src/net.c:232-237 | A concrete two-address list whose second address is never tried |
| Fallback.NeverReportsRefused | src/socks.c:487-501 | Because error codes are matched with bitwise and, REP_REFUSED is never sent, for any error |
| Fallback.RefusedReadsAsUnreachable | src/socks.c:487-489 | The concrete case: a refused connection is reported as an unreachable network |
| Resolver.LookupSafety | src/resolver.c:25-93 | Under every interleaving of main loop and resolver thread: no connection has two lookups outstanding, the connections with one are exactly those in ASYNC_DNS, their Data, Info and Shared have not been freed, each request carries the name its client sent, and no connection ever asks twice |
| Resolver.OneOwner | src/socks.c:701-702 | While its lookup is outstanding, no accept, no event on any connection and no other answer changes or frees a connection |
| Resolver.ThreadWritesAddressesOnly | src/resolver.c:86-91 | The resolver thread changes nothing but the address list of the connection it looks up, and that connection is in ASYNC_DNS |
| Resolver.ThreadPassesOn | src/resolver.c:51-91 | The oldest request is taken, its connection is given the list that getaddrinfo returned, and the code goes onto the answer pipe with its pointer |
| Refinement.LookupIsAtomic | src/resolver.c:25-93 | Every connection of the server, under every interleaving, is one that a run of a single connection reaches whose lookup is one step with exactly the list and code getaddrinfo returned for it, but for a list stored ahead of its answer |
| Refinement.ScheduleMatches | src/resolver.c:25-93 | The same from any state of the server on |
| Refinement.ActionMatches | src/resolver.c:25-93 | One action of the server is an event of the connection, the answer to its lookup, or nothing |
| Resolver.AsksAtMostOnce | src/socks.c:299-303 | A run enters ASYNC_DNS at most once, and never again after the command was taken |
| Resolver.NextInv | src/resolver.c:25-93 | Every step of either thread keeps the invariant of all connections and of both pipes |
| Resolver.ScheduleInv | src/resolver.c:25-93 | So does every interleaving |
| EventLoop.BatchTouchesOnlyLiveData | src/socksprox.c:81-111 | If each descriptor was registered when epoll reported it, every event of the batch still finds its descriptor registered when its turn comes, with resolver steps anywhere in between |
| EventLoop.ReportedIsLive | src/socks.c:28-34 | A registered descriptor always has Data that has not been freed, in every state of the server |
| EventLoop.StaysWatched | src/socksprox.c:81-111 | An action other than the event of a Data itself leaves its descriptor registered |
| EventLoop.DispatchBatch | src/socksprox.c:81-111 | The loop over a batch, which a listener error ends, performs the actions up to that error, stops the server exactly then, and keeps the invariant of the whole server; registration at report time is all it needs |
| EventLoop.FreedStaysClosed | src/socks.c:625-631 | No action of either thread takes a connection out of CLOSED |
| Replies.CommandFrames | src/socks.c:60-97 | A request that fails when its command is started is answered with one frame if and only if the command is enabled, otherwise with two; a disabled command always fails |
| Replies.LookupFailedFrames | src/socks.c:216-226 | After a failed lookup it is two frames if and only if the command is enabled, otherwise three |
| Replies.DecisionFrames | src/socks.c:266-333 | Every other failing decision is answered with one frame: a bad address type, a drop by the firewall, also for a disabled command |
| Replies.LateFrames | src/socks.c:391-623 | A failure while connecting or listening adds exactly one frame |
| Replies.DisabledRefusedTwice | src/socks.c:65-67 | The two frames for a disabled command are both code 7 |
| Replies.UnknownCommandExample | src/socks.c:90-93 | The concrete case: command byte 9 is answered with two frames of code 7 |
| Orphans.KeepsSharedIff | src/epoll_data.c:199-201 | A closed connection whose client is gone keeps its Shared in every later run if and only if its server Data is allocated but not registered |
| Orphans.OrphanStays | src/epoll_data.c:199-201 | Over every run an allocated, unregistered server Data of a failed or closed connection stays so, and Shared is not freed |
| Orphans.CommandOrphans | src/net.c:331-343 | Starting a command leaves an allocated, unregistered server Data if and only if it is a BIND whose listener is open and whose getsockname fails |
| Orphans.DecisionOrphans | src/socks.c:320-333 | A decision does so if and only if it is such a BIND, given literally, that passes the firewall |
| Orphans.LookupOrphans | src/socks.c:216-226 | The answer of the resolver does so if and only if the lookup succeeded for such a BIND |
| Orphans.OtherStepsOrphanNothing | src/socks.c:678-732 | No other step does so |
| Orphans.ListenerWithoutName | src/net.c:331-343 | After a getsockname failure on a listener Shared is not freed in any later run |
| Orphans.StepOrphansIff | src/socks.c:678-732 | A step leaves such a server Data if and only if it starts a BIND whose listener cannot be named |
| Orphans.OrphanedRunIff | src/net.c:331-343 | A run leaves such a server Data if and only if some step of it starts a BIND whose listener cannot be named |
| Orphans.UdpaStays | src/socks.c:674-676 | A connection that became a UDP relay stays one, and its Shared is not freed in any later run |
| Orphans.FreeingRun | src/epoll_data.c:173-203 | From every other reachable state there is a run that frees Shared |
| Orphans.NeverFreedIff | src/epoll_data.c:173-203 | In every state a run reaches: Shared is kept in every later run if and only if some step started a BIND whose listener could not be named, or the connection is a UDP relay |
| Server.EveryTranscript | src/socksprox.c:81-111 | What Transcript says, of every connection under every interleaving of main loop and resolver thread |
| Server.EveryRelayAuthorised | src/socksprox.c:81-111 | What RelayAuthorised says, of every connection under every interleaving |
| Server.EveryTargetScreened | src/socksprox.c:81-111 | What FirewallSafety says, of every connection under every interleaving |
| Server.EveryWakeup | src/socksprox.c:81-111 | What NoLostWakeup says, of every connection under every interleaving |
| Server.EveryLifetime | src/socksprox.c:81-111 | What FreedOnce says, of every connection under every interleaving |
| Server.EveryBuffer | src/socksprox.c:81-111 | What HandshakeBuffers says, of every connection under every interleaving |
| Server.EveryHandshakeEnds | src/socksprox.c:81-111 | Under every interleaving of both threads over any number of connections, the main loop changes a connection at most 4402 + n times before it relays or closes |
| Server.ActionPays | src/socksprox.c:81-111 | Every action of either thread pays for the change it makes to a connection in its handshake |
| Invariant.AcceptedInv | src/net.c:71-185 | A freshly accepted connection satisfies the invariant |
| Invariant.StepInv | src/socks.c:678-732 | Every event keeps the invariant and follows an edge of the state graph |
| Invariant.StepPosts | src/socks.c:299-303 | Only a complete name request posts a message to the resolver, and it is the one recorded |
| Invariant.ApplyInv | src/socks.c:678-732 | So does the whole round trip through the resolver |
| Invariant.RunInv | src/socks.c:678-732 | Every possible run keeps the invariant |
| Invariant.KeepMethods | src/socks.c:99-161 | The greeting handler keeps the invariant: afterwards the greeting is incomplete, answered, or the connection is closed |
| Invariant.KeepSendMethod | src/socks.c:163-209 | Sending the method reply keeps the invariant: only method 0, offered and configured, leads to WAITING_COMMAND |
| Invariant.KeepCommand | src/socks.c:211-336 | The command handler keeps the invariant and frees no server side |
| Invariant.ActInv | src/socks.c:275-336 | Carrying out any decision keeps the invariant and leads to a state that may follow WAITING_COMMAND |
| Invariant.RunCommandInv | src/socks.c:60-97 | Starting any command, enabled or not, ends in CONNECTING or SENDING_REPLY with the invariant intact |
| Invariant.RunCommandAfterFailedLookup | src/socks.c:216-226 | After a failed lookup the command handler falls through: only failure frames are queued, and there is room for all of them |
| Invariant.ReplyWithErrInv | src/socks.c:38-58 | With at most 20 bytes queued a failure frame always fits, carries a code from 1 to 8, and keeps the invariant |
| Invariant.KeepSendReply | src/socks.c:338-389 | Sending a reply keeps the invariant, for partial sends and for the last byte |
| Invariant.KeepConnecting | src/socks.c:391-506 | The connecting handler keeps the invariant: success is announced with the bound address, the addresses tried stay a prefix of the list |
| Invariant.TryNextEffect | src/socks.c:472-503 | The index walk over the address list picks exactly the element after the current one, and never steps past the end: without a next element a failure is queued |
| Invariant.RepOfErrorFails | src/socks.c:487-501 | Every socket error is given a failure code |
| Invariant.KeepListening | src/socks.c:508-623 | The listening handler keeps the invariant: the second success is queued only for the peer the client named |
| Invariant.ListeningEffect | src/socks.c:508-623 | Accepting has exactly three outcomes: general failure without peer or request, code 2 for a peer that differs in family, port or address, the second success for the named peer |
| Invariant.ConnectingEffect | src/socks.c:391-506 | A ready connecting socket has exactly the outcomes: general failure, success with the bound address, the next address, or failure when none is left |
| Invariant.KeepFull | src/socks.c:638-672 | Relaying keeps the invariant: conservation in both directions and both wakeups |
| Invariant.ConservedReceive | src/net.c:539-548 | A received chunk is stored whole or recorded as lost whole; conservation stays |
| Invariant.ConservedSend | src/net.c:508-518 | Sending any number of bytes moves them from the ring to the sent bytes; conservation stays |
| Invariant.KeepClosing | src/socks.c:625-636 | Half-close and close keep the invariant |
| Invariant.KeepResolved | src/resolver.c:25-43 | The answer of the resolver, good or bad, leads to CONNECTING or SENDING_REPLY with the invariant intact |
| Wire.DecodeOneEncode | src/socks.c:421-435 | A reply frame, built as the handlers build it, decodes to itself whatever follows |
| Wire.DecodeAllEncodeAll | src/socks.c:421-455 | A sequence of frames decodes to that sequence |
| Firewall.FirewallIton | src/firewall.c:16-53 | The netmask of a length is 2^w - 2^(w-m), and None exactly when the length is out of range; for IPv4 and length 0 it is whatever word the shift by 32 leaves |
| Firewall.MaskLoop | src/firewall.c:34-47 | The byte loop computes, byte for byte, the mask with the first m of 128 bits set |
| Firewall.ShiftOnes | src/firewall.c:25-28 | The word shift computes 2^32 - 2^(32-m) for m from 1 to 32 |
| Firewall.MaskBytesNumber | src/firewall.c:34-47 | The bytes of a mask, read in network order, are 2^w - 2^(w-m), for every width and length |
| Firewall.MaskSin | src/firewall.c:55-59 | Masking a stored IPv4 address through ntohl and htonl gives the bitwise and of the number it denotes |
| Firewall.MaskSin6 | src/firewall.c:61-67 | The loop masks all 16 bytes in place |
| Firewall.NetworkToHost | src/firewall.c:55-59 | ntohl on a little-endian host yields the number the four bytes denote |
| Firewall.HostToNetwork | src/firewall.c:55-59 | htonl is its inverse |
| Firewall.MaskingRounds | src/firewall.c:16-67 | Masking rounds an address down to a multiple of 2^(w-m), and masking twice is masking once |
| Firewall.HitsIffSamePrefix | src/firewall.c:69-108 | The comparison made for one block succeeds if and only if the address has the same first m bits as the configured network |
| Firewall.CheckSin | src/firewall.c:69-87 | The walk answers 1 if and only if some IPv4 block hits the address |
| Firewall.CheckSin6 | src/firewall.c:89-108 | The same for IPv6 |
| Firewall.CheckAi | src/firewall.c:110-129 | The walk over a resolved list answers 1 if and only if some address on it is hit |
| Firewall.CoveredAnyIff | src/firewall.c:110-129 | A list is covered if and only if one of its addresses is |
| Firewall.CoveredIffNamed | src/firewall.c:69-108 | For a block list linked from any rules in any order: an address is covered if and only if some rule of its family has the same first m bits |
| Firewall.LinkBlocks | src/config.c:244-276 | The new head hits exactly the addresses the rule names: its family and the same first m bits; a length out of range counts as 0, so it blocks the whole family, and an IPv4 length of 0 goes by the word the shift left |
| Firewall.WholeFamilyIff | src/config.c:259 | A rule blocks its whole address family if and only if its length is 0 or out of range |
| Firewall.LengthTooLargeExample | src/config.c:259 | The concrete case: 10.0.0.0/33 blocks 8.8.8.8 |
| Firewall.LinkRules | src/config.c:244-276 | Linking rule after rule yields a list that denotes exactly those rules |
| Firewall.Decide | src/firewall.c:131-175 | For blocks linked from any rules: a literal address is dropped if and only if some rule names it, unless the command is 3 and all its bytes are zero; a resolved list if and only if some rule names one of its addresses; a request without destination always |
| Firewall.DropsIffRuledOut | src/firewall.c:131-175 | The verdict over the linked blocks is what the rules say |
| Bits.AndBytesBigEndian | src/firewall.c:61-67 | Byte-wise and word-wise masking denote the same number |
| Bits.SamePrefixQuotient | src/firewall.c:69-108 | Agreeing on the first m bits is having the same quotient by 2^(w-m) |
| Bits.MaskedEqual | src/firewall.c:69-108 | Two addresses are equal under the mask if and only if their first m bits agree |
| Bits.FloorRoundsDown | src/firewall.c:55-67 | Clearing the low k bits rounds down to a multiple of 2^k |
| RingBuffers.Ringbuff.constructor | src/net.c:133-136 | A new ring is the empty queue |
| RingBuffers.Ringbuff.Write | src/epoll_data.c:17-35 | Appends all of the input to the queue, or changes nothing and returns 0 when it does not fit; keeps the ring invariant |
| RingBuffers.Ringbuff.CopyAround | src/epoll_data.c:22-30 | The two copies leave the input behind the write head, around the end of the array |
| RingBuffers.Ringbuff.Peek | src/epoll_data.c:37-55 | Copies exactly the first min(used, n) bytes of the queue across the wrap and changes neither the queue nor the rest of the destination |
| RingBuffers.Ringbuff.Consume | src/epoll_data.c:57-68 | Drops exactly the first min(used, n) bytes |
| RingBuffers.Ringbuff.WriteheadIsModulo | src/epoll_data.c:31-32 | The invariant kept by every call says writehead = (readhead + used) mod capacity |
| RingBuffers.TwoPieceWriteAppends | src/epoll_data.c:22-32 | Two copies around the end of the array append to the queue, for every read position and every length that fits |
| RingBuffers.TwoPieceReadTakes | src/epoll_data.c:44-52 | Two copies around the end of the array are the front of the queue |
| RingBuffers.ConsumeDrops | src/epoll_data.c:64-65 | Moving the read head drops the front of the queue |
| Connection.Shared.constructor | src/net.c:71-185 | A new Shared denotes the initial connection |
| Connection.Shared.Socks5 | src/socks.c:678-732 | One event on one Data, in place, keeps the invariant, leaves exactly the state the machine gives, and hands out exactly the message that the step posts to the resolver |
| Connection.Shared.HeaderRead | src/socks.c:131-158 | A complete greeting loses its header and is refused or answered |
| Connection.Shared.Dispatch | src/socks.c:678-732 | The switch on the state refines the step of the machine |
| Connection.Shared.DispatchHandshake | src/socks.c:690-714 | Its cases before relaying |
| Connection.Shared.DispatchClosing | src/socks.c:718-726 | Its cases after relaying, and the UDP stub |
| Connection.Shared.HalfCloseState | src/socks.c:633-636 | Half-close leads straight to CLOSED |
| Connection.Shared.WaitingMethods | src/socks.c:99-161 | The in-place greeting handler refines the machine, including refused writes and recv errors |
| Connection.Shared.GreetingArrived | src/socks.c:117-158 | Looking at the greeting in the ring refines the machine on the queue |
| Connection.Shared.ReplyMethod | src/socks.c:139-158 | Consumes exactly the offered methods and leaves the bytes after them in the ring |
| Connection.Shared.SendingMethod | src/socks.c:163-209 | The in-place handler of the method reply refines the machine for every partial send |
| Connection.Shared.WaitingCommand | src/socks.c:211-336 | The in-place command handler refines the machine, both on first entry and after the lookup |
| Connection.Shared.Act | src/socks.c:275-336 | Carrying out a decision in place refines the machine |
| Connection.Shared.ActLiteral | src/socks.c:320-336 | Firewall first, then the command, then the failure frame |
| Connection.Shared.Resolve | src/resolver.c:119-126 | Records the name and port to look up, hands them out as the message for the request pipe, and waits in ASYNC_DNS |
| Connection.Shared.SendingReply | src/socks.c:338-389 | The in-place reply handler refines the machine in both of its states |
| Connection.Shared.Connecting | src/socks.c:391-506 | The in-place connecting handler refines the machine |
| Connection.Shared.TryNext | src/socks.c:472-503 | Walking the list by index in place refines the choice of the next address |
| Connection.Shared.BindListening | src/socks.c:508-623 | The in-place accept handler refines the machine |
| Connection.Shared.ReplaceSocket | src/socks.c:573-581 | The accepted descriptor replaces the listening one in Data, Shared and the registration |
| Connection.Shared.FullRelay | src/socks.c:638-672 | The in-place relay refines the machine for both sides |
| Connection.Shared.SendTraffic | src/net.c:493-519 | Sends from the ring of the given side and tells how much is left |
| Connection.Shared.ReadTraffic | src/net.c:521-549 | Stores the chunk in the ring of the other side, or drops it whole |
| Connection.Shared.ClosedState | src/socks.c:625-631 | Unregisters and frees the Data it was handed, also when Info is gone |
| Connection.Shared.FreeData | src/epoll_data.c:173-203 | Frees Info and both rings, detaches the one Data, and Shared with the last one |
| Connection.Shared.HandshakeErr | src/socks.c:28-36 | Closes, unregisters and frees |
| Connection.Shared.ReplyWithErr | src/socks.c:38-58 | Corrects a code outside 1..8, queues the frame or tears down when it does not fit, and waits for output |
| Connection.Shared.InitCommand | src/socks.c:60-97 | The switch on the command refines the machine and keeps Info and the client Data |
| Connection.Shared.RunCommand | src/socks.c:327-333 | Starts the command and queues a failure frame when it failed, also a second one |
| Connection.Shared.InitConnect | src/net.c:187-262 | Opens the connection in place as the machine does, clearing the input ring |
| Connection.Shared.InitBind | src/net.c:264-384 | Opens the listener in place as the machine does |
| Connection.Shared.OpenListener | src/net.c:264-343 | The error cases of opening a listener, in the order of the program |
| Connection.Shared.InitUdpa | src/net.c:386-491 | Opens the UDP socket in place as the machine does |
| Connection.Shared.QueueReply | src/net.c:345-371 | The four writes queue one frame, or skip those that do not fit |
| Connection.Shared.StoreAddresses | src/resolver.c:86-87 | Changes the address list and nothing else |
| Connection.Shared.ResolveRet | src/resolver.c:25-43 | Takes the answer and re-enters the command handler |
| Connection.SelectMethod | src/socks.c:139-147 | The loop finds the first configured method in the order of the client |
| Connection.FindFamily | src/net.c:285-303 | The loop finds the first address of the family |
| Connection.NthAddress | src/socks.c:473-480 | The index walk ends at the n-th element, or past the list |
| Connection.ParseRequest | src/socks.c:242-317 | Reading the request by offsets takes the declared decision, with bytes that have not arrived read as zero |
| ConfigFile.RoundTrip | src/config.c:94-150 | Blanks, a key, separators, a value and a terminator read back as exactly that key and value, whatever follows, if and only if the key has at most 64 characters |
| ConfigFile.LineRoundTrip | src/config.c:94-150 | The round trip in characters: blanks and tabs, a key of 1 to 63 characters without separators that does not start a comment, separators, a value without blanks that does not start with =, a terminator, and anything after it |
| ConfigFile.KeyAloneYieldsNothing | src/config.c:131-137 | A key without a value yields nothing |
| ConfigFile.TokensAreOnTheLine | src/config.c:361-376 | Conversely, whatever reads as a key and value is laid out on the line in that way; only behind a key that fills its buffer the separators may be missing |
| ConfigFile.CommentsYieldNothing | src/config.c:102-108 | Comment and blank lines yield nothing |
| ConfigFile.KeyStaysOnLine | src/config.c:110-121 | The key ends before the line does if and only if a separator comes before the first line end, or the line has at least 64 characters |
| ConfigFile.KeyRunsOnExample | src/config.c:110-121 | The concrete case: the key of a line "ab" runs on to the next line |
| ConfigFile.Fits | src/config.c:110-121 | A line laid out for the round trip keeps every loop inside its buffer when its key has at most 63 characters, and makes the key loop write behind its buffer when it has 64 |
| ConfigFile.KeyOf64Example | src/config.c:115 | The concrete case: a key of 64 characters is terminated behind its buffer |
| ConfigFile.CutKeyReads | src/config.c:110-121 | A key longer than 64 characters stays inside the buffers: its first 64 characters are the key, and the rest of it starts the value |
| ConfigFile.KeyOf70Example | src/config.c:110-121 | The concrete case: 70 characters and "=x" read as a key of 64 and a value of 8 characters |
| ConfigFile.ReadsBack | src/config.c:355-376 | The loops of the program return exactly the key and value of such a line if and only if the key has at most 63 characters; for 64 they leave the key buffer |
| ConfigFile.ParseLine | src/config.c:361-376 | For every content of the 255-byte buffer: the loops leave the line or the key buffer exactly when the line is not contained, and otherwise yield the declared tokens |
| ConfigFile.GetKey | src/config.c:110-121 | For every key: copies it, or as much as the buffer takes, and ends with a terminator, with a full buffer and none, by writing behind the buffer exactly for a key of its size, or by reading behind the line |
| ConfigFile.GetVal | src/config.c:139-150 | The same for every value |
| ConfigFile.SkipWhitespace | src/config.c:94-100 | Stops at the first character that is no blank, and tells when there is none |
| ConfigFile.ToValue | src/config.c:123-129 | Stops at the first character that is no separator, and tells when there is none |

## Left out

- Connection.Shared.InitUdpa: the advertised UDP address is an argument, because the program reads it from the list node instead of the address it points to.
- EventLoop.DispatchBatch: events of listeners appear as accepts that succeed; a failed accept only writes a log line.
- Firewall.FirewallIton: the value of a shift by 32 is an argument, because C leaves it undefined.
- ConfigFile.ParseLine: says that a buffer is left, not what is then overwritten or read.
- Connection.Shared.Resolve: hands the message out as a result; the pipe that carries it is the queue of `Resolver.System`.
- Connection.Shared.FreeData: Data, Shared and ring memory are marked as gone instead of being returned to an allocator; reuse of memory is not modelled. Memory the program never frees (the access-log record) does not appear.
- Guarantees.FirewallSafety: covers literal addresses, because the program does not filter resolved ones.
- Segmentation.CommandSegmentation: needs at least one further chunk; a request read ahead together with the greeting is looked at when more bytes arrive, so clients that pipeline may wait.
- Relaying of UDP: the handler is a stub, so that state only stays what it is.
- Half-close: the program goes straight to CLOSED and never consults its flushing flag, so there is no draining to prove; the flag bytes and shutdown() are left out.
- The byte layout of the resolver pipe, where writer and reader disagree by one byte, and name lengths above 127, which the writer reads through a signed char: requests are records.
- Sockets that the program opens and does not close (a failed first connect, a refused peer) are not counted.
- Logging, start-up of listeners, reading the file line by line, storing of configuration values and freeing them: input and output, or easy cases.
- Username/password and GSSAPI sub-negotiation: not implemented by the program.
