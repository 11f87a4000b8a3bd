# A verified model of the two XMPP servers

The repository holds one XMPP server written twice: in C around a single-threaded poll loop, and in Go with one
goroutine per session. This project models the parts of both in which behaviour is hard to see from any single
function, and proves what those parts keep over every input, every run or every interleaving.

| part | modules |
|---|---|
| subscriptions and presence over pairs of contact lists | `Contacts`, `Protocol`, `ProtocolInvariant`, `ProtocolLaws`, `ProtocolPresence`, `ProtocolRuns`, `ProtocolPushes`, `ProtocolNotes`, `ProtocolRequests`, `ProtocolOutput`, `ProtocolLists`, `ProtocolLimits`, `PresenceServer` |
| the C event loop and session table | `Bytes`, `Connections`, `Happenings`, `SessionTable`, `Effects`, `EventLoop` |
| the Go stanza printer and reader | `XmlText`, `XmlNode`, `XmlTokens`, `XmlReader`, `XmlRoundTrip`, `XmlEcho` |
| the Go session registry under interleaving | `Registry` |
| contact lists as slices and as fixed arrays | `ContactTables` |
| the offline message queue | `FileNames`, `Sorting`, `OfflineQueue` |
| base64, SASL PLAIN and addresses | `Base64`, `Sasl`, `Jid`, `JidParse` (and `Options`, `Buffers`) |

**Presence.** `Protocol` states on plain values what one stanza, connection or account change does, for both programs
(`Program = Go | C`; they differ when the target of a stanza is online without a loaded contact list, and in the empty
address of a roster request). `PresenceServer` holds the handlers as methods that update session objects in place;
each is proved to make exactly the step of `Protocol`, and `Serve` to make exactly its runs. The laws are then proved
of `Protocol`. "x lets y" means that x's list gives y "from" or "both"; "x sees y" that it gives y "to" or "both"; "x awaits
y" that x has asked y and has no answer yet. `ProtocolOutput` says, stanza by stanza, what each step sends to whom.

**Event loop.** `SessionTable.Table` keeps the C arrays and back-pointers, `Connections.Conn` a connection with its
growing buffer (and, as ghost state, everything ever written to it and taken from it). `EventLoop` runs arbitrary parser
callbacks inside arbitrary reads inside a pass; what poll reports, what a socket takes and what is read are arbitrary. The
loop notes what it does in a ghost history (`Happenings`), and `Effects` says in closed form what each such happening
does to every connection, those that are gone included: slot, standing, all it was told and all its socket took.

**XML.** `XmlTokens.Tokenize` is a specification of XML 1.0 (sections 3.1 and 4.6) and of the default namespaces of
Namespaces in XML 1.0 (section 6.2) for the subset that is printed. Printer and token loop are verified against it and
against a tree grammar.

**Registry.** Each critical section of the Go server's mutex and each `Close` is one step of one goroutine; the theorems
are over all sequences of steps of any number of sessions.

## What the proofs found

These properties fail in the code as it is. Each has a lemma with the exact condition and one with a failing input or run.

* *No stale availability.* A user who unsubscribes keeps an outdated "available" of the contact, in both programs: the
  notice of unavailability goes from the unsubscriber to the contact
  (go/internal/presence/presence.go:286-291, c/src/presence.c:253-325) — `ProtocolRuns.UnsubscribeStrands`. In C the
  same happens when the contact revokes while the user is online with no list loaded
  (c/src/presence.c:356-400) — `ProtocolRuns.RevocationStrandsInC`, in which Go behaves. Removing a contact from the
  roster is the third and last way — `ProtocolPresence.FreshStep`.
* *Reciprocity.* Removing a contact, or an account, changes one list only; exactly then a pair can lose it
  (`ProtocolLaws.ReciprocityStep`, `ProtocolLimits.RemovalEndsReciprocity`). The equivalence between the two lists is also
  lost by an approval that answers no item (`ProtocolLaws.MatchedStep`, `ProtocolLimits.UnaskedApprovalUnmatches`).
* *Cached lists equal the files.* A `subscribed`, `unsubscribe` or `unsubscribed` for an address at another domain whose
  localpart is a local account edits that account's file behind the back of its session
  (go/internal/presence/presence.go:423-427) — `ProtocolRuns.ForeignTarget`, `ProtocolLimits.ForeignRevocationBreaks`.
* *Delivery of cuts (C).* `unsubscribe` and `unsubscribed` do not reach a target that is online with no list loaded
  (c/src/presence.c:281-324, 356-400) — `ProtocolNotes.NotesDelivered`, `ProtocolLimits.CutIsLostInC`.
* *Displacing on bind (C).* The conflict check looks at the first session under the address only, which may be the binding
  session itself; then nobody is displaced — `EventLoop.Displace`, `EventLoop.NobodyDisplaced`.
* *Print, then read.* An element in the stream's namespace inside an element of another namespace comes back in the
  other namespace, an attribute in a namespace comes back without it, and a carriage return, which the printer writes raw
  (go/internal/xml/node.go:112-124), comes back as a line feed — `XmlEcho.ReadBackIsNormal`,
  `XmlEcho.DefaultUnderForeignIsLost`, `XmlEcho.QualifierIsLost`, `XmlEcho.ReturnIsLost`.
* *First in, first out.* File names sort like their numbers up to 9999 only, and a C drain takes 256 names —
  `FileNames.NumericExactlyToFourPlaces`, `OfflineQueue.FifoExactlyToTheLimit`, `OfflineQueue.FullTableSkipsTheOldest`.
* *Unique addresses.* A contact address of 512 bytes or more is stored cropped in C and then never found again —
  `ContactTables.AddedInCUnique`, `ContactTables.LongAddressTwice`.
* *One address, one target.* The C parser crops names and domains to 255 bytes, so that a longer domain can pass for the
  server's own, and with a '/' in front of the '@' it computes the length of the domain below zero and takes the '/' into
  the name; Go does neither — `JidParse.SameTarget`, `JidParse.LongDomainPasses`, `JidParse.SlashInName`.

## Assumptions

* A stanza is one step. This is how the C loop works. The Go handlers are taken as atomic; their unlocked access to
  session fields is not modelled. The registry's locking is (`Registry`).
* In `Protocol` and `PresenceServer` a user has at most one session, named by its bare address; a new session of the same
  user is "the old one leaves, the new one enters".
* C contact lists are not full and their strings not cropped in `Protocol`; `ContactTables` treats both.
* Targets of subscription stanzas are `Home`: if their localpart is an account here, their domain is this server's.
  `ForeignTarget` is about the others.
* A file's text is the value stored in it; a roster is saved only while the account's directory exists.
* Sockets, poll, the clock, random identifiers and the order of directory listings are arbitrary inputs.
* Targets are cut at the first '/', as Go does. The C handlers parse and rejoin them. For an address that the parser accepts
  and that has a name, this comes to the same if and only if name and domain have at most 255 bytes and no '/' stands in
  front of the '@' (`JidParse.SameBare`); the presence handlers of the C program are modelled for such addresses only.
* Stanzas are values that keep what the handlers decide on: a roster push is its item, without identifier and addressee.

## Model

| member | source | states |
|---|---|---|
| Contacts.GetAfterEdit | go/internal/presence/presence.go:245-257 | rewriting the item of one address changes the contact list, read as a map, at that address only, never creates one, and keeps addresses unique |
| Contacts.GetAfterAsk | go/internal/presence/presence.go:134-143 | asking sets the flag of an existing item or adds one with no subscription, and touches no other address |
| Contacts.GetAfterApproval | go/internal/presence/presence.go:165-180 | approving gains "from" on an existing item or adds a "from" item, and touches no other address |
| Contacts.RenameKeepsSubscriptions | go/internal/stanza/stanza.go:271-284 | a roster set never changes subscription or ask of any existing item, and creates at most the one item asked for |
| Contacts.GetAfterRemove | go/internal/roster/roster.go:128-136 | with unique addresses, removal deletes exactly one entry of the map |
| ProtocolInvariant.StepInv | c/src/presence.c:135-401 | every step of both programs keeps the invariant (cached lists equal the files, addresses unique, sessions well formed, session list matches), and changes the files as a function of the files alone |
| ProtocolInvariant.LeaveInv | go/internal/server/server.go:68-74 | leaving keeps the invariant and the files |
| ProtocolInvariant.EditTargetInv | c/src/presence.c:208-233 | the target's half ends with the same file whether it is done on a loaded session, an unloaded one or the file |
| ProtocolLaws.RelationsAfter | go/internal/presence/presence.go:126-379 | each accepted operation changes the relations "lets", "sees" and "awaits" between any two users (also a user and itself) by one directed edge at most, given in closed form, whoever is online; a wait is begun by a request and ended by either answer, by taking the request back, or with the item or the account |
| ProtocolLaws.ReciprocityStep | c/src/presence.c:174-401 | a step keeps "y sees x only if x lets y" if and only if it is not a removal by x of a pair where y still sees x |
| ProtocolLaws.MatchedStep | c/src/presence.c:174-401 | a step keeps "y sees x exactly if x lets y" if and only if it is neither a removal that hits the pair nor an approval that answers no item |
| ProtocolLaws.ReciprocityForever | c/src/roster.c:277-300 | reciprocity after every run in which x has not removed y or his account |
| ProtocolLaws.MatchedForever | c/src/presence.c:135-401 | after every run without a removal that hits the pair and without an approval that answers no item, y sees x exactly if x lets y |
| ProtocolLaws.FilesAfterRun | c/src/roster.c:101-127 | after every run the files are a function of the files before and the operations, and every loaded list equals its file |
| ProtocolLaws.OnlineAndOfflineAgree | c/src/presence.c:281-324 | runs of either program that agree on the file-changing operations (an empty name in a roster set is none in Go and a name in C) end in the same files, however sessions came and went in between |
| ProtocolLaws.DiskRunOnly | c/src/presence.c:208-233 | connections and presences do not matter for the files |
| ProtocolPresence.FromCountIs | go/internal/presence/presence.go:87-98 | with unique addresses the number of copies a broadcast sends a user is one if his item says "from" or "both", and else none |
| ProtocolPresence.HearsAfterAvailable | go/internal/presence/presence.go:73-116 | after x's available presence, y's last news of x is "available" exactly if it was before, x lets y, or y itself went available and may see x |
| ProtocolPresence.HearsAfterUnavailable | go/internal/presence/presence.go:44-69 | a departure takes back exactly what those who may see it had heard |
| ProtocolPresence.HearsAfterLeave | go/internal/server/server.go:69-74 | the same for the end of a connection, and the leaver's own session is gone |
| ProtocolPresence.HearsAfterApprove | go/internal/presence/presence.go:217-231 | an approval tells the approved contact the approver's current availability, and nobody else anything |
| ProtocolPresence.HearsAfterRevoke | go/internal/presence/presence.go:286-291 | a revocation or unsubscription takes back the sender's availability from the target, exactly if its list is in hand and the sender is available |
| ProtocolPresence.HearsStep | c/src/presence.c:25-130 | for every accepted operation and any pair, what y last heard of x, in closed form |
| ProtocolPresence.FreshStep | go/internal/presence/presence.go:236-379 | a step leaves y with an outdated "available" of x if and only if it is one of three operations and y had one to lose |
| ProtocolRuns.NoStaleAvailability | go/internal/presence/presence.go:44-116 | after every run without those operations on the pair, whoever was last told that x is available is right and still entitled to it |
| ProtocolRuns.InitialPair | go/internal/server/server.go:28-35 | a fresh start satisfies the premises of all run theorems |
| ProtocolRuns.UnsubscribeStrands | go/internal/presence/presence.go:280-291 | in both programs: meet, then unsubscribe; the unsubscriber is left with an outdated presence |
| ProtocolRuns.RevocationStrandsInC | c/src/presence.c:356-400 | the same run of both programs ends well in Go and with an outdated presence in C |
| ProtocolRuns.FanOutExact | go/internal/presence/presence.go:87-98 | an available broadcast adds exactly one copy for each other online user whom the sender lets see him, and nothing else to any session |
| ProtocolRuns.PendingOncePerRequest | go/internal/presence/presence.go:383-405 | pending redelivery sends exactly one request per other online loaded session whose item for us awaits an answer |
| ProtocolRuns.ForeignTarget | go/internal/presence/presence.go:423-427 | a target at another domain with a local localpart breaks the cache invariant if and only if that account's list has an item for the sender which the stanza changes, and a session has the list loaded |
| ProtocolPushes.PushesMirrorTheList | c/src/roster.c:179-207 | over every run that leaves a session in place, a client that applies the roster pushes it receives, in order, to the list as loaded holds exactly the server's list (RFC 6121, section 2.1.6) |
| ProtocolPushes.StepMirrors | go/internal/presence/presence.go:126-379 | the same for one step of either program, for the sender's, the target's and everybody else's session |
| ProtocolNotes.NotesDelivered | c/src/presence.c:135-401 | a subscription stanza is sent exactly once, to exactly the session of its target (cuts in C only if its list is loaded), and no session is sent any other |
| ProtocolNotes.NotesStep | go/internal/presence/presence.go:73-405 | the same for every operation: the first presence of a session brings it exactly the requests that wait for its answer, in session order, and nothing else mentions subscriptions |
| ProtocolRequests.AwaitsIsOpen | c/src/presence.c:135-401 | after every run x's file says that y owes him an answer exactly if x has asked, and since then y has not answered and x has not taken the request back |
| ProtocolRequests.RedeliveredExactlyIfOpen | go/internal/presence/presence.go:383-405 | after every run, the first presence of y brings the request of x once if x is connected with his list loaded and the request is open in this sense, else not at all |
| ProtocolOutput.OutputStep | go/internal/presence/presence.go:42-405 | for every operation and session, the exact stanzas that the step sends there, in order: pushes with their items, notices, copies, what contacts show, replies; written from files and flags, with addresses as strings |
| ProtocolOutput.OncePerContact | go/internal/presence/presence.go:99-109 | a list brings from each contact it sees exactly what that contact shows, once, and from nobody else any available presence |
| ProtocolOutput.ShownIsHistory | go/internal/presence/presence.go:73-85 | after every run a live session goes by local@domain/resource of its last login, and what it shows is exactly the presence it announced last, under that address and with that content, unless it has taken it back or logged in again since |
| ProtocolOutput.ArrivalAfterRun | c/src/presence.c:25-96 | after every run, an available presence of x sends exactly: one copy to each session he lets see him; to himself, in the order of his list, the last announcement of each connected contact he sees; and with the first presence the waiting requests |
| ProtocolOutput.ApprovalAfterRun | go/internal/presence/presence.go:217-231 | after every run, an approval sends the approved contact its push (if its list is in hand), exactly what the approver announced last, and the approval |
| ProtocolOutput.PartingAfterRun | go/internal/presence/presence.go:44-69 | after every run, whoever leaves or goes unavailable, having announced himself since his last login, is announced as gone under the address of that login, once to each session he lets see him, and to nobody else |
| ProtocolLists.ListStep | c/src/presence.c:208-233 | which sessions have their list in hand after any operation, in closed form: the sender who needs it, in Go also the target of a change, nobody after a login |
| ProtocolLimits.RemovalEndsReciprocity | c/src/roster.c:277-300 | a run: x approves y, then removes y; y still sees x and x does not let y |
| ProtocolLimits.UnaskedApprovalUnmatches | go/internal/presence/presence.go:165-216 | a run from a fresh start: x approves a request that y never made, and the lists disagree |
| ProtocolLimits.ForeignRevocationBreaks | go/internal/presence/presence.go:365-379 | a run: x revokes y under a foreign domain, and the loaded list of y no longer equals its file |
| ProtocolLimits.CutIsLostInC | c/src/presence.c:356-400 | a run: y is online, has not loaded its list, and x revokes; Go tells y once, C does not |
| PresenceServer.Server.Broadcast | c/src/presence.c:98-130 | the loop over items and lookups is the closed-form fan-out |
| PresenceServer.Server.FetchPresences | c/src/presence.c:63-79 | the loop sends the presences we may see, in list order; `ProtocolOutput.ArrivalAfterRun` says which these are |
| PresenceServer.Server.RedeliverPendingSubscribes | c/src/presence.c:405-440 | the nested loops send the pending requests in session order |
| PresenceServer.Server.HandleAvailable | go/internal/presence/presence.go:73-116 | the handler makes exactly the protocol's available step |
| PresenceServer.Server.HandleUnavailable | go/internal/presence/presence.go:120-122 | the handler makes exactly the protocol's unavailable step |
| PresenceServer.Server.HandleSubscribe | go/internal/presence/presence.go:126-153 | the handler makes exactly the protocol's request step |
| PresenceServer.Server.EditTargetRoster | c/src/presence.c:208-233 | the branches online, online but unloaded, and offline make exactly the target's half |
| PresenceServer.Server.HandleSubscribed | c/src/presence.c:174-249 | the handler makes exactly the protocol's approval; `ProtocolLaws.RelationsAfter` and `ProtocolOutput.OutputStep` say what that changes and sends |
| PresenceServer.Server.HandleUnsubscribe | c/src/presence.c:253-325 | the handler makes exactly the protocol's cut of the sender's "to" |
| PresenceServer.Server.HandleUnsubscribed | c/src/presence.c:329-401 | the handler makes exactly the protocol's cut of the sender's "from" |
| PresenceServer.Server.HandleRosterSet | go/internal/stanza/stanza.go:270-301 | the handler makes exactly the protocol's roster set |
| PresenceServer.Server.HandleRosterRemove | c/src/roster.c:277-300 | the handler makes exactly the protocol's roster removal |
| PresenceServer.Server.Unregister | go/internal/server/server.go:121-137 | both indices lose the session, the list by swap-removal |
| PresenceServer.Server.Depart | go/internal/server/server.go:68-74 | Go's order (unregister, then announce) and C's (announce, then remove) make the same step |
| PresenceServer.Server.HandleBind | go/internal/stanza/stanza.go:157-168 | an older session of the user leaves, the new one enters |
| PresenceServer.Server.HandleRemoveAccount | go/internal/register/register.go:46-61 | the files go, then the session leaves; nothing else changes |
| PresenceServer.Server.Perform | go/internal/stanza/stanza.go:28-71 | whatever a client does, the objects make exactly the protocol's step |
| PresenceServer.Serve | go/internal/server/server.go:86-106 | a server driven by any sequence of operations is exactly the protocol's run, so every law above holds of it |
| PresenceServer.LeaveOrder | go/internal/server/server.go:69-72 | leaving before announcing comes to the same as announcing before leaving |
| Connections.Conn.Append | c/src/session.c:64-92 | written bytes are appended, the buffer at least doubles when it grows, and accepted bytes plus buffer remain everything written |
| Connections.Conn.Reserve | c/src/session.c:69-83 | after k growths the capacity is at least 8192·2^k and at most the larger of 8192 and twice the peak demand |
| Connections.Conn.Consume | c/src/session.c:98-112 | a partial write moves exactly its bytes from the buffer to what the socket took |
| Connections.FollowsWithout | c/src/server.c:211-233 | swap-removal lets connections only move down, with poll report, output and standing untouched |
| SessionTable.Table.Write | c/src/session.c:86-92 | only this connection's output grows; POLLOUT stays set exactly for non-empty buffers |
| SessionTable.Table.Flush | c/src/session.c:98-123 | exactly what the socket took moves out of the buffer, an error is reported exactly if the socket failed on waiting output, and POLLOUT is cleared exactly when the buffer is empty |
| SessionTable.Table.Accept | c/src/server.c:101-120 | a new connection takes the next slot, a full table refuses it, everybody else stays as he was |
| SessionTable.Table.FindByJid | c/src/session.c:125-140 | the connection of the address in the lowest slot, or none if there is none |
| SessionTable.Table.Remove | c/src/server.c:211-233 | exactly the given connection goes, the last one takes its slot with poll report and back-pointer, and the live slots stay 1 to nfds-1 |
| Effects.OutcomeTells | c/src/stanza.c:205-211 | what a callback says to every connection, gone or not: a reply, error or closing tag to its own, a delivery to the first under the address, on a displacement the error to the displaced and the farewells to the others; to everybody else nothing; sockets are offered output on an error only |
| Effects.OutcomeKeeps | c/src/session.c:221-229 | a callback removes nobody but the rival of a binding session, and changes the standing of its own session only |
| Effects.OutcomeAllTells | c/src/session.c:165-168 | over any run of callbacks everybody has been told exactly what each said to him while he was there, in order |
| Effects.ReadTells | c/src/session.c:142-187 | after a read everybody, gone or not, has been told exactly what the callbacks said and, if the session went, the farewells that are for him; a session that a callback ended was offered to its socket once more |
| Effects.FlushHands | c/src/session.c:98-123 | a flush appends exactly what the socket takes of the waiting output, from its front, to what it has accepted; an error with output waiting removes the session and says its farewells; nothing else changes for anybody |
| Effects.BrokeTells | c/src/server.c:147-152 | a broken connection goes, and everybody else is told exactly the farewells that are for him |
| EventLoop.Notify | c/src/presence.c:98-130 | each notice is appended to the output of the first connection under its address, and nothing else changes |
| EventLoop.Teardown | c/src/session.c:281-295 | never under a running parser: exactly the farewells are appended, then exactly this session leaves the table, which is otherwise unchanged |
| EventLoop.Close | c/src/stream.c:59-66 | under a running parser the teardown is only noted; otherwise it is done at once |
| EventLoop.SendStreamError | c/src/stream.c:68-82 | the error is appended to the output and offered to the socket; then the end is noted or done at once, with the farewells of a teardown |
| EventLoop.Displace | c/src/session.c:221-229 | a conflict removes the first session of the address, at once and with its error and farewells, if and only if that is not the binding one; otherwise nothing changes |
| EventLoop.NobodyDisplaced | c/src/session.c:221-229 | a run that ends with two live sessions of one address, because the binding one comes first |
| EventLoop.Callback | c/src/xml.c:177-195 | a callback has exactly the effect that `Effects.OutcomeTells` and `OutcomeKeeps` describe, on all connections; it never removes the session whose parser runs |
| EventLoop.AfterAllIs | c/src/session.c:165-186 | over a whole chunk the end is pending exactly if some callback asked for it, and addresses come from logins only |
| EventLoop.LastLogin | c/src/session.c:170-178 | the address after a chunk is that of its last login, and the parser is reset exactly if there was one |
| EventLoop.Parse | c/src/session.c:165-168 | over any sequence of callbacks all connections change exactly by the effects of the callbacks in turn; the session stays, and only sessions under one of its addresses are displaced |
| EventLoop.OnReadable | c/src/session.c:142-187 | one read, noted in the history, with exactly the effect of `Effects.ReadTells` on all connections; the session survives exactly if 0 < n < 8192 and no callback asked for its end; else it is removed exactly once, and nothing stays pending anywhere |
| EventLoop.OnWritable | c/src/session.c:189-193 | one flush, noted in the history, with exactly the effect of `Effects.FlushHands` on all connections; the session is removed if and only if the socket failed on waiting output |
| EventLoop.WriteHalf | c/src/server.c:159-165 | whoever sits in the slot now is offered his output if poll reported room to write, and stands afterwards as the flush says; the pass goes on at the right slot |
| EventLoop.Turn | c/src/server.c:143-166 | each turn of the loop, whatever it removes, brings nfds - i down; it notes exactly what it does, and all connections stand as these happenings say |
| EventLoop.Pass | c/src/server.c:143-167 | a pass ends; all connections stand exactly as its noted happenings say; nobody is read, flushed or torn down but on poll's report, nobody twice; of those who kept their slot every broken one is gone, every readable one was read and every writable one was flushed; at most one connection is left out for each that was removed |
| EventLoop.Round | c/src/server.c:128-168 | the same for a whole round, from the table as poll and accept leave it, at most 15 clients, to the next poll; polling and accepting change nobody but by his poll report |
| XmlText.ChainedEscapingIsOnePass | go/internal/xml/node.go:112-124 | three successive replacements are one per-character substitution, in both orders used in the code |
| XmlText.EscapeRoundTrip | go/internal/xml/node.go:112-124 | decoding the predefined entities restores every string, and no raw delimiter is left |
| XmlNode.Serialize | go/internal/xml/node.go:64-69 | the builder ends up with exactly the specified text |
| XmlNode.SerializeInto | go/internal/xml/node.go:72-109 | the recursive printer appends exactly the specified text of a subtree under its parent's namespace |
| XmlTokens.DeclaredNs | go/internal/xml/node.go:76-83 | a start tag declares its namespace so that a reader resolves it right, and only when it must |
| XmlTokens.ValueOfEscaped | go/internal/xml/node.go:112-124 | every escaped string reads back as itself with its line ends normalised, and is legal XML if it was |
| XmlReader.StreamDecoder.StartToNode | go/internal/xml/decoder.go:91-112 | the fresh node keeps name, namespace and every attribute but namespace declarations |
| XmlReader.StreamDecoder.ReadStanza | go/internal/xml/decoder.go:36-89 | one call consumes exactly the tokens that the stack machine specification consumes, and returns its outcome; the rows below say which these are |
| XmlReader.ScanContent | go/internal/xml/decoder.go:52-86 | well-nested content is absorbed by the top of the stack, leaving everything below untouched |
| XmlReader.ScanStanza | go/internal/xml/decoder.go:36-89 | on the tokens of a grammatical tree a call returns that tree, with its text concatenated, and uses exactly its tokens |
| XmlReader.StanzasInOrder | go/internal/xml/decoder.go:36-89 | repeated calls on a well-nested stream return the stanzas in order, and nothing else |
| XmlReader.StreamOpensAtOnce | go/internal/xml/decoder.go:45-57 | outside any stanza the opening of a stream is returned at once, with its kept attributes and no content, and uses exactly the tokens up to it |
| XmlReader.StreamInsideIsChild | go/internal/xml/decoder.go:53-60 | inside a stanza the same element is an ordinary child |
| XmlReader.StreamCloses | go/internal/xml/decoder.go:62-66 | an end tag outside any stanza closes the stream and uses one token |
| XmlReader.CutStanzaWaits | go/internal/xml/decoder.go:39-43 | a stanza cut short anywhere is not returned, and all its tokens are used |
| XmlReader.ConnectionInOrder | go/internal/xml/decoder.go:36-89 | over a whole connection, with streams opened and reopened between stanzas, the calls return exactly the openings and the stanzas, in order |
| XmlRoundTrip.PrintedTokens | go/internal/xml/node.go:72-109 | printed text tokenizes to the tree's own tokens, wherever it stands |
| XmlEcho.PrintThenRead | go/internal/xml/node.go:64-109 | print, tokenize and read give back the tree with its namespaces resolved, its attributes unqualified and its line ends normalised, for every printable tree |
| XmlEcho.ReadBackIsNormal | go/internal/xml/node.go:72-124 | that tree is the original (with "" as jabber:client) if and only if no default-namespace element stands inside another namespace, no attribute is in a namespace and no text, value or namespace holds a carriage return |
| XmlEcho.DefaultUnderForeignIsLost | go/internal/xml/node.go:76-83 | a concrete tree that does not come back |
| XmlEcho.QualifierIsLost | go/internal/xml/node.go:85-92 | an attribute in a namespace comes back without it |
| XmlEcho.ReturnIsLost | go/internal/xml/node.go:119-124 | a carriage return in a text comes back as a line feed |
| XmlEcho.EchoIsStable | go/internal/xml/decoder.go:36-89 | after the first pass printing and reading change nothing, also for interleaved text, qualified attributes and carriage returns |
| Registry.IndexEqualsHistory | go/internal/server/server.go:109-143 | after every interleaving byBareJID names exactly the last to register if it has not unregistered, all others under an address are closed or about to be, and the list is the accepted less the unregistered sessions, each once |
| Registry.OneSessionPerAddress | go/internal/stanza/stanza.go:159-168 | once every binder has closed what it displaced and the closed have left, an address has one session at most, the indexed one |
| Registry.StaysIndexed | go/internal/server/server.go:118-127 | only its own exit or another session registering under its address takes a session out of the index; a displaced session's late exit does not |
| Registry.WithoutElements | go/internal/server/server.go:130-136 | swap-removal drops exactly one session and keeps the list free of duplicates |
| Registry.Index.Register | go/internal/server/server.go:109-116 | the object makes exactly the registering step of the interleaving model, and the caller learns whom it now has to close |
| Registry.Index.Unregister | go/internal/server/server.go:121-137 | conditional delete and scanning swap-removal make exactly the leaving step of the interleaving model |
| Registry.Index.FindByBareJID | go/internal/server/server.go:148-152 | a lookup finds exactly the last to register under the address, unless it has left |
| Registry.Serve | go/internal/server/server.go:68-143 | a server driven through any interleaving holds exactly what the history says |
| ContactTables.ListRefinesMap | c/src/roster.c:129-177 | over every run of add, set and remove the list is a finite map: unique keys, same entries, and never more than the capacity |
| ContactTables.RemoveKeepsOthers | go/internal/roster/roster.go:128-136 | removal keeps all other items, in their order and unchanged |
| ContactTables.AddedInCIsPut | c/src/roster.c:138-164 | for addresses under 512 bytes the C array is a list with room for 128 items |
| ContactTables.AddedInCUnique | c/src/roster.c:138-164 | adding keeps addresses unique if and only if the address was there, the table is full, or what fits of the address is new |
| ContactTables.LongAddressTwice | c/src/roster.c:157-158 | an address of 512 bytes or more, added twice, is there twice |
| ContactTables.Roster.AddOrUpdate | go/internal/roster/roster.go:104-125 | the slice is updated in place or extended as the list operation says |
| ContactTables.Roster.Remove | go/internal/roster/roster.go:128-136 | the slice loses the first item of the address, if any |
| ContactTables.Roster.Change | go/internal/stanza/stanza.go:270-284 | the set branch carries subscription and ask over and renames |
| ContactTables.RosterArray.Add | c/src/roster.c:138-164 | the array does the same on its first `count` items, and reports a full table |
| ContactTables.RosterArray.Remove | c/src/roster.c:166-177 | the shift drops exactly the found item |
| FileNames.SequenceOfName | c/src/message.c:86-88 | the number read back from a name is the number it was made from, for every number |
| FileNames.NumericExactlyToFourPlaces | go/internal/message/message.go:65-72 | names 1 to k sort like numbers if and only if k is at most 9999 |
| FileNames.TenThousandth | c/src/message.c:117 | name 10000 sorts right after name 1000 |
| Sorting.ExchangeSort | c/src/message.c:164-173 | the array ends up as the sorted order of what it held |
| Sorting.SortedUnique | c/src/message.c:164-173 | there is only one sorted order, so Go's library sort ends up with the same |
| OfflineQueue.Spool.Store | go/internal/message/message.go:88-123 | the message is stored under one more than the largest number in the directory, whatever the order of the listing |
| OfflineQueue.Spool.Collect | c/src/message.c:143-158 | the names taken are the wanted ones, in C the first 256 |
| OfflineQueue.Spool.Drain | go/internal/message/message.go:58-86 | messages are sent in the order of their names, and exactly those files are deleted |
| OfflineQueue.TakesExactly | go/internal/message/message.go:65-72 | a drain takes only files named "*.xml", in C no hidden ones, all of them if the table has room, and leaves every other file alone |
| OfflineQueue.StoreAppends | c/src/message.c:80-117 | the new name is never one in use, and the queue grows by this message at its end |
| OfflineQueue.DrainIsFifo | go/internal/message/message.go:65-86 | within the limit a drain delivers the whole queue in the order stored and leaves nothing |
| OfflineQueue.FifoExactlyToTheLimit | c/src/message.c:139-191 | with distinct messages a drain delivers the queue in order if and only if it holds at most 9999 (Go) or 256 (C) |
| OfflineQueue.FullTableSkipsTheOldest | c/src/message.c:147 | past 256 there is a directory order with which C leaves the oldest message behind |
| OfflineQueue.ExactlyOnceInOrder | go/internal/message/message.go:58-123 | over every run within the limit each message is delivered exactly once, in order, and the files are exactly the rest, numbered from 1 |
| OfflineQueue.NothingLost | c/src/message.c:73-191 | over every run, however long the backlogs, delivered messages and messages in the directory together are exactly the stored ones, each once; past the limits only order is lost |
| Base64.Decode | c/src/util.c:113-149 | the buffers are never overrun, the result is the decoding of the accepted bytes, at most 3072 bytes, and nothing behind it is written |
| Base64.DecodesExactly | c/src/util.c:113-149 | an encoding (RFC 4648 section 4) with any foreign bytes in it is accepted if and only if the data is at most 3072 bytes, and then decodes to it |
| Base64.DecodeOfEncode | c/src/util.c:132-146 | decoding undoes encoding, for data of any length |
| Base64.AcceptedIs | c/src/util.c:100-126 | nothing but the 64 symbols and '=' is accepted |
| Base64.NoiseIsIgnored | c/src/util.c:117-126 | a byte outside the accepted set may be inserted anywhere |
| Base64.RoundTrip | c/src/auth.c:39-53 | any data of at most 3072 bytes survives |
| Sasl.ParseInGo | go/internal/auth/auth.go:64-90 | accepts exactly authzid NUL authcid NUL passwd with non-empty authcid and passwd, and returns exactly these parts |
| Sasl.ParseInC | c/src/auth.c:53-92 | accepts exactly the split messages with something after the second NUL, reading the password up to its first NUL |
| Sasl.SplitIs | go/internal/auth/auth.go:64-90 | there is at most one way to split a message |
| Sasl.SplittersAgree | c/src/auth.c:61-92 | both accept the same credentials if and only if the name is not empty and the password holds no NUL |
| Sasl.GoRejects | c/src/auth.c:61-92 | what only C accepts has an empty name |
| Sasl.Authenticate | c/src/auth.c:24-92 | from the text of the element to the credentials, through the shared buffer |
| Sasl.CredentialsArrive | c/src/auth.c:38-92 | the credentials checked are the ones the client encoded, through any noise |
| Jid.CutJoined | go/internal/presence/presence.go:430-443 | cutting at '/' and '@' undoes joining, for every name an account can have |
| JidParse.Parse | c/src/util.c:8-70 | return code and the three buffers for every string: the parts cropped to the buffers, also where the length of the domain wraps around and the copy runs past the end |
| JidParse.SplitOfFull | c/src/util.c:76-80 | splitting a joined address gives its parts back; the resource may hold '@' and '/' |
| JidParse.FullOfSplit | c/src/util.c:8-80 | joining the parts as 256-byte buffers hold them gives an address back if and only if none was cropped and no '/' stands in front of the '@', or one does and the cropping of a domain of 511 bytes comes out even |
| JidParse.JoinThenParse | c/src/message.c:24-29 | through buffers of 768 and 256 bytes, parts of up to 255 bytes arrive whole |
| JidParse.SlashInName | c/src/util.c:39-58 | "a/b@c": C reaches the user "a/b" at "c", Go nobody |
| JidParse.SameBare | go/internal/presence/presence.go:430-443 | the bare address that C rebuilds from its buffers is Go's if and only if both parts fit and no '/' stands in front of the '@' |
| JidParse.SameTarget | go/internal/message/message.go:25-34 | a message reaches the same user through both servers, under every common server name, if and only if its address is plain (no name or no domain, or both at most 255 bytes and no '/' in front) |
| JidParse.LongDomainPasses | c/src/util.c:45-49 | a domain one byte too long passes for the server's own in C, not in Go |

## Left out

- Unlocked field access in Go: the handlers are steps; races between goroutines on session fields are not modelled.
- Registry: sending the conflict error before Close is output and not part of the interleaving model.
- Several sessions per user in `Protocol`: the C table can hold two for a while (see `EventLoop.Displace`); the presence laws assume one.
- Presence and messages: delivery of offline messages on the first presence is modelled apart, in `OfflineQueue`.
- Message routing and stanza errors: fixed replies.
- EventLoop.Parse: the parser itself is any sequence of callbacks; a parser that could not be created is not modelled.
- EventLoop.Callback: the teardown inside session_write when memory runs out is not modelled.
- EventLoop.Teardown: which contacts are told is an arbitrary list of notices here; `Protocol` says which.
- PresenceServer.Server.HandleBind: the old session leaves, announcing it, before the new one enters, and both are one step. In C the kick comes first as well; in Go the newcomer registers first (go/internal/stanza/stanza.go:164-168) and the displaced session announces its departure later, from its own goroutine.
- PresenceServer.Server.HandleRemoveAccount: the session leaves at once, as in Go; in C it leaves when its chunk has been parsed (c/src/register.c:85), and later stanzas of that chunk still run. `EventLoop` has the deferral.
- PresenceServer.Server.Perform: a C session can be found under its address from the login on, here from the bind on.
- Jid.CutJoined: full addresses are joined as in Go, without a '/' for an empty resource; the C joiner always writes it (`JidParse.FullInC`).
- ContactTables.Roster.Change: the second assignment of the name through a pointer that the append may have left behind is only modelled where it has an effect.
- JidParse.Parse: the bytes behind the string that a wrapped length makes it copy are taken to be readable; what they hold does not show.
- JidParse.JoinThenParse: parts longer than 255 bytes, which the session's own fields already crop, are not joined here.
- FileNames.SequenceOfName: names with a sign or space in front, and numbers beyond the machine's integers, do not arise from stored messages.
- OfflineQueue.Spool.Drain: a file that cannot be read or parsed is deleted unsent by both programs; the model stores what was serialized.
- Sasl.Authenticate: the Go server decodes with its standard library, which is not part of this model, so the composition with base64 is proved for C.
- Roster files as text, disco, configuration, logging, password storage and account files: value storage or option plumbing.
- Roster get: the reply is one stanza without its items.
- XmlEcho.PrintThenRead: attributes named xmlns and characters that XML 1.0 does not allow are outside what is printable; like the Go decoder, the reference tokenizer does not refuse two attributes of one name.
- XmlTokens.DeclaredNs: the reference tokenizer takes names such as "1a", which the library decoder refuses; no such name reaches the printer from it.
- Random identifiers, time stamps and the delay element of stored messages.
