# Phantasma, modelled and proved

Phantasma is a relay for end-to-end encrypted chat. A client keeps two key pairs and a contact
book in files, registers its public keys with the server, opens one WebSocket, encrypts each
message for its addressee and checks the sender key of each message it receives. The relay admits
a frame that names its own connection's user, passes the envelope into the outbound channel of the
addressee's registered connection, or else stores it as a row and drains it into a later connection.

This project models both halves and proves what they promise together, over every interleaving.

| files | what they hold |
|---|---|
| `Relay`, `RelayInvariant` | the relay as a step system, one step per lock section, channel operation, SQL statement or socket event, including restarts of the process; its invariants |
| `RelayDelivery`, `RelaySockets`, `RelayConservation`, `RelayDuplication`, `RelayDrains`, `RelayFresh`, `RelayOnce`, `RelayOrder`, `RelayOvertaking`, `RelayRegistry`, `RelaySimulation` | provenance, queue safety, drain completeness, how sockets end, conservation, duplication and when it can happen, order and when it can break, the registry, and the abstract relay it simulates |
| `RelayScripts`, `RelayExamples` | single steps spelled out, and concrete runs showing what the relay does not promise |
| `Directory`, `Server` | the two tables and the server's shared state as classes; each method carries out steps of the step system, with arbitrary steps of everything else at its awaits |
| `Json`, `JsonProofs`, `JsonExact`, `PrettyJson`, `Wire`, `WireProofs` | a lexer, parser and two printers for JSON, exactly which texts are read, and the wire records on top of them |
| `WireTexts`, `IdentityTexts`, `ClientTexts`, `Alphabets` | the formats spelled out: records and files to the last character, what each kind of identity file leads to, typed lines, character classes and tables |
| `Base64Url`, `Crypto`, `CryptoProofs`, `LawfulSuite` | key texts, the envelope over an arbitrary suite of primitives, and a suite that has all the laws assumed |
| `ClientFiles`, `Identity`, `IdentityProofs`, `Contacts`, `ContactsProofs`, `ContactPinning`, `Client`, `ClientLoop` | the client's files, identities, contact book, sending and receiving, and its input loop |
| `Network`, `Soundness`, `Completeness`, `NetworkExample` | clients, sockets, key directory and relay as one system, the end-to-end theorems, and a run that meets the assumptions of completeness |

A state-changing object of the source is a class whose methods are proved against functions of the
old state; pure code is functions. `AppState.Valid` says that the server's state is one that the
step system reaches, so every theorem about runs applies to the classes.

Where the code falls short of a tempting reading, the project gives a run and says exactly when:

- A row is delivered twice (`RelayExamples.OverlapDuplicates`). After fresh loads, a load can bring
  this about exactly when it is not fresh: when the table holds a row of its user that was pushed
  before or that another drain has yet to push (`RelayFresh.DuplicatesExactly`). Overlapping drains,
  failing deletes and restarts do no harm by themselves.
- A live message overtakes a queued one (`RelayExamples.LiveOvertakesQueued`). A queued message
  never overtakes (`RelayOvertaking.OnlyLiveOvertakes`), and a live send can be made to overtake an
  earlier message of its own connection exactly when a row of that connection is due in its channel:
  in the table while the channel's drain is yet to load, or ahead of that drain
  (`RelayOvertaking.SendOvertakesExactly`).
- A cleanup evicts the replacement of its connection exactly when a multiple of 2^64 connections
  lies between the two (`RelayRegistry.UnregisterEvicts`, with a run in
  `RelayRegistry.WrapAroundEvicts`).
- The server accepts key texts that no client can decode, exactly those with spare bits set
  (`Base64Url.KeyTextArithmetic`).
- A contact's entry changes exactly when a lookup answers with that contact's name and another
  entry (`ContactPinning.ChangesExactly`, with a send in `ContactPinning.MisnamedAnswerReplaces`),
  and a restart forgets exactly the contacts that are not saved (`ContactPinning.RestartForgets`).

## Model

| member | source | states |
|---|---|---|
| RelayInvariant.InvHolds | server/src/main.rs:190-349 | every reachable state satisfies the joint invariant of connections, accepted frames, registry, table, addresses and row coverage, whatever interleaves |
| RelayInvariant.DeletedWasPushed | server/src/main.rs:331-341 | in an invariant state the row a drain is about to delete has been pushed by that drain |
| RelayDelivery.Provenance | server/src/main.rs:277-307 | everything in a channel, a row or a snapshot of user u came from a frame accepted on a connection of its claimed sender, addressed to the valid name u, with the re-encoded envelope as payload |
| RelayDelivery.QueueSafety | server/src/main.rs:331-341 | a row ever inserted is still in the table or was pushed into a channel opened for its recipient |
| RelayDelivery.DeletesOnlyPushed | server/src/directory.rs:166-178 | a row leaves the table only by a delete of a drain of its own recipient that has pushed this very row, however stale its snapshot |
| RelayDelivery.DrainChannelOpen | server/src/main.rs:203-219 | the channel of a running drain is open, so a drain is never cut short by its own send |
| RelayDelivery.DrainCompleteness | server/src/main.rs:318-349 | when a drain has deleted all it loaded, each loaded row was pushed and is gone, and each row left for its user has an id above the counter at the load, with concurrent inserts and other drains |
| RelaySockets.WriteMayFail | server/src/main.rs:209-218 | whenever the send task has an item to write, the write can succeed and can fail; a failed one closes the channel and changes nothing else |
| RelaySockets.ReceiveMayEnd | server/src/main.rs:250-253 | the end of an idle receive task, and the abort that follows, are possible at any time and close the channel |
| RelaySockets.AbortFollows | server/src/main.rs:250-264 | after a failed write the receive task can be dropped at any await, losing what it had pending, and the connection cleaned up |
| RelaySockets.ClosedForGood | server/src/main.rs:295-297 | a closed channel stays closed: nothing is pushed into it or written from it in any continuation of the run |
| RelaySockets.FailedSocketQueues | server/src/main.rs:290-307 | an admitted frame for a user whose registered connection had its write fail ends as its row, and the dead channel gets nothing |
| RelaySockets.FoundGoesOn | server/src/main.rs:290-297 | between the lookup and the send nothing but the end of the process interferes with a handler |
| RelaySockets.TasksAfterDrain | server/src/main.rs:207-248 | nothing is read from or written to a socket before its drain has returned |
| RelayConservation.ExactlyOnePlace | server/src/main.rs:269-316 | in every state an accepted message is in exactly one of: its handler, one live push, one inserted row, the losses; and nothing not accepted is anywhere |
| RelayDuplication.BoundedDuplication | server/src/main.rs:331-348 | pushes of a row never exceed the snapshots holding it; a drain has pushed a prefix of its snapshot and deleted that prefix or all but its last row |
| RelayDuplication.GentlePushIsFirst | server/src/main.rs:331-341 | without overlap and failing deletes, the row a drain pushes next is in the table and was never pushed before |
| RelayFresh.DuplicatesExactly | server/src/main.rs:323-341 | after fresh loads only, a load can lead, without a further load, to a row pushed twice exactly when it is not fresh: when the table holds a row of its user that was pushed before or that another drain has still to push |
| RelayFresh.FreshAtMostOnce | server/src/main.rs:318-349 | while every load is fresh every row is pushed at most once, also when deletes fail, drains overlap and the process ends between a push and its delete |
| RelayFresh.StaleLoadDuplicates | server/src/main.rs:331-341 | from any reachable state, a load that is not fresh and then pushes and deletes alone lead to a row pushed twice |
| RelayFresh.AtMostOnce | server/src/main.rs:318-349 | in particular, when drains of a user do not overlap, no delete fails and the process does not end between a push and its delete, every row is pushed at most once in the whole run |
| RelayOnce.PushedOnce | server/src/main.rs:269-349 | while every load is fresh, two pushes anywhere, live or drained, are of two different messages |
| RelayOrder.SamePathOrder | server/src/main.rs:223-233 | in every channel drained rows have increasing ids, and two messages of one sender connection that took the same path are in frame order |
| RelayOrder.RowOrder | server/src/directory.rs:126-139 | row ids of one sender connection are ordered as its frames, in both directions |
| RelayOvertaking.OnlyLiveOvertakes | server/src/main.rs:290-307 | two messages of one sender connection in one channel are in frame order unless the first came live and the second from the queue |
| RelayOvertaking.SendOvertakesExactly | server/src/main.rs:295-307 | a live send can be followed, in its channel and in some continuation of the run, by an earlier message of its own connection exactly when a row of that connection is due there: in the table if the drain is yet to load, or ahead of the drain in what it loaded |
| RelayOvertaking.OrderlyRunKeepsOrder | server/src/main.rs:223-233 | when no send of a run is made while a row of its sender is due in its channel, all messages of one sender connection in one channel are in frame order, whichever path they took |
| RelayRegistry.RegistryExact | server/src/main.rs:191-204 | at any moment the entry of a user is the connection that registered last for it if that has not unregistered, and absent otherwise, while no process started more than 2^64 connections |
| RelayRegistry.UnregisterEvicts | server/src/main.rs:255-264 | in every run a cleanup evicts another connection exactly when that one is registered for the user at a distance of a multiple of 2^64 |
| RelayRegistry.WrapAroundEvicts | server/src/main.rs:191 | a run in which the id counter has wrapped and a cleanup evicts a live replacement |
| RelaySimulation.Simulates | server/src/main.rs:190-349 | every run of the relay is, step by step, a run of an abstract relay that only accepts, queues, hands over to the addressee, duplicates a message that was queued, and loses messages |
| RelaySimulation.Balance | server/src/main.rs:269-349 | in the abstract relay the copies held, delivered and lost are those accepted or duplicated |
| RelaySimulation.FreshActions | server/src/main.rs:318-349 | while every load is fresh the duplicate action never occurs |
| RelaySimulation.FreshDelivery | server/src/main.rs:318-349 | in such a run each accepted message is exactly once on its way, written to its addressee, or lost |
| RelayExamples.OverlapDuplicates | server/src/main.rs:318-349 | for any two valid names and any envelope, a run in which two drains of one user push the same row |
| RelayExamples.LiveOvertakesQueued | server/src/main.rs:290-307 | for any two valid names and any envelope, a run in which a later live message enters the channel before an earlier queued one |
| Directory.SelectAndDelete | server/src/directory.rs:141-178 | on a table in id order the SELECT gives exactly the recipient's rows in id order, and the DELETE removes exactly the row of that id |
| Directory.Database.RegisterPublicKey | server/src/directory.rs:72-102 | the upsert replaces the entry of exactly that username, or changes nothing when it fails |
| Directory.Database.QueueMessage | server/src/directory.rs:126-139 | the INSERT appends a row under the next id, which is never given out again, and fails when ids run out |
| Directory.Database.QueuedMessagesFor | server/src/directory.rs:141-164 | the loop over the table yields the SELECT's rows |
| Directory.Database.DeleteQueuedMessage | server/src/directory.rs:166-178 | the loop over the table yields the DELETE's table |
| Server.ForeignStep | server/src/main.rs:190-316 | no step of another task touches the local variables of a waiting drain, handler or send task |
| Server.OthersRun | server/src/main.rs:190-316 | while a task waits, every possible step of another connection happens when its turn comes |
| Server.AppState.Interleave | server/src/main.rs:190-316 | at an await the state becomes that of all the possible steps of others, in their order, and the waiting task's own variables are untouched |
| Server.AppState.constructor | server/src/main.rs:59-66 | the server starts in the initial state of the step system, with an empty directory |
| Server.AppState.Connect | server/src/main.rs:190-204 | whatever runs between taking the id and the lock, the new connection ends up registered under its user with its own id and channel |
| Server.AppState.DeliverRow | server/src/main.rs:331-341 | one turn of the drain loop pushes exactly the next row into the channel and then removes it from the table, or stops after the push when the delete fails, while everything else runs |
| Server.AppState.DeliverQueuedMessages | server/src/main.rs:318-349 | a drain without failures pushes and removes every row its user had at the load and leaves only rows inserted since, while everything else runs |
| Server.AppState.SpawnTasks | server/src/main.rs:209-248 | both tasks start once the drain has returned, and nothing else changes |
| Server.AppState.WriteNext | server/src/main.rs:210-218 | one payload goes to the socket, or the write fails and the channel is closed; the rest of the state is as before |
| Server.AppState.SendTask | server/src/main.rs:209-219 | with everything else running, payloads are written in the order pushed until a write fails, and then the channel is closed |
| Server.AppState.EndReceiveTask | server/src/main.rs:224-248 | the receive loop ends, and nothing else changes |
| Server.AppState.AbortSendTask | server/src/main.rs:252 | the aborted send task closes the channel, and nothing else changes |
| Server.AppState.AbortReceiveTask | server/src/main.rs:251 | the aborted receive task gives up the frame it handles, and nothing else changes |
| Server.AppState.EndSocket | server/src/main.rs:250-264 | whichever task ends first, both are gone in the end, the channel is closed and the registration is cleaned up |
| Server.AppState.Restart | server/src/main.rs:59-66 | a new process has no registrations and no channels, and the same database |
| Server.AppState.HandleEncryptedPayload | server/src/main.rs:250-316 | a frame is rejected exactly when not admitted; else it is accepted and relayed to a channel of its addressee, queued as its row, lost with the INSERT, or lost with its task, cancelled at an await; it is relayed only if the addressee's registered channel was open at the lookup, after whatever ran before, and then unless that channel closes before the send |
| Server.AppState.Disconnect | server/src/main.rs:255-264 | the cleanup removes its user's entry exactly when it carries this connection's id, and with fewer than 2^64 connections never another connection's |
| Server.AppState.RegisterPublicKey | server/src/main.rs:109-120 | a registration is stored exactly when its name and both key texts pass and the database does not fail, and the relay is left alone |
| Server.AppState.LookupPublicKey | server/src/main.rs:122-140 | the four replies to a lookup, and that a found entry has the name asked for and passed validation |
| JsonProofs.UnescapeEscape | shared/src/lib.rs:23-29 | every string, with quotes, backslashes and control characters, survives escaping and unescaping |
| JsonProofs.LexRender | shared/src/lib.rs:23-29 | printed tokens are lexed back, whatever white space separates them |
| JsonProofs.ParseCompact | shared/src/lib.rs:23-29 | the compact text of any JSON tree parses to that tree |
| JsonExact.ParseExactly | shared/src/lib.rs:23-29 | a text is read as a value exactly when it spells that value with any white space between its tokens |
| JsonExact.LiteralsSpelled | shared/src/lib.rs:27-29 | what the three literal names are read as |
| JsonExact.WhiteSpace | shared/src/lib.rs:27-29 | the four characters that may stand between tokens |
| JsonExact.NumberSpelled | shared/src/lib.rs:27-29 | every number of the grammar is read |
| JsonExact.NumberIsSpelled | shared/src/lib.rs:27-29 | every number that is read is of the grammar |
| Alphabets.EscapesSpelled | shared/src/lib.rs:23-25 | which characters are escaped in strings, and as what |
| Alphabets.UnescapesSpelled | shared/src/lib.rs:27-29 | what each two-character escape stands for |
| Alphabets.UnicodeEscape | shared/src/lib.rs:27-29 | what an escape of four hexadecimal digits stands for |
| Alphabets.HexDigits | shared/src/lib.rs:27-29 | the values of hexadecimal digits in either case |
| Alphabets.SurrogateEscapes | shared/src/lib.rs:27-29 | pairs of surrogate escapes are one character, and lone ones are errors |
| PrettyJson.ParsePretty | client/src/contacts.rs:76 | the indented text of any JSON tree parses to that tree |
| WireProofs.FieldsStruct | shared/src/lib.rs:7-55 | a derived Deserialize finds exactly the field values that the derived Serialize wrote, for any struct with distinct names |
| WireProofs.FieldsExactly | shared/src/lib.rs:7-55 | a struct is read from an object exactly when each of its fields occurs once, from an array exactly when the lengths agree, and from nothing else |
| WireProofs.FieldValue | shared/src/lib.rs:7-55 | and each field then has the value that stands under its name |
| WireProofs.VersionExactly | shared/src/lib.rs:34 | a version is read exactly from the plain decimals 0 to 255 |
| WireProofs.PlaintextRoundTrip | shared/src/lib.rs:23-29 | decoding an encoded plaintext message gives it back, for all strings |
| WireProofs.EncryptedRoundTrip | shared/src/lib.rs:41-47 | decoding an encoded envelope gives it back, for all versions and strings |
| WireProofs.RoutedRoundTrip | shared/src/lib.rs:70-76 | decoding an encoded routed message gives it back |
| WireTexts.PlaintextText | shared/src/lib.rs:7-30 | the text of every plaintext message, member names included, and that it decodes to the message |
| WireTexts.EncryptedText | shared/src/lib.rs:32-48 | the text of every envelope, member names included, and that it decodes to the envelope |
| WireTexts.DecimalTexts | shared/src/lib.rs:34 | version numbers are written in decimal |
| WireTexts.RoutedText | shared/src/lib.rs:50-77 | the text of every frame, member names included, and that it decodes to the routed message |
| WireTexts.ContactsFileText | client/src/contacts.rs:16-19 | the text of the contacts file for every book, and that it reads back |
| WireTexts.IdentityText | client/src/identity.rs:22-28 | the text of the identity file, and that it reads back |
| Alphabets.UsernameSpelled | shared/src/lib.rs:107-113 | usernames are 1 to 64 of the listed characters, and nothing else |
| Alphabets.KeyTextSpelled | shared/src/lib.rs:115-127 | accepted key texts are 43 of the listed characters |
| WireProofs.RelayPreservesEnvelope | server/src/main.rs:274-275 | parsing a frame and re-encoding only its envelope gives a text that decodes to the sender's envelope, for every frame the relay parses |
| Base64Url.DecodeEncode | client/src/crypto.rs:56-57 | decode after encode is the identity on all byte strings |
| Base64Url.EncodeDecode | client/src/crypto.rs:126-129 | encode after decode gives back every text that decodes |
| Alphabets.Base64Alphabet | client/src/crypto.rs:56-57 | the 64 symbols are those of table 2 of RFC 4648, in its order |
| Alphabets.Base64Bits | client/src/crypto.rs:56-57 | the symbols of a group, read to the base 64, are its bytes read to the base 256, with zero bits after the last; and groups follow one another |
| Base64Url.DecodesExactly | client/src/crypto.rs:126-129 | a text decodes exactly when all its symbols are of the alphabet, none dangles and no spare bit is set; three bytes per four symbols |
| Base64Url.KeyRoundTrip | client/src/identity.rs:186-198 | every 32-byte key encodes to a text that the server's validators accept and that decodes back |
| Base64Url.KeyTextArithmetic | shared/src/lib.rs:115-127 | a text decodes to a key exactly when the validators accept it and its last symbol's value is a multiple of four |
| Base64Url.AcceptedButUndecodable | shared/src/lib.rs:115-127 | there is a key text that the validators accept and no client decodes |
| Base64Url.NonceText | client/src/crypto.rs:136-144 | a 24-byte nonce is exactly 32 symbols, and exactly the texts of 32 symbols are nonces |
| Base64Url.KeyTextComparison | client/src/main.rs:288 | for texts that decode, comparing texts is comparing keys |
| Crypto.AssociatedData | client/src/crypto.rs:116-124 | the buffer filled piece by piece is the context followed by the sender's and the recipient's key |
| Crypto.EncryptMessage | client/src/crypto.rs:18-59 | the method's envelope, or its error, is that of the specification, for any nonce from the random generator |
| CryptoProofs.AssociatedInjective | client/src/crypto.rs:116-124 | the associated data determines both keys and their order |
| CryptoProofs.SameMessageKey | client/src/crypto.rs:101-114 | sender and addressee derive the same message key |
| CryptoProofs.EnvelopeRoundTrip | client/src/crypto.rs:61-99 | the addressee decrypts exactly the plaintext that was encrypted, for all names, bodies, nonces and key pairs |
| CryptoProofs.OnlyAddresseeOpens | client/src/crypto.rs:61-99 | a key pair decrypts an envelope exactly when its public key is the addressee's |
| CryptoProofs.HeaderBound | client/src/crypto.rs:61-99 | a ciphertext that opens comes with the version, sender key text and nonce text it was sealed with |
| CryptoProofs.OpensAsSealed | client/src/crypto.rs:88-98 | whoever opens an envelope of encrypt_message, with any keys, reads the plaintext that was sealed |
| CryptoProofs.EnvelopeSpelled | client/src/crypto.rs:18-59 | what is sealed, under which derivation of the agreed secret, with which salt, context and version, to the last literal |
| CryptoProofs.SecretNeeded | client/src/crypto.rs:61-114 | an envelope opens for a secret exactly when that secret agrees with the sender's public key as the addressee's does, also for one who claims the addressee's public key |
| LawfulSuite.TransparentLawful | client/src/crypto.rs:29-51 | the laws assumed of the primitives are consistent: a suite has them all |
| Contacts.ContactBook.Add | client/src/contacts.rs:27-30 | the entry goes under its own username; the file is the new book, or untouched when the write fails, and then memory is ahead of it |
| Contacts.ContactBook.Names | client/src/contacts.rs:36-38 | all names, each once, in order |
| Contacts.UpToMeans | client/src/contacts.rs:12 | the order of contacts is that of a dictionary |
| Contacts.LoadOrCreateIn | client/src/contacts.rs:40-70 | an existing file is read and left alone, a missing one is created empty, and nothing changes on any error |
| ContactsProofs.SavedContactsLoad | client/src/contacts.rs:49-80 | what save writes is what the next start reads, for every contact book |
| ContactsProofs.LastEntryStays | client/src/contacts.rs:51-57 | in a contacts object every name stands for the last entry under it |
| ContactPinning.ChangesExactly | client/src/main.rs:230-245 | an event changes a contact exactly when the answer to its lookup carries that contact's name with another entry |
| ContactPinning.SavedForGood | client/src/main.rs:285-314 | over any run of sends, receives and restarts with an honest directory a saved contact never changes, in the file or in memory, whether or not saves fail |
| ContactPinning.Pinned | client/src/main.rs:285-314 | in such a run a known contact stays unchanged from then on as long as it is saved at each later restart; earlier restarts do not matter |
| ContactPinning.RestartForgets | client/src/contacts.rs:40-50 | a restart loses a known contact exactly when it is not saved |
| ContactPinning.OneKeyPerSender | client/src/main.rs:285-292 | all messages displayed for one sender carry the same key, as long as the sender is saved at each restart after the first of them |
| ContactPinning.KeyedByNameHolds | client/src/contacts.rs:27-30 | every contact is under its own username, whatever the server answers |
| ContactPinning.MisnamedAnswerReplaces | client/src/main.rs:232-236 | a lookup answered with another name's entry replaces that contact |
| ContactPinning.InvalidNameNotAsked | client/src/server_api.rs:80-82 | an invalid name is never looked up, and changes nothing |
| Client.AddressedExactly | client/src/main.rs:218-228 | a body without outer white space is split off unchanged |
| ClientTexts.AddressedAnyhow | client/src/main.rs:218-228 | white space around the two words, and more of it between them, is dropped |
| ClientTexts.NotAddressed | client/src/main.rs:218-228 | fewer than two words send nothing |
| ClientTexts.Trims | client/src/main.rs:65 | trimming takes exactly the white space at both ends |
| ClientTexts.WhiteSpaceSpelled | client/src/main.rs:65 | the characters that are trimmed |
| Client.Process.AddContact | client/src/main.rs:187-207 | contacts, file and outcome after /add or /lookup |
| Client.Process.FindOrAdd | client/src/main.rs:297-315 | a known entry as it is, or the server's answer once saved; contacts and file afterwards |
| Client.Process.SendMessage | client/src/main.rs:209-264 | a frame is written exactly when the command, the recipient's entry, its key and the socket are good, and it is the composed one; contacts and file afterwards |
| Client.Process.ReceiveMessage | client/src/main.rs:266-295 | a line is displayed exactly when the frame opens, is for this client and carries the contact's key; contacts and file afterwards |
| ClientLoop.Serve | client/src/main.rs:58-165 | the loop carries out the contact-book run of the inputs it consumed, displays that run's lines and writes exactly the frames of its commands |
| ClientLoop.Handle | client/src/main.rs:59-146 | a line that is typed as /send or /to with a recipient and a body writes the frame of those two; one typed as /add or /lookup with a name makes the server's answer the contact; /quit ends the loop; for any white space around the words |
| ClientLoop.StopsExactly | client/src/main.rs:71-127 | the loop ends at /quit, and at an /add or /lookup whose lookup or save fails, and at no other input |
| ClientLoop.OtherLine | client/src/main.rs:75-129 | any other line sends nothing and asks nothing |
| ClientLoop.StartAgain | client/src/main.rs:29-30 | a client that starts again has exactly the contacts saved last |
| Identity.UpgradeLegacyIdentity | client/src/identity.rs:151-184 | the legacy file is replaced exactly when its key pair matches and the write succeeds |
| Identity.LoadOrCreateIn | client/src/identity.rs:53-102 | identity and files afterwards, with every failure and with another process creating the file meanwhile |
| IdentityProofs.StoredReads | client/src/identity.rs:104-119 | what a client writes it reads back, and never takes for a legacy file |
| IdentityProofs.UpgradeKeepsIdentity | client/src/identity.rs:151-184 | an upgrade keeps the identity pair and writes a file that validates; one that fails leaves the file |
| IdentityProofs.OtherFilesStay | client/src/identity.rs:53-119 | a call touches no other file, and a call without an identity (a failed validation, say) leaves its own file unchanged |
| IdentityProofs.IdentityKeysMatch | client/src/identity.rs:121-149 | the public key text of every identity is the one of its secret key, and the server accepts name and key texts |
| IdentityProofs.IdentityStability | client/src/identity.rs:53-102 | after a call for a name succeeded, every later call for it yields the same keys unless the file cannot be read, and changes no file, whatever runs in between |
| IdentityProofs.UpgradeOnce | client/src/identity.rs:151-184 | a name's legacy file is upgraded at most once |
| IdentityProofs.IdentityPathsApart | client/src/identity.rs:58-59 | different names have different identity files and different contact books, and no file is both |
| IdentityTexts.LegacyFileUpgrades | client/src/identity.rs:151-184 | any JSON text of a legacy object loads exactly when it holds a secret and its own public key; the identity and the new file, spelled out |
| IdentityTexts.CurrentFileLoads | client/src/identity.rs:104-149 | any JSON text of a current object loads exactly when it holds two secrets, each with its own public key; the identity; and no file changes |
| IdentityTexts.LastMemberCounts | client/src/identity.rs:107-111 | of a repeated member of an identity file the last one counts |
| IdentityTexts.BrokenTextRefused | client/src/identity.rs:105-108 | a file with a string that stands for no text, under whatever name, is refused and left alone |
| IdentityTexts.NewIdentity | client/src/identity.rs:75-101 | without a file, an identity is created exactly when nothing fails and nobody else creates the file; the identity and the file, spelled out |
| IdentityTexts.InvalidName | client/src/identity.rs:54-56 | an invalid name has no identity and touches no file |
| Network.SendsLetter | client/src/main.rs:247-260 | the frame that send_message writes is the one of its letter |
| Network.StartLoads | client/src/main.rs:29-30 | a client that starts again has the contacts of the last save of its name |
| Soundness.EverythingShownWasSent | client/src/main.rs:274-292 | every displayed line goes back to a letter that a client of the displayed name sent to this user with this body, through all paths and with any keys in directory and contact books |
| Soundness.NothingShownTwice | server/src/main.rs:318-349 | while every load of the relay is fresh, two displayed lines go back to two letters |
| Soundness.LinesInOrder | server/src/main.rs:223-233 | two lines read from one socket, of letters written to one socket, show them in the order written, unless the first came live and the second from the queue |
| Soundness.RelayPartRuns | server/src/main.rs:190-349 | a run of clients and relay contains a run of the relay, so that its theorems apply |
| Completeness.DeliveredIsDisplayed | client/src/main.rs:266-295 | with one stable identity per name, every frame sent into a socket opens for its user and is displayed exactly when its sender is a contact or the lookup and the save succeed |
| Completeness.NothingIsDiscarded | client/src/main.rs:39-50 | in such a run, with /add and /lookup at any time and without failing lookups and saves on receipt, every frame that a client reads is displayed |
| NetworkExample.AliceGreetsBob | client/src/main.rs:209-295 | a run that meets every assumption of the completeness theorems and ends with alice's greeting on bob's screen |

## Left out

- HTTP routing, CORS, logging, environment variables, endpoint addresses, WebSocket framing, pings and text frames: plumbing; a frame arrives, a frame is written, and a socket fails are the steps kept.
- The internals of X25519, Ed25519, HKDF, XChaCha20-Poly1305 and the random generator: they are functions with the laws stated in `Crypto.Lawful` and `Identity.LawfulSignatures`; nonces and fresh secrets are arbitrary inputs. In particular nothing is said about chance collisions.
- The SQL engine, connection pools, `prepare_database` and timestamps: the tables are a map and a sequence in id order. A statement that fails changes nothing.
- UTF-8: texts are sequences of characters, and a frame that is not UTF-8 is one that does not parse.
- The depth limit of serde_json, and its range check on numbers in an identity file.
- Real file systems: a failed write changes nothing, names are case-sensitive, and directories are not kept. The non-Unix `write_secret_file`, which may replace a file, is left out.
- The end of the server process in the middle of a method: a step (`Restart`) at any time in the runs, and in the class a method between the others.
- Registrations of keys by others during a drain or a frame: they touch another table, and the methods interleave with the steps of the relay only.
- Client.Process.SendMessage: frames on the socket are values; the loop's reconnection replaces the socket in `Network` by a new link (`Dial`), not in the class.
- Command-line arguments, help texts, the printed contact list and `hex_preview`: nothing depends on them.
- "Online implies an empty queue" and "every live socket is registered": not promised by the code.
- `docs/app.js` and the rest of the browser client.
