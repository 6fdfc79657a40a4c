# TLSProxy core, modelled in Dafny

TLSProxy is an SNI-routing TCP proxy. It reads a client's first bytes,
takes the server name from the TLS ClientHello, and opens an upstream
connection to that name on the configured port. It then relays bytes both
ways through a Pipe, one 1024-byte slot per direction. An access-control
engine decides, from a JSON rule set, which clients may reach which hosts.

This project models these parts and proves properties of them:

- **Rules** (`rules.dfy`): the access decision engine.
  - Client and host groups are built from `host:`, `cidr:` and `pattern:` specifiers.
  - A group matches a client address or a host name.
  - A rule fires when one of its client groups and one of its host groups match.
  - A rule set answers with the first rule that has an opinion, and DENY when none has.
  - The IP-literal rendering of an address is included.
- **RuleSetParser** (`ruleset_parser.dfy`): the name-resolution half of `parseRuleSet`.
  - Input is already-decoded group declarations and rule entries.
  - It produces the table of named groups, the reserved `$any`, and the rule list.
- **Buffers** (`databuffer.dfy`): the `DataBuffer` class.
  - Its two slots each have a data-present flag.
  - It has four borrow operations that throw on misuse.
- **Selection** (`selection.dfy`): the java.nio state the proxy drives.
  - A channel is open or closed.
  - A selection key is valid or cancelled and has an interest set.
- **Pipes** (`pipe.dfy`): the `Pipe` class, its read and write handlers, `cleanup` and `generateId`.
  - Each handler is specified by a step function on a value `PipeState` that holds every field the handlers touch.
  - The class's methods are proved to change their objects exactly as the step function says.
- **Reactor** (`connector.dfy`): the body of the Connector's selector loop for one selected key.
  - It handles invalid keys, accept, the capture of the initial handshake, connect completion, and delegation to the Pipe.
  - The constructor binds the listening channel and registers it for ACCEPT (Connector.kt:28-31).
  - The Connector's invariant `Valid()` holds before and after every dispatch. It says:
    - every attached Pipe hangs on its own two keys;
    - distinct Pipes share no object;
    - a registered key without a Pipe belongs to no Pipe, and no two keys share a channel;
    - every Pipe's parked data has its consumer armed (`Progress`).
- **PortMappings** (`portmapping.dfy`): `PortMapping`, the `listen:connect` command-line value, including Kotlin's `String.toInt`.
- **Text**, **Numbers** (`text.dfy`, `numbers.dfy`): the Kotlin string functions the core relies on.
  - `trim()`, `equals(ignoreCase = true)` and `startsWith`.
  - Decimal rendering and parsing.

Behaviour that belongs to foreign libraries is passed in as parameters, not modelled:

- regular-expression compilation and full matching;
- `uppercase(Locale.getDefault())`;
- commons-net `SubnetUtils` parsing and `isInRange`;
- the reverse-DNS host name;
- the SNI extractor;
- every socket call's result.

The first four are fields of `Rules.Foreign`. A socket call's result is an
input: `Pipes.ReadResult`, `Pipes.WriteResult`, or for the Connector a field
of `Reactor.Env`.

### Behaviour taken from the code

In these places the code behaves differently from what the proxy's own comments and purpose suggest. The model follows the code:

- An accepted client is registered for READ **and** WRITE, with no Pipe (Connector.kt:53).
- The handshake path neither suspends read interest nor consults the access rules. The rule engine is never called from the Connector.
- The first read uses a 4096-byte buffer (Connector.kt:26), not 1024.
- An IOException from that first read is not caught and leaves the selector loop. So does a `null` from `accept()`. Both are the `Crashed` outcome.
- An unknown decision keyword is not detected when the rule set is parsed. It throws only when a rule carrying it fires (Rules.kt:44-52).
- A `finishConnect()` that returns `false` is treated like a failed connect (Connector.kt:114-122).

### Modelling decisions

- `PortMapping`'s `toInt()` is Kotlin's. It accepts an optional `+` or `-` and ASCII digits whose value fits a 32-bit `Int`. There is no port-range check.
- `Pipe.kt` is written against a `DataBuffer` with `markHasData`, `markHasNoData`, `hasData()` and public buffers. `DataBuffer.kt` has none of these.
  - The Pipe model sets and clears the data-present flags of the modelled `DataBuffer` directly.
  - `hasData()` is read as "either slot holds data".
- Connector.kt:94 passes the captured ClientHello copy as an extra constructor argument. In the model it becomes the Pipe's initial `Src` slot: flag set and `remaining()` equal to the captured length. That length is also the initial `bytesUp` (Pipe.kt:31).
- The CIDR test receives the IP literal of the address. For an IPv4 address that is the same dotted quad as `Inet4Address.hostAddress`, which the code passes (Rules.kt:127).
- `key.attachment()` is modelled as a map from keys to Pipes held by the Connector.
- Decoded JSON objects of group declarations are sequences of (name, specifiers) pairs in iteration order. A later pair with the same name overwrites an earlier one, as `clientByName[name] = ...` does.

## Model

| member | source | states |
|---|---|---|
| Rules.ClientGroupsMatch | src/main/kotlin/Rules.kt:18-27 | a list of client groups matches iff some group in it matches; an empty list never matches |
| Rules.HostGroupsMatch | src/main/kotlin/Rules.kt:29-38 | a list of host groups matches iff some group in it matches; an empty list never matches |
| Rules.KeywordDecision | src/main/kotlin/Rules.kt:44-52 | ALLOW, DENY and NONE each come exactly from their own keyword, compared ignoring case; any other string is an unknown decision |
| Rules.RuleDecide | src/main/kotlin/Rules.kt:40-57 | a rule that does not fire yields NONE; one that fires maps "allow"/"deny"/"none" (ignoring case) to ALLOW/DENY/NONE, and throws for any other keyword, and only then |
| Rules.RuleSetDecide | src/main/kotlin/Rules.kt:59-70 | the result is never NONE; the empty list yields DENY |
| Rules.FirstOpinionWins | src/main/kotlin/Rules.kt:60-67 | the rule set answers what the first rule with an opinion answers, exception included, whatever rules follow it |
| Rules.NoOpinionDenies | src/main/kotlin/Rules.kt:59-69 | when every rule yields NONE, including the empty rule list, the answer is DENY |
| Rules.NoneRulePassesOn | src/main/kotlin/Rules.kt:48-49 | a firing rule with decision "none" passes the question on to the rules after it |
| Rules.OrderMatters | src/main/kotlin/Rules.kt:59-70 | of an allow rule and a deny rule that both fire, whichever comes first decides |
| Rules.ClientGroupMatch | src/main/kotlin/Rules.kt:95-133 | a client group matches iff one of these holds: it is match-all; the upper-cased reverse-DNS name is a literal; the name fully matches a pattern; the IP literal is a literal; the IP literal fully matches a pattern; the address is IPv4 and in some CIDR range |
| Rules.CidrsIgnoredUnlessIpv4 | src/main/kotlin/Rules.kt:124-131 | for an address that is not IPv4 the CIDR ranges play no part in matching |
| Rules.HostGroupMatch | src/main/kotlin/Rules.kt:154-167 | a host group matches a name iff it is match-all, the upper-cased name is a literal, or the name fully matches a pattern |
| Rules.NewClientGroup | src/main/kotlin/Rules.kt:79-94 | the init loop builds exactly the group (or throws exactly the exception) `ClientGroupOf` describes |
| Rules.NewHostGroup | src/main/kotlin/Rules.kt:140-153 | the init loop builds exactly the group (or throws exactly the exception) `HostGroupOf` describes |
| Rules.ClientGroupOfOutcome | src/main/kotlin/Rules.kt:80-93 | a client group is built iff every specifier starts (case-sensitively) with `host:`, `cidr:` with a parsable range, or `pattern:` with a compilable regex; otherwise the first bad specifier's exception is thrown |
| Rules.HostGroupOfOutcome | src/main/kotlin/Rules.kt:141-152 | a host group is built iff every specifier is `host:` or `pattern:` with a compilable regex; otherwise the first bad specifier's exception is thrown |
| Rules.CidrRefusedInHostGroup | src/main/kotlin/Rules.kt:145-151 | a `cidr:` specifier makes a host group throw |
| Rules.UpperCasePatternRefused | src/main/kotlin/Rules.kt:81-91 | `PATTERN:.*` throws an invalid-notation exception in both group kinds, although it matches the match-all test ignoring case |
| Rules.MatchAllIsExact | src/main/kotlin/Rules.kt:81-89 | a specifier that passes the case-insensitive match-all test and a case-sensitive prefix test is exactly `pattern:.*` |
| Rules.ClientGroupOfMatch | src/main/kotlin/Rules.kt:79-133 | a built client group matches an address iff one of the specifiers it was built from matches it on its own |
| Rules.HostGroupOfMatch | src/main/kotlin/Rules.kt:140-167 | a built host group matches a name iff one of its specifiers matches it on its own |
| Rules.ClientStepMatch | src/main/kotlin/Rules.kt:81-92 | adding one accepted specifier to a client group adds exactly what that specifier matches |
| Rules.HostStepMatch | src/main/kotlin/Rules.kt:142-151 | adding one accepted specifier to a host group adds exactly what that specifier matches |
| Rules.AnyGroupsBuilt | src/main/kotlin/Rules.kt:170-171 | ANY_CLIENT and ANY_HOST are the groups built from `pattern:.*`, and they match every address and every host |
| Rules.IpAddressToString | src/main/kotlin/Rules.kt:249-259 | the loop yields each byte's unsigned decimal value, with a "." after each of the first three bytes only |
| Rules.IpLiteralOfIpv4 | src/main/kotlin/Rules.kt:249-259 | a 4-byte address renders as the dotted quad of its unsigned byte values |
| Rules.IpLiteralWithoutSeparators | src/main/kotlin/Rules.kt:254-256 | bytes after the third are appended with no separator |
| Rules.Unsigned | src/main/kotlin/Rules.kt:253 | `raw.toInt() and 0xFF` is the byte's value in 0..255, equal to the signed value when that is not negative |
| RuleSetParser.ParseRuleSet | src/main/kotlin/Rules.kt:178-238 | the declaration and rule loops return exactly what `RuleSetOf` describes |
| RuleSetParser.ResolveNames | src/main/kotlin/Rules.kt:206-227 | a name list resolves iff every name is bound, to the bound groups in order; otherwise "Group not found" for the first unbound name |
| RuleSetParser.Resolve | src/main/kotlin/Rules.kt:207-216 | the lookup loop returns exactly what `ResolveNames` describes |
| RuleSetParser.BuildRule | src/main/kotlin/Rules.kt:199-236 | a missing decision throws first; then client names, then target names are resolved; an absent or empty list becomes ANY; the decision string is kept |
| RuleSetParser.BuildRulesFromSucceeds | src/main/kotlin/Rules.kt:199-237 | the rules loop completes iff every entry builds a rule |
| RuleSetParser.BuildRulesFromFacts | src/main/kotlin/Rules.kt:199-237 | a completed rule list has one rule per entry, in entry order, each the rule built from its entry |
| RuleSetParser.TableFromFacts | src/main/kotlin/Rules.kt:180-194 | a group table built without exception holds exactly the declared names, each bound to the group of its last declaration; no declared name starts with `$` |
| RuleSetParser.ClientTableFacts | src/main/kotlin/Rules.kt:180-197 | the client table as the rules see it holds `$any` (bound to ANY_CLIENT) and the declared names, each bound to its last declaration's group |
| RuleSetParser.HostTableFacts | src/main/kotlin/Rules.kt:188-197 | the host table as the rules see it holds `$any` (bound to ANY_HOST) and the declared names, each bound to its last declaration's group |
| RuleSetParser.RuleSetOfSuccess | src/main/kotlin/Rules.kt:199-238 | a parsed rule set keeps the rules in input order, one per entry |
| RuleSetParser.ParsedRuleShape | src/main/kotlin/Rules.kt:202-236 | each parsed rule keeps its decision; every name it lists is `$any` or declared; `$any` denotes ANY; an absent or empty list becomes ANY |
| RuleSetParser.ReservedNameRejected | src/main/kotlin/Rules.kt:180-194 | a declared client or host group name starting with `$` makes parsing throw |
| RuleSetParser.MissingDecisionRejected | src/main/kotlin/Rules.kt:203 | a rule entry without a decision makes parsing throw |
| RuleSetParser.UndeclaredClientRejected | src/main/kotlin/Rules.kt:207-216 | naming a client group that is neither `$any` nor declared makes parsing throw |
| RuleSetParser.UndeclaredTargetRejected | src/main/kotlin/Rules.kt:218-227 | naming a target group that is neither `$any` nor declared makes parsing throw |
| RuleSetParser.AnyAlwaysResolves | src/main/kotlin/Rules.kt:196-197 | entries that name only `$any`, or nothing, always parse once the declarations do |
| RuleSetParser.FirstMissingUnique | src/main/kotlin/Rules.kt:207-216 | the first unresolved name is well defined |
| Buffers.DataBuffer.constructor | src/main/kotlin/DataBuffer.kt:5-8 | a fresh buffer has both data-present flags false and both slots at full capacity |
| Buffers.DataBuffer.BorrowSrcForConsuming | src/main/kotlin/DataBuffer.kt:10-16 | throws iff the src flag is false; otherwise clears it; the dest flag is unchanged |
| Buffers.DataBuffer.BorrowDestForConsuming | src/main/kotlin/DataBuffer.kt:18-24 | throws iff the dest flag is false; otherwise clears it; the src flag is unchanged |
| Buffers.DataBuffer.BorrowSrcForProducing | src/main/kotlin/DataBuffer.kt:26-32 | throws iff the src flag is already true; otherwise sets it; the dest flag is unchanged |
| Buffers.DataBuffer.BorrowDestForProducing | src/main/kotlin/DataBuffer.kt:34-40 | throws iff the dest flag is already true; otherwise sets it; the src flag is unchanged |
| Buffers.DataBuffer.SrcHasData | src/main/kotlin/DataBuffer.kt:42-44 | reports the src flag and changes nothing |
| Buffers.DataBuffer.DestHasData | src/main/kotlin/DataBuffer.kt:46-48 | reports the dest flag and changes nothing |
| Buffers.Consume | src/main/kotlin/DataBuffer.kt:10-24 | consuming succeeds iff the slot holds data, then leaves it empty and the other slot's flag as it was |
| Buffers.Produce | src/main/kotlin/DataBuffer.kt:26-40 | producing succeeds iff the slot is empty, then leaves it holding data and the other slot's flag as it was |
| Buffers.ProduceThenConsume | src/main/kotlin/DataBuffer.kt:10-32 | producing then consuming the same slot restores the original flags |
| Buffers.ConsumeThenProduce | src/main/kotlin/DataBuffer.kt:10-32 | consuming then producing the same slot restores the original flags |
| Buffers.ProduceTwiceFails | src/main/kotlin/DataBuffer.kt:26-32 | producing twice in a row into the same slot throws |
| Buffers.ConsumeTwiceFails | src/main/kotlin/DataBuffer.kt:10-16 | consuming twice in a row from the same slot throws |
| Buffers.BorrowsOfDifferentSlotsCommute | src/main/kotlin/DataBuffer.kt:10-40 | borrows of different slots do not interfere and can be done in either order |
| Pipes.DoneMeans | src/main/kotlin/Pipe.kt:42-65 | `shouldClose` holds iff an EOF flag is set and neither slot holds data |
| Pipes.Pipe.IsEOF | src/main/kotlin/Pipe.kt:50-56 | `isEOF()` holds iff either side of the pipe's state has seen end of stream |
| Pipes.Pipe.HasData | src/main/kotlin/Pipe.kt:41-44 | `hasData()` holds iff either slot of the pipe's state holds data |
| Pipes.Pipe.ShouldClose | src/main/kotlin/Pipe.kt:63-65 | the pipe's `shouldClose()` is `Done` of its state |
| Pipes.CountersNeverDecrease | src/main/kotlin/Pipe.kt:144-149 | reads never decrease `bytesUp`/`bytesDown`; writes leave them unchanged |
| Pipes.ReadIntoFullSlot | src/main/kotlin/Pipe.kt:107-126 | a read on a side whose slot is full clears only that side's READ interest; counters and flags are unchanged; the slot's buffer was already cleared |
| Pipes.PositiveRead | src/main/kotlin/Pipe.kt:144-157 | a read of n > 0 bytes adds exactly n to that side's counter, fills the slot with n bytes, clears own READ and sets peer WRITE interest |
| Pipes.EmptyRead | src/main/kotlin/Pipe.kt:127-157 | a read of 0 bytes changes nothing except the cleared buffer |
| Pipes.EndOfStreamRead | src/main/kotlin/Pipe.kt:135-143 | a read of -1 sets only that side's EOF flag and cleans up iff `shouldClose`; its READ interest is kept |
| Pipes.IOErrorCleansUp | src/main/kotlin/Pipe.kt:127-195 | a failed read or write closes both channels and cancels both keys |
| Pipes.WriteWithNothingPending | src/main/kotlin/Pipe.kt:171-179 | with the opposite slot empty, own WRITE interest is cleared and cleanup runs iff `shouldClose` |
| Pipes.DrainingWrite | src/main/kotlin/Pipe.kt:180-199 | a write that drains the slot sets peer READ, clears own WRITE, marks the slot empty, then cleans up iff `shouldClose` |
| Pipes.PartialWrite | src/main/kotlin/Pipe.kt:180-199 | a write that leaves bytes changes only the slot's remaining count and never closes the pipe |
| Pipes.CleanedUp | src/main/kotlin/Pipe.kt:252-256 | after cleanup both channels are closed and both keys cancelled |
| Pipes.CleanedUpIdempotent | src/main/kotlin/Pipe.kt:252-256 | cleaning up twice is the same as once |
| Pipes.ProgressPreserved | src/main/kotlin/Pipe.kt:107-200 | every read and write handler keeps the invariant that a full slot's consumer key is armed for WRITE (or still connecting) while registered |
| Pipes.Pipe.HandleCanRead | src/main/kotlin/Pipe.kt:107-158 | for one of the pipe's channels the handler changes exactly what `ReadStep` describes; a foreign channel throws and changes nothing |
| Pipes.Pipe.HandleCanWrite | src/main/kotlin/Pipe.kt:160-200 | for one of the pipe's channels the handler changes exactly what `WriteStep` describes; a foreign channel throws and changes nothing |
| Pipes.Pipe.Cleanup | src/main/kotlin/Pipe.kt:252-264 | closes both channels and cancels both keys and changes nothing else |
| Pipes.Pipe.MarkEOF | src/main/kotlin/Pipe.kt:97-105 | sets only the given channel's EOF flag; a foreign channel throws and changes nothing |
| Pipes.Pipe.FindPeer | src/main/kotlin/Pipe.kt:67-75 | defined exactly for the pipe's two keys |
| Pipes.Pipe.PeerOfPeer | src/main/kotlin/Pipe.kt:67-75 | the peer of the peer is the key itself, and no key is its own peer |
| Pipes.Pipe.BufferOfPeer | src/main/kotlin/Pipe.kt:67-95 | `findBuffer(x)` is `findOtherBuffer(peer x)`; a channel's key belongs to that channel; the peer of a channel's key is the key of its peer channel |
| Pipes.Pipe.FindPeerChannel | src/main/kotlin/Pipe.kt:220-228 | defined exactly for the pipe's two channels |
| Pipes.Pipe.FindOtherBuffer | src/main/kotlin/Pipe.kt:87-95 | defined exactly for the pipe's two channels |
| Pipes.Pipe.FindMyKey | src/main/kotlin/Pipe.kt:230-238 | defined exactly for the pipe's two channels |
| Pipes.Pipe.SideOf | src/main/kotlin/Pipe.kt:240-246 | a channel belongs to a side iff it is the source or the destination |
| Pipes.Pipe.IsSelfEOF | src/main/kotlin/Pipe.kt:202-210 | the EOF flag of the channel's own side; a foreign channel throws |
| Pipes.Pipe.IsOtherEOF | src/main/kotlin/Pipe.kt:211-219 | the EOF flag of the other side; a foreign channel throws |
| Pipes.Pipe.constructor | src/main/kotlin/Pipe.kt:10-32 | a new pipe holds its arguments, has no EOF, a fresh id one above the last, `bytesUp` equal to the preloaded bytes and `bytesDown` 0 |
| Pipes.IdSource.GenerateId | src/main/kotlin/Pipe.kt:22-24 | each id is one more than the previous one |
| Reactor.Connector.Dispatch | src/main/kotlin/Connector.kt:42-141 | between two states where the Connector's invariant holds, one key is handled in the loop body's order, as `Dispatched` states. An invalid key is cancelled and nothing else changes. A listener key only accepts. A key with a Pipe changes that Pipe exactly as `DispatchStep` says and no other Pipe. A successful handshake attaches one fresh Pipe, in the state `ConnectThenWrite` of `Opened` gives, to the client key and a fresh upstream key. A refused client or failed connect leaves the client key cancelled, its channel closed and no Pipe. A writable key without a Pipe is skipped |
| Reactor.Connector.constructor | src/main/kotlin/Connector.kt:28-31 | the only key is a fresh listener key registered for exactly ACCEPT; nothing is attached; the invariant holds |
| Reactor.Connector.ConnectAndWrite | src/main/kotlin/Connector.kt:107-140 | the key's Pipe changes exactly as `ConnectThenWrite` says: the connect branch, then the write branch, each only while the key is valid and ready for it; an aborted connect ends the handling; with no Pipe a connectable key makes the cast throw and a writable one is skipped |
| Reactor.AbortedConnectCleansUp | src/main/kotlin/Connector.kt:114-131 | a `finishConnect()` on the upstream key that returns `false` or throws is exactly the Pipe's `cleanup()` |
| Reactor.ConnectKeepsData | src/main/kotlin/Connector.kt:107-131 | connect completion changes no slot, no EOF flag and no counter |
| Reactor.ConnectPreservesProgress | src/main/kotlin/Connector.kt:107-131 | connect completion keeps every parked slot's consumer armed |
| Reactor.OpenedProgress | src/main/kotlin/Connector.kt:89-96 | a new Pipe holds the captured bytes in its `Src` slot, counts them as sent up, and has their consumer armed, since the upstream key waits for CONNECT |
| Reactor.DispatchPreservesProgress | src/main/kotlin/Connector.kt:59-140 | every dispatch of a key with a Pipe keeps every parked slot's consumer armed |
| Reactor.InvalidKeyUntouched | src/main/kotlin/Connector.kt:44-48 | an invalid key's Pipe is left untouched |
| Reactor.CancelledKeyGetsNoFurtherHandler | src/main/kotlin/Connector.kt:59-133 | a key that the read handler cancelled gets no connect and no write handler |
| Reactor.AbortedConnectEndsDispatch | src/main/kotlin/Connector.kt:114-131 | after a failed connect no write handler runs; for the upstream key the Pipe is cleaned up |
| Reactor.WritableOnly | src/main/kotlin/Connector.kt:133-140 | a valid key that is only writable gets exactly the Pipe's write handler |
| Reactor.ArrangedWithClient | src/main/kotlin/Connector.kt:49-57 | registering a fresh client key on a fresh channel keeps the Connector's bookkeeping in shape |
| Reactor.ArrangedWithPipe | src/main/kotlin/Connector.kt:89-96 | attaching a Pipe of fresh objects to the client key and to the new upstream key keeps the Connector's bookkeeping in shape |
| Reactor.Connector.OnReadable | src/main/kotlin/Connector.kt:59-106 | a key with a Pipe changes that Pipe exactly as `ReadStep` says and leaves the Connector's keys and attachments alone; a key without one takes the handshake path, whose only success attaches one fresh Pipe to it and a fresh upstream key; any other outcome leaves no Pipe and no new key |
| Reactor.Connector.OnWritable | src/main/kotlin/Connector.kt:133-140 | a writable key is skipped iff it has no Pipe; otherwise its Pipe changes exactly as `WriteStep` says |
| Reactor.Connector.AcceptClient | src/main/kotlin/Connector.kt:49-57 | an accepted client's fresh key is registered for exactly READ and WRITE, with no Pipe; a null accept escapes |
| Reactor.Connector.CaptureHandshake | src/main/kotlin/Connector.kt:64-105 | a first read of -1, or a missing or blank SNI, cancels the key and closes the channel with no upstream socket; otherwise the upstream is connected |
| Reactor.Connector.OpenUpstream | src/main/kotlin/Connector.kt:76-104 | on success the fresh upstream key is registered for CONNECT only and one fresh Pipe, preloaded with exactly the captured bytes, is attached to both keys; on an exception both channels are closed and the client key is cancelled |
| Reactor.Connector.Refuse | src/main/kotlin/Connector.kt:67-88 | the client key is cancelled and its channel closed |
| Reactor.Connector.FinishConnect | src/main/kotlin/Connector.kt:107-132 | the key's Pipe changes exactly as `ConnectStep` says: a completed connect sets the key's interest to exactly READ and WRITE; `false` or an exception cancels both keys and closes both channels; a key with no Pipe makes the cast throw |
| Reactor.UsableSniMeans | src/main/kotlin/Connector.kt:81 | the SNI is refused iff it is missing or made only of whitespace |
| PortMappings.ParsePortMapping | src/main/kotlin/Main.kt:41-55 | a failure reports a part that `toInt` refuses; with no colon the listen and connect ports are equal |
| PortMappings.ParseWithoutColon | src/main/kotlin/Main.kt:45-48 | a spec without ":" gives listen = connect = toInt(spec) |
| PortMappings.ParseWithColon | src/main/kotlin/Main.kt:49-54 | with a colon at idx, listen is toInt of the text before it and connect toInt of everything after; either failing fails construction |
| PortMappings.SecondColonFails | src/main/kotlin/Main.kt:50-53 | a second colon is left in the connect part and makes construction fail |
| PortMappings.EmptySideFails | src/main/kotlin/Main.kt:50-53 | an empty side makes construction fail |
| PortMappings.NegativePortKept | src/main/kotlin/Main.kt:47-54 | there is no range check: "-1:0" is stored as listen -1, connect 0 |
| PortMappings.ParseOfRendered | src/main/kotlin/Main.kt:41-63 | any two Ints written as "L:C" parse back to exactly L and C, which the getters return |
| PortMappings.ParseOfRenderedSingle | src/main/kotlin/Main.kt:45-48 | any Int written alone parses back to that Int on both sides |
| PortMappings.ToInt | src/main/kotlin/Main.kt:47 | `toInt` accepts only an optional sign followed by digits |
| PortMappings.ToIntOfIntToString | src/main/kotlin/Main.kt:47 | `toInt` reads back the decimal rendering of every Int |
| PortMappings.ToIntRejectsColon | src/main/kotlin/Main.kt:52-53 | a string containing ":" is rejected by `toInt` |
| PortMappings.IndexOf | src/main/kotlin/Main.kt:45 | `indexOf(":")` is -1 iff there is no colon, else the position of the first one |
| Text.TrimEmptyIffBlank | src/main/kotlin/Connector.kt:81 | `trim()` yields "" iff the string is entirely whitespace |

## Left out

- TLS ClientHello parsing (`TLSUtil.extractSNI`): it is delegated to a library, so the extracted name is an input.
- `Util.kt` (`safeClose`, address formatting): closing is modelled as a channel's `open` flag going false, and formatting is logging.
- The selector loop itself: `select()`, the iteration over and removal from the selected-key set, and `Main.run`'s option handling and threads.
- Reading the rule file and JSON decoding in `parseRuleSet`: the model starts from decoded values. A `ClassCastException` from a wrongly typed JSON value cannot arise in it.
- Regular expressions, locale-dependent upper-casing, CIDR parsing and range tests, and reverse DNS: these are foreign behaviours passed in as functions. The model states nothing about CIDR boundaries.
- `equals(ignoreCase = true)` is modelled with ASCII case folding only. That is exact for the keywords and the match-all specifier it is compared against, which are ASCII.
- `PortMappings.ToInt`: Java's `parseInt` also accepts non-ASCII Unicode digits. The model accepts ASCII digits only.
- Logging, `startTime`/`uptime`, and the thread-safety of `AtomicLong`: ids and counters are plain sequential state with unbounded values, with no `Long` wrap-around.
- Socket I/O: bytes are not modelled. A slot's content is represented by its data-present flag and `remaining()` count, and each read, write, accept, connect and `finishConnect` result is an input.
- `connect()` returning `true` at once: the result is ignored by the code, and the model does not distinguish it.
- An exception from `SocketChannel.open()` or `configureBlocking` (Connector.kt:89-90, outside the `try`) is not modelled.
- `interestOps` on a cancelled key throwing `CancelledKeyException` is not modelled. The Connector only hands valid keys to a Pipe.
- `Pipes.Pipe.HandleCanRead`, `Pipes.Pipe.HandleCanWrite`: a read on a channel that is not yet connected (`NotYetConnectedException`) is represented only by the read result passed in.
