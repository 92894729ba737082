# VpnCloud: a model of the session protocol, the claim table and the codecs

VpnCloud is a peer-to-peer VPN. Two nodes agree on keys by a three-way handshake, exchange sealed
frames, and replace their keys every two minutes; a table maps addresses to peers; and peers find
each other through encoded node information and beacons. This project models those parts in Dafny
and proves what they promise.

Primitives that the program takes from elsewhere (key agreement, authenticated encryption,
hashing) are function values, arbitrary except for the laws stated in `Primitives` and
`Handshake.Suite`; `Consistency` shows that the laws can be met together. Signatures and parsing of
handshake messages are idealised: such a message enters as a value, or as "not acceptable".
Randomness and time are parameters. The network of the protocol models is the set of all messages
ever sent: any of them may be delivered to either side, at any time, any number of times, or never.
Where a theorem needs that ciphertexts are not forged, it says so on bytes: a frame that opens was
sealed by one of the two ends under that key and nonce. That a decoded rotation message was sent is
derived from that.

Objects that the program updates in place are classes here (`RotationState`, `CryptoCore`,
`MsgBuffer`, `InitState`, `PeerCrypto`, `ClaimTable`, the cursor and the reader of the codecs), and
its loops are loops. Each method is proved to do what a function on values does; the theorems about
whole runs are about those functions.

| file | content |
|---|---|
| `Primitives`, `Wire`, `Bits`, `Sockets` | bytes, laws of the primitives, big-endian numbers, bits, socket addresses |
| `Rotation`, `RotationCodec` | one endpoint of the key rotation, and its message format |
| `CoreState`, `CryptoCore`, `NoncePinning` | the key ring with its nonces, on values and in place, and its replay window |
| `SessionPair`, `SessionHistory`, `Delivery`, `Recovery` | two endpoints rotating over the network |
| `Negotiation`, `Handshake`, `HandshakePair`, `HandshakeProgress` | choice of algorithm, one endpoint and two endpoints of the handshake |
| `NodeIdentity` | how a node recognises its own messages |
| `Connection`, `Interleaving` | from the handshake to the session, and both interleaved |
| `PeerCrypto`, `SessionRefinement`, `EndToEnd` | the session object, its refinement of an endpoint, and two objects in conversation |
| `ObjectRuns`, `ObjectDelivery` | two session objects from the first ping on: their calls are interleaved runs, and their messages arrive |
| `Ranges`, `ClaimTable`, `TableHistory` | address ranges, the claim table with its cache, and its runs |
| `Base62`, `NodeInfo`, `NodeInfoCodec`, `Beacon` | the codecs |
| `Consistency` | a suite of primitives that obeys all assumed laws |

Where the documentation and the code differ, the model follows the code:

- The two ends of a handshake can choose different algorithms: when several are equally fast
  (`SelectionCanDisagree`), or when a later entry of an algorithm is faster than its first
  (`DuplicatesCanDisagree`). `SelectionExact` says for all lists exactly when they agree. Where the
  first entry of each algorithm is its fastest, it is a matter of ties (`SelectionAgrees`).
- A range that a peer no longer announces can stay in the claim table (`WithdrawalCanFail`);
  `WithdrawalExact` says exactly when all withdrawn ranges go.
- A node does not always recognise its own handshake messages: the second test compares 20 bytes with
  a digest of 32 bytes and never holds (`SecondTestNever`), so two endpoints of one node can connect
  (`OwnNodeConnects`). `RefusedExactly` says that a message of the own node is refused exactly if it
  carries the receiver's own salt.
- Beacons lose leading zero bytes in base 62, and with them their peers, whatever the key
  (`ZeroByteLoses`); `RoundTripExact` says for all keys, hours and peer lists exactly when the peers
  come back.

## Model

| member | source | states |
|---|---|---|
| Rotation.RotationState.New | src/crypto/rotate.rs:103-111 | a new endpoint, and only for the initiator a first message, are the initial value of the rotation model |
| Rotation.RotationState.ProcessMessage | src/crypto/rotate.rs:154-172 | the in-place reception of a message is the step the run theorems are about: stale ids change nothing, others leave a pending key and confirm an open proposal |
| Rotation.RotationState.RunCycle | src/crypto/rotate.rs:175-210 | the in-place interval is the step the run theorems are about: wait, retransmit, or install the pending key and propose |
| SessionPair.StepInv | src/crypto/rotate.rs:154-210 | every delivery, interval or use of the core, on either side, keeps the joint invariant of two endpoints |
| SessionPair.Lockstep | src/crypto/rotate.rs:103-210 | over every run the initiator's id is odd, the other's even, they differ by one, pending and proposed are never both set, and each side installs the ids 2, 3, ... once each, in order |
| SessionPair.KeyAgreement | src/crypto/rotate.rs:154-210 | over every run keys with equal ids are equal, exactly one side sends with each, that side emits it after the other, and all messages with one id are identical |
| SessionPair.CurrentKeyHeld | src/crypto/core.rs:213-220 | over every run the key a side encrypts with is in its peer's ring, in the slot that its frames name |
| SessionHistory.KeyStays | src/crypto/core.rs:16-18 | that key stays in that slot of the peer until the peer installs the id four higher |
| SessionHistory.RunFresh | src/crypto/rotate.rs:154-210 | over every run all keys agreed on, installed or pending, differ from each other and from the master key |
| Delivery.HeldExactly | src/crypto/core.rs:213-220 | over every run a key that a side was sending with at any earlier point is in the slot of the peer that its frames name if and only if the peer has not installed the id four higher |
| Delivery.DelayedDelivered | src/crypto/core.rs:158-211 | over every run a frame sealed at any earlier point is restored by the peer now if and only if the peer has not installed the id four above that of its key, and its nonce is within 2^56 of its half and not pinned; it is never restored to anything else, if frames do not open under other keys |
| Delivery.AlwaysDelivered | src/crypto/core.rs:158-211 | in every reachable state of a run without forgeries the next frame of either side is restored by the other if and only if its nonce is within 2^56 of its half, so always for the first 2^56 - 2^48 encryptions under a key: what the peer has pinned never exceeds it |
| Delivery.NeverReflected | src/crypto/core.rs:194-211 | over every run within the budget a frame is never accepted by its own sender later on, whatever keys have been rotated since, if frames do not open under other keys of the session |
| SessionHistory.DataDelivered | src/crypto/core.rs:158-211 | in every reachable state a frame sealed by one side is restored by the other if and only if its nonce is within 2^56 of its half and not pinned, and never restored to anything else |
| SessionHistory.NonceNeverReused | src/crypto/core.rs:72-101 | over every run within 2^95 - 2^48 encryptions per side and key, no two encryptions by either side share key and nonce |
| Recovery.Recovers | src/crypto/rotate.rs:175-210 | from every reachable state, whatever was lost, two intervals, one delivery and one interval are possible and end with the next key installed |
| RotationCodec.RoundTrip | src/crypto/rotate.rs:51-85 | a rotation message survives its encoding, whatever follows, if and only if its id has 64 bits, its keys at most 255 bytes, and its confirmation is not empty |
| RotationCodec.PrefixRejected | src/crypto/rotate.rs:53-69 | every strict prefix of an encoded rotation message is rejected |
| CryptoCore.SuccValue | src/crypto/core.rs:91-100 | the byte-wise carry adds one to the big-endian number, wrapping only at the end of the space |
| CryptoCore.Increment | src/crypto/core.rs:91-100 | the in-place loop computes that carry |
| CryptoCore.WireValue | src/crypto/core.rs:158-176 | the seven transferred bytes are the nonce modulo 2^56 |
| CryptoCore.DeducedValue | src/crypto/core.rs:194-211 | the rebuilt twelve bytes are the half bit plus the transferred number |
| CryptoCore.FrameBytesRoundTrip | src/crypto/core.rs:158-211 | slot, nonce part and body are read back from the bytes of a frame |
| CryptoCore.CryptoCore.constructor | src/crypto/core.rs:139-156 | a new core holds the master key in slot 0, dummies elsewhere, and starts its nonces in its half |
| CryptoCore.CryptoCore.Encrypt | src/crypto/core.rs:158-176 | sealing in place leaves exactly the frame of the message in the buffer, eight bytes before and sixteen behind it, and advances one nonce |
| CryptoCore.CryptoCore.DecryptWithKey | src/crypto/core.rs:178-192 | one slot refuses pinned nonces and inauthentic bodies, and records the largest nonce it accepted |
| CryptoCore.CryptoCore.Decrypt | src/crypto/core.rs:194-211 | opening in place restores the message or reports the failure of the slot the frame names |
| CryptoCore.CryptoCore.RotateKey | src/crypto/core.rs:213-220 | a key goes to slot id modulo 4 and becomes the sending key only if asked |
| CryptoCore.CryptoCore.EverySecond | src/crypto/core.rs:226-231 | a second moves the pinned minimum of all four slots |
| CryptoCore.Transfer | src/crypto/core.rs:158-211 | sealing and opening in peers restores payload, start and length of the buffer if and only if the nonce can be deduced and is not pinned |
| CoreState.FrameRoundTrip | src/crypto/core.rs:158-211 | a frame is restored by a paired core if and only if its nonce lies in the window and is not pinned |
| CoreState.WireWindow | src/crypto/core.rs:194-211 | the deduced nonce is the one used if and only if that lies in the first 2^56 of the sender's half |
| CoreState.FrameLifetime | src/crypto/core.rs:158-211 | after any number of encryptions below 2^56 - 2^48 under a key the next frame is still restored |
| CoreState.ReflectionRejected | src/crypto/core.rs:194-211 | a frame is not accepted by its own sender while the slot it names still holds its key |
| NoncePinning.SeenIsLargest | src/crypto/core.rs:178-192 | over every history the recorded nonce is the largest accepted one |
| NoncePinning.MinimumIsHistory | src/crypto/core.rs:111-129 | after at least two seconds the minimum is one more than the largest nonce accepted before the last but one, before that zero |
| NoncePinning.ReplayRejected | src/crypto/core.rs:178-231 | a nonce accepted once is refused for ever after two more seconds |
| NoncePinning.NewNonceNotOld | src/crypto/core.rs:178-231 | a nonce above all accepted ones is never refused as old |
| Negotiation.SelectionDefined | src/crypto/init.rs:540-565 | for all lists both ends find a common algorithm, settle for no encryption, or fail alike |
| Negotiation.BestExact | src/crypto/init.rs:540-565 | for all lists, repetitions included, an end chooses an algorithm if and only if both have it and it beats every other: the smaller of the own greatest speed and the speed the peer names first is larger, or as large and reached earlier in the own list |
| Negotiation.SelectionExact | src/crypto/init.rs:540-565 | for all lists both ends choose an algorithm if and only if both have it and it beats every other at both ends |
| Negotiation.SelectionAgrees | src/crypto/init.rs:540-565 | if the first entry of each algorithm is its fastest, as in lists without repetitions, the ends choose alike if and only if all ties with the choice of one come later in the list of the other |
| Negotiation.SelectionAgreesWhen | src/crypto/init.rs:540-565 | for such lists a single fastest algorithm, or the same order, suffice |
| Negotiation.SelectionCanDisagree | src/crypto/init.rs:540-565 | two lists with a tie for which the ends choose differently |
| Negotiation.DuplicatesCanDisagree | src/crypto/init.rs:540-565 | a list with a repeated algorithm, faster in its second entry, for which the ends choose differently although one entry is the fastest |
| NodeIdentity.SecondTestNever | src/crypto/init.rs:494-500 | the test of a message's hash against the own node id never holds |
| NodeIdentity.RefusedExactly | src/crypto/init.rs:567-577 | a message of the own node is refused if and only if it carries the receiver's own salt |
| NodeIdentity.RefusedIfEqual | src/crypto/init.rs:567-577 | any message is refused as the own one if and only if its salted hash is the receiver's |
| NodeIdentity.OwnNodeConnects | src/crypto/init.rs:16-18 | two endpoints of one node with different salts have a run in which both succeed |
| Handshake.InitState.SendFirst | src/crypto/init.rs:426-435 | sending a ping keeps the new private key and expects a pong |
| Handshake.InitState.HandleInit | src/crypto/init.rs:567-651 | the in-place handling of a message is the step the run theorems are about, with its simultaneous-open rule, its repetitions and its errors |
| Handshake.InitState.EverySecond | src/crypto/init.rs:441-459 | a second repeats, closes or fails as the run theorems assume |
| Handshake.SuccessOnce | src/crypto/init.rs:567-651 | an endpoint reports success at most once, whatever happens to it |
| Handshake.HandshakeTerminates | src/crypto/init.rs:441-459 | without a fatal message an endpoint is closing after 241 seconds, and after 61 from the last stage, whatever arrives |
| Handshake.SilentTimeout | src/crypto/init.rs:441-459 | with no messages it is closing after 121 seconds |
| HandshakePair.StepInv | src/crypto/init.rs:426-651 | every ping, arrival or second, on either side, keeps the joint invariant of two endpoints |
| HandshakePair.HandshakeAgreement | src/crypto/init.rs:567-651 | over every schedule, if both succeed then one is initiator, each holds the other's payload, and both are unencrypted or share algorithm and master key with opposite nonce halves |
| HandshakePair.SimultaneousOpen | src/crypto/init.rs:578-640 | over every schedule never do both answer or both complete as initiators, only the lower hash gives way, and no message can meet a missing private key |
| HandshakePair.FailureCauses | src/crypto/init.rs:567-651 | over every schedule a live endpoint fails only on its own message, without a common algorithm, or on lists ranked differently |
| HandshakeProgress.HandshakeProgress | src/crypto/init.rs:426-651 | from every reachable state some deliveries make both succeed if and only if neither has been given up, as the caller does after every fatal error of an endpoint without a result, and both select alike |
| Connection.SessionBegins | src/crypto/init.rs:601-640 | what the two ends hold after any successful handshake is an initial state of the session model, payload encryptions included |
| Interleaving.GreetInv | src/crypto/init.rs:567-651 | every handshake action, interleaved with session actions of whichever end has finished, keeps the invariant of the whole connection |
| Interleaving.Projects | src/crypto/init.rs:637-648 | every interleaving is a run of the session model from an initial state once the initiator has finished, whether or not the responder ever does; before that at most one payload is encrypted |
| Interleaving.NoReuseFromFirstPing | src/crypto/core.rs:72-101 | over every interleaving within the budget, from the first ping on, no two encryptions share key and nonce |
| PeerCrypto.PeerCrypto.Start | src/crypto/common.rs:265-274 | the session object opens a handshake only in its first stage |
| PeerCrypto.PeerCrypto.OnInitMessage | src/crypto/common.rs:301-330 | the session object takes over core and rotation when its handshake succeeds, and as responder sends the first rotation message |
| PeerCrypto.PeerCrypto.OnMessage | src/crypto/common.rs:361-386 | the session object dispatches handshake, rotation and data messages, reading rotation messages on into what lies behind them in the buffer |
| PeerCrypto.PeerCrypto.Send | src/crypto/common.rs:388-393 | the session object prepends the type and encrypts |
| PeerCrypto.PeerCrypto.OnSecond | src/crypto/common.rs:395-428 | the session object ticks core and handshake and rotates every 120 seconds |
| PeerCrypto.SessionSafety | src/crypto/common.rs:301-428 | over every sequence of calls an encrypted session never falls back, keeps its algorithm, rotates exactly while it has a core, and once established neither a second nor sending fails |
| PeerCrypto.NewSafe | src/crypto/common.rs:227-239 | new sessions satisfy the invariant |
| PeerCrypto.NeverMistaken | src/crypto/common.rs:431-434 | what an encrypted session sends is never taken for a handshake message |
| PeerCrypto.FirstNeverMistaken | src/crypto/common.rs:301-330 | neither is the first rotation message of a responder |
| SessionRefinement.CallRefines | src/crypto/common.rs:332-428 | every call on an encrypted session object is a sequence of actions of a side of the pair model |
| SessionRefinement.SessionRefines | src/crypto/common.rs:332-428 | so is every sequence of calls |
| EndToEnd.EstablishRefines | src/crypto/common.rs:301-330 | a completed handshake makes a session a side of the initial system |
| EndToEnd.NodeCompletes | src/crypto/common.rs:301-330 | an endpoint of the handshake model that finishes completes the session that owns it, in the same role and with the same core |
| EndToEnd.PayloadTyped | src/messages.rs:227-254 | node information, the payload of a handshake, is never taken for a rotation message |
| EndToEnd.ConversationBegins | src/crypto/common.rs:301-330 | after every handshake run in which both ends succeed with encryption, the sessions that take over begin a conversation |
| EndToEnd.DecodedWasSent | src/crypto/common.rs:332-343 | a sealed text that is dispatched as a rotation message decodes to a message that was sent, whatever lies behind it |
| EndToEnd.JointPossible | src/crypto/common.rs:332-428 | every interleaving of calls on two session objects, if ciphertexts are not forged and randomness is new, is a possible run of the pair model and leads to the objects' sides |
| EndToEnd.ConversationPossible | src/crypto/common.rs:332-428 | so is every conversation from the responder's first message on |
| EndToEnd.MessageArrives | src/crypto/common.rs:361-393 | after every conversation within the budget a message sent by one object is reported by the other with its type and content if and only if its nonce is in the first 2^56 of its half, else as an error |
| ObjectRuns.CallLeads | src/crypto/common.rs:265-428 | an honest call on a session object, before, at or after the end of its handshake, is a few events of the interleaved model; they lead to where the object is then and leave the other object alone |
| ObjectRuns.ObjectsBegin | src/crypto/common.rs:227-239 | two new session objects stand for the start of the interleaved model |
| ObjectRuns.ObjectsRun | src/crypto/common.rs:265-428 | every interleaving of calls on two session objects, if signatures and ciphertexts are not forged and randomness is new, is a run of the interleaved model without forgeries and leads to what the objects are then |
| ObjectRuns.ObjectsNeverReuse | src/crypto/core.rs:72-101 | whatever such calls two new objects get, within the budget no two of their encryptions, handshake payloads included, share key and nonce |
| ObjectDelivery.RunDelivers | src/crypto/core.rs:158-211 | in every interleaved run without forgeries the next frame of either established side is restored by the other if and only if its nonce is within 2^56 of its half |
| ObjectDelivery.ObjectsDeliver | src/crypto/common.rs:361-393 | whatever such calls two new objects get, once both are encrypted a message sent by one is reported by the other with its type and content if and only if its nonce is in the first 2^56 of its half, else as an error |
| Ranges.Matches | src/types.rs:138-151 | the byte-wise comparison with early exit holds if and only if length and the leading bits agree |
| ClaimTable.ClaimTable.Cache | src/table.rs:41-44 | a learned address is cached with the cache timeout |
| ClaimTable.ClaimTable.RunHousekeep | src/table.rs:114-118 | expired entries and claims go, all others stay in order |
| ClaimTable.ClaimTable.RefreshEntries | src/table.rs:50-65 | the loop with its swap-removals and early exit refreshes entries as the run theorems assume |
| ClaimTable.ClaimTable.RunSetClaims | src/table.rs:50-74 | an announcement refreshes, adds, flushes the peer's cache entries and expires |
| ClaimTable.ClaimTable.RunRemoveClaims | src/table.rs:76-88 | a removal expires the peer's claims and flushes its cache entries |
| ClaimTable.ClaimTable.RunLookup | src/table.rs:90-112 | a lookup returns the cached peer, or scans and caches the winner until its claim or the cache times out |
| ClaimTable.WinnerIsFirstLongest | src/table.rs:90-112 | the scan finds the first of the longest matching prefixes, or nothing if none matches |
| TableHistory.CacheBacked | src/table.rs:50-118 | over every run each address cached by a lookup has a claim of the same peer that contains it and expires no earlier |
| TableHistory.CacheAgreesWithScan | src/table.rs:50-118 | over every run the cached peer is the one a scan finds if and only if no claim is more specific, which only a later announcement of another peer can cause |
| TableHistory.RemovedStaysRemoved | src/table.rs:76-112 | after a removal no lookup leads to the peer until it is announced or learned again |
| TableHistory.AnnouncedHeld | src/table.rs:50-74 | every announced range is held for the peer with the full timeout |
| TableHistory.OthersUntouched | src/table.rs:50-74 | an announcement keeps the unexpired claims of other peers, in order |
| TableHistory.WithdrawalExact | src/table.rs:50-74 | only announced ranges remain for the peer if and only if every live entry of it behind the early exit is announced |
| TableHistory.WithdrawalCanFail | src/table.rs:50-74 | a withdrawn range that survives |
| TableHistory.ClaimLifetime | src/table.rs:50-118 | over every run no claim outlives its last announcement by more than the claim timeout |
| Base62.AddMult16 | src/util.rs:331-350 | the in-place loop multiplies by 16 and adds, its carry always being a digit |
| Base62.MulAddValue | src/util.rs:331-388 | carrying from digit to digit multiplies the number and adds to it |
| Base62.ToDigitsValue | src/util.rs:352-366 | the digits are canonical, stand for the number of the bytes, and two per byte suffice |
| Base62.ToBase62 | src/util.rs:352-366 | the conversion with a digit buffer gives that text |
| Base62.FromBase62 | src/util.rs:368-388 | the conversion back gives the bytes, or the first character that is no digit |
| Base62.FirstInvalid | src/util.rs:368-388 | the reported character is the first one that is no digit |
| Base62.BytesRoundTrip | src/util.rs:352-388 | bytes to text and back drops exactly the leading zero bytes |
| Base62.TextRoundTrip | src/util.rs:352-388 | text is accepted if and only if it is alphanumeric, and text to bytes and back drops exactly the leading zeros |
| NodeInfo.RoundTrip | src/messages.rs:100-146 | what fits the buffer decodes to itself, each address list cut to its first seven IPv6 and first seven IPv4 addresses without flow and scope, whatever follows |
| NodeInfo.TailIgnored | src/messages.rs:100-146 | a decoding that succeeds is not changed by what follows and leaves it unread |
| NodeInfo.PrefixRejected | src/messages.rs:100-146 | every strict prefix of an encoding is rejected |
| NodeInfo.NormalEncodesAlike | src/messages.rs:148-210 | what the format keeps has the same encoding |
| NodeInfo.ReadWrittenClaim | src/types.rs:31-50 | a range is read back from its length byte, address and prefix length |
| NodeInfoCodec.Cursor.EndPart | src/messages.rs:212-225 | going back to patch a length turns the placeholder into a finished part and changes nothing else |
| NodeInfoCodec.SplitList | src/messages.rs:184-210 | splitting and popping leaves the first seven addresses of each kind |
| NodeInfoCodec.EncodeInto | src/messages.rs:227-254 | the encoder leaves the encoding in the buffer and the bytes in front of it alone |
| NodeInfoCodec.GetList | src/messages.rs:54-73 | reading address by address gives the list that the flags announce |
| NodeInfoCodec.GetPeers | src/messages.rs:75-90 | the peer loop reads until the part is used up, or fails |
| NodeInfoCodec.GetClaims | src/messages.rs:92-98 | the claim loop reads until the part is used up, or fails |
| NodeInfoCodec.DecodeFrom | src/messages.rs:100-146 | the decoding loop gives the node information or an error, for every input |
| Beacon.MaskWithKeystream | src/beacon.rs:73-86 | byte i is masked with byte i modulo 16 of block i / 16, the block counter wrapping at 256 |
| Beacon.Serializer.DecryptExact | src/beacon.rs:96-112 | decryption gives a plain text if and only if the input is its encryption |
| Beacon.EncryptData | src/beacon.rs:96-103 | the in-place encryption appends the masked seed |
| Beacon.DecryptData | src/beacon.rs:105-112 | the in-place decryption takes the seed off, unmasks and checks |
| Beacon.TtlExact | src/beacon.rs:165-171 | an hour is accepted if and only if at most ttl hours, either way around the 16-bit clock, lead from it to now |
| Beacon.PeerlistEncode | src/beacon.rs:114-153 | the encoder writes hour, count, IPv4 and IPv6 addresses, encrypts and converts |
| Beacon.PeerlistDecode | src/beacon.rs:155-205 | the decoder gives the peers for every alphanumeric input, its length checks never failing |
| Beacon.CarriedExact | src/beacon.rs:114-163 | the text carries the masked data if and only if that does not start with a zero byte |
| Beacon.RoundTripExact | src/beacon.rs:114-205 | for every key, hour and list the peers come back, IPv4 first, if and only if there are none, or the masked data does not start with a zero byte, at most 255 are IPv4 and the beacon is not expired |
| Beacon.ExpiredEmpty | src/beacon.rs:165-171 | an expired beacon gives no peers |
| Beacon.ZeroByteLoses | src/beacon.rs:114-205 | whatever the hash and the key, masked data that starts with a zero byte loses its peers |

## Left out

- The event loop (`src/cloud.rs`), name resolution, hooks, statistics and beacon files: input and output.
- The internals of the cryptographic library: signatures, hashes and randomness have no model, key agreement and sealing obey laws.
- `InitMsg` parsing, its signature check and its trusted keys (`src/crypto/init.rs:108-373`): another tagged format like that of node information; handshake messages enter parsed.
- Key and configuration parsing, speed measurement, `algorithm_name`: configuration and timing.
- `clear_cache` and the statistics output of the claim table.
- Devices, sockets, port forwarding, the WebSocket proxy, the wizard, the installer, traffic counters and payload headers.
- The marker search in `BeaconSerializer::decode`: its result depends on chance overlaps of hash-derived markers.
- Frames below 24 bytes: the program stops at `src/crypto/core.rs:195`, so their absence is a precondition of decryption.
- Unencrypted sessions that send types 0xff or 0x10, which collide with the markers of handshake and rotation messages.
- Negotiation.SelectionAgreesWhen: only for lists in which the first entry of each algorithm is its fastest, because it fails for others (`DuplicatesCanDisagree`).
- EndToEnd.MessageArrives: rotation messages must fit their format; ids of 64 bits do for 2^63 turns.
- ObjectDelivery.ObjectsDeliver: likewise; an object that its caller has given up after a fatal error gets no more calls.
- SessionPair.Lockstep: message ids are unbounded numbers; 64-bit ids would wrap after 2^63 turns.
- CryptoCore.CryptoCore.Decrypt: says nothing about the bytes of the message after a failure, because the program does not either.
- PeerCrypto.PeerCrypto.OnMessage: the session object owns its handshake, rotation and core by value; sharing between objects is not modelled.
- ClaimTable.ClaimTable.RunSetClaims: one clock reading per operation, where the program reads the clock more than once.
- TableHistory.CacheBacked: for times after zero, as the table uses time zero to mark what is to be removed.
- Beacon.MaskWithKeystream: the block counter wraps as in a release build; a debug build stops at 4096 bytes.
- NodeInfoCodec.EncodeInto: needs room for the encoding; the program stops when there is none.
