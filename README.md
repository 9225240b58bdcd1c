# PacketGod capture, filter and replay core in Dafny

This project models the packet pipeline of PacketGod, an in-process packet tool
for the World of Warcraft 3.3.5a client. It has three parts:

- **Capture history and filter engine** (`PacketCapture.dfy`, class
  `PacketCapture.Capture`). This is a FIFO history of at most 2048 captured
  packets plus an ordered list of filter rules. A packet is blocked when some
  enabled rule matches it and says "block". The class also keeps the
  captured/dropped counters and the timestamp epoch.
- **Replay** (`PacketReplay.dfy`, class `PacketReplay.Replay`). It builds the
  4-byte little-endian opcode word plus payload that the game's
  `WowConnection::Send` expects. The frame goes out through the send routine and
  connection that the send hook last registered. Only client-to-server packets
  are replayed. A sequence is replayed best-effort, and the result is the AND of
  the attempts.
- **Hooks** (`PacketHooks.dfy`, class `PacketHooks.Hooks`). This part covers:
  - header parsing;
  - the outbound send hook;
  - the cipher hook, which decides per call whether it is deciphering an
    inbound header, by comparing the cipher-state addresses with the tracked
    connection's receive state;
  - the key-install and auth-challenge hooks, which set the tracked connection;
  - the 40-byte session-key snapshot;
  - hook installation.

  Every hook forwards the original call with unchanged arguments and returns
  its result.

`WowTypes.dfy` holds the fixed-width integers, the packet record, the
`CDataStore` descriptor and the connection layout. The connection's send cipher
state sits at offset 0x148 and its receive state at 0x24A. `Game.dfy` stands in
for the routines this code calls and cannot see: the game's send, cipher,
key-install and auth-challenge routines, and the hooking library's "create
hook". Each of them records the call it received in `Host.calls` and returns a
result it is free to choose. That is how the contracts state "forwarded
exactly once, unchanged, and its result returned".

Pointers are modelled as follows. A nullable pointer is an `Option`: a
connection, a send-routine pointer, a payload pointer or a buffer. Cipher-state
arguments are raw addresses. The two readability probes are predicates passed
in: one on a packet descriptor, one on a connection address. The clock is
passed in as a counter reading and a frequency. Integer widths are written out
where the code depends on them:
- the 32-bit wrap of the parsed payload length;
- the signed cast of the cipher length before parsing;
- the 64-bit arithmetic of the timestamp.

The inbound capture has one precondition, `PacketHooks.InboundPayloadInBuffer`.
The cipher hook reads `payloadLen` bytes at `data + 4`, and that length comes
from the deciphered size field, not from the call's `len`. The hook never checks
this read against the buffer, so the model requires it of the caller: whenever
a packet would be pushed, the announced payload must lie inside the buffer. A
size field below 2 announces about 4 GiB (`PacketHooks.ParseSMSGWraps`).

`Replay.Send` reports success when the game's send routine returns non-zero,
as the code does. The comment at src/wow/GameFunctions.h:71 documents a return
of 0 as "sent".

## Model

| member | source | states |
|---|---|---|
| `WowTypes.CryptoStatesDisjoint` | src/wow/WowTypes.h:72-73 | the receive cipher state follows the send state directly, so the two are distinct, non-overlapping blocks inside one connection |
| `PacketCapture.Matches` | src/packet/PacketCapture.cpp:38-41 | a rule applies only when enabled, when its opcode is 0 or the packet's, and when it matches any direction or the packet's; conversely an enabled rule applies whenever its direction is wildcarded (`matchAny`) or equals the packet's and its opcode is 0 or equals the packet's, in all four combinations |
| `PacketCapture.Blocks` | src/packet/PacketCapture.cpp:41-47 | a rule drops a packet only when it is enabled and a block rule; a block rule drops exactly the packets it applies to |
| `PacketCapture.Blocked` | src/packet/PacketCapture.cpp:36-50 | an empty rule list, or one with no enabled block rule, drops nothing; a dropped packet is dropped by some rule of the list |
| `PacketCapture.DefaultRuleInert` | src/packet/PacketCapture.h:18-25 | a default rule is disabled, has opcode 0, direction CMSG, `matchAny` set and `blockPacket` clear, and so never applies to any packet |
| `PacketCapture.SoleRuleBlocksOnlyItsPackets` | src/packet/PacketCapture.h:21-23 | an enabled block rule for direction d and opcode o, as the only rule, blocks exactly the packets of direction d with opcode o; opcode 0 stands for every opcode |
| `PacketCapture.SoleAnyDirectionRuleBlocksOpcode` | src/packet/PacketCapture.h:21-23 | an enabled block rule with `matchAny` and opcode o (as built when both direction boxes are ticked, src/ui/PacketUI.cpp:319-325), as the only rule, blocks exactly the packets with opcode o in either direction; opcode 0 blocks every packet |
| `PacketCapture.CatchAllBlocksEverything` | src/packet/PacketCapture.cpp:36-47 | an enabled block rule with opcode 0 and any direction blocks every packet, wherever it stands in the list |
| `PacketCapture.BlockedOrderFree` | src/packet/PacketCapture.cpp:36-50 | whether a packet is blocked does not depend on the order of the rules |
| `PacketCapture.BlockedAppend` | src/packet/PacketCapture.cpp:97-101 | after appending a rule, a packet is blocked iff the old rules blocked it or the new rule does |
| `PacketCapture.RemovedAt` | src/packet/PacketCapture.cpp:103-108 | an index in range removes exactly that element and keeps the order of the rest; an index out of range changes nothing |
| `PacketCapture.BlockedRemove` | src/packet/PacketCapture.cpp:103-108 | removing a rule never blocks a new packet; removing a rule that does not block a packet leaves that packet's outcome unchanged |
| `PacketCapture.Pushed` | src/packet/PacketCapture.cpp:69-71 | after one push the history holds at most 2048 entries and ends with the new packet; below capacity the old history stays in front unchanged; at capacity exactly the oldest entry is gone |
| `PacketCapture.PushedKeepsNewest` | src/packet/PacketCapture.cpp:69-71 | one push keeps exactly the newest 2048 packets of the old history plus the new one |
| `PacketCapture.PushAll` | src/packet/PacketCapture.h:30 | any number of pushes leaves at most 2048 entries |
| `PacketCapture.PushAllKeepsNewest` | src/packet/PacketCapture.cpp:69-71 | after any sequence of pushes the history is exactly the newest 2048 packets of the old history followed by the pushed ones, in order (FIFO eviction) |
| `PacketCapture.Copied` | src/packet/PacketCapture.cpp:65-66 | the record's payload is the first `size` bytes at the payload address when that is non-null and `size` is positive, and empty otherwise |
| `PacketCapture.Stamp` | src/packet/PacketCapture.cpp:20-26 | the timestamp is 0 while no epoch is set; otherwise it is the elapsed counter ticks times 10^6 divided by the frequency, which is exact when the 64-bit arithmetic does not wrap |
| `PacketCapture.Offered` | src/hooks/PacketHooks.cpp:140-141 | a hook offering a packet either counts exactly one drop and changes nothing else, when it is blocked, or pushes its record and counts one capture; the rules never change |
| `PacketCapture.Capture.constructor` | src/packet/PacketCapture.h:59-64 | the history and rules start empty, and both counters and the epoch start at 0 |
| `PacketCapture.Capture.NowMicros` | src/packet/PacketCapture.cpp:10-27 | the first call fixes the epoch and returns 0; later calls return the elapsed microseconds |
| `PacketCapture.Capture.ShouldCapture` | src/packet/PacketCapture.cpp:33-51 | returns false iff some enabled matching rule blocks, and then the drop counter rises by exactly 1 even when several rules block; when it returns true nothing changes (so an empty rule list always passes) |
| `PacketCapture.Capture.Push` | src/packet/PacketCapture.cpp:57-73 | the history becomes `Pushed(old history, record)`, where the record carries the given direction, opcode and size, the timestamp and the copied payload; the captured counter rises by exactly 1; the drop counter and the rules are unchanged |
| `PacketCapture.Capture.Snapshot` | src/packet/PacketCapture.cpp:79-83 | returns the history in order and changes nothing; the result is a copy, so later pushes and clears leave it as it was taken (src/packet/PacketCapture.h:37-38) |
| `PacketCapture.Capture.Clear` | src/packet/PacketCapture.cpp:85-91 | empties the history and zeroes both counters; the rules and the epoch stay |
| `PacketCapture.Capture.AddFilter` | src/packet/PacketCapture.cpp:97-101 | appends the rule at the end; the history and counters are unchanged |
| `PacketCapture.Capture.RemoveFilter` | src/packet/PacketCapture.cpp:103-108 | the rules become `RemovedAt(old rules, index)`; the history and counters are unchanged |
| `PacketCapture.Capture.ClearFilters` | src/packet/PacketCapture.cpp:110-114 | empties the rules; the history and counters are unchanged |
| `PacketCapture.Capture.GetFilters` | src/packet/PacketCapture.cpp:116-120 | returns the current rules, in the order they were added |
| `PacketCapture.Capture.TotalCaptured` | src/packet/PacketCapture.cpp:122 | returns the captured counter, which `Push` raises by one and `Clear` resets |
| `PacketCapture.Capture.TotalDropped` | src/packet/PacketCapture.cpp:123 | returns the drop counter, which a blocking `ShouldCapture` raises by one and `Clear` resets |
| `PacketReplay.BuildFrame` | src/packet/PacketReplay.cpp:28-37 | the frame has 4 + \|payload\| bytes; its first four bytes, read as a little-endian 32-bit word, equal the opcode, so the high 16 bits are zero; the payload follows with no size prefix |
| `PacketReplay.BuildFrameExample` | src/packet/PacketReplay.cpp:31-37 | opcode 0x1234 with payload DE AD BE EF gives 34 12 00 00 DE AD BE EF |
| `PacketReplay.Descriptor` | src/packet/PacketReplay.cpp:39-44 | the descriptor holds exactly the frame, with `m_base == m_readPos == 0` and `m_size == m_alloc ==` frame length |
| `PacketReplay.Replayable` | src/packet/PacketReplay.cpp:59-61 | only client-to-server packets of the list are replayed, none more than the list holds; an all-SMSG list replays nothing |
| `PacketReplay.ReplayableSingle` | src/packet/PacketReplay.cpp:59-61 | a one-packet list is replayed as itself when client-to-server and not at all otherwise |
| `PacketReplay.ReplayableAppend` | src/packet/PacketReplay.cpp:59-61 | replaying a concatenation replays the first list's packets, then the second's; with `ReplayableSingle` this fixes list order and multiplicity |
| `PacketReplay.ReplayableKeepsCmsg` | src/packet/PacketReplay.cpp:59-62 | every client-to-server packet of the list is among those replayed |
| `PacketReplay.Replay.constructor` | src/packet/PacketReplay.h:40-41 | the send routine and the connection start null, so replay is not ready |
| `PacketReplay.Replay.IsReady` | src/packet/PacketReplay.h:37 | ready iff both a send routine and a connection are registered (non-null) |
| `PacketReplay.Replay.SetSendFn` | src/packet/PacketReplay.cpp:6-10 | overwrites both registered values; the last call wins |
| `PacketReplay.Replay.Send` | src/packet/PacketReplay.cpp:21-48 | when not ready (routine or connection null) it returns false and calls nothing; otherwise it calls the registered routine exactly once, on the registered connection, with the frame's descriptor at priority 0, and returns true iff that call returned non-zero |
| `PacketReplay.Replay.ReplayCaptured` | src/packet/PacketReplay.cpp:50-54 | a server-to-client packet is refused without any call; a client-to-server packet behaves exactly as `Send(opcode, payload)` |
| `PacketReplay.Replay.ReplaySequence` | src/packet/PacketReplay.cpp:56-66 | sends the client-to-server packets in order, one call each, skipping the others and continuing past failures; returns true iff every attempted send succeeded (true for an empty or all-SMSG list); when not ready no call is made and it returns true iff nothing was to be sent |
| `PacketHooks.ParseCMSG` | src/hooks/PacketHooks.cpp:79-86 | fails iff the length is below 6; otherwise the opcode is bytes 2-3 little-endian, and payload length + 4 equals the big-endian size field modulo 2^32 |
| `PacketHooks.ParseSMSG` | src/hooks/PacketHooks.cpp:88-95 | fails iff the length is below 4; otherwise the opcode is bytes 2-3 little-endian, and payload length + 2 equals the big-endian size field modulo 2^32 |
| `PacketHooks.ParseSMSGRoundTrip` | src/hooks/PacketHooks.cpp:74-77 | parsing a server header built for (opcode, payload length) gives back that opcode and length |
| `PacketHooks.ParseCMSGRoundTrip` | src/hooks/PacketHooks.cpp:69-72 | parsing a client header built for (opcode, payload length) gives back that opcode and length |
| `PacketHooks.ParseSMSGExample` | src/hooks/PacketHooks.cpp:88-95 | 00 06 34 12 AA BB CC DD parses as opcode 0x1234 with payload length 4, and the payload is AA BB CC DD |
| `PacketHooks.ParseSMSGWraps` | src/hooks/PacketHooks.cpp:91-93 | a size field of 0 or 1 gives a payload length of 0xFFFFFFFE or 0xFFFFFFFF |
| `PacketHooks.ExtractOutbound` | src/hooks/PacketHooks.cpp:122-138 | the packet is read iff the descriptor and buffer are non-null, `m_size >= 4` and the buffer is readable; the opcode is bytes 0-1 little-endian, the payload length is `m_size - 4`, and the payload pointer is offset 4, or null when the length is 0 |
| `PacketHooks.ReplayedFrameRoundTrip` | src/hooks/PacketHooks.cpp:128-130 | the send hook's extraction, applied to a frame built by replay, recovers the replayed opcode and payload |
| `PacketHooks.Classify` | src/hooks/PacketHooks.cpp:158-169 | a call is inbound iff a connection is tracked and readable, the length is positive, and the source or destination state is that connection's receive state; an unreadable tracked connection is cleared, otherwise it is kept |
| `PacketHooks.ClassifyOutboundNeverInbound` | src/hooks/PacketHooks.cpp:167 | a call that uses only the tracked connection's send state is never classified inbound |
| `PacketHooks.ClassifySymmetric` | src/hooks/PacketHooks.cpp:167 | swapping the source and destination states does not change the classification |
| `PacketHooks.Hooks.constructor` | src/hooks/PacketHooks.cpp:31-35 | no connection is tracked, and the key snapshot is 40 zero bytes of which 0 are used |
| `PacketHooks.Hooks.SessionKey` | src/hooks/PacketHooks.cpp:34-35 | the meaningful prefix of the 40-byte key snapshot, `sessionKeyLen` bytes long (the code writes the snapshot at lines 208-209 and never reads it) |
| `PacketHooks.Hooks.SetActiveConnection` | src/hooks/PacketHooks.cpp:283 | the tracked connection becomes the one given; the last write wins |
| `PacketHooks.Hooks.GetActiveConnection` | src/hooks/PacketHooks.cpp:284 | returns the tracked connection, as the hooks or `SetActiveConnection` last set it |
| `PacketHooks.Hooks.SendDetour` | src/hooks/PacketHooks.cpp:108-144 | registers the original send routine and `self` for replay on every call; offers a CMSG record to the capture engine only when extraction succeeds, and pushes it only if the rules pass; forwards the call once, unchanged, and returns its result |
| `PacketHooks.Hooks.Arc4Detour` | src/hooks/PacketHooks.cpp:153-187 | updates the tracked connection as `Classify` says; calls the original cipher exactly once, before any parsing, and returns its result; offers an SMSG record only for an inbound call of at least 4 bytes whose deciphered header parses, with the payload read at offset 4 |
| `PacketHooks.Hooks.SetEncKeyDetour` | src/hooks/PacketHooks.cpp:201-213 | tracks `self`; when the key is non-null and at most 40 bytes, copies it over the front of the snapshot and sets the length, otherwise the snapshot is unchanged; forwards the call unchanged |
| `PacketHooks.Hooks.AuthChallengeDetour` | src/hooks/PacketHooks.cpp:222-232 | tracks `conn` and forwards the call unchanged |
| `PacketHooks.Hooks.Install` | src/hooks/PacketHooks.cpp:239-276 | attempts all four hooks in order, whatever earlier attempts returned, and returns true iff every attempt succeeded |

## Left out

- Locking: the mutex in the capture engine is left out, and all access is sequential. `GetFilters` returns the rules as a value rather than as an unlocked reference.
- Clock: the performance-counter reading and frequency are parameters. The frequency must be positive, as the operating system guarantees.
- `PacketReplay.Replay.ReplaySequence`: the `Sleep(delayMs)` between sends is not modelled. The delay parameter is accepted and ignored.
- Readability probes and structured exception handling are not modelled. They appear only as the predicates passed to the hooks.
- Debug logging on each hook's first call is not modelled. Neither is the logging inside `Install` or inside the hooking library.
- `PacketHooks::Remove` (src/hooks/PacketHooks.cpp:278-281) is not modelled. It only delegates to the hooking library.
- Hook installation is modelled as a boolean result per layer. The trampoline to the original send routine is a fixed identity given to `Hooks`. A failed installation that leaves a trampoline null is not modelled, because an uninstalled hook never runs.
- The build switch that turns off the auth-challenge hook is not modelled. Only the default build, in which that hook is installed, is modelled.
- The game's header cipher is an arbitrary function of the bytes it processes and the two cipher-state addresses. ARC4's own evolving state is not modelled.
- `PacketCapture.Capture.Push`: the 64-bit wrap-around of `totalCaptured` is not modelled, because the counters are unbounded naturals.
- `PacketCapture.Capture.ShouldCapture`: the 64-bit wrap-around of `totalDropped` is not modelled, for the same reason.
- The user interface, the Direct3D hooks, the worker thread and DLL lifecycle, and the opcode name table are not part of this model. The same goes for the game's raw addresses.
