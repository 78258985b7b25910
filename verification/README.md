# A verified model of the Technosoft TML motor driver

The repository drives Technosoft motor controllers from EPICS: a motor driver (`drvTmlMotor.cpp`)
on top of its own implementation of the TML serial protocol (`tmlSerial.cpp`), with a drive
simulator in Python (`tml_sim.py`) beside it. This Dafny project models the behaviour of all three
and proves what every run of them keeps.

`dafny verify dfyconfig.toml` checks everything.

## The parts

**Serial link.** `Codec` holds the frame format as the driver and the simulator each encode and
decode it, with both programs' code. `Link` is the byte stream with its clock: draining, waiting for
an ACK through junk, sending with one retransmission, receiving, and the two read transactions, as
specifications and as the class that implements them. `ReadBack` follows a read from the address the
caller gives to the register of the drive at the far end, the simulator among them.

**Motion programs.** `Motion` is a small drive - 16-bit data memory, `MCR := (MCR & mask) | value`,
the update command - and a link that may run a frame once or twice and lose an answer. `Programs`
has the register programs of the three motion commands and what they leave behind, `Commands` the
code that plays them and the read-modify-write of the limit-switch masks (`Masks`).

**Setup archives.** `Zip` is the ZIP reader, `ZipWriter` a plain writer for the round trip.

**Simulator.** `Simulator` is the drive that `tml_sim.py` simulates, `SimStream` its incremental
parser, `SimCode` the mutable objects and loops of both. `SimAnswers` says what it writes to its port,
`SimEffects` what each command does to it, and `Bench` what the driver's own calls do to it, frame by
frame.

**Driver.** `TmlLib` gives the library calls as functions on a library state: channel and setup
tables, variable maps, a log of every call that put frames on the wire, and the registers of each drive,
which every read and write reaches at the address the channel's map gives its name. `Transactions`
relates these calls to the register programs their frames carry. `Supervisor` gives every public call on the controller and its axes as a function on worlds
(controller, axes, library), and runs as sequences of such calls; the outcome of every transaction
is chosen by an environment. `LibraryCode` and `DriverCode` are the objects with their fields, arrays
and loops, each method proved to do what its function says. The remaining modules prove what all
runs keep:

- `Channels`, `Connection`: the channel table, and that the controller's channel is the only one in use.
- `Initialising`, `Epoch`: what an axis that is not waiting for initialisation may rely on.
- `Slots`, `Variables`: setup slots used up, and which address a variable name stands for.
- `Reconnects`, `Backoff`, `Recovery`: how often the channel is opened, how long an axis waits, and how soon it recovers.
- `Isolation`, `Wire`, `Commanded`: which drive a call talks to, what it may send at all, and which motion it can start.
- `Scripts`, `Scripted`: the exact sequence of calls that each command makes. `Orders` takes the motion commands and the stop from there to the drive.
- `AxisEffects`, `AxisMotion`, `AxisOutcomes`: what each call does to each axis, with the evidence it leaves in the log. `Published` and `Aftermath` give it field by field.
- `Stopping`, `Homing`: the stop latch, and what it takes to be shown as homed.
- `MaskRegister`, `Coupling`, `CoupledRuns`, `Maps`, `Agreement`: the driver's homing state and the drives' limit events.
- `Showing`, `HomedUnhit`, `Exceptions`, `UnarmedHomes`: runs that reach the surprising states.

`Lifting` reduces whole runs to a few kinds of small step. Main results say "for every run": any number
of axes, any sequence of calls, any outcomes of the link.

## Two ways to select

`TS_SelectChannel`, `TS_SetupAxis` and `TS_SelectAxis` stand in for functions of Technosoft's TML_lib.
With `native` set they are this repository's table lookups; otherwise they may also fail for reasons
of their own, so that all three tiers of the reconnect logic run. Results that need the lookups
say so.

## What is assumed, and where

- One controller uses the library, and a call runs under its lock from beginning to end.
- An ACK is any byte 0x4F and a read does not compare the echoed address; both are modelled as they
  are. `Motion` assumes an honest link: each copy of a frame is run at most once, and an acknowledged
  frame was run at least once.
- The operating system hands out no descriptor that is in use.
- Clock readings never go back; the reconnect rate also assumes that they are at least 1 s, because the
  code takes a time stamp within the first second of the epoch for none.
- The results on limit events have it among their premises that everything sent is acknowledged, that ids are
  kept and distinct, that no drive is reset, and that a call finds MER_MASK mapped to its drive's own mask
  register, with nothing else that is written mapped there. `Coupling.HomeArmsIff` and
  `MaskRegister.LostAnswerDecouples` say what happens otherwise, `Agreement.AgreeingSetupsSuffice` which
  setup files are good for every run.
- A register keeps what was written to it last, unless it is one that the drive changes by itself; which those
  are is left open, except that the mask register is not one of them where the limit events are concerned.

## Where the code is not what one might expect

- An odd LEN and LEN 3 pass the driver's decoder, although 4 to 12 is what it waits for; a shortened LEN may
  go unnoticed, and `Codec.ShorterLengthPassesIff` says exactly when.
- A relative move is not safe under retransmission; `Programs.RelativeMoveIsExactIff` says exactly when it is.
- A reconnect that cannot select the channel it has just opened returns before flagging any axis, which leaves
  axes that believe to be set up; `Epoch.OrphanIsReadyIff` says exactly when that is harmless, and
  `Exceptions.UnreadyIsReached` that it happens.
- Configuring an axis a second time leaves its backoff where it was; `Backoff.EpisodeStartsAtOne` says so, and
  `Exceptions.LongerStartIsReached` that it makes a difference.
- All axes share one variable map, and each setup given overrides it: with setup files that disagree about
  MER_MASK, an axis's home may arm nothing on its own drive. `Coupling.HomeArmsIff` says exactly when, and
  `UnarmedHomes.UnarmedHomeIsReached` is a run in which it happens.
- Selecting an axis does not ask whether it has been initialised, so a home may be taken before that; the
  initialisation that follows may then switch the very limit event off. `CoupledRuns.DropOf` keeps track of it,
  and `UnarmedHomes.LateDropIsReached` is a run in which it happens.
- Every setup carries the default addresses, so merging another axis's setup can turn a name back to its
  default; `Variables.CorrectUntilOverridden` says exactly when a name stays right.
- A home can be over without a limit switch having been hit: a motor that was seen to move and has stopped is
  enough. `Homing.PollRaisesIff` says exactly when a poll takes a home to be over, and
  `HomedUnhit.HomedWithoutASwitch` is a run in which no read of MER ever shows a switch.
- Arming a limit event after a failed read of the mask starts from 0 and drops the other bits.
- The copy of a stored ZIP entry stays inside the reader's two buffers only under a condition on the sizes in the
  archive, and with one byte announced and none stored it returns memory that was never written;
  `Zip.StoredIsReadIff` says exactly when, `Zip.OverlongIsReached` and `Zip.IndeterminateIsReached` that it happens.
- The simulator exchanges the codes of UPD and UPD! with respect to `tmlSerial.h`. The link and motion models use
  the header's; `Simulator` uses the simulator's, so the header's UPD! starts nothing there: `Bench.NoCallStartsMotion`.

## Model

| member | source | states |
|---|---|---|
| `Codec.DecodeEncode` | technosoftSup/src/tmlSerial.cpp:827-887 | decoding an encoded message gives the message back, for every message of up to four data words and whatever bytes follow the frame |
| `Codec.EncodeDecode` | technosoftSup/src/tmlSerial.cpp:853-887 | encoding what was accepted gives the accepted frame back exactly if LEN is even; LEN of an accepted frame is 3 to 13 |
| `Codec.DamageIsRejected` | technosoftSup/src/tmlSerial.cpp:853-873 | an exact-length accepted frame with any one byte other than LEN changed is rejected |
| `Codec.LongerLengthIsRejected` | technosoftSup/src/tmlSerial.cpp:853-862 | so is one whose LEN grew |
| `Codec.ShorterLengthPassesIff` | technosoftSup/src/tmlSerial.cpp:853-887 | one whose LEN shrank to x passes if and only if x is at least 3 and, modulo 256, the byte taken for the checksum plus the bytes from there to the old end plus the difference of the lengths is the old checksum |
| `Codec.ShorterLengthMayPass` | technosoftSup/src/tmlSerial.cpp:853-887 | there are such frames: a concrete pair, both accepted, that differ in LEN alone |
| `Codec.DecodersAgree` | tools/tml_sim.py:365-394 | driver and simulator read the same message from every buffer the driver accepts, and differ about acceptance exactly on intact frames with LEN outside 3..13 |
| `Codec.ParseEncode` | tools/tml_sim.py:344-394 | the simulator's parser gives back every message and takes exactly its frame off the front of the buffer |
| `Codec.FrameLayout` | technosoftSup/src/tmlSerial.cpp:827-851 | the frame byte by byte: the length of what is between it and the checksum, every word with its high byte first, and a last byte equal to the sum of all before it modulo 256 |
| `Codec.AxisOnFrame` | technosoftSup/src/tmlSerial.h:176-176 | AXISON to axis 1 is the six bytes 04 00 10 01 02 17 |
| `Codec.Checksum` | technosoftSup/src/tmlSerial.cpp:805-815 | the loop returns the sum of the bytes modulo 256 |
| `Codec.SerialiseMessage` | technosoftSup/src/tmlSerial.cpp:827-851 | fills the front of the buffer with the frame and leaves the rest; -1 and no change where it does not fit |
| `Codec.DeserialiseMessage` | technosoftSup/src/tmlSerial.cpp:853-887 | reads from the buffer exactly what the decoding function says of its first len bytes |
| `Codec.BuildResponseFrame` | tools/tml_sim.py:348-362 | the simulator builds the same frame as the driver's encoder |
| `Codec.ParseFrame` | tools/tml_sim.py:365-394 | the simulator's parsing loop computes the parsing function |
| `Link.ReadThroughJunk` | technosoftSup/src/tmlSerial.cpp:1228-1264 | through any bytes without 0x4F, the ACK, any bytes outside 4..12 and the answering frame, a read returns the frame's data words and consumes exactly through its checksum, if the ACK and the frame's first byte come in time, and its last one in time after the first |
| `Link.ReceiveThroughJunk` | technosoftSup/src/tmlSerial.cpp:1026-1090 | a frame is received whole behind any bytes outside 4..12 that come before it in time, if its last byte comes less than 500 ms after the read of the rest began |
| `Link.LateFrameIsLost` | technosoftSup/src/tmlSerial.cpp:705-741 | and if that byte comes later, nothing is received |
| `Link.EndlessJunkEnds` | technosoftSup/src/tmlSerial.cpp:892-943 | if no ACK ever comes, sending ends after two whole copies, two drains and two timeouts, with failure |
| `Link.AckOrSilence` | technosoftSup/src/tmlSerial.cpp:892-943 | waiting succeeds only on a byte 0x4F, and fails only if none came before the deadline |
| `Link.AckedMeansWritten` | technosoftSup/src/tmlSerial.cpp:743-1024 | an acknowledged message was written whole, once or twice, and twice only if the whole first wait brought no ACK |
| `Link.SomethingIsEverything` | technosoftSup/src/tmlSerial.cpp:743-761 | a port that always takes at least a byte of what it is offered gets every message written |
| `Link.TmlChannel.ReadBytes` | technosoftSup/src/tmlSerial.cpp:705-741 | fills the buffer with the bytes that came, up to count, and stops where the link falls silent or the time allowed since its start is up |
| `Link.TmlChannel.Drain` | technosoftSup/src/tmlSerial.cpp:979-1014 | stale bytes are thrown away, at most 64 and for no longer than allowed: 1 ms before a first copy, 10 ms before a second |
| `Link.TmlChannel.WaitAck` | technosoftSup/src/tmlSerial.cpp:892-943 | the wait loop ends, with the outcome and at the position the specification gives |
| `Link.TmlChannel.WriteBytes` | technosoftSup/src/tmlSerial.cpp:743-761 | the loop offers what is left until the port has taken all of it or takes none; exactly the bytes taken are on the wire then, and success means all of them |
| `Link.TmlChannel.TryOnce` | technosoftSup/src/tmlSerial.cpp:970-1024 | drain, write, wait: one attempt, and no wait after a write that failed |
| `Link.TmlChannel.SendMessage` | technosoftSup/src/tmlSerial.cpp:970-1024 | at most two attempts, none after a failed write; what is on the wire is the message's own frame once or twice over, or as much of that as the port took |
| `Link.TmlChannel.ReadLength` | technosoftSup/src/tmlSerial.cpp:1026-1065 | the length byte found is the first one in 4..12 before the deadline |
| `Link.TmlChannel.ReceiveMessage` | technosoftSup/src/tmlSerial.cpp:1026-1090 | length byte, the rest of the frame, the decoder: the message the specification gives, and the position after it |
| `Link.TmlChannel.Request` | technosoftSup/src/tmlSerial.cpp:1191-1205 | the request frame carries the active axis shifted left by four, and the host as sender |
| `Link.TmlChannel.ReadData16` | technosoftSup/src/tmlSerial.cpp:1191-1226 | what goes on the wire is the request 0xB004 for the register at the address given, from this host to the active axis, once or twice over or as much of that as the port took; the value is the third data word of a matching answer, nothing otherwise |
| `Link.TmlChannel.ReadData32` | technosoftSup/src/tmlSerial.cpp:1228-1264 | the same with request 0xB005, and fourth and third data word as high and low half of a matching answer |
| `ReadBack.AnswerIsRegister` | technosoftSup/src/tmlSerial.cpp:1191-1264 | whatever registers the drive has that decodes the request and answers it: the data words a read gets end in the register at the address asked for, and for a long read in the one after it |
| `ReadBack.ReadRegister16` | technosoftSup/src/tmlSerial.cpp:1191-1226 | end to end: if what the method put on the wire reaches a drive that decodes it and answers with its own registers, in time and through junk, the caller gets the register at the address it gave |
| `ReadBack.ReadRegister32` | technosoftSup/src/tmlSerial.cpp:1228-1264 | the same for the two words of a 32-bit register |
| `ReadBack.SimulatorReplies` | tools/tml_sim.py:480-520 | between frames the simulator takes a read request whole and puts 0x4F and the reply with its own registers on the line |
| `ReadBack.SimulatorIsRead` | technosoftSup/src/tmlSerial.cpp:1191-1264 | driver against simulator: the value the driver's read brings is what the simulated drive holds at the address the driver gave, 16 or 32 bits |
| `Motion.Understood` | technosoftSup/src/tmlSerial.cpp:1096-1189 | every instruction reaches the drive it is addressed to as it was meant, through frame, bytes and decoder |
| `Motion.TwiceIsOnce` | technosoftSup/src/tmlSerial.h:200-229 | running an instruction twice is the same as running it once, except where it is harmful |
| `Motion.HarmfulIsRelative` | technosoftSup/src/tmlSerial.h:208-229 | harmful is UPD! in a relative position profile with a non-zero increment, and nothing else |
| `Motion.Refines` | technosoftSup/src/tmlSerial.cpp:970-1024 | a program that succeeds over an honest link and repeats no harmful step leaves the drive as one clean run would |
| `Motion.PlayStuck` | technosoftSup/src/tmlSerial.cpp:1773-1855 | after a required step has failed the rest of a program sends and changes nothing |
| `Programs.AbsMcrBits` | technosoftSup/src/tmlSerial.h:208-229 | CPA, MODE PP3 and TUM1 together set bits 13, 14, 15, 10, 9, 8 and 0, clear 1 to 5 and keep 6, 7, 11 and 12 |
| `Programs.RelMcrBits` | technosoftSup/src/tmlSerial.h:212-229 | likewise for a relative move, bit 13 clear |
| `Programs.VelMcrBits` | technosoftSup/src/tmlSerial.h:220-222 | MODE SP1 clears bits 14 and 10 and keeps bit 13 |
| `Programs.AbsoluteMoveIsClean` | technosoftSup/src/tmlSerial.cpp:1773-1855 | a successful absolute move leaves, for every initial drive state and honest link, exactly the state of one clean run |
| `Programs.AbsoluteMoveState` | technosoftSup/src/tmlSerial.cpp:1773-1855 | that state: CPOS is the position modulo 2^32, speed and acceleration as given or as they were, every other word unchanged, MCR as AbsMcrBits says when UPD! ran |
| `Programs.VelocityMoveState` | technosoftSup/src/tmlSerial.cpp:1911-1948 | a successful velocity move likewise; the position goal is left alone |
| `Programs.RelativeMoveIsExactIff` | technosoftSup/src/tmlSerial.cpp:1857-1909 | a successful relative move is exact if and only if UPD! ran once or the increment is 0 modulo 2^32 |
| `Programs.RelativeMoveState` | technosoftSup/src/tmlSerial.cpp:1857-1909 | the state a successful relative move leaves: the goal has gone as many increments further as its last frame was run, once or twice; speed, acceleration, MCR and all other words as for an absolute move |
| `Programs.SentIsPrefix` | technosoftSup/src/tmlSerial.cpp:1773-1948 | what a program puts on the wire is always a prefix of its frames, in order, and the whole of them if it succeeds |
| `Programs.NothingAfterFailure` | technosoftSup/src/tmlSerial.cpp:1773-1855 | if a required frame goes unacknowledged nothing after it is sent, no UPD! in particular, and failure is reported |
| `Commands.ClearingKeepsTheRest` | technosoftSup/src/tmlSerial.cpp:2068-2098 | clearing the limit bits changes no other bit and no other register; a failed read leaves the register alone |
| `Commands.ArmingKeepsTheRestIff` | technosoftSup/src/tmlSerial.cpp:1986-2019 | arming adds one bit after a good read; after a failed one it keeps the other bits exactly if they were 0 |
| `Commands.AxisLink.MoveAbsolute` | technosoftSup/src/tmlSerial.cpp:1773-1855 | the code with its short-circuited sequence of writes plays exactly the absolute-move program |
| `Commands.AxisLink.MoveRelative` | technosoftSup/src/tmlSerial.cpp:1857-1909 | the same for the relative move |
| `Commands.AxisLink.MoveVelocity` | technosoftSup/src/tmlSerial.cpp:1911-1948 | the same for the velocity move |
| `Commands.AxisLink.SetEventOnLimitSwitch` | technosoftSup/src/tmlSerial.cpp:1986-2019 | read (0 on failure), set one bit, write: the drive and the result that gives |
| `Commands.AxisLink.ClearLimitSwitchEvent` | technosoftSup/src/tmlSerial.cpp:2068-2098 | the limit bits of MER_MASK, then of MER, are cleared where they were read as set |
| `Commands.AxisLink.DisableLimitProtection` | technosoftSup/src/tmlSerial.cpp:2100-2143 | the chosen bits are cleared in MER_MASK and, if that was acknowledged, in MER |
| `Zip.ExtractIsLookup` | technosoftSup/src/tmlSerial.cpp:174-306 | on every well-formed archive, its entries stored, deflated or packed some other way, extraction returns the data of the first directory entry with that name; nothing if there is none, if it does not inflate, or if it is packed some other way |
| `Zip.StoredIsReadIff` | technosoftSup/src/tmlSerial.cpp:254-304 | copying a stored entry byte by byte, with a terminating byte, into the buffers allocated - max(stored, 1) and (announced + 1) mod 2^32 bytes - touches no byte outside them if and only if announced is at most max(stored, 1) and not 2^32 - 1; what comes back then is the first bytes stored, or, with one announced and none stored, a byte of memory that was never written |
| `Zip.DeflatedIsReadIff` | technosoftSup/src/tmlSerial.cpp:275-304 | an entry that has to be inflated is read exactly if it inflates, and an access outside the buffer happens exactly if 2^32 - 1 bytes are announced; what comes back is as many bytes as announced, those of the data first and then memory that nothing was written to; no method but 0 and 8 is read |
| `Zip.CopyIff` | technosoftSup/src/tmlSerial.cpp:268-302 | the byte-by-byte copy goes through if and only if every index it reads and writes is inside its buffer, and then leaves those bytes and the 0 after them |
| `Zip.OverlongIsReached` | technosoftSup/src/tmlSerial.cpp:174-306 | a file of 101 bytes from which the reader does copy past its buffer: one byte stored, two announced |
| `Zip.IndeterminateIsReached` | technosoftSup/src/tmlSerial.cpp:261-306 | and one from which it returns a byte nothing was written to: none stored, one announced |
| `Zip.LongNamesAreNotFound` | technosoftSup/src/tmlSerial.cpp:229-247 | a name that does not fit the name buffer is not found |
| `Zip.ZipExtractFile` | technosoftSup/src/tmlSerial.cpp:174-306 | the scanning code computes the extraction function: nothing, the contents, or - told apart from both - an access outside a buffer |
| `Zip.FindEntry` | technosoftSup/src/tmlSerial.cpp:214-252 | the directory loop finds the first entry with the name among the counted ones |
| `Zip.ReadEntry` | technosoftSup/src/tmlSerial.cpp:254-306 | the local header is skipped by its own lengths; both buffers are allocated with whatever memory holds, stored data is copied, deflated data inflated, anything else refused |
| `Zip.CopyStored` | technosoftSup/src/tmlSerial.cpp:268-302 | the copying loop does what the byte-by-byte specification says, and stops where that leaves a buffer |
| `ZipWriter.WriteIsArchive` | technosoftSup/src/tmlSerial.cpp:174-306 | what a plain writer produces, following sections 4.3.7, 4.3.12 and 4.3.16 of APPNOTE.TXT, is a well-formed archive |
| `ZipWriter.ReadsWhatWasWritten` | technosoftSup/src/tmlSerial.cpp:174-306 | round trip: extracting a name gives the data of the first member written under it, stored or deflated, or nothing |
| `Simulator.CommandKeepsConsistency` | tools/tml_sim.py:206-325 | every command that does not store into SRL or SRH keeps: moving implies powered, a mode and a speed of at least 1; SRL bits 10 and 15 agree with not-moving and powered |
| `Simulator.TickKeepsConsistency` | tools/tml_sim.py:184-204 | so does every motion tick |
| `Simulator.InitialIsConsistent` | tools/tml_sim.py:118-146 | the simulator starts that way |
| `Simulator.StoringStatusBreaksConsistency` | tools/tml_sim.py:206-230 | the exception is needed: one store into SRL and the status word no longer tells |
| `SimStream.StaysConsistent` | tools/tml_sim.py:118-520 | over whole runs: from the start, for any bytes, cut anyhow, and any motion ticks, the status words agree with moving and powered as long as no frame done stores into SRL or SRH |
| `Simulator.InFlight` | tools/tml_sim.py:184-204 | after n undisturbed ticks, with the target farther away than n steps, the drive has gone exactly n steps towards it |
| `Simulator.PositionMoveArrives` | tools/tml_sim.py:184-204 | a move over d != 0 at speed s never overshoots and stops on its target after exactly ceil(abs(d)/s) ticks |
| `Simulator.EmptyMoveStops` | tools/tml_sim.py:184-204 | a move over no distance stops after one tick |
| `Simulator.CommandedMoveArrives` | tools/tml_sim.py:206-325 | the same end to end, from the writes of speed and position and the update command to the target |
| `SimStream.CuttingDoesNotMatter` | tools/tml_sim.py:438-520 | a stream of valid frames cut into any chunks is executed frame by frame in order, with one ACK each; what is left over is a proper prefix of the next frame, and no frame byte is ever taken for a SYNC |
| `SimStream.WholeStreamIsDone` | tools/tml_sim.py:438-520 | once all bytes have come, all frames are done and nothing is left over |
| `SimStream.DoneIsRun` | tools/tml_sim.py:438-520 | for any bytes at all and any motion ticks in between, the drive is in the state that ticks and frames give when they are replayed turn by turn, each turn's tick before its frames; the frames replayed are exactly those done, and the motion steps as many as the ticks |
| `SimStream.DrainStream` | tools/tml_sim.py:467-520 | one pass over the buffer takes off exactly the whole frames in it |
| `SimAnswers.AnswerAnswers` | tools/tml_sim.py:492-516 | a read request is answered by one frame, which the driver's decoder takes for 0xB404 or 0xB405 to the request's sender, with the register's address and its value, for a long one low word first; nothing else is answered |
| `SimAnswers.EveryReadIsAnswered` | tools/tml_sim.py:438-520 | over whole runs, for any bytes and ticks: apart from the replies to SYNC bytes, what is written is an ACK for every frame done and the answer to every read among them, in order, each from the drive as the ticks and frames before it had left it |
| `SimEffects.CommandsDoTheirPart` | tools/tml_sim.py:206-325 | what each command does, by its code: powered, moving, mode, position, target, speed, direction and registers after it, and what is left alone; too few data words do nothing |
| `SimEffects.VelocityRuns` | tools/tml_sim.py:184-204 | n ticks of a velocity move take the position n steps in its direction, and APOS and SRL tell so |
| `Bench.CallsAreCarriedOut` | tools/tml_sim.py:206-520 | driver against simulator: however the bytes of a call's frames are cut up, between two ticks of the motion clock the simulated drive has done what the call says - AXISON, AXISOFF, ABORT, the fault reset, a position set, a register written, or the aim of an absolute, relative or velocity move taken |
| `Bench.NoCallStartsMotion` | tools/tml_sim.py:69-70 | no call of the driver sets the simulated drive in motion, because its UPD! has a code the simulator knows for UPD; the simulator's own code for UPD! does, exactly if the drive is powered and has a mode |
| `SimCode.DriveSim.constructor` | tools/tml_sim.py:118-146 | the initial state |
| `SimCode.DriveSim.UpdateStatus` | tools/tml_sim.py:165-182 | SRL is rebuilt from moving and powered |
| `SimCode.DriveSim.SimulateMotionStep` | tools/tml_sim.py:184-204 | one tick as the value model has it |
| `SimCode.DriveSim.ProcessCommand` | tools/tml_sim.py:206-325 | one command as the value model has it |
| `SimCode.Respond` | tools/tml_sim.py:480-520 | the data frame that answers a read, which AnswerAnswers describes, and nothing for any other command; the ACK before it is written by the loop |
| `SimCode.RunSimulator` | tools/tml_sim.py:438-520 | the loop over incoming chunks computes the value model's run |
| `LibraryCode.FindFree` | technosoftSup/src/tmlSerial.cpp:1298-1312 | the slot loop finds the first free slot, or reports that there is none |
| `LibraryCode.Library.constructor` | technosoftSup/src/tmlSerial.cpp:101-129 | nothing open, nothing loaded |
| `LibraryCode.Library.FindFd` | technosoftSup/src/tmlSerial.cpp:1336-1353 | the slot loop finds the first slot in use with the descriptor, or any in use for a negative one |
| `LibraryCode.Library.OpenChannel` | technosoftSup/src/tmlSerial.cpp:1298-1334 | a free slot is filled with the channel opened, which becomes the active one, with the default map; without a slot or a descriptor the tables stay as they were |
| `LibraryCode.Library.SelectChannel` | technosoftSup/src/tmlSerial.cpp:1336-1353 | the slot with the descriptor becomes the active one |
| `LibraryCode.Library.CloseChannel` | technosoftSup/src/tmlSerial.cpp:1355-1369 | the slot is freed, and if it was the active one there is none |
| `LibraryCode.Library.LoadSetup` | technosoftSup/src/tmlSerial.cpp:1371-1402 | the first free setup slot takes the setup's variables on top of the defaults; -1 and no change if there is none |
| `LibraryCode.Library.SetupAxis` | technosoftSup/src/tmlSerial.cpp:1404-1426 | the setup's variables are merged into the active channel's map |
| `LibraryCode.Library.SelectAxis` | technosoftSup/src/tmlSerial.cpp:1428-1438 | the active channel's axis is set |
| `LibraryCode.Library.Send` | technosoftSup/src/tmlSerial.cpp:1470-1487 | one call to the active channel's axis, logged, with what it writes written to the registers its map names on that axis's drive and no other; without an active channel nothing is sent |
| `LibraryCode.Library.Sense` | technosoftSup/src/tmlSerial.cpp:1754-1762 | a read brings what the register at the resolved address holds, or what a register the drive itself changes shows |
| `LibraryCode.Library.Carry` | technosoftSup/src/tmlSerial.cpp:1772-1948 | all registers a call writes are written if it went through; if it did not, the first so many that the drive carried out |
| `LibraryCode.Library.StoreAll` | technosoftSup/src/tmlSerial.cpp:1155-1189 | 16- and 32-bit registers written one after the other, the low word at the lower address |
| `LibraryCode.Library.GetVar` | technosoftSup/src/tmlSerial.cpp:1614-1680 | a variable the channel's map knows is read; otherwise nothing is sent |
| `LibraryCode.Library.SetVar` | technosoftSup/src/tmlSerial.cpp:1682-1701 | a 16-bit variable the channel's map knows is written at its address there; otherwise nothing is sent |
| `LibraryCode.Library.SetLong` | technosoftSup/src/tmlSerial.cpp:1637-1657 | likewise for 32 bits |
| `LibraryCode.Library.DriveInitialisation` | technosoftSup/src/tmlSerial.cpp:1440-1468 | ENDINIT until it is acknowledged, three times at most, as EndInitsSent finds in the log |
| `LibraryCode.Library.Fetch` | technosoftSup/src/tmlSerial.cpp:1754-1762 | the register a name resolves to, 0 if it cannot be read |
| `LibraryCode.Library.SetEventOnLimitSwitch` | technosoftSup/src/tmlSerial.cpp:1986-2019 | MER_MASK read (0 on failure) and written with one limit bit set, both at the address the map gives that name |
| `LibraryCode.Library.ClearBits` | technosoftSup/src/tmlSerial.cpp:2081-2098 | the chosen limit bits cleared in a named register, which is written only if that changes it |
| `LibraryCode.Library.ClearLimitSwitchEvent` | technosoftSup/src/tmlSerial.cpp:2068-2098 | both limit bits cleared, in MER_MASK and then in MER, each at its resolved address and only where read as set |
| `LibraryCode.Library.DisableLimitProtection` | technosoftSup/src/tmlSerial.cpp:2100-2143 | the chosen bits cleared in MER_MASK, which is written in any case, and, if that was acknowledged, in MER |
| `LibraryCode.Library.SetEventOnMotionComplete` | technosoftSup/src/tmlSerial.cpp:1952-1984 | SRL_MASK read and written with bit 10 set |
| `LibraryCode.Library.ResetFault` | technosoftSup/src/tmlSerial.cpp:1581-1610 | MER read, and written with 0 |
| `LibraryCode.Library.ResetDrive` | technosoftSup/src/tmlSerial.cpp:2053-2066 | a drive that acts on RESET comes back with the registers it starts with |
| `Transactions.PlayStores` | technosoftSup/src/tmlSerial.cpp:970-1024 | a register program over an honest link, its frames repeated or lost in any way, has carried out some first part of its writes, and all of them if it succeeded |
| `Transactions.ProgramStores` | technosoftSup/src/tmlSerial.cpp:1773-1948 | the writes of the three motion programs and of the single writes are the stores the library model gives the call |
| `Transactions.SendCoversItsFrames` | technosoftSup/src/tmlSerial.cpp:1773-1948 | so a call of the library model leaves the drive's registers as its frames do, for every honest link: with the same success and the number of stores carried out that came of it |
| `Channels.OpenKeepsTable` | technosoftSup/src/tmlSerial.cpp:1298-1334 | opening keeps descriptors distinct and the active channel in use; the new descriptor was not in the table and is the active one's |
| `Channels.SelectKeepsTable` | technosoftSup/src/tmlSerial.cpp:1336-1353 | so does selecting, which natively succeeds exactly if the descriptor names a channel in use |
| `Channels.CloseKeepsTable` | technosoftSup/src/tmlSerial.cpp:1355-1369 | so does closing, after which the descriptor names nothing and every other channel is as it was |
| `Channels.TableStaysOk` | technosoftSup/src/tmlSerial.cpp:1298-1369 | so does every sequence of open, select and close calls |
| `DriverCode.TmlAxis.constructor` | technosoftSup/src/drvTmlMotor.cpp:370-388 | an axis that is not configured |
| `DriverCode.TmlAxis.Flag` | technosoftSup/src/drvTmlMotor.cpp:229-239 | all seven fields a reopened channel resets |
| `DriverCode.TmlAxis.SetRecovered` | technosoftSup/src/drvTmlMotor.cpp:708-728 | the axis after its own initialisation on a new channel, in either outcome |
| `DriverCode.TmlAxis.BackOff` | technosoftSup/src/drvTmlMotor.cpp:1202-1206 | the wait becomes the backoff, the backoff doubles up to 30 |
| `DriverCode.TmlAxis.SeeMotion` | technosoftSup/src/drvTmlMotor.cpp:1345-1403 | stop latch, moving, done and homing-move-seen from one reading of SRL |
| `DriverCode.TmlAxis.SyncPower` | technosoftSup/src/drvTmlMotor.cpp:1394-1400 | power and activation follow the drive's AXIS_ON |
| `DriverCode.TmlAxis.Publish` | technosoftSup/src/drvTmlMotor.cpp:1299-1426 | the whole status mapping of a poll; a failed reading only raises the comms error |
| `DriverCode.TmlController.constructor` | technosoftSup/src/drvTmlMotor.cpp:94-170 | the channel is opened once, the clock noted, the axes not configured |
| `DriverCode.TmlController.FlagAll` | technosoftSup/src/drvTmlMotor.cpp:229-239 | the loop flags every configured axis but the excepted one, and no other |
| `DriverCode.TmlController.EnsureChannel` | technosoftSup/src/drvTmlMotor.cpp:204-242 | a closed channel is reopened unless the last attempt is less than 10 s old; all configured axes are then flagged |
| `DriverCode.TmlController.AfterEndInit` | technosoftSup/src/drvTmlMotor.cpp:538-607 | reads, SCR and limit protection after a successful ENDINIT |
| `DriverCode.TmlController.Reinit` | technosoftSup/src/drvTmlMotor.cpp:503-611 | LoadSetup unless a slot is held, SetupAxis, SelectAxis, ENDINIT, each only if the one before succeeded |
| `DriverCode.TmlController.TrySelect` | technosoftSup/src/drvTmlMotor.cpp:638-650 | up to three tries, the first success ends them |
| `DriverCode.TmlController.Reconnect` | technosoftSup/src/drvTmlMotor.cpp:652-729 | close, open, note the clock, select, flag the others, initialise this axis, each step's failure as the code has it |
| `DriverCode.TmlController.Select` | technosoftSup/src/drvTmlMotor.cpp:633-744 | all three tiers |
| `DriverCode.TmlController.AwaitPower` | technosoftSup/src/drvTmlMotor.cpp:759-776 | SRL is read until AXIS_ON shows, at most 50 times |
| `DriverCode.TmlController.PowerOn` | technosoftSup/src/drvTmlMotor.cpp:747-783 | select, AXISON, wait; the axis counts as powered only if AXIS_ON was seen |
| `DriverCode.TmlController.PowerOff` | technosoftSup/src/drvTmlMotor.cpp:785-797 | select, AXISOFF; the axis counts as unpowered whatever the drive answers |
| `DriverCode.TmlController.Move` | technosoftSup/src/drvTmlMotor.cpp:803-866 | select, power, release of homing and latch, limit event cleared, the absolute or relative move, flags on success |
| `DriverCode.TmlController.MoveVelocity` | technosoftSup/src/drvTmlMotor.cpp:868-914 | the same for a jog |
| `DriverCode.TmlController.Home` | technosoftSup/src/drvTmlMotor.cpp:916-1012 | velocity and acceleration defaults, select, power, clear, move towards the limit, arm; state only on full success |
| `DriverCode.TmlController.ForceHome` | technosoftSup/src/drvTmlMotor.cpp:1014-1075 | homed on the spot if the switch reads as made, a home otherwise |
| `DriverCode.TmlController.ZeroAtHome` | technosoftSup/src/drvTmlMotor.cpp:1452-1475 | position zeroed, event disarmed, homed, whatever selecting said |
| `DriverCode.TmlController.Stop` | technosoftSup/src/drvTmlMotor.cpp:1077-1110 | ABORT, event disarmed if homing, latch set, whatever selecting said |
| `DriverCode.TmlController.SetPosition` | technosoftSup/src/drvTmlMotor.cpp:1112-1135 | select, then set the position |
| `DriverCode.TmlController.SetClosedLoop` | technosoftSup/src/drvTmlMotor.cpp:1138-1154 | power on or off |
| `DriverCode.TmlController.WriteParam` | technosoftSup/src/drvTmlMotor.cpp:300-364 | the five command parameters, with which of them report a failed selection |
| `DriverCode.TmlController.Configure` | technosoftSup/src/drvTmlMotor.cpp:410-499 | configuration stored, axis initialised if the channel is open, flagged for later if not |
| `DriverCode.TmlController.PollReinit` | technosoftSup/src/drvTmlMotor.cpp:1182-1220 | channel down, waiting, failing and succeeding, for an axis that is flagged |
| `DriverCode.TmlController.ReadStatus` | technosoftSup/src/drvTmlMotor.cpp:1236-1297 | which registers a poll reads, and which of them it needs |
| `DriverCode.TmlController.Observe` | technosoftSup/src/drvTmlMotor.cpp:1222-1475 | select, read, publish, and the end of a home |
| `DriverCode.TmlController.Poll` | technosoftSup/src/drvTmlMotor.cpp:1176-1482 | the whole axis poll and what it reports as moving |
| `DriverCode.TmlController.Serve` | technosoftSup/src/drvTmlMotor.cpp:204-1482 | any one call on the controller or an axis is one step of a run, so the results on runs are about these objects |
| `Lifting.CommandBegins` | technosoftSup/src/drvTmlMotor.cpp:803-1154 | every command starts by selecting its axis: what holds after that, and is kept by talk to the axis and by selecting it, holds at its end - or it ends changing nothing |
| `Lifting.RunKeeps` | technosoftSup/src/drvTmlMotor.cpp:204-1482 | what every small step keeps - talk, clock, opening, selecting, initialising, configuring - holds in every world a run of calls reaches |
| `Initialising.ReinitInitialises` | technosoftSup/src/drvTmlMotor.cpp:503-611 | initialising talks to no other axis, takes at most the first free setup slot, and only where the axis holds none; where it succeeds, setup and selection have been done on the open channel, and the log has an acknowledged ENDINIT to the axis from this initialisation |
| `Initialising.EndInitsSent` | technosoftSup/src/tmlSerial.cpp:1440-1468 | an initialisation logs ENDINIT to the axis addressed up to the number of tries allowed, none but the last of them acknowledged, and that one exactly on success |
| `Initialising.AckedReinitSucceeds` | technosoftSup/src/drvTmlMotor.cpp:503-611 | with every call acknowledged and a setup in hand it succeeds |
| `Connection.AlwaysConnected` | technosoftSup/src/tmlSerial.cpp:1298-1369 | in every reachable world, with or without a channel, the descriptor held names the only channel in use, which is the active one; without a descriptor there is no active channel |
| `Connection.NativeSelect` | technosoftSup/src/drvTmlMotor.cpp:633-744 | with table lookups only, selecting an axis succeeds exactly if it is configured and the channel is open, opens nothing, sends nothing and changes nothing but the active axis |
| `Connection.NativeNeverReconnects` | technosoftSup/src/drvTmlMotor.cpp:633-687 | so tiers 2 and 3 are never entered natively: a channel once open is never closed or opened again in any run |
| `Epoch.AlwaysReady` | technosoftSup/src/drvTmlMotor.cpp:503-744 | in every reachable world with an open channel, a configured axis that is not flagged holds a loaded setup, was given it on that very channel, and the log has an acknowledged ENDINIT to its id since the channel was opened - unless the channel came from a reconnect given up because it could not be selected, the axis was not flagged then, and it has been neither initialised nor flagged since (it is stale) |
| `Epoch.SetUpHereIff` | technosoftSup/src/drvTmlMotor.cpp:503-744 | and a stale axis has not: in every reachable world with an open channel, a configured axis that is not flagged has been set up on it if and only if it is not stale. Set up means: its own setup has been given to its id there, and the log has an acknowledged ENDINIT to that id since the channel was opened - axes configured with one id share one drive |
| `Epoch.OrphanIsReadyIff` | technosoftSup/src/drvTmlMotor.cpp:683-687 | right after such a reconnect all axes are set up or flagged if and only if every configured axis happened to be flagged already, that is, if none is stale |
| `Exceptions.UnreadyIsReached` | technosoftSup/src/drvTmlMotor.cpp:683-687 | such a state is reached: a run from the start that ends on an open channel with an axis that takes itself to be initialised and has not been set up there |
| `Epoch.ReconnectSparesTheOthers` | technosoftSup/src/drvTmlMotor.cpp:652-729 | a reconnect sends nothing to any other axis; where it gets as far as initialising, every other configured axis is flagged for its next poll with the shortest wait, loses its setup index and counts as unpowered, inactive and not stopping |
| `Slots.SlotsAreConserved` | technosoftSup/src/drvTmlMotor.cpp:503-515 | in every run used setup slots form a prefix, axes hold distinct used ones, and no more are used than configured axes times openings that made them start over |
| `Slots.LoadingCannotFail` | technosoftSup/src/tmlSerial.cpp:1371-1402 | so loading a setup for an axis that holds none, its first configuration included, cannot fail while that product, the axis counted, is at most 16 |
| `Variables.CorrectUntilOverridden` | technosoftSup/src/tmlSerial.cpp:144-149 | a name of a merged setup stands for that setup's address at all times since, if and only if no setup merged later has a different address for it |
| `Variables.MapIsFold` | technosoftSup/src/tmlSerial.cpp:1404-1426 | in every reachable world the active channel's map is the right-biased fold of the setups given on it, over the defaults |
| `Variables.OwnNamesResolve` | technosoftSup/src/tmlSerial.cpp:1404-1426 | in every reachable world with an open channel, an axis that is neither flagged nor stale has been given the setup it holds, and a name of that setup stands for its own address if and only if the setup given last that has the name agrees with it |
| `Variables.FreshSetupIsItsFile` | technosoftSup/src/drvTmlMotor.cpp:503-515 | a setup loaded to initialise an axis is the file the axis was configured with over the default addresses, in a slot that was free |
| `Reconnects.OpensAreSpaced` | technosoftSup/src/drvTmlMotor.cpp:652-681 | with a clock that does not go back, attempts to open the channel are at least 3 s apart in every run |
| `Reconnects.EnsureWaitsLonger` | technosoftSup/src/drvTmlMotor.cpp:204-225 | the controller poll's own attempts come at least 10 s after the one before |
| `Reconnects.OpensPerWindow` | technosoftSup/src/drvTmlMotor.cpp:204-225 | any window of T seconds contains at most 1 + floor(T/3) attempts |
| `Backoff.AlwaysInRange` | technosoftSup/src/drvTmlMotor.cpp:1182-1220 | in every run countdowns stay within 0..30 and backoffs in {1, 2, 4, 8, 16, 30} |
| `Backoff.EpisodeStartsAtOne` | technosoftSup/src/drvTmlMotor.cpp:695-742 | whenever an axis starts to wait for initialisation its backoff is 1 and its countdown at most 1; only configuring it on an open channel leaves both as they were |
| `Backoff.FirstConfigureStartsAtOne` | technosoftSup/src/drvTmlMotor.cpp:410-499 | with one configure per axis every episode starts at 1 |
| `Exceptions.LongerStartIsReached` | technosoftSup/src/drvTmlMotor.cpp:459-467 | the exception is reached: a run in which configuring an axis once more starts an episode at a backoff of 2 |
| `Backoff.LadderShape` | technosoftSup/src/drvTmlMotor.cpp:1202-1206 | with all attempts failing, attempt n is followed by exactly min(2^n, 30) polls that only wait, counting n from 0 |
| `Recovery.ClimbsTheLadder` | technosoftSup/src/drvTmlMotor.cpp:1182-1220 | from the start of an episode, whatever its first countdown, and with the axis's polls failing, its counters and the number of attempts depend on the number of its polls alone, whatever else is called in between |
| `Recovery.WaitsDouble` | technosoftSup/src/drvTmlMotor.cpp:1182-1220 | hence the waits of such a run |
| `Recovery.NativeUnlucky` | technosoftSup/src/drvTmlMotor.cpp:1182-1220 | natively failing polls are all that takes: nothing but its own polls and configuring touches an axis's counters |
| `Recovery.RecoversInTime` | technosoftSup/src/drvTmlMotor.cpp:1182-1220 | with every call acknowledged, setup slots left and no second configure, a waiting axis on an open channel is initialised within countdown + 1 <= 31 of its polls, whatever else is called in between |
| `Isolation.EveryCallIsAddressed` | technosoftSup/src/drvTmlMotor.cpp:1077-1110 | natively every call made for an axis goes to that axis's id and changes no register of any other drive, also where the result of selecting is ignored; the controller's poll sends nothing |
| `Isolation.UnconfiguredIgnores` | technosoftSup/src/drvTmlMotor.cpp:803-1154 | a command for an axis that is not configured changes nothing and sends nothing |
| `Commanded.OnlyItsOwn` | technosoftSup/src/drvTmlMotor.cpp:204-1482 | whatever the link does, a call logs nothing but what selecting and initialising take - ENDINIT, reads, SCR, MER_MASK and MER - and what it is itself for: ABORT comes from a stop alone, AXISOFF from opening the loop, AXISON from motion commands and closing it, a position from setting it or the end of a home, RESET from its parameter |
| `Scripted.EveryCallPlaysItsScript` | technosoftSup/src/drvTmlMotor.cpp:410-1482 | in every native run with the channel open, the calls a command, configuration or poll makes are exactly its script, from first to last: all of it on success, and on failure up to the first piece that failed |
| `Commanded.OnlyWhatWasAsked` | technosoftSup/src/drvTmlMotor.cpp:803-1075 | whatever the link does, a call sends at most one motion command: for a move that is the absolute one to the position given or the relative one by it, as asked, for a jog the velocity given, for a home the velocity with the sign of the limit asked for; calls other than move, jog, home and forced home send none |
| `Commanded.SuccessWasTaken` | technosoftSup/src/drvTmlMotor.cpp:803-1012 | a move, jog or home that reports success was acknowledged by its own axis's drive as that very command: absolute or relative, with the position, speed and acceleration given |
| `Commanded.HomeHeadsForItsLimit` | technosoftSup/src/drvTmlMotor.cpp:916-985 | a home that is not rejected at once moves at a speed other than 0 in the direction asked for |
| `AxisOutcomes.Bystander` | technosoftSup/src/drvTmlMotor.cpp:204-744 | a call leaves the motion state of every other axis alone, but for the stop latch where it reopened the channel for the axes to start over |
| `AxisOutcomes.PollPolls` | technosoftSup/src/drvTmlMotor.cpp:1176-1482 | a poll publishes nothing about the motion, or a reading of SRL and MER found in its own part of the log |
| `Published.PollsPublishWhatTheyRead` | technosoftSup/src/drvTmlMotor.cpp:1176-1482 | in every native run with the channel open, a poll that leaves its axis waiting for initialisation publishes a communication error; any other reads TPOS, APOS, SRL and MER of that axis in a row, and every flag of the axis after it is given bit by bit by those readings - an error exactly if TPOS or SRL did not come through |
| `AxisOutcomes.HomeHomes` | technosoftSup/src/drvTmlMotor.cpp:916-1012 | a home changes the axis's motion state only if move and event were both taken |
| `AxisOutcomes.ForceHomeHomes` | technosoftSup/src/drvTmlMotor.cpp:1014-1075 | forced homing homes on the spot only with the switch read as made, and otherwise does what home does |
| `AxisOutcomes.StopStops` | technosoftSup/src/drvTmlMotor.cpp:1077-1110 | a stop takes effect in the driver whatever the link does: done, not moving, not homing, latch set; what reaches the drive is in the Orders rows |
| `Orders.StopAborts` | technosoftSup/src/drvTmlMotor.cpp:1077-1110 | the first call a stop makes once it has tried to select its axis is ABORT to the axis the channel is set to, whatever selecting said; without an active channel it makes none |
| `Orders.StopReachesItsDrive` | technosoftSup/src/drvTmlMotor.cpp:1077-1110 | natively, in every reachable world with the channel open, the first call of a stop is ABORT to its own axis's drive |
| `Orders.AbsoluteGoal` | technosoftSup/src/tmlSerial.cpp:1773-1855 | the frames of an absolute move that succeeds over an honest link start a position profile to that position modulo 2^32, at the speed and acceleration given in 16.16 fixed point, or those noted before where 0 is given |
| `Orders.RelativeGoal` | technosoftSup/src/tmlSerial.cpp:1857-1909 | those of a relative move one to the goal before plus the increment once, or twice if its last frame was run twice |
| `Orders.VelocityGoal` | technosoftSup/src/tmlSerial.cpp:1911-1948 | those of a velocity move a velocity profile at the speed given, its sign included; the position goal is left alone |
| `Orders.OrdersAreObeyed` | technosoftSup/src/drvTmlMotor.cpp:803-1012 | from the command to the drive: a move, jog or home that reports success had a call acknowledged by its axis's own drive whose frames, got through by an honest link, send the drive where the command said, whatever state it was in |
| `AxisMotion.MoveMoves` | technosoftSup/src/drvTmlMotor.cpp:803-866 | a move that sends no motion command leaves the motion state alone, but for drift on a reopened channel; one that does gives up homing and the stop latch and shows the axis moving if it was taken |
| `Aftermath.EveryCallLeavesItsAxis` | technosoftSup/src/drvTmlMotor.cpp:410-1154 | in every native run with the channel open, a call other than a poll changes no axis but its own, and every field of that one is as this says, for success and for failure |
| `Aftermath.WithoutChannel` | technosoftSup/src/drvTmlMotor.cpp:410-1154 | without a channel only configuring and stopping change an axis, and how |
| `Aftermath.SelectingLeaves` | technosoftSup/src/drvTmlMotor.cpp:633-744 | after a selection, whatever its three tiers came to: each axis is as it was, or the selecting one due for initialisation or set up anew, or another one flagged, every field of it given |
| `Aftermath.TriedThreeTimes` | technosoftSup/src/drvTmlMotor.cpp:638-651 | the channel is tried three times before a selection turns to reconnecting: the tries succeed exactly if one of the three does |
| `Stopping.NeverDoneAndMoving` | technosoftSup/src/drvTmlMotor.cpp:1345-1403 | in no run is an axis ever shown as done and moving; nothing homes that is stopping or counts as homed |
| `Stopping.LatchHolds` | technosoftSup/src/drvTmlMotor.cpp:1348-1355 | one call that is no release event keeps the latch, and a poll then reports no motion |
| `Stopping.StoppedUntilReleased` | technosoftSup/src/drvTmlMotor.cpp:1077-1110 | from a stop until a poll reads motion complete, a motion command gets past power-on or the channel is reopened with the axes flagged or set up again, the axis is shown as done and not moving after every call and every poll reports no motion, across failed and initialising polls and reconnects given up half way |
| `Homing.CourseIsTracked` | technosoftSup/src/drvTmlMotor.cpp:916-1012 | in every run an axis is homing exactly if calls and log say that a home was taken and not ended since, towards that limit, and has been seen to move only if an earlier poll read the motor turning |
| `Homing.HomedNeedsEvidence` | technosoftSup/src/drvTmlMotor.cpp:1222-1475 | an axis comes to be shown as homed only by a poll that read motion complete during such a home, the motor having been read turning by an earlier poll or the target switch read as made by this one, both among the reads that it publishes and not those it makes while initialising or disarming - or by forced homing with the switch read as made before anything else was done |
| `Homing.PollRaisesIff` | technosoftSup/src/drvTmlMotor.cpp:1222-1475 | a poll shows the axis as homed if and only if it got as far as reading the registers and they came through, a home is under way, SRL says motion complete, and the motor has been seen to move since the home started or MER shows the switch it was sent to |
| `HomedUnhit.NothingBringsALimit` | technosoftSup/src/drvTmlMotor.cpp:1236-1297 | on drives that do not change MER by themselves, no call at all puts a limit bit into MER or reads one out of it, unless it writes one |
| `HomedUnhit.HomedWithoutASwitch` | technosoftSup/src/drvTmlMotor.cpp:1432-1475 | so a home can be over without a limit switch: a run from the start, with every call acknowledged, in which no read of MER ever shows a limit bit and the axis comes to be shown as homed |
| `MaskRegister.HarmlessSend` | technosoftSup/src/tmlSerial.cpp:1754-1948 | over a map that keeps the drive's mask register apart, no call but a write to MER_MASK or a reset changes that register, whether it goes through, is lost or is carried out in part |
| `MaskRegister.ArmedIffResolved` | technosoftSup/src/tmlSerial.cpp:1986-2019 | an acknowledged arming arms the drive's event if the map has MER_MASK at the drive's own mask register, and leaves that register as it was if not |
| `MaskRegister.LostAnswerDecouples` | technosoftSup/src/tmlSerial.cpp:1986-2019 | without an acknowledgement the arming fails, and the event is armed all the same exactly if the drive acted on it |
| `Coupling.CommandInStep` | technosoftSup/src/drvTmlMotor.cpp:803-1110 | over a map that fits the axis's drive no command gets the drive's mask and the axis's homing state out of step, save a reset of the drive |
| `Coupling.HomeArmsIff` | technosoftSup/src/drvTmlMotor.cpp:916-1012 | a home that is reported as started has cleared the drive's limit events and armed the one it heads for if and only if the map it found had MER_MASK at the drive's own register; if not, it has left them as they were |
| `UnarmedHomes.UnarmedHomeIsReached` | technosoftSup/src/tmlSerial.cpp:1404-1426 | the second case is reached: a native run from the start, every call acknowledged, two axes with ids of their own and setup files that disagree about MER_MASK, that ends in a successful home with no limit event armed on its drive |
| `CoupledRuns.ReinitDrops` | technosoftSup/src/drvTmlMotor.cpp:503-611 | an initialisation clears the limits the axis is configured to ignore from its drive's mask and makes the map fit, or, without a setup slot, changes no register |
| `CoupledRuns.LimitEventsFollowHoming` | technosoftSup/src/drvTmlMotor.cpp:410-1475 | in every native run with every call acknowledged - the channel may fail to open, open late, and be opened after axes were configured; axes may home before they are initialised and be configured again -, with ids kept and distinct, no drive reset, no limit event armed at the start and every call finding a map that fits its drive: a limit event is armed if and only if its axis homes towards that limit and no initialisation since that home was taken has told the drive to ignore it; no other mask bit ever changes |
| `UnarmedHomes.LateDropIsReached` | technosoftSup/src/drvTmlMotor.cpp:410-1475 | a home can lose its event: a native run from the start, every call acknowledged and the setup files in agreement, in which an axis homes before its initialisation, with the event armed, and the poll that then initialises it switches the event off while the home goes on |
| `Agreement.AgreeingSetupsSuffice` | technosoftSup/src/tmlSerial.cpp:1404-1426 | those conditions can be checked before anything is run: it is enough that the defaults and every setup file have MER_MASK at the drives' own mask register and nothing else written on it, that each axis is always given the same id and no two the same, and that no call resets a drive |
| `Maps.MapsInRuns` | technosoftSup/src/tmlSerial.cpp:1298-1426 | any property of the default map that every setup file has and merging a setup keeps holds of the channel map and all loaded setups in every run |

## Left out

- Sockets, termios, select, host name lookup and sleeping: they are byte streams, a clock and chosen outcomes here.
- The inflate algorithm: deflated entries go through a function that is a parameter.
- Zip.ReadEntry: what inflating itself does to an output buffer whose size has wrapped to 0 is not modelled, only the terminating byte written after it.
- Reading `variables.cfg` out of the extracted text: a setup file is a given map from names to addresses.
- EPICS records, the asyn parameter library, shell commands, reports and texts: of the published parameters
  only Done, Moving, Homed, AtHome, CommsError and Active are kept.
- Rounding of speeds and accelerations: they are reals here, truncated to 16.16 fixed point, and wrap around at 32 bits.
- TS_Save, which does nothing, resync, which is never called, and the network probing scripts under tools/.
- Several controllers sharing the library's globals, and calls on one controller from several threads outside its lock.
- Time within a call: a wait is a sequence of clock readings, and a read of several bytes a sequence of attempts at one.
- Position readings: a poll's TPOS matters only in whether it came through.
- TmlAxis: fields that belong together, configuration and motion state, are one field each here; axis methods that reach through to the controller are methods of TmlController with the axis's number.
- Library: a channel object is the content of its slot, and g_activeCh the number of a slot; the objects' own identity is not modelled.
- LibraryCode.Library.Send: logs a whole motion program or transaction as one call; what its frames do to the registers is what Transactions.SendCoversItsFrames says.
- LibraryCode.Library.ResetDrive: the registers a drive starts with after a reset are left open.
- CoupledRuns.LimitEventsFollowHoming: says nothing about runs with lost answers or a drive reset, where the driver cannot know what the drive holds.
- Slots.SlotsAreConserved: counts openings that made the axes start over, the first one included, so for R later ones the bound is N(1+R).
