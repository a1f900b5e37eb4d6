# Verification of Rivendell components

This project models five parts of Rivendell, a radio automation system, and proves
what they promise. It needs Dafny 4.11; `dafny verify dfyconfig.toml` checks it all.

**The JavaScript minifier** (`helpers/jsmin.c`). `JsSpec` defines minification as a
reference: normalise, split into tokens and gaps, and write the tokens with at most
one blank between them. `JsMin.Minifier` is the program with its globals `theA`,
`theB` and `theLookahead`; it is proved to compute exactly that for every input,
errors included (`JsWindow` and `JsRefinement` hold the two-character window and the
text it stands for). `JsTheorems`, `JsWords` and `JsTwice` say what the reference means,
with the characters spelled out: no token is lost, words stay apart, blanks are single,
literals are kept, the output is short, and minifying again changes nothing exactly when no
comment has appeared.

**The ring buffer and the ALSA pipeline** (`lib/rdringbuffer.cpp`,
`cae/driver_alsa.cpp`). `RingBuffer` proves the circular buffer to be a bounded FIFO.
`AlsaStream` and `AlsaCapture` are one playback stream and one record port, with a
step per operation; `AlsaRuns` proves properties of whole runs, and `AlsaDelivery` that a
file is played whole.

**The Core Audio Engine daemon** (`cae/cae.cpp`, `cae/cae_server.cpp`,
`cae/playsession.cpp`, `cae/driver_alsa.cpp`). `CaeModel` is the daemon as a state
machine over connections, bytes, disconnections, driver services, callbacks and
timers, with the numbers of cards, ports and streams left open. `CaeInvariant` and
`CaeRuns` hold the invariant of every run, `CaeFraming` the command stream, `CaeCommands`
what each command line does, from its bytes to everything that changes,
`CaeTheorems` the statements about every reachable state, `CaeStreams` and `CaeRecordings` the
link from the daemon to the run of each single stream and record port, and `CaeMessages`
what clients are told.
`AlsaDriver.DriverAlsa` and `Caed.MainObject` with `Caed.CaeServer` are the classes with
their arrays, maps and loops; every method is proved to do what `CaeModel` says. Each
alsa_* and record_* array of the source is one field of the record kept per stream or
port.

Some commands are not checked enough. The model marks a fault and stops where the daemon
would use a null pointer (a ring, a wave or a connection that is not there), index an
array of ports beyond its end, read more from a file than the transfer buffer of 524288
bytes holds, or divide by zero. It is proved exactly when that happens, for a command
(`CaeRuns.PerformGood`), for arriving data (`CaeRuns.FeedFaults`) and for whole runs
(`CaeTheorems.RunsKeepSessionsSound`, `CaeStreams.FaultsComeFromCommands`): by unloading a
record port that nobody owns, by stopping a recording or setting an input volume beyond
the ports, by loading a wave so fast and long that its first fill overruns the buffer or
whose header counts samples at the rate 0, by a fade of length 0, and by the position
report of the service loop for a wave that was loaded with the rate 0. Two hypotheses are
part of this: the header of a wave is otherwise consistent (16 bits, one or two channels,
blocks of two bytes a channel, and the number of samples that the data holds), since a
block of no bytes or a file without channels would be divided by as well; and arithmetic
that overflows is not counted as a fault.

**Fades, positions and the JACK mixer** (`cae/driver_alsa.cpp`,
`cae/driver_jack.cpp`). `Fades` and `Positions` follow the drivers' integers, 16 and 32
bits wide, and say exactly when a fade is on time and when a seek goes where it was asked
to; `JackMixer` proves the nested mixing loops equal to a sum. Conversions to an integer
that is too narrow keep the low bits, which is what they do on x86-64.

**Two small loops.** `PlayCounts` compares the two reports that count plays
(`lib/export_soundex.cpp`, `lib/export_spincount.cpp`), and `Archive` the record loop of
the NexGen importer (`importers/nexgen_filter.cpp`).

Some promises do not hold without a condition, and the condition is proved to be exact:
minifying twice (`JsTwice.MinifyTwice`), playback and recording without lost bytes
(`AlsaRuns.PlaybackIsFifoIff`, `AlsaCapture.RecordingKeepsAllIff`), rings equal to
sessions (`CaeTheorems.RingsAreCounted`), runs without a fault
(`CaeTheorems.RunsKeepSessionsSound`), locks and recordings of other clients
(`CaeTheorems.OthersPortsChange`), fades that are on time (`Fades.FadeIsOnTimeIff`,
`Fades.ShortFadeIsOnTimeIff`), seeks (`Positions.PcmSeekAndReport`,
`Positions.MpegSeekAndReport`) and archive extraction (`Archive.ExtractInvertsIff`).

## Model

| member | source | states |
|---|---|---|
| JsMin.Minifier.Get | helpers/jsmin.c:53-71 | the next character of the normalised input, taking the lookahead first; end of input stays end of input |
| JsMin.Minifier.Peek | helpers/jsmin.c:74-79 | the next character without consuming it |
| JsMin.Minifier.Next | helpers/jsmin.c:86-119 | the next character outside comments: a line comment becomes its line feed, a block comment a blank, an unclosed one the error |
| JsMin.Minifier.CopyString | helpers/jsmin.c:143-154 | a string literal is copied up to its closing quote with its escapes, or is reported as unterminated |
| JsMin.Minifier.CopyRegex | helpers/jsmin.c:164-179 | a regular expression is copied up to its closing slash with its escapes, or is reported as unterminated |
| JsMin.Minifier.Action | helpers/jsmin.c:130-182 | the three fall-through actions: write A, copy B to A with strings, fetch B with regular expressions |
| JsMin.Minifier.Decide | helpers/jsmin.c:197-258 | which action the main loop takes for the characters in A and B |
| JsMin.Minifier.Jsmin | helpers/jsmin.c:192-260 | for every input the program ends, and writes what the reference definition `JsSpec.Minify` says or fails with the same error |
| JsRefinement.FetchKeepsOutput | helpers/jsmin.c:86-119 | skipping comments one character ahead leaves what will be written unchanged, and the character fetched never begins a comment |
| JsRefinement.AdvanceKeepsText | helpers/jsmin.c:155-181 | fetching B, with or without a regular expression, keeps the text that the window stands for; input is only consumed |
| JsRefinement.RegexFrom | helpers/jsmin.c:158-162 | behind the characters after which a slash begins a regular expression, what is written is the literal up to its closing slash and then the rest, or the error |
| JsRefinement.RoundKeepsTotal | helpers/jsmin.c:196-260 | one round of the main loop keeps the text the window stands for and its invariant, and the measure of unread input and of A and B goes down |
| JsRefinement.StartKeepsTotal | helpers/jsmin.c:193-196 | the line feed put into A and the first action reach the invariant of the main loop |
| JsTheorems.LexLosesNothing | helpers/jsmin.c:86-260 | the tokens and the gaps between them are the normalised text again, and each gap is blanks and comments only |
| JsTheorems.MinifyKeepsTokens | helpers/jsmin.c:130-260 | the output is the tokens of the source, whole and in order; every gap between them becomes nothing or one blank, and which is given by its kind and by the characters beside it, which are listed |
| JsTheorems.WordsStayApart | helpers/jsmin.c:40-45 | in every source that can be minified, a gap between two characters with the ASCII codes of letters, digits, `_`, `$` or `\`, or above 126, becomes exactly one blank, a line feed if it had one outside block comments, so words never merge |
| JsTheorems.OutputIsTight | helpers/jsmin.c:196-260 | outside its tokens the output of a source never has two blanks in a row, and it never ends in a blank |
| JsWords.BlanksBecome | helpers/jsmin.c:197-258 | between two plain texts, any blanks, tabs, line breaks and control characters become exactly one blank, one line feed or nothing, by the characters beside them and by whether there is a line break among them, all spelled out by their codes |
| JsWords.BlockCommentBecomes | helpers/jsmin.c:98-114 | a block comment between two plain texts, whatever is in it, becomes what a blank becomes |
| JsWords.LineCommentBecomes | helpers/jsmin.c:90-97 | a line comment becomes what the line break that ends it becomes |
| JsWords.StringsAreKept | helpers/jsmin.c:134-154 | a string in either kind of quotes is written as it is, with its blanks, comments and escapes |
| JsWords.RegexesAreKept | helpers/jsmin.c:158-179 | so is a regular expression at the start of a source |
| JsWords.SlashBegins | helpers/jsmin.c:158-179 | and behind each of the twelve characters after which a slash begins one |
| JsWords.SlashDivides | helpers/jsmin.c:158-162 | behind any other plain character a slash divides, and the blanks behind it go |
| JsTwice.MinifyIsShort | helpers/jsmin.c:131-260 | the output is at most one character longer than the input |
| JsTwice.MinifyTwice | helpers/jsmin.c:86-260 | minifying an output again changes nothing if and only if that output contains no comment start outside literals |
| JsTwice.TwiceCanLoseText | helpers/jsmin.c:86-119 | two slashes that a blank kept apart become a comment on the second pass |
| JsTwice.FailureIsUnclosed | helpers/jsmin.c:110-179 | from any context, cutting into tokens fails with an error if and only if passing whole blanks, comments and tokens comes to a comment, string or regular expression of that kind that is never closed |
| JsTwice.MinifyFailsIff | helpers/jsmin.c:110-179 | minifying a source fails with an error if and only if passing whole pieces of it comes to something of that kind that is never closed |
| JsTwice.ReachedPasses | helpers/jsmin.c:86-179 | what is passed on the way to such a place and what is left make up the text, and what is passed consists of whole tokens and gaps |
| RingBuffer.RDRingBuffer.constructor | lib/rdringbuffer.cpp:33-48 | the size is the smallest power of two, from two on, that holds the size asked for; the buffer is empty |
| RingBuffer.RDRingBuffer.Reset | lib/rdringbuffer.cpp:71-75 | the buffer is empty |
| RingBuffer.RDRingBuffer.WriteSpace | lib/rdringbuffer.cpp:92-105 | the free bytes, one less than the size when empty |
| RingBuffer.RDRingBuffer.ReadSpace | lib/rdringbuffer.cpp:108-119 | the bytes held |
| RingBuffer.RDRingBuffer.Read | lib/rdringbuffer.cpp:122-156 | a read takes the oldest bytes, up to the count or what is held, in order and across the wrap |
| RingBuffer.RDRingBuffer.Write | lib/rdringbuffer.cpp:159-193 | a write appends what fits, in order and across the wrap |
| AlsaRuns.PlaybackIsFifo | cae/driver_alsa.cpp:295-328 | after a load whose first fill fits the ring, over any fills, rounds and plays, the bytes taken from the ring followed by those in it are the file up to the cursor |
| AlsaRuns.PlaybackIsFifoIff | cae/driver_alsa.cpp:1841-1947 | that holds over all such runs if and only if the first fill fits: it reads no more than the 262143 bytes that the ring takes |
| AlsaRuns.SlowWavesFit | cae/driver_alsa.cpp:1851-1866 | the fill of an empty ring fits for every wave not faster than the card |
| AlsaRuns.FastWavesDoNotFit | cae/driver_alsa.cpp:1851-1866 | for a stereo wave at 48 kHz on a card at 44.1 kHz the first fill asks for 285324 bytes, and fits exactly when the file is no longer than what the ring takes |
| AlsaRuns.SeekRestartsFifo | cae/driver_alsa.cpp:851-889 | after a seek whose fill fits the ring the same holds from the byte that the seek went to |
| AlsaRuns.PositionIsFilledMinusHeld | cae/driver_alsa.cpp:1841-1866 | for aligned stereo, in every streaming run after a load, the position in frames plus the frames held is the frames filled, and the report is the whole milliseconds of the bytes that have left the ring |
| AlsaRuns.PositionAfterSeek | cae/driver_alsa.cpp:851-889 | the same in every streaming run after a seek, where the position is the frame that the seek went to plus those played since, and the report its whole milliseconds |
| AlsaDelivery.ServiceReads | cae/driver_alsa.cpp:1841-1866 | a service of a playing stream reads as many whole blocks as the room in the ring is worth at the rate of the card, or what is left of the file, moves the cursor on if there is room for a block, appends exactly those bytes as far as they fit, and notes the end of the file only there |
| AlsaDelivery.EverythingIsPlayed | cae/driver_alsa.cpp:1351-1375 | a wave not faster than the card, loaded and started, is played whole and in order and stops exactly once, over every sequence of services and callback rounds that alternate once for each portion of the file and twice more |
| AlsaDelivery.TimerStopsPlay | cae/driver_alsa.cpp:902-919 | an idle stream starts at the speed 100000 and at no other, and its timer stops it if and only if a length was given |
| AlsaRuns.StopsOnlyWhenDelivered | cae/driver_alsa.cpp:324-327 | without a stop or a seek, a stream marks itself as stopping only when every byte of the file has been taken from the ring |
| AlsaRuns.EndsExactlyOnce | cae/driver_alsa.cpp:1351-1366 | once the end of the file is reached, the mark is set within the rounds that drain the ring and one more, and services announce exactly one stop |
| AlsaRuns.PlayAndStopAlternate | cae/driver_alsa.cpp:828-936 | in every run, two announcements of playing have an announcement of stopping or an unload between them |
| AlsaCapture.RecordingConservesFrames | cae/driver_alsa.cpp:1041-1059 | with whole frames and room in the ring, nothing captured is lost or reordered and the length at the unload is the frames captured |
| AlsaCapture.RecordingKeepsAllIff | cae/driver_alsa.cpp:1041-1059 | over any run of a loaded port, file and ring together gain exactly the bytes captured, in order, if and only if every capture finds room in the ring |
| AlsaCapture.CapturedFromStartToStop | cae/driver_alsa.cpp:1062-1092 | what is captured after a load is the unmuted data that came between the start and the stop, and nothing else |
| AlsaCapture.ServedRecordingKeepsAll | cae/driver_alsa.cpp:1366-1374 | with a service behind every callback, a recording files every piece of up to 262143 bytes whole and in order, and the ring is empty |
| AlsaCapture.TimerEndsRecording | cae/driver_alsa.cpp:1417-1425 | a recording with a length ends when its timer fires, and one without goes on |
| AlsaCapture.EncodeInChunks | cae/driver_alsa.cpp:1813-1834 | the chunks passed to the encoder partition the buffer; each has 1152 frames except perhaps the last |
| PlaySessions.HandleOfPair | cae/playsession.cpp:109-124 | a handle gives back the descriptor and serial number it was made of, and is 0 only for 0 and 0; the descriptor is in the high half |
| PlaySessions.PairOfHandle | cae/playsession.cpp:109-124 | every 64-bit value is the handle of its descriptor and serial number |
| PlaySessions.PlaySession.constructor | cae/playsession.cpp:36-46 | the record of a handle, with length 0 and speed 100000 |
| AlsaDriver.DriverAlsa.GetAlsaOutputStream | cae/driver_alsa.cpp:1760-1769 | the first stream of the card without a ring gets one, or -1 if there is none |
| AlsaDriver.DriverAlsa.FillAlsaOutputStream | cae/driver_alsa.cpp:1841-1866 | a 16-bit fill of one stream, which touches no other stream; a read that does not fit the transfer buffer is reported exactly |
| AlsaDriver.DriverAlsa.LoadPlayback | cae/driver_alsa.cpp:768-825 | the first free stream is loaded and filled; a load that fails changes nothing; a counted wave of rate 0 and a first fill that overruns the transfer buffer are reported exactly |
| AlsaDriver.DriverAlsa.UnloadPlayback | cae/driver_alsa.cpp:828-848 | the stream loses its ring and wave and stops; without a ring nothing changes |
| AlsaDriver.DriverAlsa.PlaybackPosition | cae/driver_alsa.cpp:851-899 | the stream moves to the frame that 32 bits leave of a time, or refuses a frame past the end but keeps the offset; a fill that overruns is reported exactly |
| AlsaDriver.DriverAlsa.Play | cae/driver_alsa.cpp:902-919 | a loaded stream that does not play starts at the normal speed, with a timer if a length is given |
| AlsaDriver.DriverAlsa.StopPlayback | cae/driver_alsa.cpp:922-936 | a playing stream stops with an empty ring and no timer |
| AlsaDriver.DriverAlsa.UnloadRecord | cae/driver_alsa.cpp:1041-1059 | the ring goes to the file, its frames count, and the port is free |
| AlsaDriver.DriverAlsa.ProcessStream | cae/driver_alsa.cpp:1356-1365 | a stream marked as stopping stops playing and is announced; one that plays is filled; a fill that overruns is reported exactly |
| AlsaDriver.DriverAlsa.ReportStream | cae/driver_alsa.cpp:1334-1346 | the position of a stream in milliseconds, 0 without a wave; a wave of rate 0 is reported exactly |
| AlsaDriver.DriverAlsa.PlayStream | cae/driver_alsa.cpp:295-328 | one callback round takes a period of bytes, counts their frames and marks the end |
| CaeInvariant.PlayUpdateReachesOwner | cae/cae.cpp:1033-1060 | an announcement goes to the connection of the one session at the place, with its serial number, and to nobody if there is none |
| CaeInvariant.LoadPlaybackGood | cae/cae.cpp:309-352 | a load keeps the invariant and every other client's sessions, slots and locks; it faults if and only if it finds a stream and either its header counts samples at the rate 0 or its first fill reads more than the transfer buffer holds |
| CaeInvariant.UnloadPlaybackGood | cae/cae.cpp:355-396 | an unload keeps the same, and frees exactly its own ring |
| CaeInvariant.PlayPositionGood | cae/cae.cpp:399-436 | a seek keeps the same; it faults if and only if it succeeds and its fill reads more than the transfer buffer holds |
| CaeInvariant.StartPlaybackGood | cae/cae.cpp:439-481 | a play command keeps the same |
| CaeInvariant.UnloadRecordingGood | cae/cae.cpp:579-606 | unloading a recording keeps the same; it faults if and only if the card is served and nobody owns the port |
| CaeInvariant.HaltRecordingGood | cae/cae.cpp:643-656 | stopping a recording keeps the same; it faults if and only if the card is served and the number is beyond the ports |
| CaeRuns.DropIsComplete | cae/cae.cpp:1259-1302 | after a drop no session or lock of the connection is left, and its rings are free |
| CaeRuns.DropIsLocal | cae/cae.cpp:1259-1302 | a drop leaves other connections, sessions, slots, locks and ports as they were |
| CaeRuns.PerformGood | cae/cae_server.cpp:247-302 | the gate before privileged commands keeps the invariant; it faults if and only if an authenticated client sends a privileged command that is one of those listed in `CaeRuns.Misuses` |
| CaeRuns.FeedFaults | cae/cae_server.cpp:180-201 | data leads to a fault if and only if some byte of it, in the state that the bytes before lead to, completes such a command |
| CaeTheorems.RunsKeepSessionsSound | cae/cae.cpp:309-396 | in every reachable state sessions are filed under their handles, belong to live authenticated connections and have rings of their own; a run faults if and only if some event of it does, by a command listed, a fill that overruns or a position report that divides by 0, so never by a message to a lost connection |
| CaeTheorems.OwnerIsUnique | cae/cae.cpp:1331-1341 | in every reachable state the search by card and stream finds the one session there, and 0 means none |
| CaeTheorems.HandleZeroConfuses | cae/cae.cpp:1331-1341 | with a session on descriptor 0 and serial number 0, a stream without a session would be announced to it |
| CaeTheorems.DriverMessagesReachClients | cae/cae.cpp:1033-1089 | every message of a driver event goes to a live authenticated connection |
| CaeTheorems.RecordTimerTellsOwner | cae/driver_alsa.cpp:1417-1425 | in every reachable state, a record timer that fires ends the recording and tells the owner of the port |
| CaeTheorems.RingsAreCounted | cae/driver_alsa.cpp:1760-1776 | the rings allocated are the sessions plus one for each load onto a serial number in use; they are the rings of the sessions if and only if there was no such load |
| CaeTheorems.LostRingsStay | cae/cae.cpp:326-328 | a ring lost by such a load is never freed |
| CaeTheorems.ClientsAreIsolated | cae/cae_server.cpp:180-226 | bytes from one client, and its drop, leave other connections, their sessions with their slots and the owners of their ports as they were |
| CaeTheorems.OthersPortsChange | cae/cae.cpp:609-656 | at a port that another client owns, a privileged command changes the lock exactly when it is a record command that names the port, whose length and threshold are stored, and the port exactly when it is a stop that names it, which ends its recording |
| CaeTheorems.LoadedPortsAreOwned | cae/cae.cpp:534-606 | a record port is loaded exactly while a live authenticated connection owns it |
| CaeTheorems.LocksAreExclusive | cae/cae.cpp:549-606 | the owner of a port changes only between nobody and the client whose bytes arrive or that drops |
| CaeTheorems.LockChangesByLoadAndUnload | cae/cae.cpp:549-606 | a privileged command changes the owner exactly by a granted load, answered with +, and by the owner's unload |
| CaeTheorems.NoOverrunUpToTwice | cae/driver_alsa.cpp:1841-1866 | a wave at most twice as fast as the card never overruns the transfer buffer |
| CaeTheorems.FastWaveOverruns | cae/driver_alsa.cpp:1841-1866 | a stereo wave at 96 kHz on a card at 44.1 kHz overruns it exactly when it is longer than the buffer: the first fill asks for 570648 bytes |
| CaeTheorems.FreshClientFaults | cae/cae.cpp:579-656 | unloading a recording, stopping one beyond the ports, setting an input volume beyond the ports and loading a wave that overruns or counts samples at the rate 0 each fault at once |
| CaeTheorems.FadeOfLengthZeroFaults | cae/driver_alsa.cpp:1143-1168 | after a load that succeeds, a fade of length 0 faults |
| CaeFraming.FeedSplits | cae/cae_server.cpp:180-201 | data split anywhere into two packets leads to the same state |
| CaeFraming.PacketsDoNotMatter | cae/cae_server.cpp:180-201 | data in any packets leads to the same state as the joined data |
| CaeFraming.CommandsArePieces | cae/cae_server.cpp:229-302 | the commands dispatched are the pieces without line breaks that end with ! and are not blank, up to and including the first that closes the connection (DC, a wrong PW, anything else before the right PW), or up to the one at which the daemon faults; the connection still reads if and only if there is neither |
| CaeCommands.LoadCommand | cae/cae_server.cpp:297-312 | the bytes of LP with its arguments load the first free stream of the card with the wave and read ahead what the ring is worth, file the session and answer +, or answer - and change nothing else, or fault |
| CaeCommands.UnloadCommand | cae/cae_server.cpp:313-319 | the bytes of UP remove the session and free its stream |
| CaeCommands.PositionCommand | cae/cae_server.cpp:320-329 | the bytes of PP move the stream to the frame that 32 bits leave of the time, and read on from there; past the end only the offset changes |
| CaeCommands.PlayCommand | cae/cae_server.cpp:330-345 | the bytes of PY store length and speed and start an idle stream at the speed 100000, with a timer for a positive length; the answer carries them |
| CaeCommands.StopCommand | cae/cae_server.cpp:346-352 | the bytes of SP stop a playing stream with an empty ring and no timer, and keep the session |
| CaeCommands.LoadRecordingCommand | cae/cae_server.cpp:360-382 | the bytes of LR take the lock of a free port and open it for 16-bit PCM, or answer - and change nothing |
| CaeCommands.UnloadRecordingCommand | cae/cae_server.cpp:383-392 | the bytes of UR file the ring, free the port and its lock, and answer the whole milliseconds of its frames; for a port that nobody owns they fault |
| CaeCommands.RecordCommand | cae/cae_server.cpp:393-410 | the bytes of RD store length and threshold, and start the recording for the owner only, with a timer for a positive length |
| CaeCommands.StopRecordingCommand | cae/cae_server.cpp:411-422 | the bytes of SR stop a recording, whoever sends them, and tell its owner; beyond the ports they fault |
| CaeCommands.VolumeCommand | cae/cae_server.cpp:423-436 | the bytes of IV are answered, and fault beyond the ports |
| CaeCommands.FadeCommand | cae/cae_server.cpp:448-461 | the bytes of FV are answered, and fault without a length |
| CaeCommands.OtherLinesAreRefused | cae/cae_server.cpp:591-599 | a line with any other verb, or with another number of words, is refused with the words that came |
| CaeCommands.LoginCommand | cae/cae_server.cpp:257-284 | the bytes of PW with the password admit a client, and with any other drop it |
| CaeStreams.StreamsRunAlone | cae/driver_alsa.cpp:768-936 | in every run of the daemon, the run of one stream alone over the events that commands, drops and the driver bring to it gives its state and exactly the bytes that are taken from its ring |
| CaeStreams.DaemonPlaybackIsFifo | cae/driver_alsa.cpp:295-328 | in the daemon, from a load on whose first fill fits the ring, the bytes taken from the ring of a stream followed by those in it are the file up to the cursor |
| CaeStreams.DaemonPlaysEverything | cae/driver_alsa.cpp:1351-1375 | in the daemon, a stream that is loaded and started, and whose services and callback rounds alternate often enough, is played whole and has stopped |
| CaeStreams.DaemonSeekRestartsFifo | cae/driver_alsa.cpp:851-889 | in the daemon, after a seek whose fill fits the ring, the same from the byte that the seek went to |
| CaeStreams.DaemonPositionAccounts | cae/driver_alsa.cpp:1334-1346 | in the daemon, for aligned stereo from a load on, the position in frames plus the frames held is the frames read from the file, and the report is the whole milliseconds of the bytes that have left the ring |
| CaeStreams.DaemonPositionAfterSeek | cae/driver_alsa.cpp:851-889 | in the daemon, the same after a seek, counted from the frame that the seek went to |
| CaeStreams.OnlyLoadsOverrun | cae/driver_alsa.cpp:1841-1866 | in every reachable state neither a service nor a seek overruns the transfer buffer |
| CaeStreams.FaultsComeFromCommands | cae/cae.cpp:1106-1145 | a run faults if and only if bytes that arrive complete a command that does, or the service loop reports the position of a stream on a served card whose wave has the rate 0; fills, callbacks, timers and drops never fault |
| CaeRecordings.PortsRunAlone | cae/driver_alsa.cpp:1041-1092 | in every run of the daemon, the run of one record port alone over the loads, unloads and capture events that commands, drops and the driver bring to it gives its state |
| CaeRecordings.LengthIsFramesCaptured | cae/cae.cpp:579-606 | in the daemon, when each capture since the load brought whole frames and found room, the owner's unload answers with ms such that ms * rate <= 1000 * frames < (ms + 1) * rate, where frames is the number of bytes captured over the two bytes a channel, and the file holds them in order |
| CaeMessages.PlayingIsSaidOnce | cae/cae.cpp:1033-1060 | in every run, between two messages to a client that the stream of a serial number plays there is one that it stopped or was loaded |
| CaeMessages.ClientsAreTold | cae/cae.cpp:1033-1060 | in every reachable state the client of each session has last been told exactly whether its stream plays |
| Caed.MainObject.LoadPlaybackData | cae/cae.cpp:309-352 | the new state and reply are those of the model; where the load faults the daemon halts |
| Caed.MainObject.UnloadPlaybackData | cae/cae.cpp:355-396 | the new state and reply are those of the model |
| Caed.MainObject.PlayPositionData | cae/cae.cpp:399-436 | the new state and reply are those of the model; where the fill would overrun the daemon halts |
| Caed.MainObject.PlayData | cae/cae.cpp:439-481 | length and speed are stored first; the new state and messages are those of the model |
| Caed.MainObject.StopPlaybackData | cae/cae.cpp:484-513 | the new state and messages are those of the model, with two refusals when there is no session |
| Caed.MainObject.LoadRecordingData | cae/cae.cpp:534-576 | the new state and reply are those of the model |
| Caed.MainObject.UnloadRecordingData | cae/cae.cpp:579-606 | the new state and reply are those of the model; without a ring the daemon halts |
| Caed.MainObject.RecordData | cae/cae.cpp:609-640 | length and threshold are stored before the owner is checked; the rest is that of the model |
| Caed.MainObject.StopRecordingData | cae/cae.cpp:643-656 | the new state and messages are those of the model |
| Caed.MainObject.SetInputVolumeData | cae/cae.cpp:659-681 | the answer is that of the model; beyond the ports the daemon halts |
| Caed.MainObject.FadeOutputVolumeData | cae/cae.cpp:733-775 | a fade is answered as in the model; without a length the daemon halts |
| Caed.MainObject.GetPlayHandle | cae/cae.cpp:1331-1341 | the walk over the sessions finds the handle of the session at a place, or 0 |
| Caed.MainObject.KillSessions | cae/cae.cpp:1283-1299 | the walk that erases on the way removes exactly the sessions of the socket and unloads exactly their streams |
| Caed.MainObject.KillSocket | cae/cae.cpp:1259-1302 | the nested loops drop exactly what belongs to the socket |
| Caed.MainObject.ConnectionClosedData | cae/cae_server.cpp:204-226 | everything of the connection is dropped and it is removed |
| Caed.MainObject.ProcessCommand | cae/cae_server.cpp:229-602 | the command accumulated is cleared, gated and dispatched as in the model; a blank one is ignored and kept |
| Caed.MainObject.ReadyReadData | cae/cae_server.cpp:180-201 | the byte loop takes the data as in the model and keeps the invariant |
| Caed.MainObject.ProcessBuffers | cae/driver_alsa.cpp:1351-1375 | the loops over cards, streams and ports are the run of their single steps, announcements included, up to a fault |
| Caed.EveryoneIsServed | cae/driver_alsa.cpp:1351-1375 | these steps are one for each stream and one for each port of every card |
| Caed.MainObject.GetOutputPosition | cae/driver_alsa.cpp:1334-1346 | the loop over the streams of a card reports the position of each, changes none of them, and faults at a wave of rate 0 |
| Caed.MainObject.UpdateMeters | cae/cae.cpp:1092-1162 | the service loop is the run of the services of every card and then of the position reports of every card, announcements included, up to a fault |
| Caed.MainObject.StopTimerData | cae/driver_alsa.cpp:1378-1386 | the stop timer is a step of the model |
| Caed.MainObject.RecordTimerData | cae/driver_alsa.cpp:1417-1425 | the record timer is a step of the model |
| Caed.MainObject.PlayCallback | cae/driver_alsa.cpp:256-331 | one round of the callback takes from the rings what the run of its steps over the streams of the card takes |
| Caed.AllOfAre | cae/driver_alsa.cpp:256-331 | the steps of a round or of a report over a card are one for each of its streams, in order |
| Fades.Fader.FadeOutputVolume | cae/driver_alsa.cpp:1143-1168 | direction, target, increment and timer of a fade to any level and of any length but 0 |
| Fades.Fader.FadeTimerData | cae/driver_alsa.cpp:1389-1414 | one tick of a fade, with the level in a short or in an int |
| Fades.FadesConverge | cae/driver_jack.cpp:1378-1400 | when the last level fits (`Fades.Lands`), each tick goes strictly towards the target and never past it, and the timer stops on the target after the difference over the increment, rounded up, ticks |
| Fades.FadesKeepTime | cae/driver_jack.cpp:1125-1153 | a fade takes at least its length, and less than twice its length and one interval |
| Fades.FadeIsOnTimeIff | cae/driver_alsa.cpp:1389-1414 | a fade to any level is on it after n ticks, its difference over its increment rounded up, if and only if the level is from mute to 32767 and, in the ALSA driver, v + n * inc <= 32767 upwards or v - n * inc >= -32768 downwards, in the JACK driver inc <= 32767 |
| Fades.ShortFadeIsOnTimeIff | cae/driver_alsa.cpp:1143-1168 | a fade shorter than one interval to another level has one tick, and is on its target after it if and only if the level is from mute to 32767 and what the tick computes, the old level and the increment in the driver's integers, is not short of it |
| Fades.FadeReachesTargetIff | cae/driver_alsa.cpp:1125-1168 | a fade whose last level fits stops on its target if and only if the target is not below mute and there is nothing to do or the fade is not too long for its difference |
| Fades.AlsaFadesWrap | cae/driver_alsa.cpp:1389-1414 | inputs on both sides of that condition: 0 to 32000 in 200 ms arrives; 0 to 32767 in 163 ms falls back to mute in the ALSA driver and arrives in the JACK driver |
| Positions.PcmSeekAndReport | cae/driver_jack.cpp:819-827 | a PCM seek goes to the frame asked for if and only if the byte offset is below 2^32 and the frame fits the int that holds it, which from two bytes a block on it always does; the report of a frame that is not negative is never past the time asked for, and from a rate of 1000 on it is at most a millisecond before it if and only if the same holds |
| Positions.ByteBlocksTurnNegative | cae/driver_jack.cpp:819-827 | for blocks of one byte at 48 kHz a seek to 44739243 ms has a byte offset below 2^32 and goes to a negative frame |
| Positions.MpegSeekAndReport | cae/driver_alsa.cpp:872-880 | an MPEG seek goes to a sample less than 1152 before the one asked for if and only if the start of the frame is below 2^31; then it is a multiple of 1152, the byte is that many frames of the frame size, and the report lags by less than 1152000 over the rate plus one |
| Positions.SeekIsReported | cae/driver_alsa.cpp:1334-1346 | the same as for PCM for the position that the ALSA model reports after a seek that succeeds |
| Positions.FarSeekStartsOver | cae/driver_alsa.cpp:860-869 | in a 48 kHz stereo file a seek to 22369622 ms, whose byte is 2^32 + 128, goes to frame 32 and reports 0 |
| JackMixer.JackClient.JackProcess | cae/driver_jack.cpp:73-277 | every sample of a registered output is the sum of the inputs with positive passthrough gain and of the streams that played with positive gain, although the streams share one buffer: for one stream its gain times the even samples of its ring on the left and the odd ones on the right, or each sample on both sides, and 0 past the last whole frame; for two streams the sum of both; for one input its samples times its gain. Ended streams that are heard stop |
| JackMixer.JackClient.ReadStream | cae/driver_jack.cpp:203-229 | the shared buffer holds the oldest samples of the ring, which are taken from it |
| JackMixer.JackClient.MixPorts | cae/driver_jack.cpp:237-271 | a stream is added to each registered output with a positive gain, and stops if it is short, ended and heard |
| JackMixer.SilentStreamsDoNotMatter | cae/driver_jack.cpp:237-240 | streams without a positive gain on a port do not enter its mix |
| PlayCounts.RollUp | lib/export_soundex.cpp:88-148 | on rows ordered by cart each cart but 0 gets one line, in order, with the details of its first row and its count; the counts add up to the rows listed |
| PlayCounts.SpinCount | lib/export_spincount.cpp:78-84 | the map has exactly the carts of the rows, each with its count |
| PlayCounts.PlaysAreRows | lib/export_spincount.cpp:78-84 | a count is the number of rows of the cart |
| PlayCounts.DetailsAreFirst | lib/export_soundex.cpp:88-148 | the details of a cart are those of its first row |
| PlayCounts.PlaysOfPermutation | lib/export_spincount.cpp:78-84 | a count does not depend on the order of the rows |
| PlayCounts.CountsAgree | lib/export_soundex.cpp:88-148 | on the same rows in any order the two reports list the same carts but 0 with the same counts |
| Archive.CopyPayload | importers/nexgen_filter.cpp:271-277 | the block loop and the last read copy the length, or one block less when the length is a positive multiple of the block size |
| Archive.ProcessArchive | importers/nexgen_filter.cpp:254-280 | the loop over headers extracts what `Archive.Extract` says |
| Archive.HeaderKeepsLength | importers/nexgen_filter.cpp:254-270 | the length read from a header is the one written into its last four bytes, low byte first |
| Archive.ExtractInvertsIff | importers/nexgen_filter.cpp:254-280 | extracting what has been archived gives back the records if and only if no payload is a positive multiple of the block size or so long that the loop variable wraps |

## Left out

- The command line of the minifier, whose arguments are written as comments before the output.
- Input and output of the minifier are strings; end of input, once read, stays end of input.
- Waves other than 16-bit PCM with one or two channels: 24-bit reads, MPEG decoding with MAD and Vorbis are foreign code, and a wave is a byte sequence with a cursor.
- Sample rate conversion rounds as the floor of an exact quotient; the source goes through a double.
- AlsaDelivery.EverythingIsPlayed: waves faster than the card are not covered, since a fill can ask for more than the ring takes (`AlsaRuns.PlaybackIsFifoIff`).
- CaeStreams.DaemonPlaysEverything: the same.
- AlsaRuns.PositionIsFilledMinusHeld: only stereo with a period that is a multiple of four bytes, because a mono read of another length drops a frame.
- AlsaRuns.PositionAfterSeek: the same.
- AlsaStream.Step says what an event does when it does not fault; `AlsaStream.StepFaults` says when it does.
- Wave headers: a wave is 16-bit PCM with one or two channels, blocks of two bytes a channel and any rate below 2^32, 0 included; other block sizes and channel numbers, by which the source would divide, are not modelled.
- AlsaDriver.DriverAlsa.FillAlsaOutputStream: only 16-bit PCM; the 24-bit and MPEG branches are not modelled.
- AlsaDriver.DriverAlsa.LoadPlayback: only waves of 16-bit PCM; the start of the MPEG decoder is not modelled.
- AlsaDriver.DriverAlsa.PlaybackPosition: only 16-bit PCM with blocks of two bytes a channel, and a timer is armed or not, without its time.
- AlsaDriver.DriverAlsa.PlayStream: what the round takes from the ring, without its meters and the mixing of the samples into the card buffer.
- Caed.MainObject.PlayCallback: the same, without the passthroughs and meters.
- Caed.MainObject.LoadRecordingData: refuses recordings other than 16-bit PCM, which the source accepts.
- ALSA mixing of samples into the card buffer, meters and dB conversion, which use floating point and 16-bit truncation.
- Recordings other than 16-bit PCM with one or two channels are refused in the model; MPEG encoding is covered only by the chunks passed to the encoder, and voice-activated recording not at all.
- AlsaCapture.RecordingConservesFrames: assumes that the ring has room for each capture, because the source drops what does not fit; `AlsaCapture.RecordingKeepsAllIff` says that without room bytes are lost for good.
- CaeRecordings.LengthIsFramesCaptured: assumes the same.
- Caed.MainObject.SetInputVolumeData: only the answer and the fault; the volume itself is not modelled.
- Caed.MainObject.FadeOutputVolumeData: only the answer and the fault; the fade itself is that of `Fades`.
- Caed.MainObject.UpdateMeters: without input states and meters, and positions are read and not sent.
- The level of voice activation of an input (IX), which the ALSA driver ignores.
- Volumes, meters, clocks and input states are not part of the daemon's state; of the commands on them only IV and FV are modelled with their arguments and replies, because they can fault.
- Faults that come from arithmetic: an increment of a fade whose difference times 100 does not fit an int, and the quotient of the smallest int by -1.
- Replies are data, not text: the printed form, with %d for large unsigned numbers, is not modelled.
- Number parsing is a parameter of the model, since it belongs to Qt; the password, the audio store and the system sample rate are parameters too.
- The HPI and JACK drivers inside the daemon: every served card belongs to one ALSA driver, because dropping a connection asks the driver of the loop's card and not of the session's.
- Connections whose descriptor is 0: excluded from runs, because 0 stands for no handle; `CaeTheorems.HandleZeroConfuses` shows why.
- Caed.MainObject.GetPlayHandle: visits the sessions in any order, where the source goes by ascending handle; the result does not depend on it.
- Caed.MainObject.ProcessCommand: CaeServer emits Qt signals that MainObject receives; here the same object calls its own slots directly. The other mixer, meter, clock and status commands are recognised by their verb and change nothing; their argument checks and replies are not modelled.
- Logging, sockets, timers as such, provisioning, database and device start-up.
- Fades.FadeIsOnTimeIff: lengths from one interval on, since `Fades.ShortFadeIsOnTimeIff` has the shorter ones; lengths from 2^31 on, which an int reads as negative, are not modelled.
- Fades.FadeReachesTargetIff: does not say whether a fade that misses its target on time comes back to it later, after wrapping around.
- Fades.Fader.FadeOutputVolume: the difference times 100 is exact, where the source can overflow an int for levels far outside a short.
- JackMixer.JackClient.JackProcess: without the recording branch, the rounded position counter, the meters and the time stretching; output ports are registered in pairs, and rings hold whole samples.
- The text of the reports apart from cart details and counts, and the database query that orders the rows.
- Archive.ProcessArchive: file names, failing opens and the import that follows; the block size is the same for all files.
- Archive.ExtractInvertsIff: a loop variable that wraps around 2^32 is taken to go on for ever, as it does for block sizes that are powers of two.
- Other importers, other report exporters and the rest of the repository.
