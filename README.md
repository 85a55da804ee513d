# Countdown announcer: a verified model of its audio pipeline

The system is an ESP32 sketch that counts down aloud. After a number from 0 to 999 arrives on the serial line, it plays a short 16-bit PCM WAV clip for every number from that value down to 0. Each number is spoken by combining small clips (`/2.wav`, `/100.wav`, `/40.wav`, `/7.wav`, …) stored on the flash file system. The audio flows through a pull pipeline:

- **WAV decoder** (`WAVFileReader`). It takes the channel count, sample rate and data length from the packed 44-byte canonical header. It then hands out left/right frames from byte 44 on: one sample per frame for mono (copied to both channels), two samples otherwise. Once its byte counter reaches the data length, it pads with silence.
- **Playlist** (`PlaylistSampleSource`). It holds a fixed path list, an index and one reader slot. Each `getFrames` call goes once to the current reader. If that reader is finished afterwards, the next path is opened. When the list is used up, the playlist plays silence forever.
- **I2S writer task** (`i2sWriterTask` in `I2SOutput.cpp`). It asks the source for blocks of 256 frames and multiplies every sample by 2.5, truncating toward zero and clamping to 16 bits. It then drains the 1024-byte block into the peripheral, which may accept any part of it per write.
- **Sketch** (`main.cpp`). It turns each number into clip names, keeps the names whose files exist, snapshots them, and replaces the previous playlist and engine with new ones. Its `loop()` starts a countdown on valid input and tears the engine down at an estimated deadline.

Each part is specified twice: a pure state value with a function giving the meaning of one call, and a class modelling the C++ object, proved to do what that function says.

| file | module | models |
|---|---|---|
| `pcm.dfy` | `Pcm` | bytes, fixed-width integers, little-endian codec, `Frame_t` |
| `wav_format.dfy` | `WavFormat` | the packed `wav_header_t` layout, decode/encode, what a playable file is |
| `wav_file.dfy` | `WavFile` | `Reader` value, `ReadFrames`, class `WavFileReader` |
| `playlist.dfy` | `Playlist` | `PlaylistState` value, `PlaylistFrames`, runs of calls, class `PlaylistSampleSource` |
| `i2s.dfy` | `I2S` | gain and clamp, the byte view of frames, the peripheral `I2SPort`, class `WriterTask`, class `I2SOutput` |
| `countdown.dfy` | `Countdown` | clip paths, the per-number decomposition, the countdown list, the existence filter |
| `sketch.dfy` | `Sketch` | class `Controller` (the sketch's globals), `startFullCountdown`, `loop()`, the teardown log |

Inputs from the environment are parameters:

- **Flash file system.** `FileSystem` (a `map<string, seq<byte>>`); a path exists when it is a key. Clip paths carry a leading slash, as `/0.wav`, as the code writes them.
- **Serial line reading.** An `Option<int>`, the integer `toInt()` produced or `None` when no line was available.
- **`millis()`.** Two `uint32` clock readings.
- **Driver installation.** Whether `i2s_driver_install` succeeded, as a `bool`.
- **Peripheral.** An `I2SPort` object with a room fixed when it is made and never replenished, so over its life the port takes at most that many bytes. Each write accepts any number of bytes up to both the request and the room left.

## Model

| member | source | states |
|---|---|---|
| Pcm.FromLEToLE | src/WAVFileReader.cpp:32-36 | decoding the little-endian bytes of a value of `width` bytes gives that value back |
| Pcm.ToLEFromLE | src/WAVFileReader.cpp:32-36 | encoding the value of a byte string in its own width gives the same bytes back |
| Pcm.ToSigned | src/WAVFileReader.cpp:12-19 | the two's-complement reading of a field lies in the signed range and differs from the raw value by 0 or 256^width |
| Pcm.ToUnsigned | src/WAVFileReader.cpp:12-19 | the bit pattern of a signed value is in range and reads back as that value |
| Pcm.Int16AtIsLE | src/WAVFileReader.cpp:55 | a 16-bit sample read at an offset is the two's-complement little-endian value of those two bytes |
| Pcm.Int16Bytes | src/WAVFileReader.cpp:55 | the two bytes memory holds for a sample read back as that sample |
| Pcm.SilenceBlock | src/WAVFileReader.cpp:50-51 | n frames, each `{0,0}` |
| Pcm.Count | src/WAVFileReader.cpp:47 | definition: the frames a `for (i = 0; i < n; i++)` loop touches, n or none for a negative n; its meaning is stated by `Playlist.PlaylistFrames` and `Playlist.ExhaustedStaysSilent` |
| WavFormat.HeaderLayout | src/WAVFileReader.cpp:6-20 | the packed struct is 44 bytes, with `num_channels` at 22..23, `sample_rate` at 24..27 and `data_bytes` at 40..43 |
| WavFormat.Field | src/WAVFileReader.cpp:6-20 | each field's bytes have the width its type declares |
| WavFormat.DecodeHeader | src/WAVFileReader.cpp:31-32 | reading the struct from any 44 or more bytes yields a header with four-byte tags |
| WavFormat.EncodeHeader | src/WAVFileReader.cpp:6-20 | the packed form of a header is exactly 44 bytes |
| WavFormat.Int16RoundTrip | src/WAVFileReader.cpp:12-17 | a `short` field survives being stored and read back |
| WavFormat.Int32RoundTrip | src/WAVFileReader.cpp:8-19 | an `int` field survives being stored and read back |
| WavFormat.HeaderRoundTrip | src/WAVFileReader.cpp:6-20 | decoding the packed bytes of any header gives that header back |
| WavFormat.HeaderFieldsAtOffsets | src/WAVFileReader.cpp:6-20 | the decoded channel count, rate and data length are the little-endian values at bytes 22..23, 24..27 and 40..43 |
| WavFormat.BytesPerFrame | src/WAVFileReader.cpp:55-62 | a frame takes 2 bytes for mono and 4 for any other channel count |
| WavFormat.RoundUp | src/WAVFileReader.cpp:49-62 | where the counter stops: a multiple of the frame size at or past the data length, by less than one frame |
| WavFormat.DataBytes | src/WAVFileReader.cpp:36 | the signed `data_bytes` field becomes a `uint32_t` with the same bit pattern: unchanged when non-negative, 2^31 or more when negative |
| WavFormat.Playable | src/WAVFileReader.cpp:30-39 | a file the decoder can read holds the whole header and at least the data length it declares |
| WavFile.Open | src/WAVFileReader.cpp:23-39 | a playable file opens to a consistent reader of that file with the counter at 0 |
| WavFile.OpenUsesHeaderOffsets | src/WAVFileReader.cpp:34-39 | the reader keeps the fields at bytes 22, 24 and 40, and starts finished exactly when the data length is 0 |
| WavFile.RoomForFrame | src/WAVFileReader.cpp:49-62 | an unfinished reader has a whole frame left before the counter's stopping point |
| WavFile.AdvanceValid | src/WAVFileReader.h:13-14 | reading one more frame stays inside the file and keeps the reader consistent |
| WavFile.SampleFrame | src/WAVFileReader.cpp:55-62 | definition: the frame whose first byte is at a position, one sample copied into both channels for mono, two consecutive samples otherwise |
| WavFile.NextFrame | src/WAVFileReader.cpp:49-63 | one pass of the loop keeps the reader consistent; file, channels, rate and data length unchanged |
| WavFile.NextFrameReads | src/WAVFileReader.cpp:55-62 | an unfinished reader reads a mono sample at 44 + counter (copied to both channels, counter + 2), or left and right at 44 + counter and +2 (counter + 4), with no 32-bit wrap |
| WavFile.FinishedIffStalled | src/WAVFileReader.h:21 | a consistent reader is finished exactly when one more pass of the loop leaves it unchanged, and that pass then yields `{0,0}` |
| WavFile.ReadFrames | src/WAVFileReader.cpp:46-64 | `getFrames(n)` yields n frames, keeps the header fields, never decreases the counter, and a finished reader stays finished |
| WavFile.FinishedCounter | src/WAVFileReader.h:21 | a finished reader's counter sits exactly at the rounded-up data length |
| WavFile.Reader.Finished | src/WAVFileReader.h:21 | `m_bytes_read >= m_data_bytes` over the reader value; its meaning is stated by `FinishedCounter` and `FinishedIffStalled` |
| WavFile.ReadFramesAt | src/WAVFileReader.cpp:46-64 | frame j of a call is the reader's j-th frame from where it stood; the counter after n frames is `Advanced` |
| WavFile.AdvancedIsBounded | src/WAVFileReader.cpp:49-62 | after n frames the counter is min(start + n·frame size, rounded-up data length) |
| WavFile.Block | src/PlaylistSampleSource.cpp:37 | the block the playlist asks of a reader has n frames and keeps the reader consistent, non-decreasing and finished once finished |
| WavFile.BlockIsReadFrames | src/PlaylistSampleSource.cpp:37 | that block is the reader's own `getFrames(n)` |
| WavFile.BlockSplit | src/WAVFileReader.cpp:46-64 | a block of a + b frames is a block of a followed by a block of b |
| WavFile.NextFrameAt | src/WAVFileReader.cpp:46-64 | the next frame of a reader j frames in is the j-th frame from the start point |
| WavFile.FinishedReadsSilence | src/WAVFileReader.cpp:49-53 | a finished reader yields only `{0,0}` frames and changes nothing |
| WavFile.MonoFramesAreDual | src/WAVFileReader.cpp:58-59 | every frame of a mono file has left == right |
| WavFile.ReadFramesSplit | src/WAVFileReader.cpp:46-64 | `getFrames(a + b)` equals `getFrames(a)` then `getFrames(b)` |
| WavFile.FromStartFrames | src/WAVFileReader.cpp:39-62 | from a fresh reader, the k-th frame of a call is the mono sample at 44 + 2k, or the stereo pair at 44 + 4k and 44 + 4k + 2 |
| WavFile.FrameAtFromStart | src/WAVFileReader.cpp:39-62 | the same byte positions for the reader's k-th frame in general |
| WavFile.StereoOverread | src/WAVFileReader.cpp:49-62 | a stereo file whose data length is 2 mod 4 ends with the counter 2 bytes past the data |
| WavFile.WavFileReader.constructor | src/WAVFileReader.cpp:23-39 | the object is the reader `Open` gives, with the cursor at byte 44 |
| WavFile.WavFileReader.SampleRate | src/WAVFileReader.h:19 | the object's `sampleRate()` is the rate of the reader value it models |
| WavFile.WavFileReader.IsFinished | src/WAVFileReader.h:21 | the object reports finished exactly when the reader value it models is finished |
| WavFile.WavFileReader.ReadInt16 | src/WAVFileReader.cpp:55 | a read returns the 16-bit value at the cursor and advances it by 2 |
| WavFile.WavFileReader.FrameInto | src/WAVFileReader.cpp:48-63 | one pass stores frame i as `NextFrame` says and touches no other array cell |
| WavFile.WavFileReader.GetFrames | src/WAVFileReader.cpp:46-64 | `frames[0..n)` and the new state are `ReadFrames` of the old state; the rest of the array is unchanged |
| Playlist.Readers | src/PlaylistSampleSource.cpp:3-4 | the i-th path opens to the i-th reader, none read yet |
| Playlist.OpenAt | src/PlaylistSampleSource.cpp:13-20 | definition: `openNext` at index i fills the slot with reader i and index i + 1 when a path is left, otherwise empties it; its meaning is stated by `OpenAtInv` |
| Playlist.OpenAtInv | src/PlaylistSampleSource.cpp:13-20 | `openNext` keeps the index within the list and the slot on file index - 1; the slot is emptied only at the list's end |
| Playlist.Start | src/PlaylistSampleSource.cpp:3-7 | a non-empty list opens its first file with index 1; an empty list leaves index 0 and no reader |
| Playlist.Rate | src/PlaylistSampleSource.cpp:22-24 | the current reader's rate, or 0 with an empty slot; its meaning is stated by `RateIsHeaderRate` |
| Playlist.RateIsHeaderRate | src/PlaylistSampleSource.cpp:22-24 | the playlist's rate is the rate in the header of the file at index - 1, and 0 once the list is used up |
| Playlist.PlaylistFrames | src/PlaylistSampleSource.cpp:26-50 | a call yields exactly the frames a `for` over n touches |
| Playlist.FramesKeepInv | src/PlaylistSampleSource.cpp:26-50 | every call keeps the playlist invariant: index within the list, slot reading file index - 1 |
| Playlist.GetFramesAdvancesOnce | src/PlaylistSampleSource.cpp:40-48 | a call moves the index by at most one, only when the reader that served it is finished; a kept reader is the same file further on |
| Playlist.BlockComesFromOneFile | src/PlaylistSampleSource.cpp:34-48 | with a reader and n > 0 the block is that reader's `getFrames(n)`, never another file's audio |
| Playlist.AfterSplit | src/PlaylistSampleSource.cpp:26-50 | a + b calls end where b calls end after the first a |
| Playlist.PlayedSplit | src/PlaylistSampleSource.cpp:26-50 | the audio of a + b calls is that of a followed by that of b |
| Playlist.ExhaustedStaysSilent | src/PlaylistSampleSource.cpp:27-31 | with no reader every call yields silence and leaves the state as it is, forever |
| Playlist.BlockMakesProgress | src/PlaylistSampleSource.cpp:35-42 | a block from an unfinished reader advances its counter |
| Playlist.FileEnds | src/PlaylistSampleSource.cpp:37-42 | after a computed number of calls the current file is finished and the next path is opened |
| Playlist.FilePlaysWhole | src/PlaylistSampleSource.cpp:37-42 | those calls hand out the whole file padded with silence to a whole number of blocks |
| Playlist.ServeBlock | src/PlaylistSampleSource.cpp:34-48 | one call's block, and whether it leaves the reader or opens the next path |
| Playlist.OneFileThenRest | src/PlaylistSampleSource.cpp:13-20 | opened at file i, the playlist serves file i to its end and then stands opened at file i + 1 |
| Playlist.OneFileThenRestPlayed | src/PlaylistSampleSource.cpp:37-42 | those calls hand out file i whole and padded, then what the calls from file i + 1 hand out |
| Playlist.FirstFileThenRest | src/PlaylistSampleSource.cpp:13-20 | the block count and the padded audio of the files from i on are file i's followed by those of the files after it |
| Playlist.ListEnds | src/PlaylistSampleSource.cpp:13-19 | from the first file, the list is used up after the files' total number of blocks |
| Playlist.PlaysFilesInOrder | src/PlaylistSampleSource.cpp:26-50 | those calls hand out every file in list order, each padded to whole blocks, nothing else |
| Playlist.PlaylistSampleSource.constructor | src/PlaylistSampleSource.cpp:3-7 | the path list is copied, and the state is `Start` of the readers it opens to |
| Playlist.PlaylistSampleSource.OpenNext | src/PlaylistSampleSource.cpp:13-20 | the old reader is dropped, and the state becomes `OpenAt` of the old index |
| Playlist.PlaylistSampleSource.SampleRate | src/PlaylistSampleSource.cpp:22-24 | the current reader's rate, 0 with an empty slot |
| Playlist.PlaylistSampleSource.GetFrames | src/PlaylistSampleSource.cpp:26-50 | `frames[0..n)` and the new state are `PlaylistFrames` of the old state; the rest of the array is unchanged |
| Playlist.PlaylistSampleSource.Delegate | src/PlaylistSampleSource.cpp:34-49 | the delegating loop runs once and does what `PlaylistFrames` says |
| I2S.HalfTowardZero | src/I2SOutput.cpp:45-46 | halving rounds toward zero, as the float-to-`int32_t` conversion truncates |
| I2S.Clamp16 | src/I2SOutput.cpp:49-52 | definition: in-range values pass, larger ones become 32767 and smaller ones -32768; its meaning is stated by `AmplifyBoosts` and `AmplifyMonotone` |
| I2S.Amplify | src/I2SOutput.cpp:43-52 | a sample times 2.5, truncated toward zero, saturating at 13107 and -13108 and beyond |
| I2S.GainFrame | src/I2SOutput.cpp:44-56 | a boosted frame is silent exactly when the frame was, and a frame with equal channels keeps them equal |
| I2S.Gained | src/I2SOutput.cpp:44-56 | a boosted block has as many frames, and its silent frames are exactly the input's silent frames |
| I2S.AmplifyExamples | src/I2SOutput.cpp:43-52 | 20000 → 32767, -15000 → -32768, 100 → 250, -1 → -2, 0 → 0 |
| I2S.AmplifyBoosts | src/I2SOutput.cpp:43-52 | the gain never moves a sample toward zero |
| I2S.AmplifyMonotone | src/I2SOutput.cpp:43-52 | the gain keeps the order of samples |
| I2S.GainedSplit | src/I2SOutput.cpp:44-56 | boosting is frame by frame, so it distributes over concatenation |
| I2S.ApplyGain | src/I2SOutput.cpp:44-56 | the loop boosts both channels of every one of the 256 frames in place |
| I2S.FrameBytes | src/I2SOutput.cpp:58 | a frame is 4 bytes in memory |
| I2S.ToBytes | src/I2SOutput.cpp:65 | the byte view of n frames is 4n bytes |
| I2S.FromToBytes | src/I2SOutput.cpp:65 | the byte view of frames determines the frames |
| I2S.ToBytesSplit | src/I2SOutput.cpp:65 | the byte view of two runs of frames is the two byte views in order |
| I2S.I2SPort.Write | src/I2SOutput.cpp:65-66 | a write takes a prefix of the data no longer than the room left, and appends it to what the peripheral holds |
| I2S.RefillBuffers | src/I2SOutput.cpp:37-60 | a refill once the block is used up appends the new block to the stream and makes all 1024 bytes available from position 0 |
| I2S.SendBuffers | src/I2SOutput.cpp:62-69 | a write of w bytes moves the next w bytes of the block to the peripheral and shifts the two counters by w |
| I2S.RefillExtends | src/I2SOutput.cpp:37-60 | one more refill appends the boosted bytes of the next block the playlist serves |
| I2S.StreamGrows | src/I2SOutput.cpp:37-60 | the task's record of blocks, source state and boosted bytes extends by one block per refill |
| I2S.RefillBlock | src/I2SOutput.cpp:37-60 | `getFrames(256)` then the gain loop: the boosted block's bytes extend the task's stream by one block, and the invariant holds with all 1024 bytes available |
| I2S.WriterTask.constructor | src/I2SOutput.cpp:14-24 | the task starts with no bytes available, position 0, nothing fetched or written |
| I2S.I2SOutput.constructor | src/main.cpp:94 | a new output has no source and no port |
| I2S.WriterTask.Refill | src/I2SOutput.cpp:37-60 | a refill fetches one block, appends its boosted bytes to the stream, leaves `availableBytes` = 1024 and `buffer_position` = 0, and sends nothing |
| I2S.WriterTask.Send | src/I2SOutput.cpp:62-69 | one write hands the peripheral the next `written` bytes of the block from `buffer_position` on; `availableBytes` falls and `buffer_position` rises by that much |
| I2S.WriterTask.Step | src/I2SOutput.cpp:35-69 | one pass of the `do` body: with no bytes available it fetches one block and writes from position 0, otherwise it writes on from `buffer_position`; the counters move by the bytes written, the stream and the peripheral's bytes only grow, and the invariant holds (the peripheral holds the boosted stream minus the bytes still available) |
| I2S.WriterTask.OnTxDone | src/I2SOutput.cpp:32-70 | the inner loop ends only after a write of 0 bytes, with the invariant kept; the blocks fetched, the stream and the peripheral's bytes only grow |
| I2S.I2SOutput.Start | src/I2SOutput.cpp:76-108 | `start` binds the source and port, takes the source's current rate, and creates a writer task exactly when the driver installs |
| Countdown.Digit | src/main.cpp:45 | the decimal digit character of 0..9 |
| Countdown.Path | src/main.cpp:45 | the clip name of a number starts with `/` and ends with `.wav` |
| Countdown.Decimal | src/main.cpp:45 | `String(n)`: decimal digits only, one character exactly for n < 10, and no leading zero |
| Countdown.ParseDecimalOfDecimal | src/main.cpp:45 | the decimal string of n reads back as n |
| Countdown.PathRoundTrip | src/main.cpp:45 | the number of the path `/n.wav` is n |
| Countdown.PathInjective | src/main.cpp:45 | `/a.wav` and `/b.wav` are the same path exactly when a == b |
| Countdown.LiteralClips | src/main.cpp:39-46 | the literals `/0.wav` and `/100.wav` are the paths of 0 and 100 |
| Countdown.RemainderNames | src/main.cpp:49-57 | definition: remainder 0 gives no names, 1..20 or a multiple of 10 gives `/r.wav`, any other the tens then the units; its meaning is stated by `HeardRemainder` |
| Countdown.HundredsNames | src/main.cpp:44-47 | definition: the hundreds clip then `/100.wav`, none when there are no hundreds; its meaning is stated by `HeardNumberNames` |
| Countdown.NumberNames | src/main.cpp:38-58 | definition: 0 gives `/0.wav`, otherwise the hundreds names before the remainder's, 1 to 4 names; its meaning is stated by `HeardNumberNames` and `NumberNamesArePaths` |
| Countdown.NumberNamesArePaths | src/main.cpp:38-58 | every name any number produces is the clip path of the number it names |
| Countdown.ZeroExample | src/main.cpp:38-39 | 0 → `/0.wav` |
| Countdown.TeenExample | src/main.cpp:49-51 | 15 → `/15.wav` |
| Countdown.TensUnitsExample | src/main.cpp:52-56 | 47 → `/40.wav`, `/7.wav` |
| Countdown.HundredsExample | src/main.cpp:41-51 | 200 → `/2.wav`, `/100.wav`, and 230 → `/2.wav`, `/100.wav`, `/30.wav` |
| Countdown.LargestExample | src/main.cpp:41-57 | 999 → `/9.wav`, `/100.wav`, `/90.wav`, `/9.wav` |
| Countdown.NamesAreClips | src/main.cpp:37-59 | for 0..999 every name is the path of one of the clips 0..20, 30..90 or 100 |
| Countdown.HeardRemainder | src/main.cpp:49-57 | the clips of a remainder add up to it |
| Countdown.HeardNumberNames | src/main.cpp:37-59 | the clips of n, heard as spoken (a following `/100.wav` multiplies), say n |
| Countdown.SpokenFront | src/main.cpp:37 | the countdown from hi is hi's names followed by the countdown from hi - 1 |
| Countdown.SpokenLength | src/main.cpp:37-59 | a countdown over k numbers has between k and 4k names |
| Countdown.SpokenArePaths | src/main.cpp:37-59 | every name of a countdown, before filtering, is a clip path |
| Countdown.ReservePerNumberTooSmall | src/main.cpp:26-27 | the capacity reserved per number (two names) is exceeded: 111 gives three names, 999 gives four |
| Countdown.ReservePerNumberCorrected | src/main.cpp:26-27 | four names per number bound every number, so `4 * (start + 1)` covers the candidate list and the filtered list of any start |
| Countdown.Candidates | src/main.cpp:37 | the names of `start`, `start - 1`, …, 0 in that order; stated by `CandidatesStep` and `CandidatesLength` |
| Countdown.CandidatesStep | src/main.cpp:37-59 | the unfiltered list for start is start's names then the list for start - 1 |
| Countdown.CandidatesLength | src/main.cpp:37-59 | no names for a negative start; otherwise between start + 1 and 4(start + 1) |
| Countdown.Filter | src/main.cpp:29-35 | no more names than offered, and each kept name exists |
| Countdown.Keep | src/main.cpp:29-35 | what `tryEnqueue` adds for one path; stated by `FilterShort` |
| Countdown.FilterShort | src/main.cpp:29-35 | keeping a name gives the name when it exists and nothing otherwise, and filtering one or two names is keeping each in turn |
| Countdown.FilterMembers | src/main.cpp:29-35 | a name is kept exactly when it is offered and exists |
| Countdown.FilterAppend | src/main.cpp:29-37 | filtering is name by name, so order is preserved across concatenation |
| Countdown.FilterKeepsPresent | src/main.cpp:29-35 | when every name exists, all are kept |
| Countdown.FilterKeepsPaths | src/main.cpp:29-35 | filtering keeps clip paths clip paths |
| Sketch.Logged | src/main.cpp:75-83 | logging a stop, release or creation that keeps the teardown rules keeps the whole log ordered |
| Sketch.ValidInput | src/main.cpp:113-115 | definition: a read of the serial line that starts a countdown is an integer in 0..999; no line available is `None` |
| Sketch.Found | src/main.cpp:86-89 | definition: the countdown asked for has at least one clip on the file system, so `filePtrs` is not empty |
| Sketch.Deadline | src/main.cpp:119 | the deadline is (input + 1)·1800 ms after the start clock, or earlier than it when 32-bit `unsigned long` wraps |
| Sketch.LoopAsWritten | src/main.cpp:108-135 | `loop()` as written: only a valid input starts a run; a running sketch stays as it is or returns to idle |
| Sketch.AsWrittenStuck | src/main.cpp:113-135 | input 0 with no clip found leaves `running` set with no engine, and no later pass changes that |
| Sketch.NoClipsNotFound | src/main.cpp:37-39 | without `/0.wav` the countdown from 0 has no clips |
| Sketch.StartCorrected | src/main.cpp:113-124 | definition: the start branch, where an idle sketch with valid input runs with the deadline exactly when clips were found and a running sketch or an invalid input changes nothing; its meaning is stated by `CorrectedNeverStuck` |
| Sketch.Finishes | src/main.cpp:127 | the finish branch fires when a countdown runs with its engine and the clock has reached the deadline |
| Sketch.LoopCorrected | src/main.cpp:108-135 | `running` is set only by a valid input whose clips exist; a running sketch stays as it is or returns to idle |
| Sketch.CorrectedNeverStuck | src/main.cpp:108-135 | `running` holds exactly while the engine exists, a run ends once the clock reaches its deadline, and a valid input with clips starts a run |
| Sketch.Launch | src/main.cpp:92-95 | a fresh playlist over the list and a fresh engine started on it |
| Sketch.LoggedLaunch | src/main.cpp:92-95 | creating the playlist, then creating and starting the engine, keeps the log ordered and the engine alive |
| Sketch.ListedClipsPlayable | src/main.cpp:29-35 | when every clip path on the file system is playable, every path of a countdown's list exists and can be played |
| Sketch.Controller.constructor | src/main.cpp:15-21 | empty name lists, null pointers, idle and an empty log |
| Sketch.Controller.TryEnqueue | src/main.cpp:29-35 | a path is appended exactly when it exists; nothing else changes |
| Sketch.Controller.TryEnqueueBoth | src/main.cpp:55-56 | two paths in order, each kept when it exists |
| Sketch.Controller.EnqueueHundreds | src/main.cpp:44-47 | the hundreds clip and `/100.wav`, filtered |
| Sketch.Controller.EnqueueRemainder | src/main.cpp:49-58 | the remainder's names, filtered |
| Sketch.Controller.EnqueueNumber | src/main.cpp:38-58 | one number's names, filtered, appended |
| Sketch.Controller.EnqueueCountdown | src/main.cpp:25-60 | the list is the names of start, start - 1, …, 0 that exist, in that order |
| Sketch.Controller.SnapshotPointers | src/main.cpp:63-67 | `filePtrs` has the same names as `fileNames`, same length and order |
| Sketch.Controller.BuildCountdownList | src/main.cpp:24-71 | both lists hold the existing names of the countdown from start |
| Sketch.Controller.FinishCountdown | src/main.cpp:127-135 | the engine is stopped and released, then the playlist released; idle with deadline 0 |
| Sketch.Controller.ReleasePrevious | src/main.cpp:74-83 | a previous engine is stopped and released before a previous playlist is released |
| Sketch.Controller.StartFullCountdown | src/main.cpp:73-96 | cleanup in that order; an empty list leaves both null, otherwise a fresh playlist over `filePtrs` and an engine started on it |
| Sketch.Controller.Loop | src/main.cpp:108-136 | one pass of `loop()` moves the sketch as `LoopCorrected` says, with `Found` computed from the file system; a starting pass rebuilds both lists from the countdown, logs creation and start when clips exist, and leaves a fresh playlist over `filePtrs` and a fresh engine on the port; a finishing pass logs stop and release and nulls both; any other pass keeps the lists and the pointers |

## Left out

- The RTOS and driver plumbing is not part of this model: the event queue, task creation and deletion, pin setup, DMA zeroing and the driver configuration struct. Concurrency between the writer task and `loop()` is left out too. One transmit-done event is modelled as a call of `I2S.WriterTask.OnTxDone`.
- `I2SOutput::stop` and `delete` appear only as entries of the sketch's event log. Uninstalling the driver and freeing memory are not modelled. There is no start/stop state machine, since the code keeps no such state.
- I2S.I2SOutput.Start: the driver's install result is a parameter, and the configured sample rate is only returned. The hardware is never reconfigured later, as in the code.
- I2S.WriterTask.constructor: the frame buffer is always allocated; the `malloc` failure path, which deletes the task, is left out.
- Floating point is not modelled. `x * 2.5f` is computed exactly as 5x/2 truncated toward zero, which is what the float arithmetic yields for every 16-bit sample.
- The flash file system library is replaced by a map. Short reads, and files too short for what the decoder reads, are excluded. `Sketch.Controller` requires every clip path on the file system (`/n.wav` for any n) to hold a `Playable` file; other files may hold anything. `Playlist.AllPlayable` requires this only of the paths in the list.
- WavFile.WavFileReader.constructor: requires the file to exist, because the missing-file path leaves the header fields uninitialised. The sketch only opens paths that exist.
- Closing the file in the reader's destructor is not modelled. Dropping a reader clears the slot.
- Serial output, `readStringUntil`/`toInt` parsing, the heap printout and `setup()` are left out. The parsed input is a parameter, and a failed parse can be passed as `Some(0)`, as `toInt` returns.
- `millis()` readings are parameters of `Sketch.Controller.Loop`.
- I2S.WriterTask.OnTxDone: the port's room is never replenished, so the model covers only runs that end with a write of 0 bytes, and the inner loop ends because the room runs out. The blocking `i2s_write` (`portMAX_DELAY`) is not modelled. A port that always takes the whole request would make the source's `do … while (bytesWritten > 0)` run forever, and the model has no such run.
- `String`/`c_str()` pointer lifetimes are left out. `filePtrs` is a second list of the same names.
- The `reserve` calls are left out: for the starts the sketch passes (0 to 999) they change capacity, not contents. A start of -2 or less makes `reserve((start + 1) * 2)` ask for more than `max_size()`, which throws; `Sketch.Controller.BuildCountdownList` and `StartFullCountdown` take `start` as a `nat`, which also excludes -1 (an empty list in the code), a value the sketch never passes either. `Sketch.Controller.EnqueueCountdown` models only the `for` loop, which runs no iteration for a negative start.
- The `SampleSource` interface is left out, since the model has no traits. `I2SOutput` and the writer task take a `PlaylistSampleSource` directly.
- `frames + offset` in the playlist's delegating loop: `offset` is 0 whenever the loop body runs, so the model delegates on `frames` itself.
- A reader in the playlist's slot is always consistent, so the meaning of a call uses a total helper. That helper's branch for an inconsistent reader is unreachable from any state the class can be in.

## Findings

| source | as written | input that shows it | evidently intended | confidence | as-written member | corrected member |
|---|---|---|---|---|---|---|
| src/main.cpp:113-135 | a valid input sets `running = true` even when `startFullCountdown` found no clip and left `audio` null; the finish branch needs `audio`, so `running` is never cleared and no later input is read | input `0` on a file system without `/0.wav` | set `running` only when a countdown actually started (`audio` is not null) | not executed | Sketch.LoopAsWritten, Sketch.AsWrittenStuck, Sketch.NoClipsNotFound | Sketch.LoopCorrected, Sketch.CorrectedNeverStuck, Sketch.Controller.Loop |
| src/main.cpp:26-27 | the comment says each number produces up to 2 files and `reserve((start + 1) * 2)` sizes the list on that; a hundreds number with a tens and a units part produces 4, so the vector may grow past the reservation (a capacity cost only, the contents are unaffected) | number 999 (`/9.wav`, `/100.wav`, `/90.wav`, `/9.wav`), or 111 (three names) | reserve four names per number, `(start + 1) * 4` | not executed | Countdown.ReservePerNumberTooSmall, Countdown.LargestExample | Countdown.ReservePerNumberCorrected, Countdown.CandidatesLength |
