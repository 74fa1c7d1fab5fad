# MATRIX Creator audio pipeline — a Dafny model

This project models the sequential core of an audio-capture pipeline for the
MATRIX Creator board. The board has an eight-microphone circular array and an
Everloop ring of LEDs. The pipeline has these parts:

- a mutex-guarded FIFO, `SafeQueue`, which carries blocks of samples from a
  capture thread to a consumer thread;
- capture loops, which copy the driver's `At(s, ch)` reads into
  channel-by-sample blocks;
- consumers that do one of three things with a block:
  - write each channel to a file and publish it over MQTT;
  - record eight WAV files;
  - run a delay-and-sum beamformer over 73 candidate angles and light the
    LED that points at the loudest direction;
- the asynchronous reader state machines behind the Python bindings
  (`Microphones`, and both `AudioConsumer` classes);
- the Python helpers that convert between `int16` lists and byte arrays;
- the accumulate-and-flush loop of the simple microphone demo.

Design choices:

- Hardware reads, `rand()`, the clock and other threads' writes to `running`
  become parameters: a `Frame`/`Reads` function, a `rand` function, an
  iteration count.
- MQTT messages and file writes become values: the `SinkAction` list or the
  byte sequences of each file.
- Each queue or reader operation is modelled as one atomic step on an
  immutable record. This is a modelling choice. The `SafeQueue` operations
  hold their lock for their whole body. The reader operations do not: they
  pop, test the flag and change `len_queue` as separate steps.
- C++ widths are written out. `uint32_t`/`uint16_t` wrap-around uses `U32` and
  `U16`, and division truncates toward zero (`TruncDiv`).
- Samples are the subset type `Int16` and bytes are `Byte`. The host is
  little-endian.

Modules, one per file:

| file | module | models |
|---|---|---|
| `common.dfy` | `Common` | integer widths, `Option`/`Result`, decimal strings, `Concat` |
| `pcm.dfy` | `Pcm` | the little-endian two's-complement image of `int16_t` samples; file/publish actions |
| `safe_queue.dfy` | `SafeQueue` | `SafeQueue<T>` (three identical copies in the repository) |
| `async_reader.dfy` | `AsyncReader` | `Microphones` and the `AudioConsumer` of `matrix_python.cpp` |
| `draining_reader.dfy` | `DrainingReader` | the `AudioConsumer` of `example.cpp`, whose stop always drains |
| `capture.dfy` | `Capture` | both `capture_audio` loops and `process_audio` |
| `angles.dfy` | `Angles` | `normalize_angle` |
| `wav_header.dfy` | `WavHeader` | `write_wav_header` (the canonical 44-byte RIFF/WAVE PCM header) |
| `beamforming.dfy` | `Beamforming` | the sweep, argmax, DOA and LED logic of `process_beamforming` |
| `wav_recorder.dfy` | `WavRecorder` | names, extension, folder, `data_size` and per-channel writes of `record_all_channels_wav` |
| `mic_helpers.dfy` | `MicHelpers` | the Python `int16` ⇄ bytes codec, `flatten_list`, `setup_microphone` |
| `mic_read_loop.dfy` | `MicReadLoop` | the buffer loop of the simple microphone demo |

## Model

| member | source | states |
|---|---|---|
| Common.U32 | val/audio_processor.cpp:82-83 | a `uint32_t` store keeps the value modulo 2^32: the result is in [0, 2^32), congruent to the input, and equal to it when it already fits |
| Common.U16 | val/audio_processor.cpp:28 | a `uint16_t` store keeps the value modulo 2^16, and leaves values that fit unchanged |
| Common.TruncDiv | val/audio_processor.cpp:129 | C++ integer division by a positive divisor rounds toward zero: the floor for non-negative dividends and the ceiling for negative ones |
| Common.NatToString | tfg/audio_processor.cpp:43 | `std::to_string` of a channel number is a non-empty string of decimal digits, without a leading zero, that denotes exactly that number |
| Common.NatToStringInjective | tfg/audio_processor.cpp:43 | different channel numbers give different strings, so the topics `TOPIC_BASE + ch` never collide |
| SafeQueue.Push | tfg/queue.hpp:17-23 | push puts the item at the tail and keeps every earlier item in its place and order |
| SafeQueue.Pop | tfg/queue.hpp:25-31 | pop succeeds exactly when the queue is non-empty; on success it yields the head and leaves exactly the tail; on failure the queue and the out-parameter are unchanged |
| SafeQueue.WaitPop | tfg/queue.hpp:33-38 | wait_pop can only complete on a non-empty queue, and then yields the head and leaves the tail |
| SafeQueue.IsEmpty | tfg/queue.hpp:40-43 | empty() is true exactly for the queue with no items |
| SafeQueue.WaitPopIsSuccessfulPop | tfg/python/pybind11-test/example.hpp:28-41 | once enabled, wait_pop has the same effect as a successful pop, whatever the out-parameter held |
| SafeQueue.PushThenPopEmpty | tfg/queue.hpp:17-31 | a push onto an empty queue followed by a pop returns the pushed item and leaves the queue empty |
| SafeQueue.RunIsFifo | tfg/queue.hpp:17-31 | in any interleaving of pushes and pops, the items popped followed by the items still queued are exactly the items pushed, in push order |
| SafeQueue.PushManyAppends | tfg/python/pybind11-test/example.hpp:20-26 | pushing a list of items appends that list, in order, to the queue's contents |
| SafeQueue.PopManyTakesPrefix | tfg/python/pybind11-test/example.hpp:28-34 | n successful pops return the first n items in order and leave the rest |
| SafeQueue.PushesThenPopsInOrder | tfg/python/pybind11-test/example.hpp:20-34 | pushing x1..xn onto an empty queue and then popping n times yields x1..xn in order and leaves the queue empty |
| AsyncReader.StartAsync | tfg/python/matrix-lite-py/hal_wrapper/drivers/microphones.cpp:131-151 | start_async leaves the reader running with its queue and counter untouched, so it changes nothing while already running |
| AsyncReader.StartAsyncIdempotent | tfg/python/pybind11-test/matrix_python.cpp:96-119 | starting twice is the same as starting once |
| AsyncReader.Drain | tfg/python/pybind11-test/matrix_python.cpp:125-139 | the drain loop empties the queue and lowers len_queue by one per removed block |
| AsyncReader.StopAsync | tfg/python/matrix-lite-py/hal_wrapper/drivers/microphones.cpp:153-172 | stop_async leaves the reader stopped; it is a no-op when not running, even with drain; with drain it empties the queue and lowers the counter by the number of removed blocks; without drain the queue and counter are untouched |
| AsyncReader.ReadSync | tfg/python/matrix-lite-py/hal_wrapper/drivers/microphones.cpp:190-199 | read_sync returns nothing while the reader runs, and otherwise the freshly captured block |
| AsyncReader.MicReadSync | tfg/python/matrix-lite-py/hal_wrapper/drivers/microphones.cpp:174-199 | a synchronous read while stopped returns a CHANNELS×BLOCK_SIZE block with `samples[ch][s] = At(s, ch)`, and nothing while running |
| AsyncReader.ProducerStep | tfg/python/matrix-lite-py/hal_wrapper/drivers/microphones.cpp:55-76 | a producer iteration while running pushes one block at the tail and raises len_queue by one; once stopped it changes nothing |
| AsyncReader.MicProducerStep | tfg/python/matrix-lite-py/hal_wrapper/drivers/microphones.cpp:60-74 | the pushed block is CHANNELS×BLOCK_SIZE with `samples[ch][s] = At(s, ch)`, the earlier items are kept, and the counter rises by one |
| AsyncReader.ReadAsync | tfg/python/matrix-lite-py/hal_wrapper/drivers/microphones.cpp:201-212 | read_async leaves the running flag alone; stopped with an empty queue it returns nothing and changes nothing; otherwise it lowers len_queue by one, popping the head if there is one, and even when running with nothing to pop |
| AsyncReader.ReadAsyncCounterDrift | tfg/python/pybind11-test/matrix_python.cpp:190-202 | after start_async and one read_async on an empty queue, len_queue is -1 while the queue holds nothing |
| AsyncReader.CounterNeverOverstates | tfg/python/matrix-lite-py/hal_wrapper/drivers/microphones.cpp:201-214 | from the initial state, along any sequence of operations, len_queue never exceeds the true queue length; it can only fall short |
| AsyncReader.ReadAsyncCounted | tfg/python/matrix-lite-py/hal_wrapper/drivers/microphones.cpp:201-212 | the corrected read_async lowers the counter only when it pops a block, and changes nothing on an empty queue |
| AsyncReader.CountedReaderKeepsCount | tfg/python/matrix-lite-py/hal_wrapper/drivers/microphones.cpp:131-214 | with the corrected read_async, along any sequence of operations from the initial state, len_queue equals the queue length |
| AsyncReader.RandBlock | tfg/python/pybind11-test/matrix_python.cpp:25-36 | a generated block has BLOCK_SIZE (512) entries, entry i being the i-th random draw |
| AsyncReader.ConsumerReadSync | tfg/python/pybind11-test/matrix_python.cpp:147-169 | read_sync returns nothing while running, and otherwise exactly BLOCK_SIZE samples, sample i being the i-th random draw |
| DrainingReader.StartAsync | tfg/python/pybind11-test/example.cpp:64-78 | start_async leaves the consumer running with its queue unchanged |
| DrainingReader.Discard | tfg/python/pybind11-test/example.cpp:87-92 | the drain loop leaves the queue empty |
| DrainingReader.StopAsync | tfg/python/pybind11-test/example.cpp:80-99 | stop_async leaves the consumer stopped; a no-op when not running, and otherwise the queue ends empty; there is no drain flag |
| DrainingReader.ReadSync | tfg/python/pybind11-test/example.cpp:101-121 | read_sync returns nothing while running, and otherwise BLOCK_SIZE samples, sample i being the i-th random draw |
| DrainingReader.ReadAsync | tfg/python/pybind11-test/example.cpp:142-159 | when stopped, read_async returns nothing even if blocks remain; when running it returns the head if there is one and leaves the tail, else nothing |
| DrainingReader.ProducerStep | tfg/python/pybind11-test/example.cpp:123-140 | a producer iteration pushes one block at the tail while running, and changes nothing once stopped |
| DrainingReader.StoppedMeansEmpty | tfg/python/pybind11-test/example.cpp:64-159 | from the initial state, along any sequence of operations, a stopped consumer has an empty queue |
| Capture.CopyFrame | val/audio_processor.cpp:62-69 | the copied block has CHANNELS rows of BLOCK_SIZE samples with `samples[ch][s] = At(s, ch)` |
| Capture.CaptureTimed | val/audio_processor.cpp:51-70 | the time-bounded capture pushes one block per iteration, block k being the k-th read's copy, and ends with running false |
| Capture.BlocksNeededIsLeast | tfg/audio_processor.cpp:12-25 | the number of blocks the count-based capture needs is the least k with k·BLOCK_SIZE ≥ total_needed, i.e. the ceiling of the quotient |
| Capture.SixteenKilohertzOneSecond | tfg/audio_processor.cpp:13 | one second at 16 kHz with 512-sample blocks needs exactly 32 blocks |
| Capture.CaptureCounted | tfg/audio_processor.cpp:6-28 | every pushed block is the copy of its read, running ends false, nothing is pushed when total_needed is 0, and when `total_samples` cannot wrap and nothing stops the loop early, exactly ceil(total_needed / BLOCK_SIZE) blocks are pushed |
| Capture.BlockActions | tfg/audio_processor.cpp:36-54 | consuming a block writes row ch, as its little-endian bytes, to file ch and publishes the same bytes on topic TOPIC_BASE + ch, in channel order |
| Capture.ProcessAudioStep | tfg/audio_processor.cpp:33-57 | one loop turn does nothing on an empty queue; otherwise it pops the head and emits its file writes and messages, each payload `block_size·2` bytes |
| Capture.ProcessAudio | tfg/audio_processor.cpp:30-59 | after a number of turns, the consumed blocks are a prefix of the queue, taken in order, with their actions emitted in order; the blocks left when running goes false stay queued |
| Angles.NormalizeAngle | val/audio_processor.cpp:13-17 | the result lies in [-180, 180] and differs from the input by a multiple of 360; inputs already in range are returned unchanged |
| Angles.NormalizeMatchesClosedForm | val/audio_processor.cpp:13-17 | the two wrapping loops compute the closed form obtained from the Euclidean remainder modulo 360 |
| Angles.NormalizeIdempotent | val/audio_processor.cpp:13-17 | normalizing twice is the same as normalizing once |
| Angles.NormalizeExamples | val/audio_processor.cpp:13-17 | 190 ↦ -170, -200 ↦ 160, 180 and -180 stay put, 540 ↦ 180, -540 ↦ -180 |
| WavHeader.FieldsOf | val/audio_processor.cpp:20-48 | the header values, including byte_rate and block_align in the source's integer widths, all fit their field widths |
| WavHeader.ParseSerialize | val/audio_processor.cpp:30-47 | the 44 serialized bytes carry the tags "RIFF", "WAVE", "fmt ", "data" at offsets 0, 8, 12, 36, and every field reads back little-endian at its offset |
| WavHeader.ParseHeader | val/audio_processor.cpp:20-48 | the header `write_wav_header` writes reads back as exactly the values it computes |
| WavHeader.ChunkSizeCoversPayload | val/audio_processor.cpp:29 | the RIFF chunk size is the 36 header bytes after it plus the payload size |
| WavHeader.ByteRateIsRateTimesAlign | val/audio_processor.cpp:27-28 | for whole-byte samples and no overflow, byte_rate equals sample_rate × block_align |
| WavHeader.DataSizeIsSampleBytes | val/audio_processor.cpp:82-83 | while nothing wraps, data_size is exactly the byte length of the expected 16-bit samples |
| Pcm.DecodeSampleBytes | tfg/audio_processor.cpp:38-40 | reading back the two little-endian bytes of a sample gives the sample |
| Pcm.SampleBytesDecode | tfg/audio_processor.cpp:38-40 | every pair of bytes is the image of exactly one sample |
| Pcm.SamplesBytes | val/audio_processor.cpp:155-158 | a row's memory image has two bytes per sample, bytes 2k and 2k+1 being sample k's low and high byte |
| Pcm.SamplesBytesAppend | val/audio_processor.cpp:155-158 | the image of consecutive rows is the concatenation of their images |
| Beamforming.ChannelSum | val/audio_processor.cpp:112-124 | the delay-and-sum accumulator over n channels, which drops out-of-range indices, stays within n times the int16 range |
| Beamforming.Beamformed | val/audio_processor.cpp:126-130 | one beamformed sample per input sample, each in int16 range |
| Beamforming.CoherentSignalPassesThrough | val/audio_processor.cpp:112-130 | when all eight channels carry the same row and the delays at that angle are zero, the beamformed row is that row |
| Beamforming.DelayAndSum | val/audio_processor.cpp:110-131 | the nested loops compute the beamformed row of the reference definition and its energy |
| Beamforming.FirstArgmax | val/audio_processor.cpp:132-136 | the chosen index has maximal energy and no earlier index reaches it (strict `>` keeps the earlier of equal energies) |
| Beamforming.FirstMaxUnique | val/audio_processor.cpp:105-136 | an index is the first maximum exactly when it is the one the sweep picks |
| Beamforming.Sweep | val/audio_processor.cpp:105-137 | the sweep over the 73 grid angles -180, -175, …, 180 returns the first grid angle of maximal energy and the beamformed row at that angle |
| Beamforming.LedIndex | val/audio_processor.cpp:147-149 | the LED index is within [0, num_leds-1] and is the rounded position of normalize(best-110) on the ring |
| Beamforming.LedRounding | val/audio_processor.cpp:148-149 | the integer rounding lands within half a step of the exact position, and at most num_leds-1 |
| Beamforming.LedIndexMonotone | val/audio_processor.cpp:147-149 | a larger normalized angle never maps to a smaller LED index |
| Beamforming.LedIndexEnds | val/audio_processor.cpp:147-149 | best angle -70 lights LED 0 and best angle 290 lights the last LED |
| Beamforming.UpdateLeds | val/audio_processor.cpp:143-150 | the ring keeps its size; every LED's red and blue are cleared and its white kept; the chosen LED's green is 30 and every other green is 0 |
| Beamforming.RelitAgain | val/audio_processor.cpp:143-150 | relighting an already relit ring is the same as relighting the original ring at the new LED: white survives every turn, and only the last choice shows |
| Beamforming.Doa | val/audio_processor.cpp:139-140 | the reported direction is best_angle - 15 when that is at least -180, and best_angle - 15 + 360 otherwise; it lies in [-180, 180] and is congruent to best_angle - 15 modulo 360 |
| Beamforming.ConsumeBlock | val/audio_processor.cpp:104-158 | handling one block appends the best row's bytes to the output, reports its direction, and relights the ring: red and blue off, white kept, green 30 on the LED the best angle maps to and 0 elsewhere |
| Beamforming.OutputsOfSnoc | val/audio_processor.cpp:155-158 | consuming one more block appends its best row's bytes to the file and its direction to the reports |
| Beamforming.RunTurns | val/audio_processor.cpp:97-161 | after a number of loop turns, the consumed blocks are a prefix of the queue, and the file, reports and LEDs are those of that prefix |
| Beamforming.ProcessBeamforming | val/audio_processor.cpp:73-164 | the output file is the 44-byte header for a mono 16-bit recording followed by the best rows of the consumed blocks in queue order; the reported directions are those of the consumed blocks; unconsumed blocks stay queued; the ring is unchanged when no block was consumed, and otherwise relit for the last consumed block, with every white kept |
| WavRecorder.BaseName | tfg/old_cpp_code.cpp:16-18 | an empty base name becomes "output"; any other is kept |
| WavRecorder.TimePart | tfg/old_cpp_code.cpp:30-36 | when the time cannot be formatted the time part is "00-00-00-00-00" |
| WavRecorder.RFind | tfg/old_cpp_code.cpp:43 | rfind finds nothing exactly when the character is absent, and otherwise the position of its last occurrence |
| WavRecorder.ExtensionAlwaysAppended | tfg/old_cpp_code.cpp:38-59 | the extension check as written always yields ".wav" |
| WavRecorder.DoubledExtension | tfg/old_cpp_code.cpp:47-48 | as written, "x.wav" becomes "x.wav.wav" |
| WavRecorder.ExtensionIffEndsWithWav | tfg/old_cpp_code.cpp:38-59 | the corrected check adds nothing exactly when the name already ends in ".wav", and ".wav" otherwise |
| WavRecorder.ExtensionCompletes | tfg/old_cpp_code.cpp:38-59 | with the corrected check, every file name ends in ".wav", and applying the check again adds nothing |
| WavRecorder.Folder | tfg/old_cpp_code.cpp:61-69 | an empty folder becomes "."; a single trailing '/' is removed; any other folder is kept |
| WavRecorder.FolderJoin | tfg/old_cpp_code.cpp:61-75 | joining the normalized folder with "/" gives the folder with exactly one added or kept trailing '/' |
| WavRecorder.FolderDropsOneSlash | tfg/old_cpp_code.cpp:66-68 | only one trailing '/' is dropped: "a//" becomes "a/" |
| WavRecorder.ChannelDigitAt | tfg/old_cpp_code.cpp:74-77 | channel i's file name carries the digit i+1 right after folder + "/ch" |
| WavRecorder.ChannelNamesDistinct | tfg/old_cpp_code.cpp:74-77 | two different channels never get the same file name |
| WavRecorder.ChannelFileNamesDistinct | tfg/old_cpp_code.cpp:74-77 | whatever the extension, the eight names are pairwise distinct |
| WavRecorder.FileNamesDistinct | tfg/old_cpp_code.cpp:16-78 | the eight file names are pairwise distinct, both as written and with the corrected extension |
| WavRecorder.FileNamesAsWrittenAppend | tfg/old_cpp_code.cpp:38-77 | as written, every file name is the base name with ".wav" appended, whatever extension it already had |
| WavRecorder.FileNamesDoubledExtension | tfg/old_cpp_code.cpp:38-77 | no folder, base name "x.wav" and time "t" give channel 1's file "./ch1-t-x.wav.wav" as written and "./ch1-t-x.wav" corrected |
| WavRecorder.FileNamesEndWithWav | tfg/old_cpp_code.cpp:38-77 | with the corrected extension, every file name ends in ".wav" |
| WavRecorder.DataSizeFourTimesTooLarge | tfg/old_cpp_code.cpp:9-14 | as written, data_size announces four times the byte length of the expected 16-bit samples, so it differs from the correct size whenever a sample is expected |
| WavRecorder.DataSizeAtSixteenKilohertz | tfg/old_cpp_code.cpp:13-14 | one second at 16 kHz announces 128000 bytes where 32000 are due |
| WavRecorder.ChannelBytesSnoc | tfg/old_cpp_code.cpp:107-114 | consuming one more block appends its row ch to file ch |
| WavRecorder.WriteBlock | tfg/old_cpp_code.cpp:103-114 | each popped block appends row i, whole, to file i, for all eight channels |
| WavRecorder.WriteAll | tfg/old_cpp_code.cpp:89-115 | after a number of loop turns, the consumed blocks are a prefix of the queue, and file i holds the header and then row i of each of them in queue order |
| WavRecorder.RecordAllChannels | tfg/old_cpp_code.cpp:1-115 | the recorder as written: channel i's name is folder/"ch"(i+1)-time-base with ".wav" always appended; the header announces the as-written data_size (8 bytes per expected sample); file i holds that header and then row i of every consumed block in queue order; unconsumed blocks stay queued |
| WavRecorder.RecordAllChannelsCorrected | tfg/old_cpp_code.cpp:1-115 | the recorder with both defects corrected: every name ends in ".wav" exactly once, the header announces 2 bytes per expected sample, and the files hold the same channel data |
| MicHelpers.BytesToInt16List | tfg/python/matrix-lite-py/matrix_lite/mic_helpers.py:22-40 | decoding gives ceil(len/2) values: value k from bytes 2k, 2k+1 in host order, and a trailing odd byte read as signed 8-bit |
| MicHelpers.Int16ListToBytes | tfg/python/matrix-lite-py/matrix_lite/mic_helpers.py:43-52 | encoding fails exactly when some value is outside [-32768, 32767], reporting such a value; otherwise bytes 2k, 2k+1 decode to element k |
| MicHelpers.Int16ListToBytesIsMemoryImage | tfg/python/matrix-lite-py/matrix_lite/mic_helpers.py:46-52 | on in-range values the encoding equals the in-memory image of an `int16_t` row that the C++ side writes |
| MicHelpers.DecodeEncode | tfg/python/matrix-lite-py/matrix_lite/mic_helpers.py:22-52 | decoding the encoding of any in-range list gives the list back |
| MicHelpers.EncodeDecode | tfg/python/matrix-lite-py/matrix_lite/mic_helpers.py:22-52 | encoding the decoding of any even-length byte array gives the bytes back |
| MicHelpers.Flatten | tfg/python/matrix-lite-py/matrix_lite/mic_helpers.py:14-19 | the flattened list is as long as the parts together, and part i sits, in order, right after the parts before it |
| MicHelpers.SetupMicrophone | tfg/python/matrix-lite-py/matrix_lite/mic_helpers.py:54-62 | a missing sampling rate defaults to 16000 and a missing gain to 0; given values are kept |
| MicReadLoop.RowsSplit | demos/simple_mic_read.cpp:147-157 | the samples of consecutive reads of one channel concatenate |
| MicReadLoop.ReadsPerFlushIsLeast | demos/simple_mic_read.cpp:131-202 | the reads per flush are the least m ≥ 1 with m·N ≥ SR, i.e. max(1, ceil(SR/N)) |
| MicReadLoop.ReadsAtFortyEightKilohertz | demos/simple_mic_read.cpp:131-202 | at 48 kHz with 512-sample reads a flush comes after 94 reads, 128 samples past the sampling rate |
| MicReadLoop.Fill | demos/simple_mic_read.cpp:147-157 | the fill step appends `At(s, c)` for all s < N to channel c's used prefix, for every channel, and stays inside the row |
| MicReadLoop.PublishAll | demos/simple_mic_read.cpp:177-190 | one message per channel on topic TOPIC_BASE + c, carrying the used prefix of row c, never more than the row |
| MicReadLoop.FlushAll | demos/simple_mic_read.cpp:193-201 | the flush writes the used prefix of each row to that channel's file |
| MicReadLoop.ReadOnce | demos/simple_mic_read.cpp:136-190 | each read keeps the buffer's used prefix equal to all samples read since the last flush and every payload within the SR+N row |
| MicReadLoop.Pass | demos/simple_mic_read.cpp:131-202 | one pass of the inner loop performs the least number of reads that reaches SR, publishes after each, and flushes exactly the samples read, resetting the count |
| MicReadLoop.Record | demos/simple_mic_read.cpp:127-204 | the outer loop runs max(0, seconds_to_record) times; file c holds exactly channel c of every read in order; every published payload fits the SR+N row |

## Left out

- Threads, mutexes, condition variables, atomics, sleeps and joins. Each queue or reader operation is one atomic step, and other threads' effects are parameters.
- AsyncReader.CounterNeverOverstates: holds only between whole operations. Inside `read_async` and `stop_async` the pop comes before the decrement, so for an instant `len_queue` exceeds the queue length.
- AsyncReader.CountedReaderKeepsCount: holds only between whole operations. The producer pushes before it increments `len_queue`, so a read that falls between the two can take the counter below the queue length, down to -1.
- The capture threads that stop the readers while a producer iteration is in flight. With that interleaving, one more block can be pushed after `stop_async` drains, which needs the concurrency left out above.
- Floating point:
  - the delay computation with `cosf`, `sinf`, `round` and `RADIUS`; the model takes integer delays per angle and channel as an input;
  - the `float` energy sum, modelled as the exact integer sum of squares;
  - the `float` LED position, modelled by exact integer rounding of the same formula;
  - `normalize_angle` on `float`, modelled on whole degrees. Every angle the pipeline passes it is a whole number.
- Beamforming.LedIndex: requires at least one LED; with none, the source indexes an empty vector.
- Beamforming.ProcessBeamforming: requires at least one LED, for the same reason, even for runs that consume no block.
- Hardware: `MicrophoneArray::Read`/`At` become a function parameter, and `Everloop::Write` is left out.
- I/O and services:
  - MQTT connection handling and publish errors;
  - file-open failures and `ofstream` errors;
  - Python `wave` (`write_wav_int16`);
  - `strftime`/`localtime`, passed in as an optional time string.
- `rtrim_string`/`ltrim_string` are not part of this model; they appear as a parameter.
- Clock-based termination of `val/audio_processor.cpp` capture and of the loops that run while `running` holds. The model uses an iteration or stop count instead.
- Capture.CaptureCounted: proves the exact block count only while `total_samples + BLOCK_SIZE` stays below 2^32. Beyond that the source's `uint32_t` counter wraps and the loop may not end.
- Capture.ProcessAudio: requires every queued block to have at least CHANNELS rows, none shorter than row 0. The source indexes `samples[ch]` and writes `samples[0].size()` samples of each row.
- Beamforming.ProcessBeamforming: requires every queued block to have at least 8 rows, none shorter than row 0. The sweep reads `samples[0].size()` samples from each of the 8 channels.
- The `write_wav_header` of `tfg/old_cpp_code.cpp` is not part of this model; the one in `val/audio_processor.cpp` is used. `size_t` is taken as 32 bits, as on the board's 32-bit system.
- `block_align` computed as `int`: the model ignores the undefined overflow of `num_channels * bits_per_sample` beyond 2^31, which the fixed arguments never reach.
- The WAV headers' `data_size` is the estimate written at start and is never updated at close, as in the source.
- MicReadLoop.Record: requires `NumberOfSamples() > 0`. With 0 samples per read and a positive sampling rate, the source's inner loop never reaches the sampling rate and never ends. With both 0, each pass is one read that publishes and writes nothing; the model does not cover that case.
- The `buffer_vec` copy and the commented-out GCC-PHAT calls in the demo produce nothing observable.
- The command-line mains, test drivers and binding glue.

## Findings

| source | as written | input that shows it | evidently intended | confidence | as-written member | corrected member |
|---|---|---|---|---|---|---|
| tfg/old_cpp_code.cpp:47-48 | compares the text after the last '.' (without the dot) with ".wav", so the comparison never matches and ".wav" is always appended | base name "x.wav" gives files named "…-x.wav.wav" | append ".wav" only when the name does not already end in ".wav" | high (not executed) | WavRecorder.ExtensionAsWritten | WavRecorder.Extension |
| tfg/old_cpp_code.cpp:10,14 | `BITS_PER_BYTE = 2`, so `data_size` is samples·16/2, 8 bytes per 16-bit sample | 16000 Hz for 1 s gives data_size 128000 instead of 32000 | 8 bits per byte: 2 bytes per sample, as `val/audio_processor.cpp` computes | high (not executed) | WavRecorder.DataSizeAsWritten | WavHeader.DataSize |
| tfg/python/matrix-lite-py/hal_wrapper/drivers/microphones.cpp:201-212 | read_async decrements `len_queue` whenever the reader runs, even when `pop` found nothing (the same in tfg/python/pybind11-test/matrix_python.cpp:190-202) | start_async then read_async on an empty queue: len_async_queue() is -1, queue length 0 | decrement only when a block was popped, so the counter equals the queue length | high (not executed) | AsyncReader.ReadAsync | AsyncReader.ReadAsyncCounted |
