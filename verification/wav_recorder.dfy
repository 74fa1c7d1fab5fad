/**
 `record_all_channels_wav` of `tfg/old_cpp_code.cpp`: it names eight WAV files
 (one per microphone channel) after a folder, the time and a base name, writes a
 mono 16-bit header to each, and then appends channel `i` of every block it
 pops to file `i`.

 `rtrim_string`/`ltrim_string` are not part of this model and appear as the
 parameter `trim`; the formatted local time is the parameter `time`, `None`
 when `strftime` fails. The `write_wav_header` this file calls is not part of
 this model either; the one of `val/audio_processor.cpp` is used.
 */
module WavRecorder {
  import opened Common
  import opened SafeQueue
  import opened Pcm
  import Capture
  import WavHeader

  const NumChannels: nat := 8
  const DesiredExtension: string := ".wav"
  const DefaultName: string := "output"
  const FallbackTime: string := "00-00-00-00-00"

  /** An empty base name becomes `output`; any other is kept. */
  function BaseName(name: string): (r: string)
    ensures |r| > 0
    ensures |name| > 0 ==> r == name
  {
    if |name| == 0 then DefaultName else name
  }

  /** The name after defaulting, then trimming (in that order, so a blank name trims to empty). */
  function TrimmedName(name: string, trim: string -> string): string
  {
    trim(BaseName(name))
  }

  /** The time part: the formatted time, or the fallback when formatting failed. */
  function TimePart(time: Option<string>): (r: string)
    ensures time.None? ==> r == FallbackTime
    ensures time.Some? ==> r == time.value
  {
    time.GetOr(FallbackTime)
  }

  /** `std::string::rfind(c)`: the position of the last `c`, if any. */
  function RFind(s: string, c: char): (r: Option<nat>)
    ensures r.None? <==> c !in s
    ensures r.Some? ==> r.value < |s| && s[r.value] == c && c !in s[r.value + 1..]
  {
    if |s| == 0 then None
    else if s[|s| - 1] == c then Some(|s| - 1)
    else
      var r := RFind(s[..|s| - 1], c);
      assert s == s[..|s| - 1] + [s[|s| - 1]];
      assert r.Some? ==> s[r.value + 1..] == s[..|s| - 1][r.value + 1..] + [s[|s| - 1]];
      r
  }

  /**
   The extension logic as written: names shorter than 4 characters, names
   without a dot, and names whose text after the last dot differs from
   `.wav` get `.wav` appended. The text compared is taken AFTER the dot.
   */
  function ExtensionAsWritten(name: string): string
  {
    if |name| < 4 then DesiredExtension
    else
      match RFind(name, '.')
      case None => DesiredExtension
      case Some(idx) => if name[idx + 1..] != DesiredExtension then DesiredExtension else ""
  }

  /** As written, the comparison can never succeed: the text after the last dot holds no dot, and `.wav` does. */
  lemma ExtensionAlwaysAppended(name: string)
    ensures ExtensionAsWritten(name) == DesiredExtension
  {
    if |name| >= 4 {
      var r := RFind(name, '.');
      if r.Some? {
        assert DesiredExtension[0] == '.';
        assert '.' !in name[r.value + 1..];
      }
    }
  }

  /** The witness: a name already ending in `.wav` gets a second one. */
  lemma DoubledExtension()
    ensures "x.wav" + ExtensionAsWritten("x.wav") == "x.wav.wav"
  {
    ExtensionAlwaysAppended("x.wav");
  }

  /** The extension logic as evidently intended: compare the text FROM the last dot. */
  function Extension(name: string): string
  {
    if |name| < 4 then DesiredExtension
    else
      match RFind(name, '.')
      case None => DesiredExtension
      case Some(idx) => if name[idx..] != DesiredExtension then DesiredExtension else ""
  }

  predicate EndsWithWav(name: string)
  {
    |name| >= 4 && name[|name| - 4..] == DesiredExtension
  }

  /** Corrected: nothing is appended exactly when the name already ends in `.wav`; otherwise `.wav` is. */
  lemma ExtensionIffEndsWithWav(name: string)
    ensures Extension(name) == "" <==> EndsWithWav(name)
    ensures Extension(name) == "" || Extension(name) == DesiredExtension
  {
    if EndsWithWav(name) {
      var tail := name[|name| - 4..];
      assert name[|name| - 4] == '.';
      var r := RFind(name, '.');
      assert r.Some?;
    }
  }

  /** Corrected: the file name always ends in `.wav`, and correcting twice adds nothing more. */
  lemma ExtensionCompletes(name: string)
    ensures EndsWithWav(name + Extension(name))
    ensures Extension(name + Extension(name)) == ""
  {
    ExtensionIffEndsWithWav(name);
    var full := name + Extension(name);
    if Extension(name) == DesiredExtension {
      assert full[|full| - 4..] == DesiredExtension;
    } else {
      assert full == name;
    }
    ExtensionIffEndsWithWav(full);
  }

  /** The folder: empty becomes `.`; otherwise one trailing `/` is dropped, since the separator is added later. */
  function Folder(folder: string): (r: string)
    ensures folder == "" ==> r == "."
    ensures folder != "" && folder[|folder| - 1] == '/' ==> r + "/" == folder
    ensures folder != "" && folder[|folder| - 1] != '/' ==> r == folder
  {
    if |folder| == 0 then "."
    else if folder[|folder| - 1] == '/' then folder[..|folder| - 1]
    else folder
  }

  /** Joining with `/` restores a folder given with its trailing slash, and adds one to a folder without. */
  lemma FolderJoin(folder: string)
    requires folder != ""
    ensures Folder(folder) + "/" == (if folder[|folder| - 1] == '/' then folder else folder + "/")
  {
  }

  /** Only one slash is dropped: `a//` keeps one. */
  lemma FolderDropsOneSlash()
    ensures Folder("a//") == "a/"
  {
  }

  /** The name of channel `i`'s file (channels are numbered from 1 in the name). */
  function ChannelFileName(folder: string, i: nat, time: string, name: string, ext: string): (r: string)
  {
    folder + "/" + "ch" + NatToString(i + 1) + "-" + time + "-" + name + ext
  }

  /** The channel's digit sits right after the folder, `/` and `ch`. */
  lemma ChannelDigitAt(folder: string, i: nat, time: string, name: string, ext: string)
    requires i < 9
    ensures var r := ChannelFileName(folder, i, time, name, ext);
            |r| > |folder| + 3 && r[|folder| + 3] == DigitChar(i + 1)
  {
    var r := ChannelFileName(folder, i, time, name, ext);
    var pre := folder + "/" + "ch";
    assert r == pre + [DigitChar(i + 1)] + ("-" + time + "-" + name + ext);
  }

  /** The eight files get eight different names. */
  lemma ChannelNamesDistinct(folder: string, i: nat, j: nat, time: string, name: string, ext: string)
    requires i < NumChannels && j < NumChannels && i != j
    ensures ChannelFileName(folder, i, time, name, ext) != ChannelFileName(folder, j, time, name, ext)
  {
    ChannelDigitAt(folder, i, time, name, ext);
    ChannelDigitAt(folder, j, time, name, ext);
  }

  /** The eight file names for a given base name and extension, channel `i` at index `i`. */
  function ChannelFileNames(folder: string, base: string, time: Option<string>, ext: string): (names: seq<string>)
    ensures |names| == NumChannels
  {
    seq(NumChannels, i requires 0 <= i < NumChannels => ChannelFileName(Folder(folder), i, TimePart(time), base, ext))
  }

  /** Whatever the extension, the eight names are pairwise distinct. */
  lemma ChannelFileNamesDistinct(folder: string, base: string, time: Option<string>, ext: string)
    ensures forall i, j :: 0 <= i < j < NumChannels ==> ChannelFileNames(folder, base, time, ext)[i] != ChannelFileNames(folder, base, time, ext)[j]
  {
    forall i, j | 0 <= i < j < NumChannels
      ensures ChannelFileNames(folder, base, time, ext)[i] != ChannelFileNames(folder, base, time, ext)[j]
    {
      ChannelNamesDistinct(Folder(folder), i, j, TimePart(time), base, ext);
    }
  }

  /** The eight file names as the recorder builds them, with the extension check as written. */
  function FileNamesAsWritten(folder: string, name: string, trim: string -> string, time: Option<string>): (names: seq<string>)
    ensures |names| == NumChannels
  {
    var base := TrimmedName(name, trim);
    ChannelFileNames(folder, base, time, ExtensionAsWritten(base))
  }

  /** The eight file names with the corrected extension check. */
  function FileNames(folder: string, name: string, trim: string -> string, time: Option<string>): (names: seq<string>)
    ensures |names| == NumChannels
  {
    var base := TrimmedName(name, trim);
    ChannelFileNames(folder, base, time, Extension(base))
  }

  /** As written, every name is the base name with `.wav` appended, whatever its extension already was. */
  lemma FileNamesAsWrittenAppend(folder: string, name: string, trim: string -> string, time: Option<string>)
    ensures forall i :: 0 <= i < NumChannels ==>
      FileNamesAsWritten(folder, name, trim, time)[i]
      == ChannelFileName(Folder(folder), i, TimePart(time), TrimmedName(name, trim), DesiredExtension)
  {
    ExtensionAlwaysAppended(TrimmedName(name, trim));
  }

  /**
   The witness: base name `x.wav` (which trimming leaves alone), no folder and
   time `t` give `./ch1-t-x.wav.wav` as written and `./ch1-t-x.wav` corrected.
   */
  lemma FileNamesDoubledExtension(trim: string -> string)
    requires trim("x.wav") == "x.wav"
    ensures FileNamesAsWritten("", "x.wav", trim, Some("t"))[0] == "./ch1-t-x.wav.wav"
    ensures FileNames("", "x.wav", trim, Some("t"))[0] == "./ch1-t-x.wav"
  {
    assert TrimmedName("x.wav", trim) == "x.wav";
    ExtensionAlwaysAppended("x.wav");
    assert EndsWithWav("x.wav");
    ExtensionIffEndsWithWav("x.wav");
    assert FileNamesAsWritten("", "x.wav", trim, Some("t"))[0] == ChannelFileName(".", 0, "t", "x.wav", ".wav");
    assert FileNames("", "x.wav", trim, Some("t"))[0] == ChannelFileName(".", 0, "t", "x.wav", "");
    FirstChannelName();
  }

  lemma FirstChannelName()
    ensures ChannelFileName(".", 0, "t", "x.wav", ".wav") == "./ch1-t-x.wav.wav"
    ensures ChannelFileName(".", 0, "t", "x.wav", "") == "./ch1-t-x.wav"
  {
    assert NatToString(1) == "1";
  }

  /** Corrected, every one of the eight names ends in `.wav`. */
  lemma FileNamesEndWithWav(folder: string, name: string, trim: string -> string, time: Option<string>)
    ensures forall i :: 0 <= i < NumChannels ==> EndsWithWav(FileNames(folder, name, trim, time)[i])
  {
    var base := TrimmedName(name, trim);
    ExtensionCompletes(base);
    forall i | 0 <= i < NumChannels
      ensures EndsWithWav(FileNames(folder, name, trim, time)[i])
    {
      EndsWithWavAfter(Folder(folder), NatToString(i + 1), TimePart(time), base, Extension(base));
    }
  }

  /** A channel file name ends in `.wav` when its base name with extension does. */
  lemma EndsWithWavAfter(folder: string, digits: string, time: string, name: string, ext: string)
    requires EndsWithWav(name + ext)
    ensures EndsWithWav(folder + "/" + "ch" + digits + "-" + time + "-" + name + ext)
  {
    var pre := folder + "/" + "ch" + digits + "-" + time + "-";
    var full := name + ext;
    assert pre + name + ext == pre + full;
    assert (pre + full)[|pre + full| - 4..] == full[|full| - 4..];
  }

  lemma FileNamesDistinct(folder: string, name: string, trim: string -> string, time: Option<string>)
    ensures forall i, j :: 0 <= i < j < NumChannels ==> FileNames(folder, name, trim, time)[i] != FileNames(folder, name, trim, time)[j]
    ensures forall i, j :: 0 <= i < j < NumChannels ==> FileNamesAsWritten(folder, name, trim, time)[i] != FileNamesAsWritten(folder, name, trim, time)[j]
  {
    var base := TrimmedName(name, trim);
    ChannelFileNamesDistinct(folder, base, time, Extension(base));
    ChannelFileNamesDistinct(folder, base, time, ExtensionAsWritten(base));
  }

  /**
   `data_size` as written: `estimated_samples * BITS_PER_SAMPLE / BITS_PER_BYTE`
   with `BITS_PER_BYTE = 2`, computed in a 32-bit `size_t`.
   */
  function DataSizeAsWritten(frequency: nat, duration: int): (n: int)
    ensures 0 <= n < TwoTo32
  {
    U32(U32(frequency * duration) * 16) / 2
  }

  /** As written, the header announces 8 bytes per expected sample, four times what 16-bit samples take. */
  lemma DataSizeFourTimesTooLarge(frequency: nat, duration: nat, samples: seq<Int16>)
    requires |samples| == frequency * duration && 16 * |samples| < TwoTo32
    ensures DataSizeAsWritten(frequency, duration) == 4 * |SamplesBytes(samples)|
    ensures |samples| > 0 ==> DataSizeAsWritten(frequency, duration) != WavHeader.DataSize(frequency, duration)
  {
    WavHeader.DataSizeIsSampleBytes(frequency, duration, samples);
    assert U32(frequency * duration) == |samples|;
    assert U32(|samples| * 16) == 16 * |samples|;
  }

  /** The witness: one second at 16 kHz announces 128000 bytes where 32000 are due. */
  lemma DataSizeAtSixteenKilohertz()
    ensures DataSizeAsWritten(16000, 1) == 128000
    ensures WavHeader.DataSize(16000, 1) == 32000
  {
  }

  /** What the first `n` blocks contribute to channel `ch`'s file. */
  function ChannelBytes(blocks: seq<Capture.Block>, n: nat, ch: nat): (bs: seq<Byte>)
    requires n <= |blocks| && ch < NumChannels
    requires forall k :: 0 <= k < |blocks| ==> |blocks[k]| >= NumChannels
  {
    Concat(seq(n, k requires 0 <= k < n => SamplesBytes(blocks[k][ch])))
  }

  lemma ChannelBytesSnoc(blocks: seq<Capture.Block>, n: nat, ch: nat)
    requires n < |blocks| && ch < NumChannels
    requires forall k :: 0 <= k < |blocks| ==> |blocks[k]| >= NumChannels
    ensures ChannelBytes(blocks, n + 1, ch) == ChannelBytes(blocks, n, ch) + SamplesBytes(blocks[n][ch])
  {
    var parts := seq(n + 1, k requires 0 <= k < n + 1 => SamplesBytes(blocks[k][ch]));
    assert parts[..n] == seq(n, k requires 0 <= k < n => SamplesBytes(blocks[k][ch]));
  }

  /** The loop over the channels of one popped block: row `i` whole to file `i`. */
  method WriteBlock(files: seq<seq<Byte>>, block: Capture.Block) returns (files': seq<seq<Byte>>)
    requires |files| == NumChannels && |block| >= NumChannels
    ensures |files'| == NumChannels
    ensures forall i :: 0 <= i < NumChannels ==> files'[i] == files[i] + SamplesBytes(block[i])
  {
    files' := files;
    var i := 0;
    while i < NumChannels
      invariant 0 <= i <= NumChannels && |files'| == NumChannels
      invariant forall j :: 0 <= j < i ==> files'[j] == files[j] + SamplesBytes(block[j])
      invariant forall j :: i <= j < NumChannels ==> files'[j] == files[j]
    {
      files' := files'[i := files'[i] + SamplesBytes(block[i])];
      i := i + 1;
    }
  }

  /** File `ch` holds the header followed by the channel's rows of the first `consumed` blocks. */
  predicate Written(q: Queue<Capture.Block>, header: seq<Byte>, consumed: nat, files: seq<seq<Byte>>)
    requires forall k :: 0 <= k < |q.items| ==> |q.items[k]| >= NumChannels
  {
    consumed <= |q.items| && |files| == NumChannels
    && forall ch :: 0 <= ch < NumChannels ==> files[ch] == header + ChannelBytes(q.items, consumed, ch)
  }

  /** One turn of the `while (running)` loop: pop, and on success write the block out. */
  method Turn(q: Queue<Capture.Block>, header: seq<Byte>, consumed: nat, rest: Queue<Capture.Block>, files: seq<seq<Byte>>)
    returns (consumed': nat, rest': Queue<Capture.Block>, files': seq<seq<Byte>>)
    requires forall k :: 0 <= k < |q.items| ==> |q.items[k]| >= NumChannels
    requires Written(q, header, consumed, files) && rest.items == q.items[consumed..]
    ensures Written(q, header, consumed', files') && rest'.items == q.items[consumed'..]
    ensures consumed' == if consumed < |q.items| then consumed + 1 else consumed
  {
    var p := Pop(rest, []);
    if !p.ok {
      return consumed, rest, files;
    }
    assert p.item == q.items[consumed];
    files' := WriteBlock(files, p.item);
    forall ch | 0 <= ch < NumChannels
      ensures files'[ch] == header + ChannelBytes(q.items, consumed + 1, ch)
    {
      ChannelBytesSnoc(q.items, consumed, ch);
      assert files'[ch] == (header + ChannelBytes(q.items, consumed, ch)) + SamplesBytes(p.item[ch]);
    }
    consumed', rest' := consumed + 1, p.queue;
  }

  /** The `while (running)` loop for `iterations` turns, starting from files holding only `header`. */
  method WriteAll(q: Queue<Capture.Block>, header: seq<Byte>, iterations: nat)
    returns (files: seq<seq<Byte>>, rest: Queue<Capture.Block>)
    requires forall k :: 0 <= k < |q.items| ==> |q.items[k]| >= NumChannels
    ensures var consumed := if iterations <= |q.items| then iterations else |q.items|;
            rest.items == q.items[consumed..]
            && |files| == NumChannels
            && forall ch :: 0 <= ch < NumChannels ==> files[ch] == header + ChannelBytes(q.items, consumed, ch)
  {
    files := seq(NumChannels, _ => header);
    forall ch | 0 <= ch < NumChannels
      ensures files[ch] == header + ChannelBytes(q.items, 0, ch)
    {
      assert ChannelBytes(q.items, 0, ch) == [];
    }
    rest := q;
    var consumed := 0;
    var n := 0;
    while n < iterations
      invariant n <= iterations
      invariant consumed == if n <= |q.items| then n else |q.items|
      invariant Written(q, header, consumed, files) && rest.items == q.items[consumed..]
    {
      consumed, rest, files := Turn(q, header, consumed, rest, files);
      n := n + 1;
    }
  }

  /**
   `record_all_channels_wav` as written, for `iterations` turns of its loop
   against the blocks queued in `q`: the eight names carry the as-written
   extension (always `.wav` appended), the header announces the as-written
   `data_size` (8 bytes per expected sample), and file `i` holds that header
   and then channel `i` of every consumed block in queue order.
   */
  method RecordAllChannels(q: Queue<Capture.Block>, frequency: nat, duration: int, folder: string,
                           name: string, trim: string -> string, time: Option<string>, iterations: nat)
    returns (names: seq<string>, files: seq<seq<Byte>>, rest: Queue<Capture.Block>)
    requires frequency < TwoTo32
    requires forall k :: 0 <= k < |q.items| ==> |q.items[k]| >= NumChannels
    ensures |names| == NumChannels
    ensures forall i :: 0 <= i < NumChannels ==>
      names[i] == ChannelFileName(Folder(folder), i, TimePart(time), TrimmedName(name, trim), DesiredExtension)
    ensures var consumed := if iterations <= |q.items| then iterations else |q.items|;
            rest.items == q.items[consumed..]
            && |files| == NumChannels
            && forall ch :: 0 <= ch < NumChannels ==>
                 files[ch] == WavHeader.Header(frequency, 16, 1, DataSizeAsWritten(frequency, duration))
                              + ChannelBytes(q.items, consumed, ch)
  {
    names := FileNamesAsWritten(folder, name, trim, time);
    FileNamesAsWrittenAppend(folder, name, trim, time);
    files, rest := WriteAll(q, WavHeader.Header(frequency, 16, 1, DataSizeAsWritten(frequency, duration)), iterations);
  }

  /**
   The same recorder with the extension check and `data_size` corrected: the
   names end in `.wav` exactly once, and the header announces 2 bytes per
   expected sample.
   */
  method RecordAllChannelsCorrected(q: Queue<Capture.Block>, frequency: nat, duration: int, folder: string,
                                    name: string, trim: string -> string, time: Option<string>, iterations: nat)
    returns (names: seq<string>, files: seq<seq<Byte>>, rest: Queue<Capture.Block>)
    requires frequency < TwoTo32
    requires forall k :: 0 <= k < |q.items| ==> |q.items[k]| >= NumChannels
    ensures |names| == NumChannels
    ensures forall i :: 0 <= i < NumChannels ==>
      var base := TrimmedName(name, trim);
      names[i] == ChannelFileName(Folder(folder), i, TimePart(time), base, Extension(base))
      && EndsWithWav(names[i])
    ensures var consumed := if iterations <= |q.items| then iterations else |q.items|;
            rest.items == q.items[consumed..]
            && |files| == NumChannels
            && forall ch :: 0 <= ch < NumChannels ==>
                 files[ch] == WavHeader.Header(frequency, 16, 1, WavHeader.DataSize(frequency, duration))
                              + ChannelBytes(q.items, consumed, ch)
  {
    names := FileNames(folder, name, trim, time);
    FileNamesEndWithWav(folder, name, trim, time);
    files, rest := WriteAll(q, WavHeader.Header(frequency, 16, 1, WavHeader.DataSize(frequency, duration)), iterations);
  }
}
