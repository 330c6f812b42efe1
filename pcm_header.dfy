/** The asset-header generator (tools/audio_to_pcm_header.py) and the
    lookups of the index header it generates.  Decoding audio, the file
    system and the command line are outside the model: a decoded PCM array
    is an input, and so are a file's name and stem. */
module PcmHeader {
  import opened Numeric

  // ---------------------------------------------------------------------
  // Identifier sanitiser (over ASCII)
  // ---------------------------------------------------------------------

  predicate IsAsciiDigit(c: char) { '0' <= c <= '9' }
  predicate IsAsciiLower(c: char) { 'a' <= c <= 'z' }
  predicate IsAsciiUpper(c: char) { 'A' <= c <= 'Z' }
  predicate IsAsciiAlnum(c: char) { IsAsciiDigit(c) || IsAsciiLower(c) || IsAsciiUpper(c) }

  /** A character a generated C++ identifier is made of. */
  predicate IsIdentifierChar(c: char) { IsAsciiUpper(c) || IsAsciiDigit(c) || c == '_' }

  /** `str.upper` on one ASCII character. */
  function Upper(c: char): (u: char)
    ensures IsAsciiLower(c) ==> IsAsciiUpper(u)
    ensures !IsAsciiLower(c) ==> u == c
  {
    if IsAsciiLower(c) then (c as int - 32) as char else c
  }

  function UpperString(s: string): (u: string)
    ensures |u| == |s| && forall k :: 0 <= k < |s| ==> u[k] == Upper(s[k])
  {
    seq(|s|, k requires 0 <= k < |s| => Upper(s[k]))
  }

  /** Every character that is not alphanumeric becomes one `_`. */
  function ReplaceInvalid(name: string): (r: string)
    ensures |r| == |name|
    ensures forall k :: 0 <= k < |name| ==> r[k] == (if IsAsciiAlnum(name[k]) then name[k] else '_')
  {
    seq(|name|, k requires 0 <= k < |name| => if IsAsciiAlnum(name[k]) then name[k] else '_')
  }

  const DIGIT_PREFIX: string := "audio_"

  /** `sanitize_variable_name` applied to a file's stem: invalid characters
      replaced, the `audio_` prefix added before a leading digit, and the
      whole upper-cased.  An empty stem makes the source fail at
      `sanitized[0]`, so the stem must be non-empty. */
  function Sanitize(stem: string): (r: string)
    requires |stem| > 0
    ensures |r| > 0 && !IsAsciiDigit(r[0])
  {
    var replaced := ReplaceInvalid(stem);
    var prefixed := if IsAsciiDigit(replaced[0]) then DIGIT_PREFIX + replaced else replaced;
    UpperString(prefixed)
  }

  /** The sanitised name is a C++ identifier of upper-case letters, digits
      and `_` that does not start with a digit; it is the stem with each
      character upper-cased or, when not alphanumeric, replaced by one `_`,
      after the `audio_` prefix exactly when the stem starts with a digit. */
  lemma SanitizeProperties(stem: string)
    requires |stem| > 0
    ensures var r := Sanitize(stem);
      var off := if IsAsciiDigit(stem[0]) then |DIGIT_PREFIX| else 0;
      && |r| == |stem| + off
      && (forall c :: c in r ==> IsIdentifierChar(c))
      && !IsAsciiDigit(r[0])
      && (forall k :: 0 <= k < |stem| ==>
            r[off + k] == (if IsAsciiAlnum(stem[k]) then Upper(stem[k]) else '_'))
  {
    SanitizeChars(stem);
    SanitizeMap(stem);
  }

  /** The offset at which the stem's characters appear in its sanitised
      name: after the `audio_` prefix when it starts with a digit. */
  function PrefixOffset(stem: string): nat
    requires |stem| > 0
  {
    if IsAsciiDigit(stem[0]) then |DIGIT_PREFIX| else 0
  }

  lemma SanitizeChars(stem: string)
    requires |stem| > 0
    ensures forall c :: c in Sanitize(stem) ==> IsIdentifierChar(c)
  {
    var replaced := ReplaceInvalid(stem);
    var prefixed := if IsAsciiDigit(replaced[0]) then DIGIT_PREFIX + replaced else replaced;
    assert forall k :: 0 <= k < |prefixed| ==> IsAsciiAlnum(prefixed[k]) || prefixed[k] == '_';
    UpperIdentifier(prefixed);
  }

  lemma SanitizeMap(stem: string)
    requires |stem| > 0
    ensures var r := Sanitize(stem);
      |r| == |stem| + PrefixOffset(stem)
      && forall k :: 0 <= k < |stem| ==>
           r[PrefixOffset(stem) + k] == (if IsAsciiAlnum(stem[k]) then Upper(stem[k]) else '_')
  {
    var replaced := ReplaceInvalid(stem);
    assert IsAsciiDigit(replaced[0]) == IsAsciiDigit(stem[0]);
    var off := PrefixOffset(stem);
    var prefixed := if off > 0 then DIGIT_PREFIX + replaced else replaced;
    assert forall k :: 0 <= k < |stem| ==> prefixed[off + k] == replaced[k];
  }

  /** Upper-casing a string of ASCII alphanumerics and `_` gives identifier
      characters only. */
  lemma UpperIdentifier(s: string)
    requires forall k :: 0 <= k < |s| ==> IsAsciiAlnum(s[k]) || s[k] == '_'
    ensures forall c :: c in UpperString(s) ==> IsIdentifierChar(c)
  {
    var u := UpperString(s);
    forall c | c in u
      ensures IsIdentifierChar(c)
    {
      var k :| 0 <= k < |u| && u[k] == c;
      assert u[k] == Upper(s[k]);
    }
  }

  /** A stem that already is an upper-case identifier is left unchanged. */
  lemma SanitizeKeepsIdentifiers(stem: string)
    requires |stem| > 0 && !IsAsciiDigit(stem[0])
    requires forall c :: c in stem ==> IsIdentifierChar(c)
    ensures Sanitize(stem) == stem
  {
    var r := Sanitize(stem);
    SanitizeProperties(stem);
    forall k | 0 <= k < |stem|
      ensures r[k] == stem[k]
    {
      assert stem[k] in stem;
    }
  }

  // ---------------------------------------------------------------------
  // Decimal rendering of sample values (`f'{int(sample)}'`)
  // ---------------------------------------------------------------------

  function DigitChar(d: nat): char
    requires d < 10
  {
    "0123456789"[d]
  }

  function NatToString(n: nat): (s: string)
    ensures |s| >= 1 && IsAsciiDigit(s[0])
    decreases n
  {
    if n < 10 then [DigitChar(n)] else NatToString(n / 10) + [DigitChar(n % 10)]
  }

  function IntToString(i: int): (s: string)
    ensures |s| >= 1
    ensures (s[0] == '-') <==> i < 0
  {
    if i < 0 then "-" + NatToString(-i) else NatToString(i)
  }

  /** Digits of a natural number, read back. */
  function ParseNat(s: string): nat
    decreases |s|
  {
    if |s| == 0 then 0
    else ParseNat(s[..|s| - 1]) * 10 + (if IsAsciiDigit(s[|s| - 1]) then s[|s| - 1] as int - '0' as int else 0)
  }

  function ParseInt(s: string): int
  {
    if |s| > 0 && s[0] == '-' then 0 - ParseNat(s[1..]) else ParseNat(s)
  }

  lemma {:induction false} NatToStringRoundTrip(n: nat)
    ensures ParseNat(NatToString(n)) == n
    ensures forall c :: c in NatToString(n) ==> IsAsciiDigit(c)
    decreases n
  {
    if n >= 10 {
      NatToStringRoundTrip(n / 10);
      var s := NatToString(n);
      assert s[..|s| - 1] == NatToString(n / 10);
    }
  }

  /** The decimal text of a sample value reads back as that value. */
  lemma IntToStringRoundTrip(i: int)
    ensures ParseInt(IntToString(i)) == i
  {
    if i < 0 {
      NatToStringRoundTrip(-i);
      assert IntToString(i)[1..] == NatToString(-i);
    } else {
      NatToStringRoundTrip(i);
      var s := NatToString(i);
      assert s[0] in s;
    }
  }

  // ---------------------------------------------------------------------
  // The data-line serialiser in `pcm_to_header`
  // ---------------------------------------------------------------------

  const VALUES_PER_LINE: nat := 8

  /** One emitted line of the data array: its values and whether it ends
      with a comma. */
  datatype DataLine = DataLine(values: seq<int>, comma: bool)

  /** Decimal text ends in a digit, whatever the sign. */
  lemma IntToStringEndsInDigit(i: int)
    ensures IsAsciiDigit(IntToString(i)[|IntToString(i)| - 1])
  {
    var m: nat := if i < 0 then -i else i;
    var n := NatToString(m);
    if m >= 10 {
      assert n == NatToString(m / 10) + [DigitChar(m % 10)];
    }
    assert IntToString(i)[|IntToString(i)| - 1] == n[|n| - 1];
  }

  /** `', '.join(...)` of the values' decimal texts. */
  function JoinValues(values: seq<int>): (r: string)
    ensures |r| == 0 <==> |values| == 0
    ensures |r| > 0 ==> IsAsciiDigit(r[|r| - 1])
    decreases |values|
  {
    if |values| == 0 then ""
    else if |values| == 1 then IntToStringEndsInDigit(values[0]); IntToString(values[0])
    else IntToString(values[0]) + ", " + JoinValues(values[1..])
  }

  /** The text of one line: indentation, values, optional comma, newline. */
  function Render(line: DataLine): (r: string)
    ensures |r| >= 5 && r[..4] == "    " && r[|r| - 1] == '\n'
    ensures r[|r| - 2] == ',' <==> line.comma
  {
    "    " + JoinValues(line.values) + (if line.comma then "," else "") + "\n"
  }

  function RenderAll(lines: seq<DataLine>): string
    decreases |lines|
  {
    if |lines| == 0 then "" else RenderAll(lines[..|lines| - 1]) + Render(lines[|lines| - 1])
  }

  /** The values of the lines, read in order. */
  function Flatten(lines: seq<DataLine>): seq<int>
    decreases |lines|
  {
    if |lines| == 0 then [] else Flatten(lines[..|lines| - 1]) + lines[|lines| - 1].values
  }

  /** The lines `pcm_to_header` emits for `flat` are `⌈n/8⌉` lines of one to
      eight values each that read back as `flat`, and a line ends with a comma
      exactly when another line follows it. */
  ghost predicate WellSplit(flat: seq<int>, lines: seq<DataLine>)
  {
    Flatten(lines) == flat
    && |lines| == (|flat| + VALUES_PER_LINE - 1) / VALUES_PER_LINE
    && (forall k :: 0 <= k < |lines| ==> 1 <= |lines[k].values| <= VALUES_PER_LINE)
    && (forall k :: 0 <= k < |lines| ==> (lines[k].comma <==> k + 1 < |lines|))
  }

  /** The state of the data-line loop after the values before `i`: one line
      per eight values taken, reading back as those values, each ending with
      a comma exactly when values remain after it. */
  ghost predicate SplitUpTo(flat: seq<int>, lines: seq<DataLine>, i: nat)
  {
    i == VALUES_PER_LINE * |lines|
    && i <= |flat| + VALUES_PER_LINE - 1
    && Flatten(lines) == flat[..Min(i, |flat|)]
    && (forall k :: 0 <= k < |lines| ==> 1 <= |lines[k].values| <= VALUES_PER_LINE)
    && (forall k :: 0 <= k < |lines| ==> (lines[k].comma <==> VALUES_PER_LINE * (k + 1) < |flat|))
  }

  /** The next chunk of at most eight values. */
  function NextLine(flat: seq<int>, i: nat): DataLine
    requires i < |flat|
  {
    DataLine(flat[i..Min(i + VALUES_PER_LINE, |flat|)], i + VALUES_PER_LINE < |flat|)
  }

  lemma SplitStep(flat: seq<int>, lines: seq<DataLine>, i: nat)
    requires i < |flat| && SplitUpTo(flat, lines, i)
    ensures SplitUpTo(flat, lines + [NextLine(flat, i)], i + VALUES_PER_LINE)
  {
    var line := NextLine(flat, i);
    assert flat[..Min(i + VALUES_PER_LINE, |flat|)] == flat[..i] + line.values;
    assert (lines + [line])[..|lines|] == lines;
  }

  lemma SplitDone(flat: seq<int>, lines: seq<DataLine>, i: nat)
    requires i >= |flat| && SplitUpTo(flat, lines, i)
    ensures WellSplit(flat, lines)
  {
    assert flat[..Min(i, |flat|)] == flat;
  }

  /** The data-line loop of `pcm_to_header`: takes the values eight at a
      time and appends one rendered line per chunk. */
  method EmitDataLines(flat: seq<int>) returns (lines: seq<DataLine>, text: string)
    ensures WellSplit(flat, lines)
    ensures text == RenderAll(lines)
  {
    lines := [];
    text := "";
    var i := 0;
    while i < |flat|
      invariant SplitUpTo(flat, lines, i)
      invariant text == RenderAll(lines)
      decreases |flat| - i
    {
      var line := NextLine(flat, i);
      SplitStep(flat, lines, i);
      assert (lines + [line])[..|lines|] == lines;
      lines := lines + [line];
      text := text + Render(line);
      i := i + VALUES_PER_LINE;
    }
    SplitDone(flat, lines, i);
  }

  // ---------------------------------------------------------------------
  // Header constants and the byte-size defect
  // ---------------------------------------------------------------------

  /** A decoded PCM array: one-dimensional, or two-dimensional rows that
      `flatten()` concatenates in order. */
  datatype PcmData = Mono(samples: seq<int>) | Rows(rows: seq<seq<int>>)

  function Concat(rows: seq<seq<int>>): seq<int>
    decreases |rows|
  {
    if |rows| == 0 then [] else Concat(rows[..|rows| - 1]) + rows[|rows| - 1]
  }

  /** `flat_data`. */
  function FlatData(pcm: PcmData): seq<int>
  {
    match pcm
    case Mono(s) => s
    case Rows(r) => Concat(r)
  }

  /** `len(pcm_data)`: the length of the first dimension. */
  function PcmLen(pcm: PcmData): nat
  {
    match pcm
    case Mono(s) => |s|
    case Rows(r) => |r|
  }

  /** The command line only offers 16 and 32 bits. */
  predicate SupportedBitDepth(bitDepth: nat) { bitDepth == 16 || bitDepth == 32 }

  function BytesPerSample(bitDepth: nat): nat { bitDepth / 8 }

  /** `_BYTE_SIZE` as written: `len(pcm_data) * bytes_per_sample`, which
      counts the rows of a two-dimensional array instead of its values. */
  function ByteSizeAsWritten(pcm: PcmData, bitDepth: nat): (r: nat)
    ensures bitDepth == 16 ==> r == 2 * PcmLen(pcm)
    ensures bitDepth == 32 ==> r == 4 * PcmLen(pcm)
  {
    PcmLen(pcm) * BytesPerSample(bitDepth)
  }

  /** `_BYTE_SIZE` as the data array needs it: the number of emitted values
      times the bytes each one occupies. */
  function ByteSize(pcm: PcmData, bitDepth: nat): (r: nat)
    ensures bitDepth == 16 ==> r == 2 * |FlatData(pcm)|
    ensures bitDepth == 32 ==> r == 4 * |FlatData(pcm)|
  {
    |FlatData(pcm)| * BytesPerSample(bitDepth)
  }

  /** For one-dimensional data the two agree. */
  lemma ByteSizeAgreesOnMono(samples: seq<int>, bitDepth: nat)
    ensures ByteSizeAsWritten(Mono(samples), bitDepth) == ByteSize(Mono(samples), bitDepth)
  {
  }

  /** A mono source converted for two channels is stacked into rows of two
      values; one such frame is two 16-bit values, four bytes of data, but
      the header as written declares two. */
  lemma ByteSizeAsWrittenUndercounts()
    ensures var pcm := Rows([[7, 7]]);
      |FlatData(pcm)| == 2 && ByteSizeAsWritten(pcm, 16) == 2 && ByteSize(pcm, 16) == 4
  {
    assert Concat([[7, 7]]) == Concat([]) + [7, 7];
  }

  /** Rows of `k` values each flatten to `k` values per row. */
  lemma {:induction false} ConcatUniform(rows: seq<seq<int>>, k: nat)
    requires forall i :: 0 <= i < |rows| ==> |rows[i]| == k
    ensures |Concat(rows)| == k * |rows|
    decreases |rows|
  {
    if |rows| > 0 {
      ConcatUniform(rows[..|rows| - 1], k);
    }
  }

  /** For any array of `k`-value frames, the size as written is short by
      the factor `k`: a stereo array declares half its bytes. */
  lemma ByteSizeOfFrames(rows: seq<seq<int>>, k: nat, bitDepth: nat)
    requires forall i :: 0 <= i < |rows| ==> |rows[i]| == k
    ensures ByteSize(Rows(rows), bitDepth) == k * ByteSizeAsWritten(Rows(rows), bitDepth)
  {
    ConcatUniform(rows, k);
    assert |FlatData(Rows(rows))| == k * |rows|;
  }

  /** An `AudioFile` registry entry of the generated index. */
  datatype AudioFileEntry = AudioFileEntry(
    name: string,
    data: seq<int>,
    sampleCount: nat,
    byteSize: nat,
    sampleRate: nat,
    channels: nat,
    bitDepth: nat)

  /** The per-file header: its data lines and the entry its constants make.
      `_SAMPLE_COUNT` is the number of values emitted, and the byte size
      uses the corrected `ByteSize`. */
  method PcmToHeader(fileName: string, pcm: PcmData, sampleRate: nat, channels: nat, bitDepth: nat)
    returns (entry: AudioFileEntry, lines: seq<DataLine>, text: string)
    requires SupportedBitDepth(bitDepth)
    ensures WellSplit(FlatData(pcm), lines) && text == RenderAll(lines)
    ensures entry.name == fileName && entry.data == Flatten(lines)
    ensures entry.sampleCount == |Flatten(lines)|
    ensures entry.byteSize == entry.sampleCount * BytesPerSample(bitDepth)
    ensures (entry.sampleRate, entry.channels, entry.bitDepth) == (sampleRate, channels, bitDepth)
  {
    var flat := FlatData(pcm);
    lines, text := EmitDataLines(flat);
    entry := AudioFileEntry(fileName, flat, |flat|, ByteSize(pcm, bitDepth), sampleRate, channels, bitDepth);
  }

  // ---------------------------------------------------------------------
  // The generated index: `AudioIndex` enum and `getAudioFile` lookups
  // ---------------------------------------------------------------------

  /** One `NAME = i` line of the `AudioIndex` enum. */
  datatype EnumEntry = EnumEntry(name: string, value: nat)

  /** The enum loop of `generate_audio_index`: one entry per file, in the
      order the files are given (sorted by the caller), numbered from 0;
      `COUNT` is the number of files. */
  method AudioIndexEnum(stems: seq<string>) returns (entries: seq<EnumEntry>, count: nat)
    requires forall i :: 0 <= i < |stems| ==> |stems[i]| > 0
    ensures |entries| == |stems| == count
    ensures forall i :: 0 <= i < |stems| ==> entries[i] == EnumEntry(Sanitize(stems[i]), i)
  {
    entries := [];
    var i := 0;
    while i < |stems|
      invariant 0 <= i <= |stems| && |entries| == i
      invariant forall j :: 0 <= j < i ==> entries[j] == EnumEntry(Sanitize(stems[j]), j)
    {
      entries := entries + [EnumEntry(Sanitize(stems[i]), i)];
      i := i + 1;
    }
    count := |stems|;
  }

  /** The enum values are exactly `0 .. COUNT-1`, each naming the file at
      that position. */
  lemma EnumValuesArePositions(stems: seq<string>, entries: seq<EnumEntry>, v: nat)
    requires forall i :: 0 <= i < |stems| ==> |stems[i]| > 0
    requires |entries| == |stems|
    requires forall i :: 0 <= i < |stems| ==> entries[i] == EnumEntry(Sanitize(stems[i]), i)
    ensures (exists i :: 0 <= i < |entries| && entries[i].value == v) <==> v < |stems|
  {
    if v < |stems| {
      assert entries[v].value == v;
    }
  }

  /** The entry the firmware names `AudioIndex::AUDIO_00001` is the one of
      the file whose stem is `00001`: its value is that file's position in
      the sorted file list. */
  lemma Audio00001Position(stems: seq<string>, entries: seq<EnumEntry>, i: nat)
    requires forall k :: 0 <= k < |stems| ==> |stems[k]| > 0
    requires |entries| == |stems|
    requires forall k :: 0 <= k < |stems| ==> entries[k] == EnumEntry(Sanitize(stems[k]), k)
    requires i < |stems| && stems[i] == "00001"
    ensures entries[i] == EnumEntry("AUDIO_00001", i)
  {
    SanitizeOf00001();
  }

  lemma SanitizeOf00001()
    ensures Sanitize("00001") == "AUDIO_00001"
  {
    assert ReplaceInvalid("00001") == "00001";
    assert UpperString("audio_00001") == "AUDIO_00001";
  }

  /** `getAudioFile(AudioIndex)`: no entry past the registry's end,
      otherwise the entry at that index. */
  function GetAudioFile(files: seq<AudioFileEntry>, index: nat): (r: Option<AudioFileEntry>)
    ensures r.None? <==> index >= |files|
    ensures r.Some? ==> r.value == files[index]
  {
    if index >= |files| then None else Some(files[index])
  }

  /** The first position whose entry has the given name. */
  function FirstNamed(files: seq<AudioFileEntry>, name: string, from: nat): (r: Option<nat>)
    requires from <= |files|
    ensures r.Some? ==>
      (from <= r.value < |files| && files[r.value].name == name
       && forall j :: from <= j < r.value ==> files[j].name != name)
    ensures r.None? ==> forall j :: from <= j < |files| ==> files[j].name != name
    decreases |files| - from
  {
    if from == |files| then None
    else if files[from].name == name then Some(from)
    else FirstNamed(files, name, from + 1)
  }

  /** `getAudioFile(const char*)`: scans the registry in order and returns
      the first entry whose name compares equal, or none. */
  method FindAudioFile(files: seq<AudioFileEntry>, name: string) returns (r: Option<nat>)
    ensures r == FirstNamed(files, name, 0)
  {
    var i := 0;
    while i < |files|
      invariant 0 <= i <= |files|
      invariant FirstNamed(files, name, 0) == FirstNamed(files, name, i)
    {
      if files[i].name == name {
        return Some(i);
      }
      i := i + 1;
    }
    return None;
  }
}
