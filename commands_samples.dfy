/** Sample loading: which files are audio, the keywords a sample is found by,
    the name of a sample set, and the de-interleaving of stereo samples. The
    decoding and the audio backend are not part of this model; what they
    return is passed in, and what is handed to the backend is recorded. */
module CommandsSamples {
  import opened Wrappers
  import opened Strings

  // ---------------------------------------------------------------------
  // Paths
  // ---------------------------------------------------------------------

  /** Rust's `char::is_whitespace`: the Unicode White_Space characters. */
  predicate IsWhitespace(c: char)
  {
    var n := c as int;
    (0x9 <= n <= 0xD) || n == 0x20 || n == 0x85 || n == 0xA0 || n == 0x1680 ||
    (0x2000 <= n <= 0x200A) || n == 0x2028 || n == 0x2029 || n == 0x202F || n == 0x205F || n == 0x3000
  }

  /** `s.trim_start()`. */
  function TrimStart(s: string): string
  {
    if |s| > 0 && IsWhitespace(s[0]) then TrimStart(s[1..]) else s
  }

  /** `s.trim_end()`. */
  function TrimEnd(s: string): string
  {
    if |s| > 0 && IsWhitespace(s[|s| - 1]) then TrimEnd(s[..|s| - 1]) else s
  }

  /** What `trim_start` drops is white space, and what it keeps is a
      suffix that does not start with white space. */
  lemma {:induction false} TrimStartSpec(s: string)
    ensures var r := TrimStart(s);
      |r| <= |s| && r == s[|s| - |r|..] && (r == "" || !IsWhitespace(r[0])) &&
      forall k :: 0 <= k < |s| - |r| ==> IsWhitespace(s[k])
  {
    if |s| > 0 && IsWhitespace(s[0]) {
      TrimStartSpec(s[1..]);
    }
  }

  /** What `trim_end` drops is white space, and what it keeps is a prefix
      that does not end with white space. */
  lemma {:induction false} TrimEndSpec(s: string)
    ensures var r := TrimEnd(s);
      |r| <= |s| && r == s[..|r|] && (r == "" || !IsWhitespace(r[|r| - 1])) &&
      forall k :: |r| <= k < |s| ==> IsWhitespace(s[k])
  {
    if |s| > 0 && IsWhitespace(s[|s| - 1]) {
      TrimEndSpec(s[..|s| - 1]);
    }
  }

  /** `s.trim()`. */
  function Trim(s: string): string
  {
    TrimEnd(TrimStart(s))
  }

  /** Whether a path names a file to load: it ends in `.flac` or `.wav`,
      ignoring case and surrounding white space. */
  predicate IsAudioPath(path: string)
  {
    var p := Trim(Lower(path));
    EndsWith(p, ".flac") || EndsWith(p, ".wav")
  }

  /** The pieces of a path that name something: no empty pieces (repeated
      or trailing `/`) and no `.`. */
  function Components(pieces: seq<string>): (cs: seq<string>)
    ensures forall i :: 0 <= i < |cs| ==> cs[i] in pieces && cs[i] != "" && cs[i] != "."
  {
    if |pieces| == 0 then []
    else if pieces[0] == "" || pieces[0] == "." then Components(pieces[1..])
    else [pieces[0]] + Components(pieces[1..])
  }

  /** `Path::file_name`: the last named piece, unless it is `..` or there
      is none. */
  function FileName(path: string): (r: Option<string>)
    ensures r.Some? ==> r.value != "" && r.value != "." && r.value != ".." && '/' !in r.value
  {
    var cs := Components(Split(path, {'/'}));
    if |cs| == 0 || cs[|cs| - 1] == ".." then None else Some(cs[|cs| - 1])
  }

  /** The position of the last `c` in `s`. */
  function LastIndex(s: string, c: char): (r: Option<nat>)
    ensures r.Some? ==> r.value < |s| && s[r.value] == c && forall j :: r.value < j < |s| ==> s[j] != c
    ensures r.None? ==> c !in s
  {
    if |s| == 0 then None
    else if s[|s| - 1] == c then Some(|s| - 1)
    else LastIndex(s[..|s| - 1], c)
  }

  /** `Path::file_stem` of a file name: the part before the last `.`,
      unless that `.` is the first character. */
  function FileStem(name: string): (stem: string)
    requires name != ""
    ensures stem != "" && stem <= name
  {
    match LastIndex(name, '.')
    case Some(i) => if i > 0 then name[..i] else name
    case None => name
  }

  /** `Path::extension` of a file name: the part after the last `.`, unless
      that `.` is the first character. */
  function Extension(name: string): (ext: Option<string>)
  {
    match LastIndex(name, '.')
    case Some(i) => if i > 0 then Some(name[i + 1..]) else None
    case None => None
  }

  /** A file name is its stem, then `.` and its extension when it has one;
      the stem carries no extension of its own. */
  lemma StemAndExtension(name: string)
    requires name != ""
    ensures Extension(name).Some? ==> name == FileStem(name) + "." + Extension(name).value
    ensures Extension(name).Some? ==> '.' !in Extension(name).value
    ensures Extension(name).None? ==> FileStem(name) == name
  {
    match LastIndex(name, '.')
    case Some(i) =>
      if i > 0 {
        assert name == name[..i] + "." + name[i + 1..];
      }
    case None =>
  }

  // ---------------------------------------------------------------------
  // Set names and keywords
  // ---------------------------------------------------------------------

  predicate IsDigit(c: char)
  {
    '0' <= c <= '9'
  }

  /** The name of the set a directory holds: the directory's stem, behind
      `_` when it starts with a digit, or "default" without a stem. */
  function SetName(dir: string): string
  {
    match FileName(dir)
    case None => "default"
    case Some(n) =>
      var stem := FileStem(n);
      if IsDigit(stem[0]) then "_" + stem else stem
  }

  /** The set name is never empty and never starts with a digit (so the
      first-character lookup always finds one); it is the stem itself or
      the stem behind `_`. */
  lemma SetNameShape(dir: string)
    ensures SetName(dir) != "" && !IsDigit(SetName(dir)[0])
    ensures FileName(dir).None? ==> SetName(dir) == "default"
    ensures FileName(dir).Some? ==>
      var stem := FileStem(FileName(dir).value);
      SetName(dir) == (if IsDigit(stem[0]) then "_" + stem else stem)
  {
  }

  /** The characters a file stem is split on. */
  const STEM_SEPARATORS: set<char> := {' ', '_', '-', '.'}

  /** The pieces of the file stem of `path`. */
  function StemTokens(path: string): seq<string>
  {
    match FileName(path)
    case None => []
    case Some(n) => Split(FileStem(n), STEM_SEPARATORS)
  }

  /** The keywords a sample is filed under: the given ones and the lower
      cased pieces of its file stem. */
  function SampleKeywords(keywords: seq<string>, path: string): set<string>
  {
    (set k | k in keywords) + Lowered(StemTokens(path))
  }

  /** The lower cased pieces. */
  function Lowered(ts: seq<string>): set<string>
  {
    if |ts| == 0 then {} else Lowered(ts[..|ts| - 1]) + {Lower(ts[|ts| - 1])}
  }

  /** The lower cased pieces are the lower case forms of the pieces, and
      nothing else. */
  lemma {:induction false} LoweredSpec(ts: seq<string>)
    ensures forall t :: t in ts ==> Lower(t) in Lowered(ts)
    ensures forall k :: k in Lowered(ts) ==> exists i :: 0 <= i < |ts| && k == Lower(ts[i])
  {
    if |ts| > 0 {
      var init := ts[..|ts| - 1];
      LoweredSpec(init);
      forall t | t in ts
        ensures Lower(t) in Lowered(ts)
      {
        if t != ts[|ts| - 1] {
          var j :| 0 <= j < |ts| && ts[j] == t;
          assert init[j] == t;
        }
      }
      forall k | k in Lowered(ts)
        ensures exists i :: 0 <= i < |ts| && k == Lower(ts[i])
      {
        if k != Lower(ts[|ts| - 1]) {
          var i :| 0 <= i < |init| && k == Lower(init[i]);
          assert ts[i] == init[i];
        }
      }
    }
  }

  /** The keyword set, built by draining the given keywords and then adding
      each stem piece. */
  method KeywordSet(keywords: seq<string>, path: string) returns (ks: set<string>)
    ensures ks == SampleKeywords(keywords, path)
  {
    ks := {};
    for i := 0 to |keywords|
      invariant ks == set k | k in keywords[..i]
    {
      assert keywords[..i + 1] == keywords[..i] + [keywords[i]];
      ks := ks + {keywords[i]};
    }
    assert keywords[..|keywords|] == keywords;
    var tokens := StemTokens(path);
    for i := 0 to |tokens|
      invariant ks == (set k | k in keywords) + Lowered(tokens[..i])
    {
      assert tokens[..i + 1][..i] == tokens[..i];
      ks := ks + {Lower(tokens[i])};
    }
    assert tokens[..|tokens|] == tokens;
  }

  /** Lower casing adds no separator. */
  lemma LowerKeepsOut(t: string, c: char)
    requires c in STEM_SEPARATORS && c !in t
    ensures c !in Lower(t)
  {
  }

  /** A keyword that was not given holds no separator, and every piece of
      the stem is a keyword. */
  lemma KeywordsFromStem(keywords: seq<string>, path: string)
    ensures forall k :: k in SampleKeywords(keywords, path) && k !in keywords ==>
      forall c :: c in STEM_SEPARATORS ==> c !in k
    ensures forall t :: t in StemTokens(path) ==> Lower(t) in SampleKeywords(keywords, path)
  {
    LoweredSpec(StemTokens(path));
    forall k, c | k in SampleKeywords(keywords, path) && k !in keywords && c in STEM_SEPARATORS
      ensures c !in k
    {
      var ts := StemTokens(path);
      var i :| 0 <= i < |ts| && k == Lower(ts[i]);
      LowerKeepsOut(ts[i], c);
    }
  }

  // ---------------------------------------------------------------------
  // Stereo
  // ---------------------------------------------------------------------

  /** Splits interleaved frames into the two channels; a last unpaired
      sample is dropped. */
  method Deinterleave(buf: seq<real>) returns (left: seq<real>, right: seq<real>)
    ensures |left| == |right| == |buf| / 2
    ensures forall k :: 0 <= k < |left| ==> left[k] == buf[2 * k] && right[k] == buf[2 * k + 1]
  {
    left, right := [], [];
    var i := 0;
    while i + 1 < |buf|
      invariant i == 2 * |left| && |left| == |right| && i <= |buf|
      invariant forall k :: 0 <= k < |left| ==> left[k] == buf[2 * k] && right[k] == buf[2 * k + 1]
      decreases |buf| - i
    {
      left, right := left + [buf[i]], right + [buf[i + 1]];
      i := i + 2;
    }
  }

  /** Frames put back together from the two channels. */
  function Interleave(left: seq<real>, right: seq<real>): (buf: seq<real>)
    requires |left| == |right|
    ensures |buf| == 2 * |left|
    ensures forall k :: 0 <= k < |left| ==> buf[2 * k] == left[k] && buf[2 * k + 1] == right[k]
  {
    if |left| == 0 then [] else [left[0], right[0]] + Interleave(left[1..], right[1..])
  }

  /** Interleaving the two channels gives back every sample but a last
      unpaired one. */
  lemma DeinterleaveRoundTrip(buf: seq<real>, left: seq<real>, right: seq<real>)
    requires |left| == |right| == |buf| / 2
    requires forall k :: 0 <= k < |left| ==> left[k] == buf[2 * k] && right[k] == buf[2 * k + 1]
    ensures Interleave(left, right) == buf[..2 * (|buf| / 2)]
  {
    var b := Interleave(left, right);
    forall j | 0 <= j < |b|
      ensures b[j] == buf[j]
    {
      var k := j / 2;
      assert k < |left|;
      if j % 2 == 0 {
        assert j == 2 * k;
        assert b[2 * k] == left[k];
      } else {
        assert j == 2 * k + 1;
        assert b[2 * k + 1] == right[k];
      }
    }
  }

  // ---------------------------------------------------------------------
  // Loading
  // ---------------------------------------------------------------------

  /** What the decoder returns: the duration in milliseconds, the sample
      rate, the channel count and the interleaved samples. */
  datatype Decoded = Decoded(duration: nat, samplerate: nat, channels: nat, samples: seq<real>)

  /** What is handed to the backend: one channel, or a left and a right
      channel. */
  datatype Buffer = Mono(samples: seq<real>) | Stereo(left: seq<real>, right: seq<real>)

  /** One sample of a set, as the sample set files it. */
  datatype SampleEntry = SampleEntry(setName: string, keywords: set<string>, bufnum: nat, duration: nat)

  const MAX_DURATION: nat := 10000

  /** The sum of `s`, added up from the front. */
  function Sum(s: seq<real>): real
  {
    if |s| == 0 then 0.0 else Sum(s[..|s| - 1]) + s[|s| - 1]
  }

  /** The mix of `c` interleaved channels down to one: each frame of `c`
      samples is summed and divided by `c`, and so is a short last frame. */
  function DownmixOf(s: seq<real>, c: nat): seq<real>
    requires c >= 1
    decreases |s|
  {
    if |s| == 0 then []
    else if |s| <= c then [Sum(s) / c as real]
    else [Sum(s[..c]) / c as real] + DownmixOf(s[c..], c)
  }

  /** One mixed sample per frame, a short last frame included: just enough
      frames of `c` samples to hold them all. */
  lemma {:induction false} DownmixLength(s: seq<real>, c: nat)
    requires c >= 1
    ensures |DownmixOf(s, c)| * c >= |s|
    ensures |s| > 0 ==> (|DownmixOf(s, c)| - 1) * c < |s|
    decreases |s|
  {
    if |s| > c {
      var t := s[c..];
      DownmixLength(t, c);
      var n := |DownmixOf(t, c)|;
      assert |DownmixOf(s, c)| == n + 1;
      MulSucc(n, c);
      MulSucc(n - 1, c);
    }
  }

  lemma MulSucc(n: int, c: int)
    ensures (n + 1) * c == n * c + c
  {
  }

  lemma SumPair(a: real, b: real)
    ensures Sum([a, b]) == a + b
  {
    assert [a][..0] == [];
    assert Sum([a]) == a;
    assert [a, b][..1] == [a];
  }

  /** Mixing a stereo file down gives, frame by frame, the average of its
      left and right samples. */
  lemma {:induction false} DownmixStereo(left: seq<real>, right: seq<real>)
    requires |left| == |right|
    ensures DownmixOf(Interleave(left, right), 2) == Averages(left, right)
    decreases |left|
  {
    if |left| > 0 {
      var s := Interleave(left, right);
      var rest := Interleave(left[1..], right[1..]);
      DownmixFrame(left[0], right[0], rest);
      AveragesCons(left, right);
      DownmixStereo(left[1..], right[1..]);
    }
  }

  /** A stereo frame in front of the rest mixes down to its average in
      front of the rest's mix. */
  lemma DownmixFrame(l: real, r: real, rest: seq<real>)
    ensures DownmixOf([l, r] + rest, 2) == [(l + r) / 2.0] + DownmixOf(rest, 2)
  {
    var s := [l, r] + rest;
    assert s[..2] == [l, r];
    SumPair(l, r);
    if |rest| > 0 {
      assert s[2..] == rest;
    } else {
      assert s == [l, r];
      assert DownmixOf(rest, 2) == [];
    }
  }

  lemma AveragesCons(left: seq<real>, right: seq<real>)
    requires |left| == |right| > 0
    ensures Averages(left, right) == [(left[0] + right[0]) / 2.0] + Averages(left[1..], right[1..])
  {
  }

  /** The frame-by-frame averages of two channels. */
  function Averages(left: seq<real>, right: seq<real>): (r: seq<real>)
    requires |left| == |right|
    ensures |r| == |left| && forall k :: 0 <= k < |left| ==> r[k] == (left[k] + right[k]) / 2.0
  {
    seq(|left|, k requires 0 <= k < |left| => (left[k] + right[k]) / 2.0)
  }


  const ZERO_CHUNK := "chunk size must be non-zero"

  /** The buffer handed to the backend for a decoded file. A file reporting
      no channels panics when split into frames of zero samples. */
  function BufferOf(d: Decoded, downmixStereo: bool): Result<Buffer>
  {
    if d.channels == 1 then Ok(Mono(d.samples))
    else if d.channels == 2 && !downmixStereo then
      Ok(Stereo(seq(|d.samples| / 2, k requires 0 <= k < |d.samples| / 2 => d.samples[2 * k]),
                seq(|d.samples| / 2, k requires 0 <= k < |d.samples| / 2 => d.samples[2 * k + 1])))
    else if d.channels == 0 then Panic(ZERO_CHUNK)
    else Ok(Mono(DownmixOf(d.samples, d.channels)))
  }

  /** The buffer for a decoded file: as it is for one channel, split in two
      for a stereo file that is not to be mixed down, mixed down otherwise. */
  method BufferFor(d: Decoded, downmixStereo: bool) returns (buffer: Result<Buffer>)
    ensures buffer == BufferOf(d, downmixStereo)
    ensures buffer.Panic? <==> d.channels == 0
    ensures d.channels == 2 && !downmixStereo ==>
      buffer.value.Stereo? && Interleave(buffer.value.left, buffer.value.right) == d.samples[..2 * (|d.samples| / 2)]
    ensures d.channels == 2 && downmixStereo ==> buffer.value.Mono? && |buffer.value.samples| == (|d.samples| + 1) / 2
    ensures d.channels > 2 || (d.channels == 2 && downmixStereo) ==>
      buffer.value.Mono? && |buffer.value.samples| * d.channels >= |d.samples| &&
      (|d.samples| > 0 ==> (|buffer.value.samples| - 1) * d.channels < |d.samples|)
  {
    if d.channels != 1 {
      if d.channels == 2 && !downmixStereo {
        var left, right := Deinterleave(d.samples);
        buffer := Ok(Stereo(left, right));
        assert left == seq(|d.samples| / 2, k requires 0 <= k < |d.samples| / 2 => d.samples[2 * k]);
        assert right == seq(|d.samples| / 2, k requires 0 <= k < |d.samples| / 2 => d.samples[2 * k + 1]);
        DeinterleaveRoundTrip(d.samples, left, right);
      } else if d.channels == 0 {
        buffer := Panic(ZERO_CHUNK);
      } else {
        buffer := Ok(Mono(DownmixOf(d.samples, d.channels)));
        DownmixLength(d.samples, d.channels);
      }
    } else {
      buffer := Ok(Mono(d.samples));
    }
  }

  /** Whether any of the files is loaded. */
  predicate AnyLoads(files: seq<string>, decode: string -> Option<Decoded>)
  {
    |files| > 0 && (AnyLoads(files[..|files| - 1], decode) || Loads(files[|files| - 1], decode))
  }

  /** The sample sets, the functions bound to a set name, and the buffers
      handed to the backend. */
  class SampleRegistry {
    var entries: seq<SampleEntry>
    var functions: set<string>
    var loaded: seq<Buffer>

    constructor ()
      ensures entries == [] && functions == {} && loaded == []
    {
      entries, functions, loaded := [], {}, [];
    }

    /** Loads one file into set `setName`. `decoded` is what the decoder gives
        for the file and `bufnum` the buffer number the backend assigns.
        Anything but a `.flac` or `.wav` file, or a file that does not
        decode, is skipped. The given keywords are drained. */
    method LoadSample(setName: string, keywords: seq<string>, path: string, downmixStereo: bool,
                      decoded: Option<Decoded>, bufnum: nat) returns (remaining: seq<string>)
      requires decoded.Some? ==> decoded.value.channels >= 1
      modifies this
      ensures !IsAudioPath(path) || decoded.None? ==>
        entries == old(entries) && functions == old(functions) && loaded == old(loaded) && remaining == keywords
      ensures IsAudioPath(path) && decoded.Some? ==>
        var d := decoded.value;
        remaining == [] &&
        entries == old(entries) + [SampleEntry(setName, SampleKeywords(keywords, path), bufnum,
                                               if d.duration > MAX_DURATION then MAX_DURATION else d.duration)] &&
        functions == old(functions) + {setName} &&
        loaded == old(loaded) + [BufferOf(d, downmixStereo).value]
    {
      remaining := keywords;
      if !IsAudioPath(path) || decoded.None? {
        return;
      }
      var d := decoded.value;
      var duration := d.duration;
      if duration > MAX_DURATION {
        duration := MAX_DURATION;
      }
      var buffer := BufferFor(d, downmixStereo);
      loaded := loaded + [buffer.value];
      var ks := KeywordSet(keywords, path);
      remaining := [];
      entries := entries + [SampleEntry(setName, ks, bufnum, duration)];
      functions := functions + {setName};
    }

    /** One directory entry: loaded when its extension is `flac` or `wav`
        in any case. */
    method LoadFile(name: string, path: string, downmixStereo: bool,
                    decode: string -> Option<Decoded>, bufnum: string -> nat)
      requires decode(path).Some? ==> decode(path).value.channels >= 1
      modifies this
      ensures functions == old(functions) + (if Loads(path, decode) then {name} else {})
      ensures entries == old(entries) + EntryOf(name, path, decode, bufnum)
      ensures |loaded| == |old(loaded)| + |EntryOf(name, path, decode, bufnum)|
    {
      if HasAudioExtension(path) {
        var _ := LoadSample(name, [], path, downmixStereo, decode(path), bufnum(path));
      }
    }

    /** Loads every `.flac` or `.wav` file of a directory into the set the
        directory names. `files` are the directory's files in the order the
        directory lists them; `decode` and `bufnum` stand for the decoder
        and the backend. */
    method LoadSampleSet(dir: string, files: seq<string>, downmixStereo: bool,
                         decode: string -> Option<Decoded>, bufnum: string -> nat)
      requires forall f :: f in files && decode(f).Some? ==> decode(f).value.channels >= 1
      modifies this
      ensures functions == old(functions) + (if AnyLoads(files, decode) then {SetName(dir)} else {})
      ensures entries == old(entries) + EntriesOf(SetName(dir), files, decode, bufnum)
      ensures |loaded| == |old(loaded)| + |EntriesOf(SetName(dir), files, decode, bufnum)|
    {
      var name := SetName(dir);
      for i := 0 to |files|
        invariant functions == old(functions) + (if AnyLoads(files[..i], decode) then {name} else {})
        invariant entries == old(entries) + EntriesOf(name, files[..i], decode, bufnum)
        invariant |loaded| == |old(loaded)| + |EntriesOf(name, files[..i], decode, bufnum)|
      {
        ListingStep(name, files, i, decode, bufnum);
        ghost var before := EntriesOf(name, files[..i], decode, bufnum);
        LoadFile(name, files[i], downmixStereo, decode, bufnum);
        assert entries == old(entries) + (before + EntryOf(name, files[i], decode, bufnum));
      }
      assert files[..|files|] == files;
    }
  }

  /** Whether a directory entry is loaded: its extension is `flac` or `wav`
      in any case, the whole path passes the audio-path test, and it
      decodes. */
  predicate Loads(path: string, decode: string -> Option<Decoded>)
  {
    HasAudioExtension(path) && IsAudioPath(path) && decode(path).Some?
  }

  /** Whether the file name's extension is `flac` or `wav` in any case. */
  predicate HasAudioExtension(path: string)
  {
    var fname := FileName(path);
    fname.Some? && Extension(fname.value).Some? &&
    (Lower(Extension(fname.value).value) == "flac" || Lower(Extension(fname.value).value) == "wav")
  }

  /** The entries a directory's files give, in order. */
  function EntriesOf(setName: string, files: seq<string>, decode: string -> Option<Decoded>, bufnum: string -> nat)
    : (es: seq<SampleEntry>)
  {
    if |files| == 0 then []
    else
      var f := files[|files| - 1];
      EntriesOf(setName, files[..|files| - 1], decode, bufnum) + EntryOf(setName, f, decode, bufnum)
  }

  /** The entry one file gives, if it is loaded. */
  function EntryOf(setName: string, f: string, decode: string -> Option<Decoded>, bufnum: string -> nat)
    : (es: seq<SampleEntry>)
  {
    if Loads(f, decode) then
      var d := decode(f).value;
      [SampleEntry(setName, SampleKeywords([], f), bufnum(f), if d.duration > MAX_DURATION then MAX_DURATION else d.duration)]
    else []
  }

  /** A directory gives at most one entry per file, every one in the
      directory's set and no longer than the clamp. */
  lemma {:induction false} EntriesShape(setName: string, files: seq<string>, decode: string -> Option<Decoded>,
                                        bufnum: string -> nat)
    ensures |EntriesOf(setName, files, decode, bufnum)| <= |files|
    ensures forall e :: e in EntriesOf(setName, files, decode, bufnum) ==>
      e.setName == setName && e.duration <= MAX_DURATION
    ensures |EntriesOf(setName, files, decode, bufnum)| > 0 <==> AnyLoads(files, decode)
  {
    if |files| > 0 {
      EntriesShape(setName, files[..|files| - 1], decode, bufnum);
    }
  }

  /** Stepping the directory listing by one file. */
  lemma ListingStep(setName: string, files: seq<string>, i: nat, decode: string -> Option<Decoded>, bufnum: string -> nat)
    requires i < |files|
    ensures EntriesOf(setName, files[..i + 1], decode, bufnum) ==
      EntriesOf(setName, files[..i], decode, bufnum) + EntryOf(setName, files[i], decode, bufnum)
    ensures AnyLoads(files[..i + 1], decode) == (AnyLoads(files[..i], decode) || Loads(files[i], decode))
  {
    assert files[..i + 1][..i] == files[..i];
  }
}
