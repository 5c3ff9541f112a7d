/** CreateDrumkit of createH2kit_V3.py: select and decode the sample files of a
    directory listing, count layers, sort, and write `drumkit.xml`. */
module Drumkit {
  import opened Text
  import opened Samples
  import opened Ordering
  import opened Aggregation
  import opened KitDocument
  import opened Writer

  /** `".WAV" in SampleFile.upper()` */
  predicate IsWav(file: string) {
    Contains(Upper(file), ".WAV")
  }

  /** `".FLAC" in SampleFile.upper()` */
  predicate IsFlac(file: string) {
    Contains(Upper(file), ".FLAC")
  }

  predicate IsSampleFile(file: string) {
    IsFlac(file) || IsWav(file)
  }

  /** `file` holds `.wav`, in any mix of cases, at `i`. */
  predicate WavAt(file: string, i: int) {
    0 <= i <= |file| - 4 && file[i] == '.'
    && (file[i + 1] == 'W' || file[i + 1] == 'w')
    && (file[i + 2] == 'A' || file[i + 2] == 'a')
    && (file[i + 3] == 'V' || file[i + 3] == 'v')
  }

  /** `file` holds `.flac`, in any mix of cases, at `i`. */
  predicate FlacAt(file: string, i: int) {
    0 <= i <= |file| - 5 && file[i] == '.'
    && (file[i + 1] == 'F' || file[i + 1] == 'f')
    && (file[i + 2] == 'L' || file[i + 2] == 'l')
    && (file[i + 3] == 'A' || file[i + 3] == 'a')
    && (file[i + 4] == 'C' || file[i + 4] == 'c')
  }

  /** A file counts as `.wav` exactly when it holds a `.` followed by the letters
      w, a, v in either case. */
  lemma IsWavMeaning(file: string)
    ensures IsWav(file) <==> exists i :: WavAt(file, i)
  {
    var w := ".WAV";
    UpperContains(file, w);
    forall i | 0 <= i <= |file| - 4 ensures UpperAt(file, w, i) <==> WavAt(file, i) {
      UpperCharIs(file[i + 1], 'W');
      UpperCharIs(file[i + 2], 'A');
      UpperCharIs(file[i + 3], 'V');
      assert UpperChar(file[i]) == '.' <==> file[i] == '.';
      if UpperAt(file, w, i) {
        assert UpperChar(file[i + 0]) == w[0] && UpperChar(file[i + 1]) == w[1];
        assert UpperChar(file[i + 2]) == w[2] && UpperChar(file[i + 3]) == w[3];
      }
    }
    if IsWav(file) {
      var i :| UpperAt(file, w, i);
      assert WavAt(file, i);
    }
    if exists i :: WavAt(file, i) {
      var i :| WavAt(file, i);
      assert UpperAt(file, w, i);
    }
  }

  /** A file counts as `.flac` exactly when it holds a `.` followed by the
      letters f, l, a, c in either case. */
  lemma IsFlacMeaning(file: string)
    ensures IsFlac(file) <==> exists i :: FlacAt(file, i)
  {
    var w := ".FLAC";
    UpperContains(file, w);
    forall i | 0 <= i <= |file| - 5 ensures UpperAt(file, w, i) <==> FlacAt(file, i) {
      UpperCharIs(file[i + 1], 'F');
      UpperCharIs(file[i + 2], 'L');
      UpperCharIs(file[i + 3], 'A');
      UpperCharIs(file[i + 4], 'C');
      assert UpperChar(file[i]) == '.' <==> file[i] == '.';
      if UpperAt(file, w, i) {
        assert UpperChar(file[i + 0]) == w[0] && UpperChar(file[i + 1]) == w[1];
        assert UpperChar(file[i + 2]) == w[2] && UpperChar(file[i + 3]) == w[3];
        assert UpperChar(file[i + 4]) == w[4];
      }
    }
    if IsFlac(file) {
      var i :| UpperAt(file, w, i);
      assert FlacAt(file, i);
    }
    if exists i :: FlacAt(file, i) {
      var i :| FlacAt(file, i);
      assert UpperAt(file, w, i);
    }
  }

  /** The listing entries that are sample files, in listing order. */
  function Selected(listing: seq<string>): (r: seq<string>)
    ensures |r| <= |listing|
    ensures forall i :: 0 <= i < |r| ==> IsSampleFile(r[i]) && r[i] in listing
    ensures forall e :: e in listing && IsSampleFile(e) ==> e in r
  {
    if listing == [] then []
    else
      var init := listing[..|listing| - 1];
      assert listing == init + [listing[|listing| - 1]];
      Selected(init) + (if IsSampleFile(listing[|listing| - 1]) then [listing[|listing| - 1]] else [])
  }

  lemma {:induction false} SelectedAppend(a: seq<string>, b: seq<string>)
    ensures Selected(a + b) == Selected(a) + Selected(b)
  {
    if b == [] {
      assert a + b == a;
    } else {
      var init := b[..|b| - 1];
      SelectedAppend(a, init);
      assert (a + b)[..|a + b| - 1] == a + init;
    }
  }

  lemma SelectedSplit(listing: seq<string>, i: nat)
    requires i <= |listing|
    ensures Selected(listing) == Selected(listing[..i]) + Selected(listing[i..])
  {
    assert listing == listing[..i] + listing[i..];
    SelectedAppend(listing[..i], listing[i..]);
  }

  /** WavFiles: the entries whose upper-cased name contains ".WAV". */
  function WavCount(listing: seq<string>): nat {
    if listing == [] then 0
    else WavCount(listing[..|listing| - 1]) + (if IsWav(listing[|listing| - 1]) then 1 else 0)
  }

  /** FlacFiles: the entries that contain ".FLAC" but not ".WAV". */
  function FlacCount(listing: seq<string>): nat {
    if listing == [] then 0
    else
      var last := listing[|listing| - 1];
      FlacCount(listing[..|listing| - 1]) + (if !IsWav(last) && IsFlac(last) then 1 else 0)
  }

  lemma CountStep(listing: seq<string>, i: nat)
    requires i < |listing|
    ensures WavCount(listing[..i + 1]) == WavCount(listing[..i]) + if IsWav(listing[i]) then 1 else 0
    ensures FlacCount(listing[..i + 1]) == FlacCount(listing[..i]) + if !IsWav(listing[i]) && IsFlac(listing[i]) then 1 else 0
  {
    assert listing[..i + 1][..i] == listing[..i];
  }

  /** Every selected entry is counted once, as a .wav or as a .flac file. */
  lemma {:induction false} CountsCoverSelection(listing: seq<string>)
    ensures WavCount(listing) + FlacCount(listing) == |Selected(listing)|
  {
    if listing != [] {
      CountsCoverSelection(listing[..|listing| - 1]);
    }
  }

  /** `decode` applied to each file, in order. */
  function MapFiles(files: seq<string>, decode: string -> Result<Sample, DecodeError>): seq<Result<Sample, DecodeError>> {
    seq(|files|, i requires 0 <= i < |files| => decode(files[i]))
  }

  lemma MapFilesAppend(a: seq<string>, b: seq<string>, decode: string -> Result<Sample, DecodeError>)
    ensures MapFiles(a + b, decode) == MapFiles(a, decode) + MapFiles(b, decode)
  {
    forall i | 0 <= i < |a + b| ensures MapFiles(a + b, decode)[i] == (MapFiles(a, decode) + MapFiles(b, decode))[i] {
      if i >= |a| {
        assert (a + b)[i] == b[i - |a|];
      }
    }
  }

  /** The results of ConvertName on each file, in order. */
  function Decoded(files: seq<string>): seq<Result<Sample, DecodeError>> {
    MapFiles(files, ConvertName)
  }

  /** Appending the results one at a time; the first exception stops the run. */
  function Collect(rs: seq<Result<Sample, DecodeError>>): (r: Result<seq<Sample>, DecodeError>)
    ensures r.Ok? ==> |r.value| == |rs|
    ensures r.Ok? ==> forall i :: 0 <= i < |rs| ==> rs[i] == Ok(r.value[i])
    ensures r.Ok? <==> forall i :: 0 <= i < |rs| ==> rs[i].Ok?
  {
    if rs == [] then Ok([])
    else
      var init := rs[..|rs| - 1];
      assert forall i :: 0 <= i < |init| ==> init[i] == rs[i];
      match Collect(init)
      case Err(e) => Err(e)
      case Ok(xs) =>
        match rs[|rs| - 1]
        case Err(e) => Err(e)
        case Ok(x) => Ok(xs + [x])
  }

  /** `rs[i]` is the first exception among the results. */
  predicate FailsFirstAt(rs: seq<Result<Sample, DecodeError>>, i: int) {
    0 <= i < |rs| && rs[i].Err? && forall j :: 0 <= j < i ==> rs[j].Ok?
  }

  /** The exception that stops the run is the first one. */
  lemma {:induction false} CollectFirstError(rs: seq<Result<Sample, DecodeError>>)
    requires Collect(rs).Err?
    ensures exists i :: FailsFirstAt(rs, i) && Collect(rs) == Err(rs[i].error)
  {
    var init := rs[..|rs| - 1];
    if Collect(init).Err? {
      CollectFirstError(init);
      var i :| FailsFirstAt(init, i) && Collect(init) == Err(init[i].error);
      assert FailsFirstAt(rs, i);
    } else {
      assert FailsFirstAt(rs, |rs| - 1);
    }
  }

  /** Once a result is an exception, later results change nothing. */
  lemma {:induction false} CollectStops(a: seq<Result<Sample, DecodeError>>, b: seq<Result<Sample, DecodeError>>)
    requires Collect(a).Err?
    ensures Collect(a + b) == Collect(a)
  {
    if b == [] {
      assert a + b == a;
    } else {
      var init := b[..|b| - 1];
      CollectStops(a, init);
      assert (a + b)[..|a + b| - 1] == a + init;
    }
  }

  /** `SampleArray` after the listing loop, or the exception that ended it. */
  function DecodeAll(files: seq<string>): Result<seq<Sample>, DecodeError> {
    Collect(Decoded(files))
  }

  /** One more result: an exception stops the run, a sample is appended. */
  lemma CollectSnoc(rs: seq<Result<Sample, DecodeError>>, x: Result<Sample, DecodeError>)
    requires Collect(rs).Ok?
    ensures Collect(rs + [x]) == if x.Ok? then Ok(Collect(rs).value + [x.value]) else Err(x.error)
  {
    assert (rs + [x])[..|rs|] == rs;
  }

  /** Looking at one more listing entry decodes it when it is a sample file. */
  lemma DecodedStep(listing: seq<string>, i: nat)
    requires i < |listing|
    ensures Decoded(Selected(listing[..i + 1]))
            == Decoded(Selected(listing[..i])) + if IsSampleFile(listing[i]) then [ConvertName(listing[i])] else []
  {
    assert listing[..i + 1][..i] == listing[..i];
  }

  lemma DecodeAllAppend(a: seq<string>, b: seq<string>)
    requires DecodeAll(a).Err?
    ensures DecodeAll(a + b) == DecodeAll(a)
  {
    MapFilesAppend(a, b, ConvertName);
    CollectStops(Decoded(a), Decoded(b));
  }

  /** An exception among the first entries is the outcome of the whole listing. */
  lemma DecodeAllStops(listing: seq<string>, i: nat)
    requires i <= |listing|
    requires DecodeAll(Selected(listing[..i])).Err?
    ensures DecodeAll(Selected(listing)) == DecodeAll(Selected(listing[..i]))
  {
    SelectedSplit(listing, i);
    DecodeAllAppend(Selected(listing[..i]), Selected(listing[i..]));
  }

  /** The listing loop: count .wav and .flac files and decode each sample file. */
  method SelectSamples(listing: seq<string>) returns (wavFiles: nat, flacFiles: nat, decoded: Result<seq<Sample>, DecodeError>)
    ensures decoded == DecodeAll(Selected(listing))
    ensures decoded.Ok? ==> wavFiles == WavCount(listing) && flacFiles == FlacCount(listing)
  {
    wavFiles, flacFiles := 0, 0;
    var sampleArray: seq<Sample> := [];
    var i := 0;
    while i < |listing|
      invariant 0 <= i <= |listing|
      invariant wavFiles == WavCount(listing[..i]) && flacFiles == FlacCount(listing[..i])
      invariant DecodeAll(Selected(listing[..i])) == Ok(sampleArray)
    {
      var sampleFile := listing[i];
      CountStep(listing, i);
      if Contains(Upper(sampleFile), ".WAV") {
        wavFiles := wavFiles + 1;
      } else if Contains(Upper(sampleFile), ".FLAC") {
        flacFiles := flacFiles + 1;
      }
      DecodedStep(listing, i);
      if Contains(Upper(sampleFile), ".FLAC") || Contains(Upper(sampleFile), ".WAV") {
        var converted := ConvertName(sampleFile);
        CollectSnoc(Decoded(Selected(listing[..i])), converted);
        if converted.Err? {
          decoded := Err(converted.error);
          DecodeAllStops(listing, i + 1);
          return;
        }
        sampleArray := sampleArray + [converted.value];
      } else {
        assert Decoded(Selected(listing[..i])) + [] == Decoded(Selected(listing[..i]));
      }
      i := i + 1;
    }
    assert listing[..i] == listing;
    decoded := Ok(sampleArray);
  }

  /** The lines of the layers, one after the other. */
  function Flatten(blocks: seq<seq<Line>>): seq<Line> {
    if blocks == [] then [] else Flatten(blocks[..|blocks| - 1]) + blocks[|blocks| - 1]
  }

  /** The lines of each layer. */
  function Blocks(ls: seq<Layer>): seq<seq<Line>> {
    seq(|ls|, k requires 0 <= k < |ls| => LayerLines(ls[k]))
  }

  /** The lines the inner loop writes for the `c`-th of an instrument's layers,
      whose lines are `blocks[c]`: the header `h` before the first and the
      closing lines after the last. */
  function Step(h: seq<Line>, blocks: seq<seq<Line>>, close: seq<Line>, c: nat): seq<Line>
    requires c < |blocks|
  {
    (if c == 0 then h else []) + blocks[c] + (if c + 1 == |blocks| then close else [])
  }

  /** What the inner loop has written for an instrument once it has met `c` of
      its layers. */
  function Steps(h: seq<Line>, blocks: seq<seq<Line>>, close: seq<Line>, c: nat): seq<Line>
    requires c <= |blocks|
  {
    if c == 0 then [] else Steps(h, blocks, close, c - 1) + Step(h, blocks, close, c - 1)
  }

  /** The step of the `c`-th of the samples `g` with id `p`. */
  function StepLines(g: seq<Sample>, p: int, c: nat): seq<Line>
    requires c < |g|
  {
    Step(InstrumentHeader(p, g[0].name), Blocks(VelocityLayers(g)), [InstrumentClose], c)
  }

  /** What the inner loop has written for position `p` once it has met `c` of
      the `p` samples `g`. */
  function Partial(g: seq<Sample>, p: int, c: nat): seq<Line>
    requires c <= |g|
  {
    if c == 0 then []
    else Steps(InstrumentHeader(p, g[0].name), Blocks(VelocityLayers(g)), [InstrumentClose], c)
  }

  /** In samples sorted by id, the `c`-th sample with id `p` is at `j` when `c`
      samples with id `p` come before `j`. */
  lemma GroupAt(t: seq<Sample>, j: nat, p: int)
    requires j < |t| && t[j].instrument == p
    ensures |Matching(t[..j], InstrumentField, p)| < |Matching(t, InstrumentField, p)|
    ensures Matching(t, InstrumentField, p)[|Matching(t[..j], InstrumentField, p)|] == t[j]
    ensures Matching(t[..j + 1], InstrumentField, p) == Matching(t[..j], InstrumentField, p) + [t[j]]
  {
    MatchingSplit(t, j, InstrumentField, p);
    MatchingSnoc(t, j, InstrumentField, p);
    assert t[j..] == [t[j]] + t[j + 1..];
    MatchingAppend([t[j]], t[j + 1..], InstrumentField, p);
  }

  /** Past the samples with id `p` there are no more of them. */
  lemma PastGroup(t: seq<Sample>, j: nat, p: int)
    requires SortedBy(t, InstrumentField)
    requires j <= |t| && (j < |t| ==> t[j].instrument > p)
    ensures Matching(t, InstrumentField, p) == Matching(t[..j], InstrumentField, p)
  {
    if j < |t| {
      MatchingSplit(t, j, InstrumentField, p);
      MatchingNone(t[j..], InstrumentField, p);
    } else {
      assert t[..j] == t;
    }
  }

  lemma RenderLayersSnoc(ls: seq<Layer>, c: nat)
    requires c < |ls|
    ensures RenderLayers(ls[..c + 1]) == RenderLayers(ls[..c]) + LayerLines(ls[c])
  {
    assert ls[..c + 1][..c] == ls[..c];
  }

  lemma FlattenSnoc(blocks: seq<seq<Line>>, c: nat)
    requires c < |blocks|
    ensures Flatten(blocks[..c + 1]) == Flatten(blocks[..c]) + blocks[c]
  {
    assert blocks[..c + 1][..c] == blocks[..c];
  }

  /** The layers' lines one after the other are the rendered layers. */
  lemma {:induction false} FlattenBlocks(ls: seq<Layer>, c: nat)
    requires c <= |ls|
    ensures Flatten(Blocks(ls)[..c]) == RenderLayers(ls[..c])
  {
    if c == 0 {
      assert Blocks(ls)[..0] == [] && ls[..0] == [];
    } else {
      FlattenBlocks(ls, c - 1);
      FlattenSnoc(Blocks(ls), c - 1);
      RenderLayersSnoc(ls, c - 1);
    }
  }

  /** Before the last layer, the instrument is open: its header and the layers
      so far. */
  lemma {:induction false} StepsOpen(h: seq<Line>, blocks: seq<seq<Line>>, close: seq<Line>, c: nat)
    requires 1 <= c < |blocks|
    ensures Steps(h, blocks, close, c) == h + Flatten(blocks[..c])
  {
    var b := blocks[c - 1];
    FlattenSnoc(blocks, c - 1);
    if c == 1 {
      assert Step(h, blocks, close, 0) == h + b + [];
      AppendEmpty(h + b);
      EmptyLeft(h + b);
      assert blocks[..0] == [];
      EmptyLeft(b);
    } else {
      assert Step(h, blocks, close, c - 1) == [] + b + [];
      AppendEmpty([] + b);
      EmptyLeft(b);
      StepsOpen(h, blocks, close, c - 1);
      Assoc(h, Flatten(blocks[..c - 1]), b);
    }
  }

  /** After the last layer, the instrument is complete. */
  lemma StepsClosed(h: seq<Line>, blocks: seq<seq<Line>>, close: seq<Line>)
    requires blocks != []
    ensures Steps(h, blocks, close, |blocks|) == h + Flatten(blocks) + close
  {
    var n := |blocks|;
    var b := blocks[n - 1];
    FlattenSnoc(blocks, n - 1);
    assert blocks[..n] == blocks;
    if n == 1 {
      assert Step(h, blocks, close, 0) == h + b + close;
      EmptyLeft(h + b + close);
      assert blocks[..0] == [];
      EmptyLeft(b);
    } else {
      assert Step(h, blocks, close, n - 1) == [] + b + close;
      EmptyLeft(b);
      StepsOpen(h, blocks, close, n - 1);
      Assoc(h + Flatten(blocks[..n - 1]), b, close);
      Assoc(h, Flatten(blocks[..n - 1]), b);
    }
  }

  /** Once every sample with id `p` is written, the instrument is complete; with
      no such sample nothing is written yet and the placeholder is still due. */
  lemma PartialComplete(t: seq<Sample>, p: int)
    ensures var g := Matching(t, InstrumentField, p);
            g != [] ==> Partial(g, p, |g|) == RenderInstrument(InstrumentAt(t, p))
    ensures Matching(t, InstrumentField, p) == [] ==>
            RenderInstrument(InstrumentAt(t, p)) == InstrumentHeader(p, DecimalString(p)) + [InstrumentClose]
  {
    var g := Matching(t, InstrumentField, p);
    if g != [] {
      var ls := VelocityLayers(g);
      StepsClosed(InstrumentHeader(p, g[0].name), Blocks(ls), [InstrumentClose]);
      FlattenBlocks(ls, |ls|);
      assert Blocks(ls)[..|ls|] == Blocks(ls) && ls[..|ls|] == ls;
    } else {
      assert RenderLayers([]) == [];
      AppendEmpty(InstrumentHeader(p, DecimalString(p)));
    }
  }

  /** Sequence identities stated over plain sequences, so that a caller can
      regroup its appends without unfolding what they hold. They exist only to
      keep the writer proofs below the solver's resource limit. */
  lemma EmptyLeft(a: seq<Line>)
    ensures [] + a == a
  {
  }

  // Keeps the writer proofs below the resource limit.
  lemma AppendEmpty(a: seq<Line>)
    ensures a + [] == a
  {
  }

  // Keeps the writer proofs below the resource limit.
  lemma Assoc(a: seq<Line>, b: seq<Line>, c: seq<Line>)
    ensures a + b + c == a + (b + c)
  {
  }

  // Keeps the writer proofs below the resource limit.
  lemma Regroup3(y: seq<Line>, h: seq<Line>, l: seq<Line>, c: seq<Line>)
    ensures y + h + l + c == y + (h + l + c)
  {
  }

  /** The lines the inner loop writes for sample `i` when it has id `p`: the
      header when the previous sample has another id, the layer numbered by the
      samples with id `p` before it, out of all samples with id `p`, and the
      closing tag when the next sample has another id or there is none. */
  function SampleLines(t: seq<Sample>, p: int, i: nat): seq<Line>
    requires i < |t|
  {
    if t[i].instrument != p then []
    else
      MatchingSplit(t, i, InstrumentField, p);
      var n := CountId(t, p);
      var k := |Matching(t[..i], InstrumentField, p)|;
      (if OpensAt(t, i) then InstrumentHeader(p, t[i].name) else [])
      + LayerLines(Layer(t[i].file, Velocity(k, n), Velocity(k + 1, n)))
      + (if ClosesAt(t, i) then [InstrumentClose] else [])
  }

  /** The three parts of the lines of a sample with id `p`. */
  lemma SampleLinesParts(t: seq<Sample>, p: int, j: nat,
                         header: seq<Line>, layer: seq<Line>, closing: seq<Line>)
    requires j < |t| && t[j].instrument == p && CountId(t, p) != 0
    requires header == if OpensAt(t, j) then InstrumentHeader(p, t[j].name) else []
    requires var k := |Matching(t[..j], InstrumentField, p)|;
             layer == LayerLines(Layer(t[j].file, Velocity(k, CountId(t, p)), Velocity(k + 1, CountId(t, p))))
    requires closing == if ClosesAt(t, j) then [InstrumentClose] else []
    ensures SampleLines(t, p, j) == header + layer + closing
  {
  }

  /** `not prev_instr == SampleArray[Instrument][1]` */
  predicate OpensAt(t: seq<Sample>, i: nat)
    requires i < |t|
  {
    i == 0 || t[i - 1].instrument != t[i].instrument
  }

  /** The sample is the last one, or the next sample has another id. */
  predicate ClosesAt(t: seq<Sample>, i: nat)
    requires i < |t|
  {
    i + 1 == |t| || t[i].instrument != t[i + 1].instrument
  }

  /** The lines the inner loop has written after the first `j` samples. */
  function PositionLines(t: seq<Sample>, p: int, j: nat): seq<Line>
    requires j <= |t|
  {
    if j == 0 then [] else PositionLines(t, p, j - 1) + SampleLines(t, p, j - 1)
  }

  /** Where the first `j` samples leave the inner loop for sorted samples:
      `c` of the `p` samples written, and the instrument still open only
      right after one of them. */
  predicate PositionInvariant(t: seq<Sample>, p: int, j: nat)
    requires j <= |t|
  {
    var g := Matching(t, InstrumentField, p);
    var c := |Matching(t[..j], InstrumentField, p)|;
    c <= |g|
    && PositionLines(t, p, j) == Partial(g, p, c)
    && (0 < c < |g| ==> 0 < j && t[j - 1].instrument == p)
  }

  /** A sample with another id changes nothing and keeps the invariant. */
  lemma OtherSampleStep(t: seq<Sample>, p: int, j: nat)
    requires SortedBy(t, InstrumentField)
    requires j < |t| && t[j].instrument != p
    requires PositionInvariant(t, p, j)
    ensures PositionInvariant(t, p, j + 1)
  {
    var g := Matching(t, InstrumentField, p);
    var c := |Matching(t[..j], InstrumentField, p)|;
    MatchingSnoc(t, j, InstrumentField, p);
    AppendEmpty(PositionLines(t, p, j));
    if 0 < c < |g| {
      PastGroup(t, j, p);
    }
  }

  /** A sample with id `p` opens the instrument exactly when it is the first one. */
  lemma OpensAtFirst(t: seq<Sample>, p: int, j: nat)
    requires j < |t| && t[j].instrument == p
    requires var c := |Matching(t[..j], InstrumentField, p)|;
             0 < c < |Matching(t, InstrumentField, p)| ==> 0 < j && t[j - 1].instrument == p
    ensures OpensAt(t, j) <==> |Matching(t[..j], InstrumentField, p)| == 0
  {
    GroupAt(t, j, p);
    if j > 0 && t[j - 1].instrument == p {
      MatchingSnoc(t, j - 1, InstrumentField, p);
      assert t[..j - 1 + 1] == t[..j];
    }
  }

  /** In sorted samples, a sample with id `p` closes the instrument exactly when
      it is the last one. */
  lemma ClosesAtLast(t: seq<Sample>, p: int, j: nat)
    requires SortedBy(t, InstrumentField)
    requires j < |t| && t[j].instrument == p
    ensures ClosesAt(t, j) <==> |Matching(t[..j], InstrumentField, p)| + 1 == |Matching(t, InstrumentField, p)|
  {
    GroupAt(t, j, p);
    if j + 1 == |t| {
      assert t[..j + 1] == t;
    } else if t[j].instrument != t[j + 1].instrument {
      PastGroup(t, j + 1, p);
    } else {
      GroupAt(t, j + 1, p);
    }
  }

  /** The lines of a sample with id `p` are the step of its place among them. */
  lemma OwnSampleLines(t: seq<Sample>, p: int, j: nat)
    requires SortedBy(t, InstrumentField)
    requires j < |t| && t[j].instrument == p
    requires var c := |Matching(t[..j], InstrumentField, p)|;
             0 < c < |Matching(t, InstrumentField, p)| ==> 0 < j && t[j - 1].instrument == p
    ensures var g := Matching(t, InstrumentField, p);
            var c := |Matching(t[..j], InstrumentField, p)|;
            c < |g| && SampleLines(t, p, j) == StepLines(g, p, c)
  {
    var g := Matching(t, InstrumentField, p);
    var c := |Matching(t[..j], InstrumentField, p)|;
    GroupAt(t, j, p);
    OpensAtFirst(t, p, j);
    ClosesAtLast(t, p, j);
    VelocityLayerAt(g, c);
    MatchingSplit(t, j, InstrumentField, p);
    var header := if OpensAt(t, j) then InstrumentHeader(p, t[j].name) else [];
    var layer := LayerLines(Layer(t[j].file, Velocity(c, |g|), Velocity(c + 1, |g|)));
    var closing := if ClosesAt(t, j) then [InstrumentClose] else [];
    SampleLinesParts(t, p, j, header, layer, closing);
    StepParts(InstrumentHeader(p, g[0].name), Blocks(VelocityLayers(g)), [InstrumentClose], c, header, layer, closing);
  }

  /** The three parts of a step. */
  lemma StepParts(h: seq<Line>, blocks: seq<seq<Line>>, close: seq<Line>, c: nat,
                  header: seq<Line>, layer: seq<Line>, closing: seq<Line>)
    requires c < |blocks|
    requires header == if c == 0 then h else []
    requires layer == blocks[c]
    requires closing == if c + 1 == |blocks| then close else []
    ensures Step(h, blocks, close, c) == header + layer + closing
  {
  }

  /** A sample with id `p` adds its step: its layer, opening and closing the
      instrument around the first and the last of them. */
  lemma OwnSampleStep(t: seq<Sample>, p: int, j: nat)
    requires SortedBy(t, InstrumentField)
    requires j < |t| && t[j].instrument == p
    requires PositionInvariant(t, p, j)
    ensures PositionInvariant(t, p, j + 1)
  {
    var g := Matching(t, InstrumentField, p);
    var c := |Matching(t[..j], InstrumentField, p)|;
    OwnSampleLines(t, p, j);
    GroupAt(t, j, p);
    PositionStep(t, p, j, g, c);
  }

  /** The inner loop's step on the `c`-th sample of `g` is the `c`-th step of the instrument. */
  lemma PositionStep(t: seq<Sample>, p: int, j: nat, g: seq<Sample>, c: nat)
    requires j < |t| && c < |g|
    requires PositionLines(t, p, j) == Partial(g, p, c)
    requires SampleLines(t, p, j) == StepLines(g, p, c)
    ensures PositionLines(t, p, j + 1) == Partial(g, p, c + 1)
  {
  }

  /** For samples sorted by id, the inner loop writes exactly the instrument at
      position `p`, or nothing when no sample has id `p`. */
  lemma {:induction false} PositionLinesComplete(t: seq<Sample>, p: int, j: nat)
    requires SortedBy(t, InstrumentField)
    requires j <= |t|
    ensures PositionInvariant(t, p, j)
  {
    if j == 0 {
      assert t[..0] == [];
    } else if t[j - 1].instrument == p {
      PositionLinesComplete(t, p, j - 1);
      OwnSampleStep(t, p, j - 1);
    } else {
      PositionLinesComplete(t, p, j - 1);
      OtherSampleStep(t, p, j - 1);
    }
  }

  /** The body of the inner loop for a sample whose id is the current position:
      the header when the id changes, the layer, and the closing tag when the
      next sample has another id or there is none. */
  method WriteSample(f: KitWriter, t: seq<Sample>, p: int, j: nat,
                     prevInstr: Option<int>, numOfLayers: int, layerCounter: int)
    requires j < |t| && t[j].instrument == p
    requires prevInstr == if j == 0 then None else Some(t[j - 1].instrument)
    requires layerCounter == |Matching(t[..j], InstrumentField, p)| + 1
    requires numOfLayers == CountId(t, p)
    modifies f
    ensures f.lines == old(f.lines) + SampleLines(t, p, j)
  {
    MatchingSplit(t, j, InstrumentField, p);
    ghost var header: seq<Line> := [];
    if prevInstr != Some(t[j].instrument) {
      f.AddInstrument(t[j].instrument, t[j].name);
      header := InstrumentHeader(p, t[j].name);
    } else {
      AppendEmpty(f.lines);
    }
    ghost var layer := LayerLines(Layer(t[j].file, Velocity(layerCounter - 1, numOfLayers), Velocity(layerCounter, numOfLayers)));
    f.AddLayer(t[j].file, numOfLayers, layerCounter);
    ghost var closing: seq<Line> := [];
    if j + 1 < |t| {
      var arraythis := t[j].instrument;
      var arraynext := t[j + 1].instrument;
      if arraythis != arraynext {
        f.Write(InstrumentClose);
        closing := [InstrumentClose];
      } else {
        AppendEmpty(f.lines);
      }
    } else {
      f.Write(InstrumentClose);
      closing := [InstrumentClose];
    }
    assert f.lines == old(f.lines) + header + layer + closing;
    SampleLinesParts(t, p, j, header, layer, closing);
    Regroup3(old(f.lines), header, layer, closing);
  }

  /** All samples written: the instrument of position `p` when it has samples,
      nothing otherwise. */
  lemma PositionLinesAll(t: seq<Sample>, p: int)
    requires SortedBy(t, InstrumentField)
    ensures CountId(t, p) > 0 ==> PositionLines(t, p, |t|) == RenderInstrument(InstrumentAt(t, p))
    ensures CountId(t, p) == 0 ==> PositionLines(t, p, |t|) == []
  {
    PositionLinesComplete(t, p, |t|);
    assert t[..|t|] == t;
    PartialComplete(t, p);
  }

  /** The inner loop over the sorted samples for `InstrumentPos` `p`: the
      instrument with all its layers when some sample has id `p`, nothing
      otherwise. */
  method WriteLayers(f: KitWriter, t: seq<Sample>, dct: map<int, nat>, p: int)
    requires SortedBy(t, InstrumentField)
    requires CountId(t, p) > 0 ==> p in dct && dct[p] == CountId(t, p)
    modifies f
    ensures CountId(t, p) > 0 ==> f.lines == old(f.lines) + RenderInstrument(InstrumentAt(t, p))
    ensures CountId(t, p) == 0 ==> f.lines == old(f.lines)
  {
    ghost var base := f.lines;
    var prevInstr: Option<int> := None;
    var layerCounter := 1;
    var j := 0;
    while j < |t|
      invariant 0 <= j <= |t|
      invariant prevInstr == if j == 0 then None else Some(t[j - 1].instrument)
      invariant layerCounter == |Matching(t[..j], InstrumentField, p)| + 1
      invariant f.lines == base + PositionLines(t, p, j)
    {
      MatchingSnoc(t, j, InstrumentField, p);
      if t[j].instrument == p {
        MatchingSplit(t, j, InstrumentField, p);
        WriteSample(f, t, p, j, prevInstr, dct[p], layerCounter);
        layerCounter := layerCounter + 1;
        Assoc(base, PositionLines(t, p, j), SampleLines(t, p, j));
      } else {
        AppendEmpty(PositionLines(t, p, j));
      }
      prevInstr := Some(t[j].instrument);
      j := j + 1;
    }
    PositionLinesAll(t, p);
    if CountId(t, p) == 0 {
      AppendEmpty(base);
    }
  }

  /** One pass of the outer loop for `InstrumentPos` `p`: the instrument with its
      layers, or a placeholder when no sample has id `p`. */
  method WritePosition(f: KitWriter, t: seq<Sample>, pairs: seq<(int, nat)>, dct: map<int, nat>, p: int)
    requires SortedBy(t, InstrumentField)
    requires p in PairIds(pairs) <==> CountId(t, p) > 0
    requires p in PairIds(pairs) ==> p in dct && dct[p] == CountId(t, p)
    modifies f
    ensures f.lines == old(f.lines) + RenderInstrument(InstrumentAt(t, p))
  {
    WriteLayers(f, t, dct, p);
    if p !in PairIds(pairs) {
      PartialComplete(t, p);
      f.AddInstrument(p, DecimalString(p));
      f.Write(InstrumentClose);
      Assoc(old(f.lines), InstrumentHeader(p, DecimalString(p)), [InstrumentClose]);
    }
  }

  lemma RenderKitStep(t: seq<Sample>, m: int)
    requires m >= 1
    ensures RenderInstruments(KitInstruments(t, m))
            == RenderInstruments(KitInstruments(t, m - 1)) + RenderInstrument(InstrumentAt(t, m))
  {
    var ks := KitInstruments(t, m);
    assert ks[..|ks| - 1] == KitInstruments(t, m - 1);
  }

  /** The outer loop: `InstrumentPos` runs over 1..MaxInstrumentID. */
  method WriteInstruments(f: KitWriter, t: seq<Sample>, pairs: seq<(int, nat)>, dct: map<int, nat>, maxId: int)
    requires SortedBy(t, InstrumentField)
    requires forall p :: p in PairIds(pairs) <==> CountId(t, p) > 0
    requires forall p :: p in PairIds(pairs) ==> p in dct && dct[p] == CountId(t, p)
    modifies f
    ensures f.lines == old(f.lines) + RenderInstruments(KitInstruments(t, maxId))
  {
    var instrumentPos := 1;
    while instrumentPos < maxId + 1
      invariant 1 <= instrumentPos <= if maxId >= 1 then maxId + 1 else 1
      invariant f.lines == old(f.lines) + RenderInstruments(KitInstruments(t, instrumentPos - 1))
    {
      WritePosition(f, t, pairs, dct, instrumentPos);
      RenderKitStep(t, instrumentPos);
      Assoc(old(f.lines), RenderInstruments(KitInstruments(t, instrumentPos - 1)), RenderInstrument(InstrumentAt(t, instrumentPos)));
      instrumentPos := instrumentPos + 1;
    }
    if maxId < 1 {
      assert KitInstruments(t, instrumentPos - 1) == [] == KitInstruments(t, maxId);
    } else {
      assert instrumentPos - 1 == maxId;
    }
  }

  /** How a run of CreateDrumkit ends: the abort message it returns, the
      exception ConvertName raised, or the contents of the `drumkit.xml` it wrote. */
  datatype Outcome = Aborted(message: string) | Crashed(error: DecodeError) | Written(document: seq<Line>)

  const AbortText: string := "ABORTING: no sample files (.wav or .flac) found in "

  /** `MaxInstrumentID`: the id of the largest `(id, count)` pair, which is the
      largest instrument id among the samples. */
  function MaxId(samples: seq<Sample>): (r: int)
    requires samples != []
    ensures r in InstrumentIds(samples)
    ensures forall i :: 0 <= i < |samples| ==> samples[i].instrument <= r
  {
    MaxInstrumentIdMeaning(samples);
    MaxPair(LayerCounts(samples)).0
  }

  /** The kit information as written: an empty name becomes "drumkit". */
  function WrittenInfo(info: KitInfo): KitInfo {
    KitInfo(KitName(info.name), info.author, info.info, info.license)
  }

  /** What CreateDrumkit does for the directory `path` whose listing is
      `listing`, given the four answers `info`. */
  function DrumkitOutcome(path: string, listing: seq<string>, info: KitInfo): Outcome {
    match DecodeAll(Selected(listing))
    case Err(e) => Crashed(e)
    case Ok(samples) =>
      if samples == [] then Aborted(AbortText + path)
      else Written(Document(WrittenInfo(info), KitInstruments(Arrange(samples), MaxId(samples))))
  }

  /** The `try` block: write the kit information, sort the samples by layer id
      and then by instrument id, write the instruments of positions 1..maxId and
      close the lists. */
  method WriteDocument(info: KitInfo, samples: seq<Sample>, pairs: seq<(int, nat)>, dct: map<int, nat>, maxId: int)
    returns (lines: seq<Line>)
    requires forall p :: p in PairIds(pairs) <==> CountId(samples, p) > 0
    requires forall p :: p in PairIds(pairs) ==> p in dct && dct[p] == CountId(samples, p)
    ensures lines == Document(info, KitInstruments(Arrange(samples), maxId))
  {
    var f := new KitWriter();
    WriteKitHeader(f, info);
    EmptyLeft(KitHeader(info));
    var sampleArray := SortBy(samples, LayerField);
    sampleArray := SortBy(sampleArray, InstrumentField);
    assert sampleArray == Arrange(samples);
    ArrangedCounts(samples, pairs, dct);
    WriteInstruments(f, sampleArray, pairs, dct, maxId);
    ghost var body := f.lines;
    f.Write(Element(4, "</instrumentList>\n"));
    f.Write(Element(0, "</drumkit_info>\n"));
    FooterWritten(body);
    lines := f.lines;
  }

  /** The sorted samples are ordered by instrument id and keep each id's count. */
  lemma ArrangedCounts(samples: seq<Sample>, pairs: seq<(int, nat)>, dct: map<int, nat>)
    requires forall p :: p in PairIds(pairs) <==> CountId(samples, p) > 0
    requires forall p :: p in PairIds(pairs) ==> p in dct && dct[p] == CountId(samples, p)
    ensures SortedBy(Arrange(samples), InstrumentField)
    ensures forall p :: p in PairIds(pairs) <==> CountId(Arrange(samples), p) > 0
    ensures forall p :: p in PairIds(pairs) ==> p in dct && dct[p] == CountId(Arrange(samples), p)
  {
    SortOrders(SortBy(samples, LayerField), InstrumentField);
    forall p ensures CountId(Arrange(samples), p) == CountId(samples, p) {
      ArrangeKeepsCounts(samples, p);
    }
  }

  // Keeps WriteDocument's proof below the resource limit.
  lemma FooterWritten(body: seq<Line>)
    ensures body + [Element(4, "</instrumentList>\n")] + [Element(0, "</drumkit_info>\n")] == body + KitFooter
  {
  }

  /** The six `f.write` calls before the instruments. */
  method WriteKitHeader(f: KitWriter, info: KitInfo)
    modifies f
    ensures f.lines == old(f.lines) + KitHeader(info)
  {
    f.Write(Element(0, "<drumkit_info>\n"));
    f.Write(Element(4, "<name>" + info.name + "</name>\n"));
    f.Write(Element(4, "<author>" + info.author + "</author>\n"));
    f.Write(Element(4, "<info>" + info.info + "</info>\n"));
    f.Write(Element(4, "<license>" + info.license + "</license>\n"));
    f.Write(Element(4, "<instrumentList>\n"));
  }

  /** CreateDrumkit from the prompts to the closing of `drumkit.xml`. */
  method CreateDrumkit(path: string, listing: seq<string>, info: KitInfo) returns (outcome: Outcome)
    ensures outcome == DrumkitOutcome(path, listing, info)
  {
    var drumSetName := info.name;
    if drumSetName == [] {
      drumSetName := "drumkit";
    }
    var wavFiles, flacFiles, decoded := SelectSamples(listing);
    if decoded.Err? {
      return Crashed(decoded.error);
    }
    var sampleArray := decoded.value;
    CountsCoverSelection(listing);
    if wavFiles + flacFiles == 0 {
      return Aborted(AbortText + path);
    }
    var instrumentLayers := CountLayers(sampleArray);
    var dct := LayerDictionary(instrumentLayers);
    MaxInstrumentIdMeaning(sampleArray);
    var maxInstrumentId := MaxPair(instrumentLayers).0;
    LayerCountsMeaning(sampleArray);
    LayerDictionaryMeaning(sampleArray);
    forall p ensures p in PairIds(instrumentLayers) <==> CountId(sampleArray, p) > 0 {
      CountIdPositive(sampleArray, p);
    }
    var lines := WriteDocument(KitInfo(drumSetName, info.author, info.info, info.license),
                               sampleArray, instrumentLayers, dct, maxInstrumentId);
    outcome := Written(lines);
  }

  /** No sample file is selected exactly when no listing entry is one. */
  lemma SelectedEmpty(listing: seq<string>)
    ensures Selected(listing) == [] <==> forall e :: e in listing ==> !IsSampleFile(e)
  {
    if Selected(listing) != [] {
      assert Selected(listing)[0] in listing;
    }
  }

  /** The run aborts exactly when no listing entry is a sample file, and then
      returns the message naming the directory. */
  lemma AbortedMeaning(path: string, listing: seq<string>, info: KitInfo)
    ensures DrumkitOutcome(path, listing, info).Aborted?
            <==> forall e :: e in listing ==> !IsSampleFile(e)
    ensures DrumkitOutcome(path, listing, info).Aborted? ==>
            DrumkitOutcome(path, listing, info).message == AbortText + path
  {
    SelectedEmpty(listing);
    var files := Selected(listing);
    assert |Decoded(files)| == |files|;
  }

  /** Decoding fails exactly when some file does not decode, and with the
      exception of the first such file. */
  lemma DecodeAllFails(files: seq<string>)
    ensures DecodeAll(files).Err? <==> exists i :: 0 <= i < |files| && ConvertName(files[i]).Err?
    ensures DecodeAll(files).Err? ==>
            exists i :: FailsFirstAt(Decoded(files), i) && DecodeAll(files).error == ConvertName(files[i]).error
  {
    var rs := Decoded(files);
    if Collect(rs).Err? {
      CollectFirstError(rs);
      var i :| FailsFirstAt(rs, i) && Collect(rs) == Err(rs[i].error);
      assert rs[i] == ConvertName(files[i]);
    } else {
      forall i | 0 <= i < |files| ensures ConvertName(files[i]).Ok? {
        assert rs[i] == ConvertName(files[i]);
      }
    }
  }

  /** The run crashes exactly when some sample file does not decode, and the
      exception is the one of the first such file. */
  lemma CrashedMeaning(path: string, listing: seq<string>, info: KitInfo)
    ensures DrumkitOutcome(path, listing, info).Crashed?
            <==> exists i :: 0 <= i < |Selected(listing)| && ConvertName(Selected(listing)[i]).Err?
    ensures DrumkitOutcome(path, listing, info).Crashed? ==>
            exists i :: FailsFirstAt(Decoded(Selected(listing)), i)
                        && DrumkitOutcome(path, listing, info).error == ConvertName(Selected(listing)[i]).error
  {
    var files := Selected(listing);
    DecodeAllFails(files);
    var o := DrumkitOutcome(path, listing, info);
    assert o.Crashed? <==> DecodeAll(files).Err?;
    if o.Crashed? {
      assert o.error == DecodeAll(files).error;
    }
  }

  /** In the kit written for some samples every instrument tag is closed before
      the next one opens, and there is one instrument per position 1..m. */
  lemma KitTags(info: KitInfo, samples: seq<Sample>, m: int)
    ensures Tags(Document(info, KitInstruments(Arrange(samples), m))) == Alternating(if m > 0 then m else 0)
  {
    DocumentTags(info, KitInstruments(Arrange(samples), m));
  }

  /** The instrument at position `k + 1` of the kit has id `k + 1` and one layer
      per sample with that id. */
  lemma KitLayers(samples: seq<Sample>, m: int, k: nat)
    requires k < |KitInstruments(Arrange(samples), m)|
    ensures KitInstruments(Arrange(samples), m)[k].id == k + 1
    ensures |KitInstruments(Arrange(samples), m)[k].layers| == CountId(samples, k + 1)
  {
    var t := Arrange(samples);
    assert KitInstruments(t, m)[k] == InstrumentAt(t, k + 1);
    assert |VelocityLayers(Matching(t, InstrumentField, k + 1))| == CountId(t, k + 1);
    ArrangeKeepsCounts(samples, k + 1);
  }

  /** The layers of the `k`-th instrument block are the samples with id `k + 1`,
      every one of them, in ascending layer order. */
  lemma KitLayerOrder(samples: seq<Sample>, m: int, k: nat)
    requires k < |KitInstruments(Arrange(samples), m)|
    ensures var g := Matching(Arrange(samples), InstrumentField, k + 1);
            var layers := KitInstruments(Arrange(samples), m)[k].layers;
            SortedBy(g, LayerField)
            && multiset(g) == multiset(Matching(samples, InstrumentField, k + 1))
            && |layers| == |g|
            && forall j :: 0 <= j < |g| ==> layers[j].file == g[j].file
  {
    var t := Arrange(samples);
    var g := Matching(t, InstrumentField, k + 1);
    SortOrders(samples, LayerField);
    SortByInstrumentOfLayerSorted(SortBy(samples, LayerField));
    MatchingLexSorted(t, k + 1);
    SortKeepsMatching(samples, LayerField, InstrumentField, k + 1);
    SortKeepsMatching(SortBy(samples, LayerField), InstrumentField, InstrumentField, k + 1);
    assert KitInstruments(t, m)[k] == InstrumentAt(t, k + 1);
    VelocityLayersTile(g);
  }

  /** Block `k` of the kit for `samples` up to position `m` has id `k + 1`, and
      its layers are the files of all the samples with that id, in ascending
      layer order. */
  predicate BlockHolds(samples: seq<Sample>, m: int, k: nat)
    requires k < |KitInstruments(Arrange(samples), m)|
  {
    var g := Matching(Arrange(samples), InstrumentField, k + 1);
    var block := KitInstruments(Arrange(samples), m)[k];
    block.id == k + 1
    && SortedBy(g, LayerField)
    && multiset(g) == multiset(Matching(samples, InstrumentField, k + 1))
    && |block.layers| == |g|
    && forall j :: 0 <= j < |g| ==> block.layers[j].file == g[j].file
  }

  /** A written document is the kit of the decoded samples: the defaulted kit
      information, then one instrument block per position 1 up to the largest
      id, each closed before the next opens, block `k` holding the files of
      the samples with id `k + 1` in ascending layer order. */
  lemma WrittenMeaning(path: string, listing: seq<string>, info: KitInfo)
    requires DrumkitOutcome(path, listing, info).Written?
    ensures DecodeAll(Selected(listing)).Ok? && DecodeAll(Selected(listing)).value != []
    ensures var samples := DecodeAll(Selected(listing)).value;
            var m := MaxId(samples);
            var d := DrumkitOutcome(path, listing, info).document;
            d == Document(WrittenInfo(info), KitInstruments(Arrange(samples), m))
            && Tags(d) == Alternating(if m > 0 then m else 0)
            && forall k :: 0 <= k < |KitInstruments(Arrange(samples), m)| ==> BlockHolds(samples, m, k)
  {
    var samples := DecodeAll(Selected(listing)).value;
    var m := MaxId(samples);
    KitTags(WrittenInfo(info), samples, m);
    KitBlocks(samples, m);
  }

  /** Every block of the kit for `samples` up to position `m` holds. */
  lemma KitBlocks(samples: seq<Sample>, m: int)
    ensures forall k :: 0 <= k < |KitInstruments(Arrange(samples), m)| ==> BlockHolds(samples, m, k)
  {
    forall k | 0 <= k < |KitInstruments(Arrange(samples), m)|
      ensures BlockHolds(samples, m, k)
    {
      KitLayers(samples, m, k);
      KitLayerOrder(samples, m, k);
    }
  }
}
