# createH2kit: a verified model of the Hydrogen drumkit builder

`createH2kit_V3.py` turns a directory of numbered audio samples into a
Hydrogen drumkit description, `drumkit.xml`. Each sample file is named
`"<instrument>-<layer> <name>.wav"` (or `.flac`). The script:

- decodes each name into a sample record;
- counts the layers of each instrument;
- sorts the samples by layer id and then by instrument id;
- writes one `<instrument>` block for every id from 1 to the largest one,
  with an empty placeholder for a missing id.

Within an instrument, layer `k` of `n` gets the velocity range
`[(k-1)/n, k/n]`. In its speech mode the script also reads a text file of
`"<name>*<text>"` lines, runs `espeak` once per well-formed line to create
the samples `"<k>-1 <name>.wav"`, and then builds the kit from them.

The model has these modules:

- `Text`: the parts of Python's `str` the script relies on:
  - `split` on one character;
  - `replace(ref, '')`;
  - `strip`, `rstrip`, `upper`;
  - the substring test `in`;
  - `int()` and `str()` of an integer.
- `Samples`: `ConvertName`, the decoding of one file name into the tuple
  `(SampleFile, InstrNr, InstrLayer, InstrName, FileExt)`. Each exception it
  can raise is an error value.
- `Ordering`: the two stable `SampleArray.sort(key=...)` calls and what they
  guarantee together.
- `Aggregation`: `InstrumentLayers`, `InstrumentLayersDct` and
  `MaxInstrumentID`. Their loops are methods, each proved equal to a
  function whose meaning is proved separately.
- `KitDocument`:
  - the lines of `drumkit.xml`, with one `Line` for each `f.write`;
  - the instrument list the lines describe;
  - the velocity tiling;
  - the alternation of opening and closing instrument tags.
- `Writer`: the open output file as a class `KitWriter` whose `lines` grow
  with each write, and its `AddInstrument` and `AddLayer`.
- `Drumkit`: `CreateDrumkit`:
  - the selection loop;
  - the nested writing loops, each proved against the document function;
  - the three ways the function ends: aborted, crashed, or written.
- `Espeak`: the line loop of `CreateEspeakFiles`. It covers the instrument
  counter, the file names and commands, and the call to `CreateDrumkit`.

Two behaviours of the script:

- Ids of 0 are accepted by `int()`. They are counted, but no block is written
  for them, because the writing loop starts at 1.
- Only the kit name gets a default; the author, info and licence stay empty
  when left empty.

## Model

| member | source | states |
|---|---|---|
| Text.Strip | createH2kit_V3.py:122 | the stripped name neither starts nor ends with whitespace |
| Text.StripMeaning | createH2kit_V3.py:122 | `strip()` returns the contiguous middle of the string, and only whitespace is cut off on each side |
| Text.StripUnchanged | createH2kit_V3.py:122 | a string with no whitespace at either end is left as it is |
| Text.RStripChar | createH2kit_V3.py:251 | `rstrip('\n')` keeps a prefix, drops only newlines, and leaves no newline at the end |
| Text.Split | createH2kit_V3.py:106-107 | `split` yields at least one piece, none holding the separator; the first piece is a prefix; there is one piece exactly when the separator is absent |
| Text.JoinSplit | createH2kit_V3.py:106-107 | rejoining the pieces of a split with the separator gives back the string |
| Text.SplitJoin | createH2kit_V3.py:106-107 | splitting a join of separator-free pieces gives back those pieces |
| Text.ContainsAt | createH2kit_V3.py:306-313 | the substring test `sub in s` holds exactly when `sub` occurs at some index of `s` |
| Text.RemoveAll | createH2kit_V3.py:122 | `replace(ref, '')` never lengthens the string, and changes nothing when `ref` does not occur |
| Text.RemoveAllLeftmost | createH2kit_V3.py:122 | `replace(ref, '')` removes the leftmost occurrence first: when `ref` first occurs at `i`, the text before `i` is kept and the removal resumes after the occurrence |
| Text.UpperChar | createH2kit_V3.py:306 | `upper()` turns a lower-case ASCII letter into the capital of the same letter and keeps every other character |
| Text.Upper | createH2kit_V3.py:306 | per-character `s.upper()`; its meaning is UpperChar and UpperContains |
| Text.UpperContains | createH2kit_V3.py:306-313 | an upper-case word is in `s.upper()` exactly when `s` holds it at some index in any mix of cases |
| Text.NatString | createH2kit_V3.py:258 | `str(n)` is a non-empty string of decimal digits, without a leading zero, whose value is `n` |
| Text.ParseNatString | createH2kit_V3.py:118-119 | `int(str(n))` is `n` for every natural number |
| Text.ParseDecimal | createH2kit_V3.py:118-119 | `int(str(n))` is `n` for every integer, negative ones included |
| Text.ParseInt | createH2kit_V3.py:118-119 | `int()` fails on a blank string, succeeds only on a non-empty one, and gives a negative value only when there is a `-` |
| Text.ParseIntRejects | createH2kit_V3.py:118-119 | `int()` raises ValueError when the stripped string holds a character that is neither a digit nor a leading sign |
| Text.ParseIntDigits | createH2kit_V3.py:118-119 | `int()` of a string whose stripped form is digits, leading zeros allowed, is their decimal value |
| Text.ParseIntSigned | createH2kit_V3.py:118-119 | `int()` of a string whose stripped form is a sign followed by digits is their decimal value, negated after `-` |
| Text.DigitsValueLeadingZero | createH2kit_V3.py:118-119 | a leading zero does not change the value of a digit string, so `int("01") == int("1")` |
| Samples.ReadFields | createH2kit_V3.py:103-119 | "no extension" is raised exactly when the name has no `.`; otherwise the reference is non-empty, has no space, and both ids are non-negative |
| Samples.ReadRef | createH2kit_V3.py:116-119 | a reference that decodes is non-empty and yields two non-negative ids |
| Samples.ReadRefMeaning | createH2kit_V3.py:116-119 | a reference decodes exactly when it holds a `-` and its first two `-`-pieces are integers, and then to those integers, further pieces ignored; a non-integer first piece raises ValueError, then a missing `-` raises IndexError, then a non-integer second piece raises ValueError |
| Samples.ConvertName | createH2kit_V3.py:103-129 | a name with no `.` fails; a decoded sample keeps its file name, has non-negative ids, an extension without `.` and a stripped display name |
| Samples.ConvertNameMeaning | createH2kit_V3.py:103-129 | a name decodes exactly when it has a `.` and its reference holds a `-` and its first two `-`-pieces are integers; the sample then has those ids, the name before the first `.` with the reference removed and stripped, and the piece after the first `.` as extension; any other reference fails with the exception the script raises first |
| Samples.ConvertNameAsWritten | createH2kit_V3.py:103-129 | as written, decoding never yields a sample: it fails as the corrected decoder does on malformed names, and with AttributeError on every name the corrected decoder accepts |
| Samples.ReadRefDecimal | createH2kit_V3.py:116-119 | the reference `"<i>-<l>"` decodes to exactly `(i, l)` |
| Samples.FileNameName | createH2kit_V3.py:121-122 | removing the reference from `"<i>-<l> <name>"` and stripping gives the stripped name, when the name does not itself contain the reference |
| Samples.ConvertNameRoundTrip | createH2kit_V3.py:103-129 | `"<i>-<l> <name>.<ext>"` decodes back to `(file, i, l, strip(name), ext)` whenever name and extension have no `.` and the name does not contain the reference |
| Samples.ExtensionIsSecondPiece | createH2kit_V3.py:106-107 | with several dots, the extension is the piece between the first and the second dot |
| Samples.AsWrittenRejectsWellFormedNames | createH2kit_V3.py:122 | as written, every name the corrected decoder accepts ends in an AttributeError from `string.strip` |
| Ordering.Insert | createH2kit_V3.py:372-375 | inserting a sample adds exactly that sample to the multiset |
| Ordering.SortBy | createH2kit_V3.py:372-375 | a sort is a permutation of its input |
| Ordering.SortOrders | createH2kit_V3.py:372-375 | after `sort(key=f)` the keys are in ascending order |
| Ordering.SortStable | createH2kit_V3.py:372-375 | the sort is stable: the samples sharing a key keep their relative order |
| Ordering.SortKeepsMatching | createH2kit_V3.py:372-375 | a sort on one key keeps the multiset of samples sharing any other key |
| Ordering.SortByInstrumentOfLayerSorted | createH2kit_V3.py:371-375 | sorting a layer-sorted list by instrument id orders it by (instrument id, layer id) |
| Ordering.ArrangeOrders | createH2kit_V3.py:371-375 | after both sorts the samples are a permutation of the input, ordered by (instrument id, layer id); samples equal in both ids keep input order |
| Aggregation.FirstOccurrences | createH2kit_V3.py:333-336 | the kept ids are exactly the ids of the samples, each once |
| Aggregation.FirstOccurrenceOrder | createH2kit_V3.py:333-336 | ids are kept in the order of their first occurrence |
| Aggregation.CountLayers | createH2kit_V3.py:322-336 | the counting loop yields, for each distinct id in first-occurrence order, the pair (id, number of samples with that id) |
| Aggregation.LayerCountsMeaning | createH2kit_V3.py:322-336 | the pairs hold every id of the samples exactly once, each with its sample count, which is at least 1 |
| Aggregation.LayerDictionary | createH2kit_V3.py:342-343 | the dictionary loop gives the map built from the pairs, later pairs overwriting earlier ones |
| Aggregation.PairsToMapCounts | createH2kit_V3.py:342-343 | pairs carrying true counts give a map whose keys are their ids and whose values are those counts |
| Aggregation.LayerDictionaryMeaning | createH2kit_V3.py:342-343 | `InstrumentLayersDct` maps exactly the ids of the samples, each to its number of samples |
| Aggregation.MaxPair | createH2kit_V3.py:347 | `max` on the pairs returns one of them, and none is greater in Python's tuple order |
| Aggregation.MaxInstrumentIdMeaning | createH2kit_V3.py:345-347 | `MaxInstrumentID` is an id of the samples, and no sample has a greater one |
| Aggregation.CountIdPositive | createH2kit_V3.py:413 | an id has samples exactly when it is among the samples' ids |
| Aggregation.ArrangeKeepsCounts | createH2kit_V3.py:371-375 | the sorts change no instrument's number of samples |
| Aggregation.MatchingLexSorted | createH2kit_V3.py:371-375 | after both sorts, the samples of one instrument are in ascending layer order |
| KitDocument.KitName | createH2kit_V3.py:295-298 | the kit name is never empty; a non-empty answer is kept, and an empty one becomes `"drumkit"` |
| KitDocument.VelocityBounds | createH2kit_V3.py:159-160 | each range lies in `[0, 1]` and is non-empty; the last one ends at 1 |
| KitDocument.VelocityLayersTile | createH2kit_V3.py:153-171 | an instrument's layer ranges tile `[0, 1]`: the first starts at 0, each starts where the previous ended, the last ends at 1, and each is non-empty |
| KitDocument.KitInstruments | createH2kit_V3.py:378-415 | positions 1 to `MaxInstrumentID` give one instrument each, the `k`-th for id `k` |
| KitDocument.KitInstrumentsMeaning | createH2kit_V3.py:378-415 | the `k`-th block has id `k`; it is an empty placeholder named `str(k)` exactly when no sample has id `k`; otherwise it is named after the first of them and has one layer per sample with id `k`, holding those samples' files in order |
| KitDocument.InstrumentTags | createH2kit_V3.py:132-171 | an instrument block holds exactly one opening and then one closing instrument tag |
| KitDocument.InstrumentsTags | createH2kit_V3.py:378-415 | the instrument blocks of a list open and close alternately, one pair per instrument |
| KitDocument.DocumentTags | createH2kit_V3.py:362-418 | the whole document opens and closes instrument tags alternately, one pair per instrument |
| Writer.KitWriter.Write | createH2kit_V3.py:134 | `f.write(l)` appends exactly the line `l` to the file |
| Writer.KitWriter.AddInstrument | createH2kit_V3.py:132-150 | appends the opening tag and the 16 fixed instrument fields, with the id and name filled in |
| Writer.KitWriter.AddLayer | createH2kit_V3.py:153-171 | appends the 7 layer lines, with range `[(layerNr-1)/numOfLayers, layerNr/numOfLayers]` |
| Drumkit.IsWav | createH2kit_V3.py:306 | the test `".WAV" in SampleFile.upper()`; its meaning is IsWavMeaning |
| Drumkit.IsWavMeaning | createH2kit_V3.py:306 | a file counts as `.wav` exactly when it holds a `.` followed by w, a, v, each in either case |
| Drumkit.IsFlac | createH2kit_V3.py:308 | the test `".FLAC" in SampleFile.upper()`; its meaning is IsFlacMeaning |
| Drumkit.IsFlacMeaning | createH2kit_V3.py:308 | a file counts as `.flac` exactly when it holds a `.` followed by f, l, a, c, each in either case |
| Drumkit.Selected | createH2kit_V3.py:313-314 | the selected entries are exactly the listing's `.wav`/`.flac` entries |
| Drumkit.SelectedAppend | createH2kit_V3.py:304-314 | selection keeps listing order: the selection of two listings in sequence is the first's selection followed by the second's |
| Drumkit.CountsCoverSelection | createH2kit_V3.py:301-313 | `WavFiles + FlacFiles` is the number of selected files |
| Drumkit.Collect | createH2kit_V3.py:313-314 | appending the decoded samples succeeds exactly when every name decodes, and then yields each sample in order |
| Drumkit.CollectFirstError | createH2kit_V3.py:313-314 | the exception that stops the loop is the first failing name's |
| Drumkit.SelectSamples | createH2kit_V3.py:301-314 | the selection loop decodes the selected files in order, stops at the first exception, and otherwise counts the `.wav` and `.flac` files |
| Drumkit.DecodeAllFails | createH2kit_V3.py:313-314 | decoding fails exactly when some name fails, and then with the error of the first failing name |
| Drumkit.AbortedMeaning | createH2kit_V3.py:316-318 | CreateDrumkit aborts exactly when the listing holds no sample file, and its message is the abort text followed by the path |
| Drumkit.CrashedMeaning | createH2kit_V3.py:313-314 | CreateDrumkit raises exactly when some selected name does not decode, and the exception is the first such name's |
| Drumkit.MaxId | createH2kit_V3.py:345-347 | `MaxInstrumentID` is a sample's id and no sample's id exceeds it |
| Drumkit.PartialComplete | createH2kit_V3.py:390-406 | the lines written for all of an instrument's samples form its complete block: header, layers, closing tag |
| Drumkit.PositionLinesComplete | createH2kit_V3.py:382-408 | after any prefix of the sorted samples, the inner loop has written the first layers of the instrument at the current position, opened but not yet closed |
| Drumkit.PositionLinesAll | createH2kit_V3.py:378-408 | over all sorted samples, the inner loop writes exactly the instrument's block when it has samples, and nothing otherwise |
| Drumkit.WriteSample | createH2kit_V3.py:383-406 | one matching sample writes the header when it is the first of its instrument, its layer, and the closing tag when it is the last |
| Drumkit.WriteLayers | createH2kit_V3.py:380-408 | the inner loop appends the instrument's complete block when it has samples, and nothing otherwise |
| Drumkit.WritePosition | createH2kit_V3.py:378-415 | one position appends the block of the instrument with that id, or the placeholder when no sample has it |
| Drumkit.WriteInstruments | createH2kit_V3.py:378-415 | the outer loop appends the blocks of positions 1 to `MaxInstrumentID` in order |
| Drumkit.WriteKitHeader | createH2kit_V3.py:364-369 | appends the kit element, the four answers and the opening of the instrument list |
| Drumkit.WriteDocument | createH2kit_V3.py:362-418 | the file holds the header, the instrument blocks of the sorted samples up to the largest id, and the footer |
| Drumkit.DrumkitOutcome | createH2kit_V3.py:295-418 | what CreateDrumkit ends in: the first decoding exception, else the abort message when no sample was found, else the document; its meaning is AbortedMeaning, CrashedMeaning and WrittenMeaning |
| Drumkit.CreateDrumkit | createH2kit_V3.py:278-419 | the whole function gives the first selected name's decoding exception when one fails; otherwise the abort message when no sample was found; otherwise the written document |
| Drumkit.KitTags | createH2kit_V3.py:378-418 | a written kit holds exactly `MaxInstrumentID` instrument blocks, opened and closed alternately |
| Drumkit.KitLayers | createH2kit_V3.py:378-415 | block `k` has id `k+1` and as many layers as there are samples with that id |
| Drumkit.KitLayerOrder | createH2kit_V3.py:371-406 | block `k`'s layers are the files of all samples with id `k+1`, in ascending layer order |
| Drumkit.WrittenMeaning | createH2kit_V3.py:295-418 | a written document comes from a successful non-empty decoding; it is the kit information with the defaulted name, then one instrument block per position 1 up to the largest id, each closed before the next opens, block `k` having id `k` and holding the files of all the samples with id `k` in ascending layer order |
| Espeak.ScriptFieldsHasText | createH2kit_V3.py:251-253 | a line with a `*` splits into at least the name and the text |
| Espeak.ScriptLines | createH2kit_V3.py:244-248 | the lines kept are exactly those holding a `*` |
| Espeak.JobFor | createH2kit_V3.py:251-265 | the job's file name is `"<path>/"` followed by the sample file name of instrument `k`, layer 1, named after the part before the `*`; the command speaks the text after the `*`, into that file unless listening, when it writes no file |
| Espeak.Jobs | createH2kit_V3.py:243-270 | there is one command per well-formed line |
| Espeak.JobsStep | createH2kit_V3.py:243-270 | a line without `*` adds nothing; a well-formed line adds one job, numbered after the jobs before it |
| Espeak.SpokenFileName | createH2kit_V3.py:255-259 | the file name the script builds (and, unless listening, the file the command writes) is `"<path>/"` followed by the sample file name of instrument `k`, layer 1 |
| Espeak.CreateEspeakFiles | createH2kit_V3.py:243-275 | issues one command per well-formed line with the counter advanced only on those lines, then returns "OK" when listening, or CreateDrumkit's result for the directory |
| Espeak.JobFileDecodes | createH2kit_V3.py:255-259 | the `k`-th job's file name (the spoken file unless listening) is `"<k+1>-1 <name>.wav"`, and ConvertName reads it back as instrument `k+1`, layer 1, with the stripped name |

## Left out

- Command line: `main`, `getopt` and `Help`, and the dispatch on whether the
  input is a file or a directory. They only choose which of the two modelled
  functions runs.
- Interactive answers: the four `eval(input(...))` answers are the `KitInfo`
  parameter. Evaluating them as Python code is not modelled. Only the empty-name
  default `"drumkit"` is kept.
- The file system:
  - the directory listing is a parameter;
  - opening and closing `drumkit.xml` is the `KitWriter` object, whose lines
    are the file's contents;
  - `IOError` handling, the `.tar` archive, and everything after
    `f.close()` at line 419 are not part of this model.
- `os.system`: each espeak command is recorded as a `Job`. The speech
  synthesiser does not run. The listing of the directory after it has run is a
  parameter of `CreateEspeakFiles`.
- `os.path.dirname` and `readlines`: `CreateEspeakFiles` receives the input
  file's directory and its lines.
- Console output: every `print` is left out, including the two warnings of
  ConvertName about a zero id. They do not affect the result.
- Float formatting: a velocity bound is an exact fraction (`real`).
  `round(x, 2)` and `str` of a float are not modelled, so the written text of
  the `<min>`/`<max>` lines is not. The model's ranges are each non-empty;
  after `round(x, 2)` that holds only up to 100 layers. With 101 layers, for
  example, layer 51 gets min = max = 0.5. Contiguity and the endpoints 0 and 1
  survive the rounding.
- `list.sort`: Python's sort is a Timsort. It is modelled by a stable insertion
  sort. Stable sorts by one key give the same result, so the order is the same;
  the algorithm and its cost are not.
- The statement `sorted(set(InstrumentLayers))` at line 338: its result is
  discarded, so it has no effect.
- Text.ParseInt: its contract states only non-emptiness and the sign. Its
  meaning is given by separate lemmas:
  - the round trip in `ParseNatString` and `ParseDecimal`;
  - the values of accepted strings, in `ParseIntDigits` and `ParseIntSigned`;
  - the effect of leading zeros, in `DigitsValueLeadingZero`;
  - the rejections in `ParseIntRejects`.
  `int()`'s underscores (`"1_0"`) and non-ASCII digits are not modelled.
- Text.UpperChar: `upper()` is modelled on ASCII letters only. Other scripts'
  case mappings, which can change a string's length, are left out. So
  `IsWav` and `IsFlac` ignore the few non-ASCII characters whose capital is
  an ASCII letter.
- Writer.KitWriter.AddLayer: requires `numOfLayers != 0` instead of modelling
  the `ZeroDivisionError`. The dictionary only holds counts of at least 1, so
  CreateDrumkit never calls it with 0.
- Drumkit.WriteLayers: requires the samples sorted by instrument id, as they
  always are after the two sorts.
- Drumkit.WritePosition: requires the samples sorted by instrument id, as they
  always are after the two sorts.
- Drumkit.SelectSamples: states the `.wav`/`.flac` counts only when every name
  decodes. After an exception the counts are never read.
- Samples.ConvertNameRoundTrip: requires that the name does not contain the
  reference. When it does, `replace` removes those occurrences from the display
  name as well, as the script does, and the round trip does not hold.

## Findings

| source | as written | input that shows it | evidently intended | confidence | as-written member | corrected member |
|---|---|---|---|---|---|---|
| createH2kit_V3.py:122 | `string.strip(...)` is called, but Python 3's `string` module has no `strip`, so every name whose ids decode raises AttributeError and no kit is ever written | `"1-1 Kick.wav"` | the string method `str.strip`, giving the name `"Kick"` | not executed | Samples.AsWrittenRejectsWellFormedNames | Samples.ConvertNameRoundTrip |
