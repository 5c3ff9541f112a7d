/** Decoding a sample file name `"<id>-<layer> <name>.<ext>"` into a sample record
    (`ConvertName` in createH2kit_V3.py). */
module Samples {
  import opened Text

  /** The tuple `(SampleFile, InstrNr, InstrLayer, InstrName, FileExt)`. */
  datatype Sample = Sample(file: string, instrument: int, layer: int, name: string, ext: string)

  /** The exceptions ConvertName can raise; nothing in the script catches them. */
  datatype DecodeError =
    | NoExtension                       // IndexError: the name has no '.'
    | InstrumentNotNumber(token: string) // ValueError from int() on the part before '-'
    | NoLayer                           // IndexError: the reference has no '-'
    | LayerNotNumber(token: string)     // ValueError from int() on the part after '-'
    | StringHasNoStrip                  // AttributeError: Python 3's string module has no strip

  /** What ConvertName reads before it builds the display name. */
  datatype Fields = Fields(fullName: string, fullRef: string, instrument: int, layer: int, ext: string)

  /** The splits and the two `int()` conversions, in the order the script runs them. */
  function ReadFields(file: string): (r: Result<Fields, DecodeError>)
    ensures ('.' in file) == !(r == Err(NoExtension))
    ensures r.Ok? ==> r.value.fullRef != [] && r.value.instrument >= 0 && r.value.layer >= 0
    ensures r.Ok? ==> '.' !in r.value.ext && '.' !in r.value.fullName && ' ' !in r.value.fullRef
  {
    var dots := Split(file, '.');
    if |dots| < 2 then Err(NoExtension)
    else
      var fullRef := Split(dots[0], ' ')[0];
      match ReadRef(fullRef)
      case Err(e) => Err(e)
      case Ok(ids) => Ok(Fields(dots[0], fullRef, ids.0, ids.1, dots[1]))
  }

  /** `int(FullRef.split('-')[0])` and `int(FullRef.split('-')[1])`. */
  function ReadRef(fullRef: string): (r: Result<(int, int), DecodeError>)
    ensures r.Ok? ==> fullRef != [] && r.value.0 >= 0 && r.value.1 >= 0
    ensures r != Err(NoExtension)
  {
    var refParts := Split(fullRef, '-');
    match ParseInt(refParts[0])
    case None => Err(InstrumentNotNumber(refParts[0]))
    case Some(instr) =>
      if |refParts| < 2 then Err(NoLayer)
      else
        match ParseInt(refParts[1])
        case None => Err(LayerNotNumber(refParts[1]))
        case Some(layer) => Ok((instr, layer))
  }

  /** `FullName.split(' ')[0]`, where `FullName` is the part before the first `.`:
      the reference `"<id>-<layer>"` of a sample file name. */
  function FullRef(file: string): string {
    Split(Split(file, '.')[0], ' ')[0]
  }

  /** ConvertName with `str.strip`: the name is the full name with every
      occurrence of the reference removed, then stripped. Ids of 0 are accepted. */
  function ConvertName(file: string): (r: Result<Sample, DecodeError>)
    ensures '.' !in file ==> r == Err(NoExtension)
    ensures r.Ok? ==> r.value.file == file && r.value.instrument >= 0 && r.value.layer >= 0
    ensures r.Ok? ==> '.' !in r.value.ext
    ensures r.Ok? ==> r.value.name == [] || (!IsSpace(r.value.name[0]) && !IsSpace(r.value.name[|r.value.name| - 1]))
  {
    match ReadFields(file)
    case Err(e) => Err(e)
    case Ok(f) =>
      Ok(Sample(file, f.instrument, f.layer, Strip(RemoveAll(f.fullName, f.fullRef)), f.ext))
  }

  /** A reference decodes exactly when it holds a `-` and its first two
      `-`-pieces are integers, and then to those integers; a first piece that is
      no integer raises ValueError, a missing `-` then raises IndexError, and a
      second piece that is no integer raises ValueError. */
  lemma ReadRefMeaning(fullRef: string)
    ensures var r := ReadRef(fullRef);
            var pieces := Split(fullRef, '-');
            (r.Ok? ==> '-' in fullRef && ParseInt(pieces[0]) == Some(r.value.0)
                       && ParseInt(pieces[1]) == Some(r.value.1))
            && (ParseInt(pieces[0]).None? ==> r == Err(InstrumentNotNumber(pieces[0])))
            && ('-' !in fullRef && ParseInt(fullRef).Some? ==> r == Err(NoLayer))
            && ('-' in fullRef && ParseInt(pieces[0]).Some? && ParseInt(pieces[1]).None?
                ==> r == Err(LayerNotNumber(pieces[1])))
            && ('-' in fullRef && ParseInt(pieces[0]).Some? && ParseInt(pieces[1]).Some?
                ==> r == Ok((ParseInt(pieces[0]).value, ParseInt(pieces[1]).value)))
  {
    if '-' !in fullRef {
      SplitNoSeparator(fullRef, '-');
    }
  }

  /** ConvertName succeeds exactly on a name with a `.` whose reference holds a
      `-` and whose first two `-`-pieces are integers, which become the ids; on
      any other reference it fails with the exception the script raises first. */
  lemma ConvertNameMeaning(file: string)
    ensures var r := ConvertName(file);
            var pieces := Split(FullRef(file), '-');
            (r.Ok? ==> '.' in file && '-' in FullRef(file)
                       && ParseInt(pieces[0]) == Some(r.value.instrument)
                       && ParseInt(pieces[1]) == Some(r.value.layer))
            && ('.' in file && ParseInt(pieces[0]).None? ==> r == Err(InstrumentNotNumber(pieces[0])))
            && ('.' in file && '-' !in FullRef(file) && ParseInt(FullRef(file)).Some? ==> r == Err(NoLayer))
            && ('.' in file && '-' in FullRef(file) && ParseInt(pieces[0]).Some? && ParseInt(pieces[1]).None?
                ==> r == Err(LayerNotNumber(pieces[1])))
            && ('.' in file && '-' in FullRef(file) && ParseInt(pieces[0]).Some? && ParseInt(pieces[1]).Some?
                ==> r == Ok(Sample(file, ParseInt(pieces[0]).value, ParseInt(pieces[1]).value,
                                   Strip(RemoveAll(Split(file, '.')[0], FullRef(file))),
                                   Split(file, '.')[1])))
  {
    ReadRefMeaning(FullRef(file));
  }

  /** ConvertName as the Python 3 script has it: `string.strip(...)` raises
      AttributeError once both numbers have been read. */
  function ConvertNameAsWritten(file: string): (r: Result<Sample, DecodeError>)
    ensures r.Err?
    ensures ConvertName(file).Err? ==> r == ConvertName(file)
    ensures ConvertName(file).Ok? ==> r == Err(StringHasNoStrip)
  {
    match ReadFields(file)
    case Err(e) => Err(e)
    case Ok(_) => Err(StringHasNoStrip)
  }

  /** The name `"<i>-<l> <name>.<ext>"` that a sample of instrument `i`, layer `l` carries. */
  function SampleFileName(i: nat, l: nat, name: string, ext: string): string {
    NatString(i) + "-" + NatString(l) + " " + name + "." + ext
  }

  lemma NoSpecialChars(n: nat)
    ensures '.' !in NatString(n) && ' ' !in NatString(n) && '-' !in NatString(n)
  {
    var d := NatString(n);
    forall k | 0 <= k < |d| ensures d[k] != '.' && d[k] != ' ' && d[k] != '-' {
      assert IsDigit(d[k]);
    }
  }

  /** Two pieces free of the separator, joined by it, split back into those two. */
  lemma SplitTwo(a: string, b: string, sep: char)
    requires sep !in a && sep !in b
    ensures Split(a + [sep] + b, sep) == [a, b]
  {
    SplitAfterPiece(a, b, sep);
    SplitNoSeparator(b, sep);
  }

  lemma SpaceSplitHead(token: string, name: string)
    requires ' ' !in token
    ensures Split(token + " " + name, ' ')[0] == token
  {
    SplitAfterPiece(token, name, ' ');
  }

  lemma RemoveLeadingToken(token: string, name: string)
    requires token != [] && token[0] != ' '
    requires !Contains(name, token)
    ensures RemoveAll(token + " " + name, token) == " " + name
  {
    var full := token + " " + name;
    assert full[|token|..] == " " + name;
    assert StartsWith(full, token);
    assert !StartsWith(" " + name, token) by {
      assert (" " + name)[0] != token[0];
    }
    assert (" " + name)[1..] == name;
  }

  lemma ReadRefDecimal(i: nat, l: nat)
    ensures ReadRef(NatString(i) + "-" + NatString(l)) == Ok((i as int, l as int))
  {
    NoSpecialChars(i);
    NoSpecialChars(l);
    SplitTwo(NatString(i), NatString(l), '-');
    ParseDecimal(i);
    ParseDecimal(l);
  }

  /** Decoding recovers the ids, the stripped name and the extension, and keeps
      the file name unchanged, provided the name has no '.' and does not repeat
      the reference token. */
  lemma ConvertNameRoundTrip(i: nat, l: nat, name: string, ext: string)
    requires '.' !in name && '.' !in ext
    requires !Contains(name, NatString(i) + "-" + NatString(l))
    ensures ConvertName(SampleFileName(i, l, name, ext))
            == Ok(Sample(SampleFileName(i, l, name, ext), i, l, Strip(name), ext))
  {
    FileNameFields(i, l, name, ext);
    FileNameName(i, l, name);
  }

  /** The fields read from a sample file name are the ones it was built from. */
  lemma FileNameFields(i: nat, l: nat, name: string, ext: string)
    requires '.' !in name && '.' !in ext
    ensures var token := NatString(i) + "-" + NatString(l);
            ReadFields(SampleFileName(i, l, name, ext)) == Ok(Fields(token + " " + name, token, i, l, ext))
  {
    NoSpecialChars(i);
    NoSpecialChars(l);
    ReadRefDecimal(i, l);
    ReadFieldsOf(NatString(i) + "-" + NatString(l), name, ext, i, l);
  }

  /** Removing the reference token and stripping leaves the stripped name. */
  lemma FileNameName(i: nat, l: nat, name: string)
    requires !Contains(name, NatString(i) + "-" + NatString(l))
    ensures var token := NatString(i) + "-" + NatString(l);
            Strip(RemoveAll(token + " " + name, token)) == Strip(name)
  {
    var token := NatString(i) + "-" + NatString(l);
    NoSpecialChars(i);
    RemoveLeadingToken(token, name);
    StripLeadingSpace(name);
  }

  lemma ReadFieldsOf(token: string, name: string, ext: string, i: int, l: int)
    requires ' ' !in token && '.' !in token && '.' !in name && '.' !in ext
    requires ReadRef(token) == Ok((i, l))
    ensures ReadFields(token + " " + name + "." + ext) == Ok(Fields(token + " " + name, token, i, l, ext))
  {
    var full := token + " " + name;
    assert '.' !in full;
    SplitTwo(full, ext, '.');
    SpaceSplitHead(token, name);
  }

  /** Only the piece between the first and the second '.' is taken as the
      extension: `"1-1 snare.take2.wav"` has extension `"take2"`. */
  lemma ExtensionIsSecondPiece(front: string, ext: string, rest: string)
    requires '.' !in front && '.' !in ext
    ensures var r := ConvertName(front + "." + ext + "." + rest);
            r.Ok? ==> r.value.ext == ext
  {
    var file := front + "." + ext + "." + rest;
    assert file == front + ['.'] + (ext + ['.'] + rest);
    SplitAfterPiece(front, ext + ['.'] + rest, '.');
    SplitAfterPiece(ext, rest, '.');
  }

  lemma {:induction false} NotContainsFirst(s: string, sub: string)
    requires sub != [] && sub[0] !in s
    ensures !Contains(s, sub)
  {
    if s != [] {
      NotContainsFirst(s[1..], sub);
      assert s[0] != sub[0];
    }
  }

  /** As written, no well-formed name decodes (`"1-1 Kick.wav"` is one): the
      corrected ConvertName returns its sample, the Python 3 code raises
      AttributeError. */
  lemma {:induction false} AsWrittenRejectsWellFormedNames(i: nat, l: nat, name: string, ext: string)
    requires '.' !in name && '.' !in ext
    requires !Contains(name, NatString(i) + "-" + NatString(l))
    ensures ConvertName(SampleFileName(i, l, name, ext)).Ok?
    ensures ConvertNameAsWritten(SampleFileName(i, l, name, ext)) == Err(StringHasNoStrip)
  {
    ConvertNameRoundTrip(i, l, name, ext);
  }
}
