/** The script reader of CreateEspeakFiles in createH2kit_V3.py: each line
    `"<name>*<text>"` of the input file becomes a spoken sample
    `"<k>-1 <name>.wav"` for instrument `k`, the instruments numbered by the
    well-formed lines only; the kit is then made from the directory. */
module Espeak {
  import opened Text
  import opened Samples
  import opened KitDocument
  import opened Drumkit

  /** One `os.system(command)`: the sample file the command names and the command. */
  datatype Job = Job(fileName: string, command: string)

  /** What CreateEspeakFiles returns: "OK" when it only speaks the lines, or
      what CreateDrumkit returns for the directory of the input file. */
  datatype EspeakResult = Spoken | MadeKit(outcome: Outcome)

  /** `line.rstrip('\n').split('*')` */
  function ScriptFields(line: string): seq<string> {
    Split(RStripChar(line, '\n'), '*')
  }

  /** A line with a `*` splits into at least the name and the text. */
  lemma ScriptFieldsHasText(line: string)
    requires '*' in line
    ensures |ScriptFields(line)| >= 2
  {
    var r := RStripChar(line, '\n');
    var i :| 0 <= i < |line| && line[i] == '*';
    assert i < |r| && r[i] == '*';
  }

  /** The lines with a `*`, in order: the ones that make a sample. */
  function ScriptLines(lines: seq<string>): (r: seq<string>)
    ensures forall k :: 0 <= k < |r| ==> '*' in r[k] && r[k] in lines
    ensures forall line :: line in lines && '*' in line ==> line in r
  {
    if lines == [] then []
    else
      var init := lines[..|lines| - 1];
      assert lines == init + [lines[|lines| - 1]];
      ScriptLines(init) + (if '*' in lines[|lines| - 1] then [lines[|lines| - 1]] else [])
  }

  /** The command and sample file for the well-formed line `line` when it is the
      `k`-th one: `<path>/<k>-1 <name>.wav`, spoken into that file unless `listen`. */
  function JobFor(filePath: string, k: nat, line: string, listen: bool): (r: Job)
    requires '*' in line
    ensures r.fileName == filePath + "/" + SampleFileName(k, 1, ScriptFields(line)[0], "wav")
    ensures listen ==> r.command == "espeak " + ScriptFields(line)[1]
    ensures !listen ==> r.command == "espeak " + ScriptFields(line)[1] + " -w \"" + r.fileName + "\""
  {
    ScriptFieldsHasText(line);
    SpokenFileName(filePath, k, ScriptFields(line)[0]);
    var foo := ScriptFields(line);
    var filename := filePath + "/" + NatString(k) + "-1 " + foo[0] + ".wav";
    if listen then Job(filename, "espeak " + foo[1])
    else Job(filename, "espeak " + foo[1] + " -w \"" + filename + "\"")
  }

  /** The `os.system` calls for the lines: one per well-formed line, the `k`-th
      numbered `k`. */
  function Jobs(filePath: string, lines: seq<string>, listen: bool): (r: seq<Job>)
    ensures |r| == |ScriptLines(lines)|
  {
    var valid := ScriptLines(lines);
    seq(|valid|, k requires 0 <= k < |valid| => JobFor(filePath, k + 1, valid[k], listen))
  }

  lemma ScriptLinesStep(lines: seq<string>, i: nat)
    requires i < |lines|
    ensures ScriptLines(lines[..i + 1]) == ScriptLines(lines[..i]) + if '*' in lines[i] then [lines[i]] else []
  {
    assert lines[..i + 1][..i] == lines[..i];
  }

  /** One more line adds its job when it is well-formed, numbered after the
      jobs before it. */
  lemma JobsStep(filePath: string, lines: seq<string>, listen: bool, i: nat)
    requires i < |lines|
    ensures '*' in lines[i] ==>
            Jobs(filePath, lines[..i + 1], listen)
            == Jobs(filePath, lines[..i], listen) + [JobFor(filePath, |Jobs(filePath, lines[..i], listen)| + 1, lines[i], listen)]
    ensures '*' !in lines[i] ==> Jobs(filePath, lines[..i + 1], listen) == Jobs(filePath, lines[..i], listen)
  {
    ScriptLinesStep(lines, i);
    var before := ScriptLines(lines[..i]);
    var after := ScriptLines(lines[..i + 1]);
    var a := Jobs(filePath, lines[..i], listen);
    var b := Jobs(filePath, lines[..i + 1], listen);
    forall k | 0 <= k < |a| ensures b[k] == a[k] {
      assert after[k] == before[k];
    }
    if '*' in lines[i] {
      assert b[|a|] == JobFor(filePath, |a| + 1, lines[i], listen);
      assert b == a + [b[|a|]];
    } else {
      assert b == a;
    }
  }

  /** The file a job names is the sample file name of instrument `k`, layer 1. */
  lemma SpokenFileName(filePath: string, k: nat, name: string)
    ensures filePath + "/" + NatString(k) + "-1 " + name + ".wav" == filePath + "/" + SampleFileName(k, 1, name, "wav")
  {
    assert NatString(1) == "1";
    var num := NatString(k);
    calc {
      filePath + "/" + num + "-1 " + name + ".wav";
      filePath + "/" + (num + "-1 " + name + ".wav");
      { assert num + "-1 " + name + ".wav" == num + "-" + "1" + " " + name + "." + "wav"; }
      filePath + "/" + SampleFileName(k, 1, name, "wav");
    }
  }

  /** The loop over the lines of the input file, with the instrument counter
      advanced by the well-formed lines only, and the call of CreateDrumkit on
      the file's directory, whose listing after the speech synthesiser has run
      is `listing`. */
  method CreateEspeakFiles(filePath: string, lines: seq<string>, listen: bool, listing: seq<string>, info: KitInfo)
    returns (jobs: seq<Job>, result: EspeakResult)
    ensures jobs == Jobs(filePath, lines, listen)
    ensures result == if listen then Spoken else MadeKit(DrumkitOutcome(filePath + "/", listing, info))
  {
    jobs := [];
    var instrument := 1;
    var i := 0;
    while i < |lines|
      invariant 0 <= i <= |lines|
      invariant jobs == Jobs(filePath, lines[..i], listen)
      invariant instrument == |jobs| + 1
    {
      var line := lines[i];
      JobsStep(filePath, lines, listen, i);
      if '*' in line {
        ScriptFieldsHasText(line);
        var foo := Split(RStripChar(line, '\n'), '*');
        var pathandid := filePath + "/" + NatString(instrument) + "-1 ";
        var filename := pathandid + foo[0] + ".wav";
        var command;
        if listen {
          command := "espeak " + foo[1];
        } else {
          command := "espeak " + foo[1] + " -w \"" + filename + "\"";
        }
        assert Job(filename, command) == JobFor(filePath, instrument, line, listen);
        jobs := jobs + [Job(filename, command)];
        instrument := instrument + 1;
      }
      i := i + 1;
    }
    assert lines[..i] == lines;
    if listen {
      result := Spoken;
    } else {
      var outcome := CreateDrumkit(filePath + "/", listing, info);
      result := MadeKit(outcome);
    }
  }

  /** The `k`-th job writes the sample file of instrument `k + 1`, layer 1, named
      after the part of its line before the `*`; when that name has no `.` and
      does not hold the reference `"<k+1>-1"`, ConvertName reads it back as
      exactly that sample. */
  lemma JobFileDecodes(filePath: string, lines: seq<string>, listen: bool, k: nat)
    requires k < |Jobs(filePath, lines, listen)|
    ensures '*' in ScriptLines(lines)[k] && |ScriptFields(ScriptLines(lines)[k])| >= 2
    ensures var name := ScriptFields(ScriptLines(lines)[k])[0];
            var file := SampleFileName(k + 1, 1, name, "wav");
            Jobs(filePath, lines, listen)[k].fileName == filePath + "/" + file
            && ('.' !in name && !Contains(name, NatString(k + 1) + "-1") ==>
                ConvertName(file) == Ok(Sample(file, k + 1, 1, Strip(name), "wav")))
  {
    var line := ScriptLines(lines)[k];
    ScriptFieldsHasText(line);
    var name := ScriptFields(line)[0];
    assert Jobs(filePath, lines, listen)[k] == JobFor(filePath, k + 1, line, listen);
    SpokenFileName(filePath, k + 1, name);
    if '.' !in name && !Contains(name, NatString(k + 1) + "-1") {
      assert NatString(1) == "1";
      assert NatString(k + 1) + "-" + NatString(1) == NatString(k + 1) + "-1";
      assert '.' !in "wav";
      ConvertNameRoundTrip(k + 1, 1, name, "wav");
    }
  }
}
