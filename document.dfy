/** The lines of `drumkit.xml` that CreateDrumkit, AddInstrument and AddLayer
    write, and the instrument list that those lines describe. */
module KitDocument {
  import opened Text
  import opened Samples
  import opened Ordering

  /** One `f.write(...)` of the script. The velocity lines carry the exact
      fraction; the script writes `str(round(v, 2))` there. */
  datatype Line = Plain(text: string) | MinVelocity(min: real) | MaxVelocity(max: real)

  /** The four strings the user is asked for. */
  datatype KitInfo = KitInfo(name: string, author: string, info: string, license: string)

  /** A `<layer>` element: the sample file and its velocity range. */
  datatype Layer = Layer(file: string, min: real, max: real)

  /** An `<instrument>` element. */
  datatype Instrument = Instrument(id: int, name: string, layers: seq<Layer>)

  /** `n` spaces of indentation. */
  function Spaces(n: nat): string {
    seq(n, _ => ' ')
  }

  /** A line indented by `depth` spaces. */
  function Element(depth: nat, s: string): Line {
    Plain(Spaces(depth) + s)
  }

  const InstrumentOpen: Line := Element(12, "<instrument>\n")
  const InstrumentClose: Line := Element(12, "</instrument>\n")

  /** The 16 fields AddInstrument writes after the opening tag, without their indentation. */
  function InstrumentFields(id: int, name: string): seq<string> {
    [ "<id>" + DecimalString(id) + "</id>\n",
      "<name>" + name + "</name>\n",
      "<isMuted>false</isMuted>\n",
      "<isLocked>false</isLocked>\n",
      "<pan_L>1</pan_L>\n",
      "<pan_R>1</pan_R>\n",
      "<randomPitchFactor>0</randomPitchFactor>\n",
      "<gain>1</gain>\n",
      "<filterActive>false</filterActive>\n",
      "<filterCutoff>1</filterCutoff>\n",
      "<filterResonance>0</filterResonance>\n",
      "<Attack>0</Attack>\n",
      "<Decay>0</Decay>\n",
      "<Sustain>1</Sustain>\n",
      "<Release>1000</Release>\n",
      "<muteGroup>-1</muteGroup>\n" ]
  }

  /** The 17 lines of AddInstrument: the opening tag, then each field indented by 16. */
  function InstrumentHeader(id: int, name: string): seq<Line> {
    var fields := InstrumentFields(id, name);
    [InstrumentOpen] + seq(|fields|, i requires 0 <= i < |fields| => Element(16, fields[i]))
  }

  /** The 7 lines of AddLayer. */
  function LayerLines(l: Layer): seq<Line> {
    [ Element(16, "<layer>\n"),
      Element(20, "<filename>" + l.file + "</filename>\n"),
      MinVelocity(l.min),
      MaxVelocity(l.max),
      Element(20, "<gain>1</gain>\n"),
      Element(20, "<pitch>0</pitch>\n"),
      Element(16, "</layer>\n") ]
  }

  function RenderLayers(ls: seq<Layer>): seq<Line> {
    if ls == [] then [] else RenderLayers(ls[..|ls| - 1]) + LayerLines(ls[|ls| - 1])
  }

  function RenderInstrument(ins: Instrument): seq<Line> {
    InstrumentHeader(ins.id, ins.name) + RenderLayers(ins.layers) + [InstrumentClose]
  }

  function RenderInstruments(ins: seq<Instrument>): seq<Line> {
    if ins == [] then [] else RenderInstruments(ins[..|ins| - 1]) + RenderInstrument(ins[|ins| - 1])
  }

  /** `DrumSetName`, with "drumkit" in place of an empty answer. */
  function KitName(name: string): (r: string)
    ensures r != []
    ensures name != [] ==> r == name
    ensures name == [] ==> r == "drumkit"
  {
    if name == [] then "drumkit" else name
  }

  /** The six lines written before the instruments. */
  function KitHeader(info: KitInfo): seq<Line> {
    [ Element(0, "<drumkit_info>\n"),
      Element(4, "<name>" + info.name + "</name>\n"),
      Element(4, "<author>" + info.author + "</author>\n"),
      Element(4, "<info>" + info.info + "</info>\n"),
      Element(4, "<license>" + info.license + "</license>\n"),
      Element(4, "<instrumentList>\n") ]
  }

  const KitFooter: seq<Line> := [Element(4, "</instrumentList>\n"), Element(0, "</drumkit_info>\n")]

  function Document(info: KitInfo, ins: seq<Instrument>): seq<Line> {
    KitHeader(info) + RenderInstruments(ins) + KitFooter
  }

  /** AddLayer's `(1.0/NumOfLayers)*k`, as an exact fraction. */
  function Velocity(k: int, n: int): real
    requires n != 0
  {
    (1.0 / n as real) * (k as real)
  }

  /** The layers of one instrument's samples `g`, in order, with counter k = 1..|g|
      and range [(k-1)/|g|, k/|g|]. */
  function VelocityLayers(g: seq<Sample>): seq<Layer> {
    seq(|g|, k requires 0 <= k < |g| => Layer(g[k].file, Velocity(k, |g|), Velocity(k + 1, |g|)))
  }

  /** The `k`-th layer has the `k`-th sample's file and the `k`-th velocity range. */
  lemma VelocityLayerAt(g: seq<Sample>, k: nat)
    requires k < |g|
    ensures |VelocityLayers(g)| == |g|
    ensures VelocityLayers(g)[k] == Layer(g[k].file, Velocity(k, |g|), Velocity(k + 1, |g|))
  {
  }

  lemma VelocityBounds(k: int, n: int)
    requires 0 <= k < n
    ensures 0.0 <= Velocity(k, n) < Velocity(k + 1, n) <= 1.0
    ensures Velocity(n, n) == 1.0
  {
    var u := 1.0 / n as real;
    assert u > 0.0;
    assert Velocity(k + 1, n) == Velocity(k, n) + u;
    assert u * (n as real) - u * ((k + 1) as real) == u * ((n - k - 1) as real);
    assert u * (n as real) == 1.0;
    assert Velocity(n, n) == 1.0;
  }

  /** The ranges of an instrument's layers tile [0, 1]: the first starts at 0, the
      last ends at 1, each starts where the previous one ends and none is empty. */
  lemma VelocityLayersTile(g: seq<Sample>)
    ensures |VelocityLayers(g)| == |g|
    ensures forall k :: 0 <= k < |g| ==> VelocityLayers(g)[k].file == g[k].file
    ensures g != [] ==> VelocityLayers(g)[0].min == 0.0 && VelocityLayers(g)[|g| - 1].max == 1.0
    ensures forall k :: 0 < k < |g| ==> VelocityLayers(g)[k].min == VelocityLayers(g)[k - 1].max
    ensures forall k :: 0 <= k < |g| ==>
              0.0 <= VelocityLayers(g)[k].min < VelocityLayers(g)[k].max <= 1.0
  {
    var ls := VelocityLayers(g);
    var n := |g|;
    if n > 0 {
      assert ls[n - 1].max == Velocity(n, n);
      VelocityBounds(n - 1, n);
      forall k | 0 <= k < n ensures 0.0 <= ls[k].min < ls[k].max <= 1.0 {
        VelocityBounds(k, n);
      }
    }
  }

  /** The instrument at position `p` of the list: the samples with id `p`, named
      after the first of them, or a placeholder named `str(p)` without layers. */
  function InstrumentAt(t: seq<Sample>, p: int): Instrument {
    var g := Matching(t, InstrumentField, p);
    if g == [] then Instrument(p, DecimalString(p), [])
    else Instrument(p, g[0].name, VelocityLayers(g))
  }

  /** The instruments of positions 1..m. */
  function KitInstruments(t: seq<Sample>, m: int): (r: seq<Instrument>)
    ensures |r| == if m > 0 then m else 0
    ensures forall k :: 0 <= k < |r| ==> r[k] == InstrumentAt(t, k + 1)
  {
    if m <= 0 then [] else KitInstruments(t, m - 1) + [InstrumentAt(t, m)]
  }

  /** The instrument list holds ids 1..m once each, in ascending order; an
      instrument is named after its first sample and its layers are all its
      samples' files in order; a position without
      samples is a placeholder named after its id; samples whose id lies outside
      1..m appear nowhere. */
  lemma KitInstrumentsMeaning(t: seq<Sample>, m: int, k: nat)
    requires k < |KitInstruments(t, m)|
    ensures KitInstruments(t, m)[k].id == k + 1 <= m
    ensures KitInstruments(t, m)[k].layers == [] <==> Matching(t, InstrumentField, k + 1) == []
    ensures KitInstruments(t, m)[k].layers == [] ==> KitInstruments(t, m)[k].name == DecimalString(k + 1)
    ensures Matching(t, InstrumentField, k + 1) != [] ==>
              KitInstruments(t, m)[k].name == Matching(t, InstrumentField, k + 1)[0].name
    ensures |KitInstruments(t, m)[k].layers| == |Matching(t, InstrumentField, k + 1)|
    ensures forall j :: 0 <= j < |KitInstruments(t, m)[k].layers| ==>
              KitInstruments(t, m)[k].layers[j].file == Matching(t, InstrumentField, k + 1)[j].file
              && Matching(t, InstrumentField, k + 1)[j].instrument == k + 1
  {
    var g := Matching(t, InstrumentField, k + 1);
    VelocityLayersTile(g);
  }

  /** An instrument tag as seen in one line: `[true]` opens, `[false]` closes. */
  function TagOf(l: Line): seq<bool> {
    if l == InstrumentOpen then [true] else if l == InstrumentClose then [false] else []
  }

  /** The instrument tags among the lines, in order. */
  function Tags(lines: seq<Line>): seq<bool> {
    if lines == [] then [] else TagOf(lines[0]) + Tags(lines[1..])
  }

  lemma {:induction false} TagsAppend(a: seq<Line>, b: seq<Line>)
    ensures Tags(a + b) == Tags(a) + Tags(b)
  {
    if a == [] {
      assert a + b == b;
    } else {
      assert (a + b)[1..] == a[1..] + b;
      TagsAppend(a[1..], b);
    }
  }

  lemma {:induction false} NoTags(lines: seq<Line>)
    requires forall i :: 0 <= i < |lines| ==> TagOf(lines[i]) == []
    ensures Tags(lines) == []
  {
    if lines != [] {
      NoTags(lines[1..]);
    }
  }

  /** An element indented deeper than the instrument tags is not one. */
  lemma DeepNotTag(depth: nat, s: string)
    requires depth > 12
    ensures TagOf(Element(depth, s)) == []
  {
    assert (Spaces(depth) + s)[12] == ' ';
    assert InstrumentOpen.text[12] == '<';
    assert InstrumentClose.text[12] == '<';
  }

  /** An element indented less than the instrument tags, starting with '<', is not one. */
  lemma ShallowNotTag(depth: nat, s: string)
    requires depth < 12 && s != [] && s[0] == '<'
    ensures TagOf(Element(depth, s)) == []
  {
    assert (Spaces(depth) + s)[depth] == '<';
    assert InstrumentOpen.text[depth] == ' ';
    assert InstrumentClose.text[depth] == ' ';
  }

  /** `n` times an opening tag followed by its closing tag. */
  function Alternating(n: nat): seq<bool> {
    if n == 0 then [] else Alternating(n - 1) + [true, false]
  }

  lemma HeaderTags(id: int, name: string)
    ensures Tags(InstrumentHeader(id, name)) == [true]
  {
    var h := InstrumentHeader(id, name);
    forall i | 1 <= i < |h| ensures TagOf(h[i]) == [] {
      DeepNotTag(16, InstrumentFields(id, name)[i - 1]);
    }
    NoTags(h[1..]);
  }

  lemma LayerTags(l: Layer)
    ensures Tags(LayerLines(l)) == []
  {
    DeepNotTag(16, "<layer>\n");
    DeepNotTag(20, "<filename>" + l.file + "</filename>\n");
    DeepNotTag(20, "<gain>1</gain>\n");
    DeepNotTag(20, "<pitch>0</pitch>\n");
    DeepNotTag(16, "</layer>\n");
    NoTags(LayerLines(l));
  }

  lemma {:induction false} LayersTags(ls: seq<Layer>)
    ensures Tags(RenderLayers(ls)) == []
  {
    if ls != [] {
      LayersTags(ls[..|ls| - 1]);
      LayerTags(ls[|ls| - 1]);
      TagsAppend(RenderLayers(ls[..|ls| - 1]), LayerLines(ls[|ls| - 1]));
    }
  }

  lemma InstrumentTags(ins: Instrument)
    ensures Tags(RenderInstrument(ins)) == [true, false]
  {
    HeaderTags(ins.id, ins.name);
    LayersTags(ins.layers);
    TagsAppend(InstrumentHeader(ins.id, ins.name), RenderLayers(ins.layers));
    TagsAppend(InstrumentHeader(ins.id, ins.name) + RenderLayers(ins.layers), [InstrumentClose]);
  }

  /** Every instrument is opened once and closed once before the next opens. */
  lemma {:induction false} InstrumentsTags(ins: seq<Instrument>)
    ensures Tags(RenderInstruments(ins)) == Alternating(|ins|)
  {
    if ins != [] {
      InstrumentsTags(ins[..|ins| - 1]);
      InstrumentTags(ins[|ins| - 1]);
      TagsAppend(RenderInstruments(ins[..|ins| - 1]), RenderInstrument(ins[|ins| - 1]));
    }
  }

  lemma KitHeaderTags(info: KitInfo)
    ensures Tags(KitHeader(info)) == []
  {
    ShallowNotTag(0, "<drumkit_info>\n");
    ShallowNotTag(4, "<name>" + info.name + "</name>\n");
    ShallowNotTag(4, "<author>" + info.author + "</author>\n");
    ShallowNotTag(4, "<info>" + info.info + "</info>\n");
    ShallowNotTag(4, "<license>" + info.license + "</license>\n");
    ShallowNotTag(4, "<instrumentList>\n");
    NoTags(KitHeader(info));
  }

  lemma KitFooterTags()
    ensures Tags(KitFooter) == []
  {
    var close := "</drumkit_info>\n";
    assert close[0] == '<';
    ShallowNotTag(4, "</instrumentList>\n");
    ShallowNotTag(0, close);
    NoTags(KitFooter);
  }

  /** The instrument tags of the whole file are balanced: one open and one close
      per instrument, never nested. */
  lemma DocumentTags(info: KitInfo, ins: seq<Instrument>)
    ensures Tags(Document(info, ins)) == Alternating(|ins|)
  {
    var h := KitHeader(info);
    var body := RenderInstruments(ins);
    assert Tags(h) == [] by {
      KitHeaderTags(info);
    }
    assert Tags(KitFooter) == [] by {
      KitFooterTags();
    }
    assert Tags(body) == Alternating(|ins|) by {
      InstrumentsTags(ins);
    }
    TagsAppend(h, body);
    TagsAppend(h + body, KitFooter);
  }
}
