/** The output file `f` of createH2kit_V3.py and the two functions that write
    an instrument and a layer to it. */
module Writer {
  import opened Text
  import opened KitDocument

  /** Appending 17 lines one at a time appends them all. */
  lemma AppendSeventeen(b: seq<Line>, h: seq<Line>)
    requires |h| == 17
    ensures b + [h[0]] + [h[1]] + [h[2]] + [h[3]] + [h[4]] + [h[5]] + [h[6]] + [h[7]] + [h[8]]
            + [h[9]] + [h[10]] + [h[11]] + [h[12]] + [h[13]] + [h[14]] + [h[15]] + [h[16]] == b + h
  {
    var c := b + [h[0]] + [h[1]] + [h[2]] + [h[3]] + [h[4]] + [h[5]] + [h[6]] + [h[7]] + [h[8]]
             + [h[9]] + [h[10]] + [h[11]] + [h[12]] + [h[13]] + [h[14]] + [h[15]] + [h[16]];
    forall i | 0 <= i < |c| ensures c[i] == (b + h)[i] {
      if i >= |b| {
        assert c[i] == h[i - |b|];
      }
    }
  }

  /** The open `drumkit.xml`: the lines written to it so far. */
  class KitWriter {
    var lines: seq<Line>

    constructor ()
      ensures lines == []
    {
      lines := [];
    }

    /** `f.write(...)` */
    method Write(l: Line)
      modifies this
      ensures lines == old(lines) + [l]
    {
      lines := lines + [l];
    }

    /** AddInstrument: the opening tag and the instrument's 16 fixed fields. */
    method AddInstrument(id: int, name: string)
      modifies this
      ensures lines == old(lines) + InstrumentHeader(id, name)
    {
      ghost var before := lines;
      Write(Element(12, "<instrument>\n"));
      Write(Element(16, "<id>" + DecimalString(id) + "</id>\n"));
      Write(Element(16, "<name>" + name + "</name>\n"));
      Write(Element(16, "<isMuted>false</isMuted>\n"));
      Write(Element(16, "<isLocked>false</isLocked>\n"));
      Write(Element(16, "<pan_L>1</pan_L>\n"));
      Write(Element(16, "<pan_R>1</pan_R>\n"));
      Write(Element(16, "<randomPitchFactor>0</randomPitchFactor>\n"));
      Write(Element(16, "<gain>1</gain>\n"));
      Write(Element(16, "<filterActive>false</filterActive>\n"));
      Write(Element(16, "<filterCutoff>1</filterCutoff>\n"));
      Write(Element(16, "<filterResonance>0</filterResonance>\n"));
      Write(Element(16, "<Attack>0</Attack>\n"));
      Write(Element(16, "<Decay>0</Decay>\n"));
      Write(Element(16, "<Sustain>1</Sustain>\n"));
      Write(Element(16, "<Release>1000</Release>\n"));
      Write(Element(16, "<muteGroup>-1</muteGroup>\n"));
      AppendSeventeen(before, InstrumentHeader(id, name));
    }

    /** AddLayer: layer `layerNr` of `numOfLayers` gets the velocity range
        [(layerNr-1)/numOfLayers, layerNr/numOfLayers]. Python raises
        ZeroDivisionError when `numOfLayers` is 0. */
    method AddLayer(sampleFile: string, numOfLayers: int, layerNr: int)
      requires numOfLayers != 0
      modifies this
      ensures lines == old(lines)
                       + LayerLines(Layer(sampleFile, Velocity(layerNr - 1, numOfLayers), Velocity(layerNr, numOfLayers)))
    {
      var minVelocity := (1.0 / numOfLayers as real) * ((layerNr - 1) as real);
      var maxVelocity := (1.0 / numOfLayers as real) * (layerNr as real);
      Write(Element(16, "<layer>\n"));
      Write(Element(20, "<filename>" + sampleFile + "</filename>\n"));
      Write(MinVelocity(minVelocity));
      Write(MaxVelocity(maxVelocity));
      Write(Element(20, "<gain>1</gain>\n"));
      Write(Element(20, "<pitch>0</pitch>\n"));
      Write(Element(16, "</layer>\n"));
    }
  }
}
