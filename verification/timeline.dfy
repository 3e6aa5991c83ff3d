/** The mouth-cue to ffconcat compiler: each rhubarb cue becomes one still
    image shown for the cue's length, written as an ffconcat script. */
module Timeline {
  import opened JsValues
  import opened Lines

  /** One rhubarb mouth cue: start and end in seconds, `value` the shape name. */
  datatype Cue = Cue(start: real, end: real, value: string)

  /** One compiled timeline entry: the image to show and for how many seconds. */
  datatype Segment = Segment(image: string, duration: real)

  /** One decoded ffconcat entry: the referenced file and the duration text. */
  datatype Entry = Entry(file: string, durationText: string)

  /** How a JavaScript number is rendered when concatenated to a string. */
  type NumberFormat = real -> string

  const Header: string := "ffconcat version 1.0"
  const FileKeyword: string := "file "
  const DurationKeyword: string := "duration "
  const ImageRoot: string := "img/"
  const ImageExtension: string := ".jpg"

  /** The image file of a shape within an image set; nothing checks that it exists. */
  function GetImg(imgset: string, shape: string): string
  {
    ImageRoot + imgset + "/" + shape + ImageExtension
  }

  /** Reads the shape name back from an image path of the given image set. */
  function ShapeOfImg(imgset: string, path: string): Option<string>
  {
    var dir := ImageRoot + imgset + "/";
    if |path| >= |dir| + |ImageExtension|
       && path[..|dir|] == dir
       && path[|path| - |ImageExtension|..] == ImageExtension
    then Some(path[|dir|..|path| - |ImageExtension|])
    else None
  }

  /** The image path determines the shape: `ShapeOfImg` inverts `GetImg`,
      so two shapes of one image set never share an image file. */
  lemma ImgRoundTrip(imgset: string, shape: string)
    ensures ShapeOfImg(imgset, GetImg(imgset, shape)) == Some(shape)
  {
    var dir := ImageRoot + imgset + "/";
    var p := GetImg(imgset, shape);
    assert p == dir + shape + ImageExtension;
    assert p[..|dir|] == dir;
    assert p[|p| - |ImageExtension|..] == ImageExtension;
    assert p[|dir|..|p| - |ImageExtension|] == shape;
  }

  /** Distinct shapes of one image set map to distinct image files. */
  lemma GetImgInjective(imgset: string, s1: string, s2: string)
    ensures GetImg(imgset, s1) == GetImg(imgset, s2) <==> s1 == s2
  {
    ImgRoundTrip(imgset, s1);
    ImgRoundTrip(imgset, s2);
  }

  /** One segment per cue, in cue order, lasting `end - start` (no check
      that this is positive). */
  function Compile(cues: seq<Cue>, imgset: string): seq<Segment>
    decreases |cues|
  {
    if |cues| == 0 then []
    else [Segment(GetImg(imgset, cues[0].value), cues[0].end - cues[0].start)]
         + Compile(cues[1..], imgset)
  }

  /** The two script lines of one segment. */
  function SegmentLines(s: Segment, fmt: NumberFormat): seq<string>
  {
    [FileKeyword + s.image, DurationKeyword + fmt(s.duration)]
  }

  /** The script lines after the header, two per segment. */
  function Body(segs: seq<Segment>, fmt: NumberFormat): seq<string>
    decreases |segs|
  {
    if |segs| == 0 then []
    else SegmentLines(segs[0], fmt) + Body(segs[1..], fmt)
  }

  /** The full list of script lines: the header, then the body. */
  function Serialize(segs: seq<Segment>, fmt: NumberFormat): seq<string>
  {
    [Header] + Body(segs, fmt)
  }

  /** The ffconcat text handed to the encoder. */
  function Script(cues: seq<Cue>, imgset: string, fmt: NumberFormat): string
  {
    Join(Serialize(Compile(cues, imgset), fmt))
  }

  /** `s` with `prefix` removed, when `s` starts with it. */
  function StripPrefix(prefix: string, s: string): Option<string>
  {
    if |prefix| <= |s| && s[..|prefix|] == prefix then Some(s[|prefix|..]) else None
  }

  /** Reads body lines back as file/duration pairs. */
  function DecodeBody(lines: seq<string>): Option<seq<Entry>>
    decreases |lines|
  {
    if |lines| == 0 then Some([])
    else if |lines| == 1 then None
    else
      match (StripPrefix(FileKeyword, lines[0]), StripPrefix(DurationKeyword, lines[1]), DecodeBody(lines[2..]))
      case (Some(f), Some(d), Some(rest)) => Some([Entry(f, d)] + rest)
      case _ => None
  }

  /** Reads a list of script lines back: the header, then file/duration pairs. */
  function Decode(lines: seq<string>): Option<seq<Entry>>
  {
    if |lines| >= 1 && lines[0] == Header then DecodeBody(lines[1..]) else None
  }

  /** What a reader of the script learns about each segment. */
  function EntriesOf(segs: seq<Segment>, fmt: NumberFormat): seq<Entry>
    decreases |segs|
  {
    if |segs| == 0 then []
    else [Entry(segs[0].image, fmt(segs[0].duration))] + EntriesOf(segs[1..], fmt)
  }

  lemma StripAdded(prefix: string, s: string)
    ensures StripPrefix(prefix, prefix + s) == Some(s)
  {
    assert (prefix + s)[..|prefix|] == prefix;
    assert (prefix + s)[|prefix|..] == s;
  }

  /** Decoding the serialised segments gives back, in order, each segment's
      image and rendered duration. */
  lemma {:induction false} DecodeSerialize(segs: seq<Segment>, fmt: NumberFormat)
    ensures Decode(Serialize(segs, fmt)) == Some(EntriesOf(segs, fmt))
  {
    assert Serialize(segs, fmt)[1..] == Body(segs, fmt);
    DecodeBodyOfBody(segs, fmt);
  }

  lemma {:induction false} DecodeBodyOfBody(segs: seq<Segment>, fmt: NumberFormat)
    ensures DecodeBody(Body(segs, fmt)) == Some(EntriesOf(segs, fmt))
    decreases |segs|
  {
    if |segs| > 0 {
      var b := Body(segs, fmt);
      StripAdded(FileKeyword, segs[0].image);
      StripAdded(DurationKeyword, fmt(segs[0].duration));
      assert b[2..] == Body(segs[1..], fmt);
      DecodeBodyOfBody(segs[1..], fmt);
    }
  }

  /** The body has two lines per segment; line 2i is the file line and line
      2i+1 the duration line of segment i. */
  lemma {:induction false} BodyShape(segs: seq<Segment>, fmt: NumberFormat)
    ensures |Body(segs, fmt)| == 2 * |segs|
    ensures forall i :: 0 <= i < |segs| ==>
              Body(segs, fmt)[2 * i] == FileKeyword + segs[i].image
              && Body(segs, fmt)[2 * i + 1] == DurationKeyword + fmt(segs[i].duration)
    decreases |segs|
  {
    if |segs| > 0 {
      BodyShape(segs[1..], fmt);
      var b := Body(segs, fmt);
      forall i | 0 <= i < |segs|
        ensures b[2 * i] == FileKeyword + segs[i].image
        ensures b[2 * i + 1] == DurationKeyword + fmt(segs[i].duration)
      {
        if i > 0 {
          assert b[2 * i] == Body(segs[1..], fmt)[2 * (i - 1)];
          assert b[2 * i + 1] == Body(segs[1..], fmt)[2 * (i - 1) + 1];
        }
      }
    }
  }

  /** Segment i comes from cue i: same order, no re-sorting, one per cue. */
  lemma {:induction false} CompileShape(cues: seq<Cue>, imgset: string)
    ensures |Compile(cues, imgset)| == |cues|
    ensures forall i :: 0 <= i < |cues| ==>
              Compile(cues, imgset)[i] == Segment(GetImg(imgset, cues[i].value), cues[i].end - cues[i].start)
    decreases |cues|
  {
    if |cues| > 0 {
      CompileShape(cues[1..], imgset);
    }
  }

  /** Builds the script the way the generator does: start from the header and
      push a file line and a duration line per cue, then join with line breaks. */
  method ParseMouthCues(cues: seq<Cue>, imgset: string, fmt: NumberFormat) returns (text: string, commands: seq<string>)
    ensures && |commands| == 1 + 2 * |cues|
            && commands[0] == Header
            && forall i :: 0 <= i < |cues| ==>
              commands[2 * i + 1] == FileKeyword + GetImg(imgset, cues[i].value)
              && commands[2 * i + 2] == DurationKeyword + fmt(cues[i].end - cues[i].start)
    ensures text == Script(cues, imgset, fmt)
  {
    commands := [Header];
    var n := 0;
    while n < |cues|
      invariant n <= |cues|
      invariant commands == Serialize(Compile(cues[..n], imgset), fmt)
    {
      var cue := cues[n];
      var diff := cue.end - cue.start;
      commands := commands + [FileKeyword + GetImg(imgset, cue.value)];
      commands := commands + [DurationKeyword + fmt(diff)];
      CompileSnoc(cues[..n], cue, imgset);
      BodySnoc(Compile(cues[..n], imgset), Segment(GetImg(imgset, cue.value), diff), fmt);
      assert cues[..n + 1] == cues[..n] + [cue];
      n := n + 1;
    }
    assert cues[..n] == cues;
    SerializeShape(cues, imgset, fmt);
    text := Join(commands);
  }

  lemma {:induction false} CompileSnoc(cues: seq<Cue>, c: Cue, imgset: string)
    ensures Compile(cues + [c], imgset)
            == Compile(cues, imgset) + [Segment(GetImg(imgset, c.value), c.end - c.start)]
    decreases |cues|
  {
    if |cues| > 0 {
      assert (cues + [c])[1..] == cues[1..] + [c];
      CompileSnoc(cues[1..], c, imgset);
    }
  }

  lemma {:induction false} BodySnoc(segs: seq<Segment>, s: Segment, fmt: NumberFormat)
    ensures Body(segs + [s], fmt) == Body(segs, fmt) + SegmentLines(s, fmt)
    decreases |segs|
  {
    if |segs| > 0 {
      assert (segs + [s])[1..] == segs[1..] + [s];
      BodySnoc(segs[1..], s, fmt);
    }
  }

  /** No image set name, shape name or rendered duration contains a line break. */
  predicate Printable(cues: seq<Cue>, imgset: string, fmt: NumberFormat)
  {
    && OneLine(imgset)
    && forall i :: 0 <= i < |cues| ==> OneLine(cues[i].value) && OneLine(fmt(cues[i].end - cues[i].start))
  }

  lemma OneLineConcat(a: string, b: string)
    ensures OneLine(a + b) <==> OneLine(a) && OneLine(b)
  {
    if !OneLine(a) {
      var j :| 0 <= j < |a| && a[j] == '\n';
      assert (a + b)[j] == '\n';
    }
    if !OneLine(b) {
      var j :| 0 <= j < |b| && b[j] == '\n';
      assert (a + b)[|a| + j] == '\n';
    }
  }

  /** An image path is a single line when the image set and shape are. */
  lemma ImgOneLine(imgset: string, shape: string)
    requires OneLine(imgset) && OneLine(shape)
    ensures OneLine(GetImg(imgset, shape))
  {
    OneLineConcat(ImageRoot, imgset);
    OneLineConcat(ImageRoot + imgset, "/");
    OneLineConcat(ImageRoot + imgset + "/", shape);
    OneLineConcat(ImageRoot + imgset + "/" + shape, ImageExtension);
  }

  lemma AllOneLineAppend(xs: seq<string>, ys: seq<string>)
    requires AllOneLine(xs) && AllOneLine(ys)
    ensures AllOneLine(xs + ys)
  {
    forall k | 0 <= k < |xs + ys|
      ensures OneLine((xs + ys)[k])
    {
      if k >= |xs| {
        assert (xs + ys)[k] == ys[k - |xs|];
      }
    }
  }

  lemma {:induction false} CompiledBodyOneLine(cues: seq<Cue>, imgset: string, fmt: NumberFormat)
    requires Printable(cues, imgset, fmt)
    ensures AllOneLine(Body(Compile(cues, imgset), fmt))
    decreases |cues|
  {
    if |cues| > 0 {
      var c := cues[0];
      var segs := Compile(cues, imgset);
      var seg := Segment(GetImg(imgset, c.value), c.end - c.start);
      assert segs == [seg] + Compile(cues[1..], imgset);
      assert segs[1..] == Compile(cues[1..], imgset);
      ImgOneLine(imgset, c.value);
      OneLineConcat(FileKeyword, seg.image);
      OneLineConcat(DurationKeyword, fmt(seg.duration));
      assert Printable(cues[1..], imgset, fmt) by {
        forall i | 0 <= i < |cues[1..]|
          ensures OneLine(cues[1..][i].value) && OneLine(fmt(cues[1..][i].end - cues[1..][i].start))
        {
          assert cues[1..][i] == cues[i + 1];
        }
      }
      CompiledBodyOneLine(cues[1..], imgset, fmt);
      AllOneLineAppend(SegmentLines(seg, fmt), Body(segs[1..], fmt));
    }
  }

  /** The script lines of printable cues hold no line break. */
  lemma {:induction false} SerializedOneLine(cues: seq<Cue>, imgset: string, fmt: NumberFormat)
    requires Printable(cues, imgset, fmt)
    ensures AllOneLine(Serialize(Compile(cues, imgset), fmt))
  {
    CompiledBodyOneLine(cues, imgset, fmt);
    AllOneLineAppend([Header], Body(Compile(cues, imgset), fmt));
  }

  /** The script lines of n cues: the header, then for cue i the line
      `file <image>` at 2i+1 and `duration <end - start>` at 2i+2. */
  lemma {:induction false} SerializeShape(cues: seq<Cue>, imgset: string, fmt: NumberFormat)
    ensures |Serialize(Compile(cues, imgset), fmt)| == 1 + 2 * |cues|
    ensures Serialize(Compile(cues, imgset), fmt)[0] == Header
    ensures forall i :: 0 <= i < |cues| ==>
              Serialize(Compile(cues, imgset), fmt)[2 * i + 1] == FileKeyword + GetImg(imgset, cues[i].value)
              && Serialize(Compile(cues, imgset), fmt)[2 * i + 2] == DurationKeyword + fmt(cues[i].end - cues[i].start)
  {
    var segs := Compile(cues, imgset);
    var lines := Serialize(segs, fmt);
    CompileShape(cues, imgset);
    BodyShape(segs, fmt);
    forall i | 0 <= i < |cues|
      ensures lines[2 * i + 1] == FileKeyword + GetImg(imgset, cues[i].value)
      ensures lines[2 * i + 2] == DurationKeyword + fmt(cues[i].end - cues[i].start)
    {
      assert lines[2 * i + 1] == Body(segs, fmt)[2 * i];
      assert lines[2 * i + 2] == Body(segs, fmt)[2 * i + 1];
    }
  }

  /** Read back line by line, the script text gives exactly the command
      lines it was joined from, provided no image set, shape or rendered
      duration holds a line break. */
  lemma {:induction false} ScriptLines(cues: seq<Cue>, imgset: string, fmt: NumberFormat)
    requires Printable(cues, imgset, fmt)
    ensures Split(Script(cues, imgset, fmt)) == Serialize(Compile(cues, imgset), fmt)
  {
    SerializedOneLine(cues, imgset, fmt);
    SplitJoin(Serialize(Compile(cues, imgset), fmt));
  }

  /** With no cues the script is the header alone. */
  lemma EmptyScript(imgset: string, fmt: NumberFormat)
    ensures Script([], imgset, fmt) == Header
  {
    assert Serialize(Compile([], imgset), fmt) == [Header];
  }

  /** Whatever the cues, the script's first line is exactly the header: the
      text starts with it and a line break or the end of the text follows. */
  lemma ScriptStartsWithHeader(cues: seq<Cue>, imgset: string, fmt: NumberFormat)
    ensures |Header| <= |Script(cues, imgset, fmt)|
    ensures Script(cues, imgset, fmt)[..|Header|] == Header
    ensures Split(Script(cues, imgset, fmt))[0] == Header
  {
    var lines := Serialize(Compile(cues, imgset), fmt);
    if |lines| > 1 {
      assert lines == [Header] + lines[1..];
      JoinAppend([Header], lines[1..]);
    }
    assert OneLine(Header);
    FirstLineOfJoin(lines);
  }

  /** Total playing time of a timeline. */
  function TotalDuration(segs: seq<Segment>): real
    decreases |segs|
  {
    if |segs| == 0 then 0.0 else segs[0].duration + TotalDuration(segs[1..])
  }

  /** Sum of the cue lengths. */
  function CueTime(cues: seq<Cue>): real
    decreases |cues|
  {
    if |cues| == 0 then 0.0 else (cues[0].end - cues[0].start) + CueTime(cues[1..])
  }

  /** Each cue starts where the previous one ended, as rhubarb emits them. */
  predicate Gapless(cues: seq<Cue>)
  {
    forall i :: 0 <= i < |cues| - 1 ==> cues[i].end == cues[i + 1].start
  }

  /** The timeline lasts exactly as long as the cues together, for any cue
      list (negative lengths included, since none are rejected). */
  lemma {:induction false} TimelineKeepsCueTime(cues: seq<Cue>, imgset: string)
    ensures TotalDuration(Compile(cues, imgset)) == CueTime(cues)
    decreases |cues|
  {
    if |cues| > 0 {
      TimelineKeepsCueTime(cues[1..], imgset);
    }
  }

  /** For gapless cues the timeline spans from the first start to the last
      end: the video lasts as long as the analysed speech. */
  lemma {:induction false} GaplessSpan(cues: seq<Cue>, imgset: string)
    requires |cues| > 0
    requires Gapless(cues)
    ensures TotalDuration(Compile(cues, imgset)) == cues[|cues| - 1].end - cues[0].start
  {
    TimelineKeepsCueTime(cues, imgset);
    CueTimeTelescopes(cues);
  }

  lemma {:induction false} CueTimeTelescopes(cues: seq<Cue>)
    requires |cues| > 0
    requires Gapless(cues)
    ensures CueTime(cues) == cues[|cues| - 1].end - cues[0].start
    decreases |cues|
  {
    if |cues| > 1 {
      var tail := cues[1..];
      assert Gapless(tail) by {
        forall i | 0 <= i < |tail| - 1
          ensures tail[i].end == tail[i + 1].start
        {
          assert tail[i] == cues[i + 1] && tail[i + 1] == cues[i + 2];
        }
      }
      CueTimeTelescopes(tail);
      assert cues[0].end == cues[1].start;
    }
  }
}
