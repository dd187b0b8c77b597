/**
 * The phrases of the two examples in the docstring of `parse`
 * (src/command_parser.py:45-46), each run through the extractor that reads
 * it: `take sample.wav`, `pitch down 3 semitones`, `stretch by .82` and
 * `insert at bar 40 beat 3` of the sample command; `with 808s` and
 * `at 170 bpm` of the generate command.
 */
module ParserExamples {
  import opened Wrappers
  import opened Text
  import opened Operations
  import opened Scanners
  import opened Commands

  /** `take sample.wav`: the path stops after the first audio extension. */
  lemma SamplePathExample()
    ensures SamplePath("take sample.wav") == Some("sample.wav")
  {
    var s := "take sample.wav";
    assert At(s, 0, "take");
    assert SampleWordLength(s, 0) == 4;
    assert SpaceEnd(s, 5) == 5;
    assert Gap(s, 4) == Some(5);
    assert ExtensionLength(s, 11) == 4;
    assert LazyEnd(Extension, s, 11) == Some(15);
    assert LazyEnd(Extension, s, 10) == Some(15);
    assert LazyEnd(Extension, s, 9) == Some(15);
    assert LazyEnd(Extension, s, 8) == Some(15);
    assert LazyEnd(Extension, s, 7) == Some(15);
    assert LazyEnd(Extension, s, 6) == Some(15);
    assert LazyFrom(Extension, s, 5) == Some(Span(5, 15));
    assert LazyDown(Extension, s, 5, 5) == Some(Span(5, 15));
    assert SampleAt(s, 0) == Some(Match(Span(5, 15), None));
    assert Search(SampleAt, s) == Some(Found(0, Match(Span(5, 15), None)));
    assert s[5..15] == "sample.wav";
  }

  /** `pitch down 3 semitones`: the captured 3 is made negative. */
  lemma PitchExample()
    ensures PitchOperation("pitch down 3 semitones") == Some(PitchShift(-3))
  {
    var s := "pitch down 3 semitones";
    assert At(s, 0, "pitch");
    assert SpaceEnd(s, 6) == 6;
    assert Word(s, 0, "pitch") == Some(6);
    assert At(s, 6, "down");
    assert SpaceEnd(s, 11) == 11;
    assert SpaceEnd(s, 10) == 11;
    assert DigitEnd(s, 12) == 12;
    assert DigitEnd(s, 11) == 12;
    assert Signed(s, 11) == Some(Span(11, 12));
    assert PitchAt(s, 0) == Some(Match(Span(11, 12), None));
    assert Search(PitchAt, s) == Some(Found(0, Match(Span(11, 12), None)));
    assert s[11..12] == "3";
    assert IntValue("3") == 3;
    assert At(s, 0, "pitch down");
  }

  /** `stretch by .82`: `float('.82')`. */
  lemma StretchExample()
    ensures StretchOperation("stretch by .82") == Success(Some(TimeStretch(0.82)))
  {
    var s := "stretch by .82";
    assert At(s, 0, "stretch");
    assert SpaceEnd(s, 8) == 8;
    assert At(s, 8, "by");
    assert SpaceEnd(s, 11) == 11;
    assert DecimalEnd(s, 14) == 14;
    assert DecimalEnd(s, 11) == 14;
    assert StretchAt(s, 0) == Some(Match(Span(11, 14), None));
    assert Search(StretchAt, s) == Some(Found(0, Match(Span(11, 14), None)));
    assert s[11..14] == ".82";
    assert FirstDot(".82") == 0;
    assert ".82"[1..] == "82";
    assert FirstDot("2") == 1;
    assert FirstDot("82") == 2;
    assert "82"[..1] == "8";
    assert DigitsValue("82") == 82;
    assert Pow10(2) == 100;
    assert DecimalValue(".82") == Some(0.82);
  }

  /** `insert at bar 40 beat 3`: both groups of the insert pattern. */
  lemma InsertExample()
    ensures InsertPlacement("insert at bar 40 beat 3") == Placement(Some(40), 3)
  {
    InsertFound();
    var s := "insert at bar 40 beat 3";
    assert s[14..16] == "40";
    assert s[22..23] == "3";
    assert "40"[..1] == "4";
    assert DigitsValue("40") == 40;
    assert DigitsValue("3") == 3;
    assert InsertMatchPlacement(s) == Placement(Some(40), 3);
  }

  lemma InsertFound()
    ensures Search(InsertAt, "insert at bar 40 beat 3") == Some(Found(0, Match(Span(14, 16), Some(Span(22, 23)))))
  {
    var s := "insert at bar 40 beat 3";
    assert At(s, 0, "insert");
    assert SpaceEnd(s, 7) == 7;
    assert At(s, 7, "at");
    assert SpaceEnd(s, 10) == 10;
    assert At(s, 10, "bar");
    assert SpaceEnd(s, 14) == 14;
    assert DigitEnd(s, 16) == 16;
    assert DigitEnd(s, 14) == 16;
    assert OptionalWordDigits(s, 10, "bar") == Some(Span(14, 16));
    assert SpaceEnd(s, 17) == 17;
    assert At(s, 17, "beat");
    assert SpaceEnd(s, 22) == 22;
    assert DigitEnd(s, 22) == 23;
    assert InsertAt(s, 0) == Some(Match(Span(14, 16), Some(Span(22, 23))));
  }

  /** `at 170 bpm`. */
  lemma BpmExample()
    ensures BpmField("at 170 bpm") == Some(170)
  {
    var s := "at 170 bpm";
    assert At(s, 0, "at");
    assert SpaceEnd(s, 3) == 3;
    assert DigitEnd(s, 6) == 6;
    assert DigitEnd(s, 3) == 6;
    assert SpaceEnd(s, 7) == 7;
    assert SpaceEnd(s, 6) == 7;
    assert At(s, 7, "bpm");
    assert BpmCore(s, 3) == Some(Span(3, 6));
    assert BpmAt(s, 0) == Some(Match(Span(3, 6), None));
    assert Search(BpmAt, s) == Some(Found(0, Match(Span(3, 6), None)));
    assert s[3..6] == "170";
    assert "170"[..2] == "17";
    assert "17"[..1] == "1";
    assert DigitsValue("170") == 170;
  }

  /** `with 808s` sets `include_808`. */
  lemma With808Example()
    ensures GenerateCommand("with 808s").include808
  {
    var s := "with 808s";
    assert At(s, 0, "with");
    assert SpaceEnd(s, 5) == 5;
    assert At(s, 5, "808");
    assert With808At(s, 0).Some?;
  }

  /**
   * `get` is a keyword of the path pattern but not of the classification,
   * so `get x.wav` is an unknown command.
   */
  lemma GetIsUnknown()
    ensures Parse("get x.wav") == Success(Unknown("get x.wav"))
  {
    GetNormalised();
    GetNoKeywords();
  }

  lemma GetNormalised()
    ensures Normalise("get x.wav") == "get x.wav"
  {
    GetLower();
    GetStrip();
  }

  lemma GetLower()
    ensures Lower("get x.wav") == "get x.wav"
  {
  }

  lemma GetStrip()
    ensures Strip("get x.wav") == "get x.wav"
  {
    var s := "get x.wav";
    assert StripStart(s) == s;
    assert StripEnd(s) == s;
  }

  lemma GetNoKeywords()
    ensures !SampleWords("get x.wav") && !GenerateWords("get x.wav")
  {
    var s := "get x.wav";
    AbsentChar(s, "take", 2);
    AbsentChar(s, "load", 1);
    AbsentChar(s, "use", 0);
    AbsentChar(s, "sample", 3);
    AbsentChar(s, "create", 0);
    AbsentChar(s, "make", 2);
    AbsentChar(s, "generate", 2);
  }
}
