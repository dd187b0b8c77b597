/**
 * What the command parser promises about the commands it builds
 * (src/command_parser.py:48-177), proved of the field functions.
 */
module CommandFacts {
  import opened Wrappers
  import opened Text
  import opened Operations
  import opened Scanners
  import opened Commands

  /** The position of each kind of operation in the fixed extractor order. */
  function Rank(o: Operation): nat {
    match o
    case PitchShift(_) => 0
    case TimeStretch(_) => 1
    case Filter(_, _) => 2
    case Slice(_) => 3
    case Unrecognised(_) => 4
  }

  /** An operation of kind `o` is in `ops`. */
  predicate HasKind(ops: seq<Operation>, rank: nat) {
    exists i | 0 <= i < |ops| :: Rank(ops[i]) == rank
  }

  /** `Present(o)` holds an operation of one rank, or nothing. */
  lemma PresentRank(o: Option<Operation>, rank: nat)
    requires o.Some? ==> Rank(o.value) == rank
    ensures forall i | 0 <= i < |Present(o)| :: Rank(Present(o)[i]) == rank
    ensures forall r :: HasKind(Present(o), r) <==> o.Some? && r == rank
  {
    if o.Some? {
      assert Rank(Present(o)[0]) == rank;
    }
  }

  /** Appending a list of higher-ranked operations keeps the ranks strictly increasing. */
  lemma AppendRanked(a: seq<Operation>, b: seq<Operation>, rank: nat)
    requires forall i, j | 0 <= i < j < |a| :: Rank(a[i]) < Rank(a[j])
    requires forall i | 0 <= i < |a| :: Rank(a[i]) < rank
    requires |b| <= 1 && forall i | 0 <= i < |b| :: Rank(b[i]) == rank
    ensures forall i, j | 0 <= i < j < |a + b| :: Rank((a + b)[i]) < Rank((a + b)[j])
    ensures forall i | 0 <= i < |a + b| :: Rank((a + b)[i]) <= rank
  {
  }

  /** A kind is in `a + b` exactly when it is in `a` or in `b`. */
  lemma HasKindAppend(a: seq<Operation>, b: seq<Operation>, rank: nat)
    ensures HasKind(a + b, rank) <==> HasKind(a, rank) || HasKind(b, rank)
  {
    if HasKind(a + b, rank) {
      var i :| 0 <= i < |a + b| && Rank((a + b)[i]) == rank;
      if i < |a| {
        assert Rank(a[i]) == rank;
      } else {
        assert Rank(b[i - |a|]) == rank;
      }
    }
    if HasKind(a, rank) {
      var i :| 0 <= i < |a| && Rank(a[i]) == rank;
      assert Rank((a + b)[i]) == rank;
    }
    if HasKind(b, rank) {
      var i :| 0 <= i < |b| && Rank(b[i]) == rank;
      assert Rank((a + b)[|a| + i]) == rank;
    }
  }

  /** Four optional operations of ranks 0 to 3, listed in that order, are strictly ranked. */
  lemma FourRanked(p: Option<Operation>, t: Option<Operation>, f: Option<Operation>, c: Option<Operation>)
    requires p.Some? ==> Rank(p.value) == 0
    requires t.Some? ==> Rank(t.value) == 1
    requires f.Some? ==> Rank(f.value) == 2
    requires c.Some? ==> Rank(c.value) == 3
    ensures var ops := Present(p) + Present(t) + Present(f) + Present(c);
      |ops| <= 4 &&
      (forall i, j | 0 <= i < j < |ops| :: Rank(ops[i]) < Rank(ops[j])) &&
      (forall i | 0 <= i < |ops| :: !ops[i].Unrecognised?)
  {
    PresentRank(p, 0);
    PresentRank(t, 1);
    PresentRank(f, 2);
    PresentRank(c, 3);
    AppendRanked(Present(p), Present(t), 1);
    AppendRanked(Present(p) + Present(t), Present(f), 2);
    AppendRanked(Present(p) + Present(t) + Present(f), Present(c), 3);
    var ops := Present(p) + Present(t) + Present(f) + Present(c);
    forall i | 0 <= i < |ops|
      ensures !ops[i].Unrecognised?
    {
      assert Rank(ops[i]) <= 3;
    }
  }

  /** In the same list, each rank is there exactly when its option is. */
  lemma FourKinds(p: Option<Operation>, t: Option<Operation>, f: Option<Operation>, c: Option<Operation>)
    requires p.Some? ==> Rank(p.value) == 0
    requires t.Some? ==> Rank(t.value) == 1
    requires f.Some? ==> Rank(f.value) == 2
    requires c.Some? ==> Rank(c.value) == 3
    ensures var ops := Present(p) + Present(t) + Present(f) + Present(c);
      (HasKind(ops, 0) <==> p.Some?) && (HasKind(ops, 1) <==> t.Some?) &&
      (HasKind(ops, 2) <==> f.Some?) && (HasKind(ops, 3) <==> c.Some?) &&
      !HasKind(ops, 4)
  {
    var ops := Present(p) + Present(t) + Present(f) + Present(c);
    forall r | 0 <= r <= 4
      ensures HasKind(ops, r) <==> HasKind(Present(p), r) || HasKind(Present(t), r) || HasKind(Present(f), r) || HasKind(Present(c), r)
    {
      HasKindAppend(Present(p), Present(t), r);
      HasKindAppend(Present(p) + Present(t), Present(f), r);
      HasKindAppend(Present(p) + Present(t) + Present(f), Present(c), r);
    }
    PresentRank(p, 0);
    PresentRank(t, 1);
    PresentRank(f, 2);
    PresentRank(c, 3);
  }

  /** Each extractor yields its own kind of operation, exactly when its pattern matches. */
  lemma PitchKind(s: string)
    ensures PitchOperation(s).Some? <==> Search(PitchAt, s).Some?
    ensures PitchOperation(s).Some? ==> Rank(PitchOperation(s).value) == 0
  {
  }

  lemma StretchKind(s: string)
    requires StretchOperation(s).Success?
    ensures StretchOperation(s).value.Some? <==> Search(StretchAt, s).Some?
    ensures StretchOperation(s).value.Some? ==> Rank(StretchOperation(s).value.value) == 1
  {
  }

  lemma FilterKind(s: string)
    ensures FilterOperation(s).Some? <==> Search(FilterAt, s).Some?
    ensures FilterOperation(s).Some? ==> Rank(FilterOperation(s).value) == 2
  {
  }

  lemma SliceKind(s: string)
    ensures SliceOperation(s).Some? <==> Search(SliceAt, s).Some?
    ensures SliceOperation(s).Some? ==> Rank(SliceOperation(s).value) == 3
  {
  }

  /**
   * The operations come in the fixed order pitch, stretch, filter, slice,
   * at most one of each, whatever order the text mentions them in.
   */
  lemma OperationsInFixedOrder(s: string)
    requires SampleOperations(s).Success?
    ensures var ops := SampleOperations(s).value;
      |ops| <= 4 &&
      (forall i, j | 0 <= i < j < |ops| :: Rank(ops[i]) < Rank(ops[j])) &&
      (forall i | 0 <= i < |ops| :: !ops[i].Unrecognised?)
  {
    PitchKind(s);
    StretchKind(s);
    FilterKind(s);
    SliceKind(s);
    FourRanked(PitchOperation(s), StretchOperation(s).value, FilterOperation(s), SliceOperation(s));
  }

  /** Each kind of operation is there exactly when its pattern matches; no other kind ever is. */
  lemma OperationKinds(s: string)
    requires SampleOperations(s).Success?
    ensures var ops := SampleOperations(s).value;
      (HasKind(ops, 0) <==> Search(PitchAt, s).Some?) &&
      (HasKind(ops, 1) <==> Search(StretchAt, s).Some?) &&
      (HasKind(ops, 2) <==> Search(FilterAt, s).Some?) &&
      (HasKind(ops, 3) <==> Search(SliceAt, s).Some?) &&
      !HasKind(ops, 4)
  {
    PitchKind(s);
    StretchKind(s);
    FilterKind(s);
    SliceKind(s);
    FourKinds(PitchOperation(s), StretchOperation(s).value, FilterOperation(s), SliceOperation(s));
  }

  /**
   * A `sample_path` that is found ends in an audio extension, has at least
   * one character before it and holds no line break; the match that gave it
   * starts with `take`, `load`, `use` or `get` and white space.
   */
  lemma SamplePathShape(s: string)
    requires SamplePath(s).Some?
    ensures AudioFile(SamplePath(s).value)
    ensures forall k | 0 <= k < |SamplePath(s).value| :: SamplePath(s).value[k] != '\n'
    ensures Search(SampleAt, s).Some?
    ensures var f := Search(SampleAt, s).value; var w := SampleWordLength(s, f.start);
      w > 0 && f.start + w < f.m.g1.start <= |s| && Blank(s, f.start + w, f.m.g1.start)
  {
    var f := Search(SampleAt, s).value;
    assert SampleAt(s, f.start) == Some(f.m);
    PathText(s, f.m.g1);
  }

  /**
   * A keyword at `i`, white space up to `p`, then from `p` a run without
   * line breaks up to an audio extension at `q`: a `sample_path` is found.
   */
  lemma SamplePathFound(s: string, i: nat, p: nat, q: nat)
    requires SampleWordLength(s, i) > 0
    requires i + SampleWordLength(s, i) < p < q <= |s|
    requires Blank(s, i + SampleWordLength(s, i), p) && NoBreakIn(s, p, q) && ExtensionLength(s, q) > 0
    ensures SamplePath(s).Some?
  {
    SampleAtReaches(s, i, p, q);
    SearchLeftmost(SampleAt, s);
  }

  /**
   * The insert position: the `insert` pattern decides unless it finds no bar
   * or bar 0; only then does the measure/bar fallback apply, and only the
   * fallback reads the beat/count pattern.
   */
  lemma InsertPositionRules(s: string)
    ensures InsertPlacement(s).bar.None? <==> Search(InsertAt, s).None? && Search(MeasureAt, s).None?
    ensures !NoBar(InsertMatchPlacement(s)) ==> InsertPlacement(s) == InsertMatchPlacement(s)
    ensures InsertPlacement(s) != InsertMatchPlacement(s) ==> NoBar(InsertMatchPlacement(s)) && MeasureNumber(s).Some?
    ensures InsertPlacement(s).beat != InsertMatchPlacement(s).beat ==> MeasureNumber(s).Some? && BeatNumber(s).Some?
    ensures InsertPlacement(s).beat != 1 ==>
      (Search(InsertAt, s).Some? && Search(InsertAt, s).value.m.g2.Some?) || BeatNumber(s).Some?
  {
  }

  /** A genre word inside the beat description is a genre word of the whole text. */
  lemma DescriptionGenreInText(s: string, sp: Span, g: string)
    requires SpanIn(sp, s) && PlainGenre(g)
    ensures Contains(Group(s, sp), g) ==> Search(GenreAt, s).Some?
  {
    if Contains(Group(s, sp), g) {
      ContainsInSlice(s, sp.start, sp.end, g);
      GenreWordFound(s, g);
    }
  }

  /**
   * The "create a X beat" fallback can only find genres the genre search
   * already found, so the genre is the first vocabulary match with spaces
   * turned into `_`, and `trap` when there is none.
   */
  lemma GenreRule(s: string)
    ensures GenreField(s) == match Search(GenreAt, s)
                             case Some(f) => ReplaceChar(Group(s, f.m.g1), ' ', '_')
                             case None => "trap"
  {
    if Search(GenreAt, s).None? && Contains(s, "beat") && Search(CreateAt, s).Some? {
      var sp := Search(CreateAt, s).value.m.g1;
      forall k | 0 <= k < |FallbackGenres|
        ensures !Contains(Group(s, sp), FallbackGenres[k])
      {
        DescriptionGenreInText(s, sp, FallbackGenres[k]);
      }
      assert FallbackGenreFrom(Group(s, sp), 0).None?;
    }
  }

  /** A slice of a text without upper-case letters has none either. */
  lemma NoUpperSlice(s: string, i: nat, j: nat)
    requires NoUpper(s) && i <= j <= |s|
    ensures NoUpper(s[i..j])
  {
    forall k | 0 <= k < j - i
      ensures !('A' <= s[i..j][k] <= 'Z')
    {
      assert s[i..j][k] == s[i + k];
    }
  }

  /** After `lower()` and `strip()` no upper-case letter is left. */
  lemma NormalisedLowercase(command: string)
    ensures NoUpper(Normalise(command))
  {
    var l := Lower(command);
    var a := StripStart(l);
    NoUpperSlice(l, |l| - |a|, |l|);
    assert a == l[|l| - |a|..|l|];
    var b := StripEnd(a);
    NoUpperSlice(a, 0, |b|);
    assert b == a[0..|b|];
  }

  /**
   * The key is always `C`: the key pattern wants an upper-case letter and
   * is searched in the lowercased text.
   */
  lemma KeyAlwaysC(command: string)
    ensures Parse(command).Success? && Parse(command).value.GenerateBeat? ==> Parse(command).value.key == "C"
  {
    NormalisedLowercase(command);
    KeyNeedsUppercase(Normalise(command));
  }

  /** `include_808` is set exactly when `with`, white space and `808` occur in a row. */
  lemma Include808Rule(s: string)
    ensures GenerateCommand(s).include808 <==> With808Text(s)
  {
    With808Found(s);
  }

  /** `bpm` stays `None` exactly when no digit run followed by `bpm` occurs. */
  lemma BpmRule(s: string)
    ensures GenerateCommand(s).bpm.None? <==> !BpmText(s)
  {
    if BpmText(s) {
      BpmTextFound(s);
    }
    if Search(BpmAt, s).Some? {
      BpmFoundText(s);
    }
  }
}
