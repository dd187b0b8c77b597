/**
 * Hand-written matchers for the fourteen regular expressions of the command
 * parser's pattern table (src/command_parser.py:17-32), searched the way
 * `re.search` searches: start positions left to right, and at one start the
 * alternatives in the order the backtracking engine tries them.
 *
 * A greedy `\s+` or `\s*` is taken at its longest whenever the element after
 * it cannot begin with white space (a word, a digit, `-`, `.`, `[A-G]`):
 * giving back a space then only leaves a space in front of that element, so
 * every shorter choice fails too.  The two lazy groups `.+?` can begin with a
 * space, so for them the shorter choices of the `\s+` before the group are
 * tried as well, longest first (`SampleAt`, `CreateAt`).
 */
module Scanners {
  import opened Wrappers
  import opened Text

  /** A captured group: the half-open index range `s[start..end]`. */
  datatype Span = Span(start: nat, end: nat)

  predicate SpanIn(sp: Span, s: string) {
    sp.start <= sp.end <= |s|
  }

  /** `match.group(n)` for the group `sp`. */
  function Group(s: string, sp: Span): string
    requires SpanIn(sp, s)
  {
    s[sp.start..sp.end]
  }

  /** The first capturing group, and the second for the patterns that have one. */
  datatype Match = Match(g1: Span, g2: Option<Span>)

  function Or<T>(a: Option<T>, b: Option<T>): Option<T> {
    if a.Some? then a else b
  }

  /** `\s+` at `p`: the index after the run of white space, when the run is not empty. */
  function Gap(s: string, p: nat): (r: Option<nat>)
    ensures r.Some? <==> p < |s| && IsSpace(s[p])
    ensures r.Some? ==> p < r.value <= |s| && (r.value == |s| || !IsSpace(s[r.value]))
  {
    if p < |s| && IsSpace(s[p]) then Some(SpaceEnd(s, p)) else None
  }

  /** `w\s+` at `p`: the index after the white space. */
  function Word(s: string, p: nat, w: string): (r: Option<nat>)
    ensures r.Some? ==> At(s, p, w) && p + |w| < r.value <= |s|
  {
    if At(s, p, w) then Gap(s, p + |w|) else None
  }

  /** `(\d+)` at `p`, greedy. */
  function Digits(s: string, p: nat): (r: Option<Span>)
    ensures r.Some? <==> p < |s| && IsDigit(s[p])
    ensures r.Some? ==> r.value.start == p && SpanIn(r.value, s) && Numeral(Group(s, r.value))
  {
    if p < |s| && IsDigit(s[p]) then Some(Span(p, DigitEnd(s, p))) else None
  }

  /** `(?:w\s+)?(\d+)` at `p`: with the optional word first, without it after. */
  function OptionalWordDigits(s: string, p: nat, w: string): (r: Option<Span>)
    ensures r.Some? ==> SpanIn(r.value, s) && Numeral(Group(s, r.value))
  {
    Or(match Word(s, p, w) case Some(q) => Digits(s, q) case None => None, Digits(s, p))
  }

  /** `(-?\d+)` at `p`. */
  function Signed(s: string, p: nat): (r: Option<Span>)
    ensures r.Some? ==> r.value.start == p && SpanIn(r.value, s) && SignedNumeral(Group(s, r.value))
  {
    if p < |s| && s[p] == '-' && Digits(s, p + 1).Some? then
      var d := Digits(s, p + 1).value;
      assert Group(s, Span(p, d.end))[1..] == Group(s, d);
      Some(Span(p, d.end))
    else Digits(s, p)
  }

  /** `([0-9.]+)` at `p`, greedy. */
  function Decimal(s: string, p: nat): (r: Option<Span>)
    ensures r.Some? ==> SpanIn(r.value, s) && DecimalToken(Group(s, r.value))
  {
    if p < |s| && (IsDigit(s[p]) || s[p] == '.') then Some(Span(p, DecimalEnd(s, p))) else None
  }

  /** The keyword of `'sample_process'` at `i`: 4 for `take` or `load`, 3 for `use` or `get`, 0 for none. */
  function SampleWordLength(s: string, i: nat): (n: nat)
    ensures n == 0 || n == 3 || n == 4
    ensures n == 4 <==> At(s, i, "take") || At(s, i, "load")
    ensures n == 3 <==> At(s, i, "use") || At(s, i, "get")
  {
    if At(s, i, "take") || At(s, i, "load") then
      assert s[i] == s[i..i + 4][0];
      4
    else if At(s, i, "use") || At(s, i, "get") then 3
    else 0
  }

  /** Each of the four audio extensions, dot included. */
  predicate AudioExtension(x: string) {
    x == ".wav" || x == ".mp3" || x == ".flac" || x == ".aiff"
  }

  /** No line break among `s[a..b]`: what `.` may consume. */
  predicate NoBreakIn(s: string, a: nat, b: nat)
    requires a <= b <= |s|
  {
    forall j :: a <= j < b ==> s[j] != '\n'
  }

  /** `\.(?:wav|mp3|flac|aiff)` at `q`: the length of the extension, or 0 when there is none. */
  function ExtensionLength(s: string, q: nat): (n: nat)
    ensures n == 0 || n == 4 || n == 5
    ensures n > 0 <==> (q < |s| && s[q] == '.' &&
      (At(s, q + 1, "wav") || At(s, q + 1, "mp3") || At(s, q + 1, "flac") || At(s, q + 1, "aiff")))
    ensures n > 0 ==> q + n <= |s| && AudioExtension(s[q..q + n]) && NoBreakIn(s, q, q + n)
  {
    if q < |s| && s[q] == '.' then
      if At(s, q + 1, "wav") || At(s, q + 1, "mp3") then
        assert s[q..q + 4] == [s[q]] + s[q + 1..q + 4];
        ExtensionChars(s, q, 4);
        4
      else if At(s, q + 1, "flac") || At(s, q + 1, "aiff") then
        assert s[q..q + 5] == [s[q]] + s[q + 1..q + 5];
        ExtensionChars(s, q, 5);
        5
      else 0
    else 0
  }

  /** An audio extension holds no line break. */
  lemma ExtensionChars(s: string, q: nat, n: nat)
    requires q + n <= |s| && AudioExtension(s[q..q + n])
    ensures NoBreakIn(s, q, q + n)
  {
    forall j | q <= j < q + n
      ensures s[j] != '\n'
    {
      assert s[j] == s[q..q + n][j - q];
    }
  }

  /** `s[..e]` ends in an audio extension that starts at `q` or later. */
  predicate ExtensionBefore(s: string, q: nat, e: nat) {
    (q + 4 <= e && ExtensionLength(s, e - 4) == 4) || (q + 5 <= e && ExtensionLength(s, e - 5) == 5)
  }

  /** The group of `'sample_process'`: at least one character, no line break, an audio extension at its end. */
  predicate PathSpan(s: string, g: Span) {
    SpanIn(g, s) && NoBreakIn(s, g.start, g.end) && ExtensionBefore(s, g.start + 1, g.end)
  }

  /** A file name that ends in one of the four audio extensions, with at least one character before it. */
  predicate AudioFile(p: string) {
    (|p| >= 5 && AudioExtension(p[|p| - 4..])) || (|p| >= 6 && AudioExtension(p[|p| - 5..]))
  }

  /** The text of a path group is an audio file name without line breaks. */
  lemma PathText(s: string, g: Span)
    requires PathSpan(s, g)
    ensures AudioFile(Group(s, g))
    ensures forall k | 0 <= k < |Group(s, g)| :: Group(s, g)[k] != '\n'
  {
    PathEnd(s, g);
    forall k | 0 <= k < |Group(s, g)|
      ensures Group(s, g)[k] != '\n'
    {
      assert Group(s, g)[k] == s[g.start + k];
    }
  }

  lemma PathEnd(s: string, g: Span)
    requires PathSpan(s, g)
    ensures AudioFile(Group(s, g))
  {
    var path, e := Group(s, g), g.end;
    if g.start + 5 <= e && ExtensionLength(s, e - 4) == 4 {
      assert AudioExtension(s[e - 4..e]);
      assert path[|path| - 4..] == s[e - 4..e];
    } else {
      assert g.start + 6 <= e && ExtensionLength(s, e - 5) == 5;
      assert AudioExtension(s[e - 5..e]);
      assert path[|path| - 5..] == s[e - 5..e];
    }
  }

  /** `'sample_process'`: `(?:take|load|use|get)\s+(.+?\.(?:wav|mp3|flac|aiff))` at `i`. */
  function SampleAt(s: string, i: nat): (r: Option<Match>)
    ensures r.Some? ==> PathSpan(s, r.value.g1) && r.value.g2.None?
    ensures r.Some? ==> var w := SampleWordLength(s, i);
      w > 0 && i + w < r.value.g1.start && Blank(s, i + w, r.value.g1.start)
  {
    var w := SampleWordLength(s, i);
    if w == 0 then None
    else match Gap(s, i + w)
      case None => None
      case Some(k) =>
        assert k == SpaceEnd(s, i + w);
        match LazyDown(Extension, s, k, i + w + 1)
        case Some(g) => Some(Match(g, None))
        case None => None
  }

  /**
   * A keyword at `i`, white space up to `p`, and from `p` a run without line
   * breaks up to an extension at `q`: the pattern matches at `i`.
   */
  lemma SampleAtReaches(s: string, i: nat, p: nat, q: nat)
    requires SampleWordLength(s, i) > 0
    requires i + SampleWordLength(s, i) < p < q <= |s|
    requires Blank(s, i + SampleWordLength(s, i), p) && NoBreakIn(s, p, q) && ExtensionLength(s, q) > 0
    ensures SampleAt(s, i).Some?
  {
    var w := SampleWordLength(s, i);
    var k := SpaceEnd(s, i + w);
    assert Gap(s, i + w) == Some(k);
    assert p <= k;
    LazyEndReaches(Extension, s, p + 1, q);
    assert LazyFrom(Extension, s, p).Some?;
    LazyDownReaches(Extension, s, k, i + w + 1, p);
  }

  /** What may end one of the two lazy groups `.+?`. */
  datatype Tail = Extension | BeatWord

  /**
   * The part after a lazy group, tried at `q`: `\.(?:wav|mp3|flac|aiff)` for
   * the sample path (the group ends after the extension), or
   * `\s+(?:style\s+)?beat` for the beat description (the group ends at `q`).
   * The result is where the group ends.
   */
  function TailAt(t: Tail, s: string, q: nat): (r: Option<nat>)
    ensures r.Some? ==> q <= r.value <= |s| && NoBreakIn(s, q, r.value)
    ensures t == Extension ==> (r.Some? <==> ExtensionLength(s, q) > 0)
    ensures t == Extension && r.Some? ==> r.value == q + ExtensionLength(s, q)
    ensures t == BeatWord && r.Some? ==> r.value == q
  {
    match t
    case Extension =>
      var n := ExtensionLength(s, q);
      if n > 0 then Some(q + n) else None
    case BeatWord =>
      if q < |s| && IsSpace(s[q]) then
        var r := SpaceEnd(s, q);
        if At(s, r, "beat") then Some(q)
        else match Word(s, r, "style")
          case Some(b) => if At(s, b, "beat") then Some(q) else None
          case None => None
      else None
  }

  /**
   * The lazy group, having consumed `s[p..q]`: try the tail at `q`, and
   * otherwise consume one more character, which `.` allows unless it is a
   * line break.
   */
  function LazyEnd(t: Tail, s: string, q: nat): (r: Option<nat>)
    requires q <= |s|
    ensures r.Some? ==> q <= r.value <= |s| && NoBreakIn(s, q, r.value)
    ensures t == Extension && r.Some? ==> ExtensionBefore(s, q, r.value)
    decreases |s| - q
  {
    if TailAt(t, s, q).Some? then TailAt(t, s, q)
    else if q < |s| && s[q] != '\n' then LazyEnd(t, s, q + 1)
    else None
  }

  /** A run without line breaks from `q0` up to a place where the tail matches: the lazy group ends. */
  lemma {:induction false} LazyEndReaches(t: Tail, s: string, q0: nat, q: nat)
    requires q0 <= q <= |s| && NoBreakIn(s, q0, q) && TailAt(t, s, q).Some?
    ensures LazyEnd(t, s, q0).Some?
    decreases q - q0
  {
    if TailAt(t, s, q0).None? {
      LazyEndReaches(t, s, q0 + 1, q);
    }
  }

  /** The lazy group `.+?` starting at `p` (at least one character). */
  function LazyFrom(t: Tail, s: string, p: nat): (r: Option<Span>)
    ensures r.Some? ==> r.value.start == p < r.value.end <= |s| && NoBreakIn(s, p, r.value.end)
    ensures t == Extension && r.Some? ==> PathSpan(s, r.value)
  {
    if p < |s| && s[p] != '\n' then
      match LazyEnd(t, s, p + 1)
      case Some(e) => Some(Span(p, e))
      case None => None
    else None
  }

  /** The lazy group starting at `hi`, `hi - 1`, ..., `lo`: the white space before it given back one by one. */
  function LazyDown(t: Tail, s: string, hi: nat, lo: nat): (r: Option<Span>)
    ensures r.Some? ==> lo <= r.value.start <= hi && SpanIn(r.value, s)
    ensures t == Extension && r.Some? ==> PathSpan(s, r.value)
    decreases hi
  {
    if hi < lo then None
    else Or(LazyFrom(t, s, hi), if hi == 0 then None else LazyDown(t, s, hi - 1, lo))
  }

  /** A lazy group that can start at some `p` between `lo` and `hi` is found by the search down from `hi`. */
  lemma {:induction false} LazyDownReaches(t: Tail, s: string, hi: nat, lo: nat, p: nat)
    requires lo <= p <= hi && LazyFrom(t, s, p).Some?
    ensures LazyDown(t, s, hi, lo).Some?
    decreases hi
  {
    if p < hi {
      LazyDownReaches(t, s, hi - 1, lo, p);
    }
  }

  /** `'pitch_shift'`: `pitch\s+(?:down|up)?\s*(-?\d+)\s*(?:semitones?|st)?` at `i`. */
  function PitchAt(s: string, i: nat): (r: Option<Match>)
    ensures r.Some? ==> SpanIn(r.value.g1, s) && SignedNumeral(Group(s, r.value.g1))
  {
    match Word(s, i, "pitch")
    case None => None
    case Some(k) =>
      var direction := if At(s, k, "down") then Some(k + 4) else if At(s, k, "up") then Some(k + 2) else None;
      var afterDirection := match direction case Some(d) => Signed(s, SpaceEnd(s, d)) case None => None;
      match Or(afterDirection, Signed(s, k))
      case Some(g) => Some(Match(g, None))
      case None => None
  }

  /** `'time_stretch'`: `stretch\s+(?:by\s+)?([0-9.]+)` at `i`. */
  function StretchAt(s: string, i: nat): (r: Option<Match>)
    ensures r.Some? ==> SpanIn(r.value.g1, s) && DecimalToken(Group(s, r.value.g1))
  {
    match Word(s, i, "stretch")
    case None => None
    case Some(k) =>
      match Or(match Word(s, k, "by") case Some(b) => Decimal(s, b) case None => None, Decimal(s, k))
      case Some(g) => Some(Match(g, None))
      case None => None
  }

  /** The filter names the `'filter'` pattern accepts. */
  predicate FilterName(w: string) {
    w == "lowpass" || w == "highpass" || w == "bandpass"
  }

  /** The length of the filter name at `i`, or 0 when there is none. */
  function FilterNameLength(s: string, i: nat): (n: nat)
    ensures n > 0 ==> i + n <= |s| && FilterName(s[i..i + n])
    ensures n == 0 <==> !At(s, i, "lowpass") && !At(s, i, "highpass") && !At(s, i, "bandpass")
  {
    if At(s, i, "lowpass") then 7 else if At(s, i, "highpass") || At(s, i, "bandpass") then 8 else 0
  }

  /** `'filter'`: `(lowpass|highpass|bandpass)\s+(?:filter\s+)?(?:at\s+)?(\d+)\s*(?:hz)?` at `i`. */
  function FilterAt(s: string, i: nat): (r: Option<Match>)
    ensures r.Some? ==> SpanIn(r.value.g1, s) && FilterName(Group(s, r.value.g1))
    ensures r.Some? ==> r.value.g2.Some? && SpanIn(r.value.g2.value, s) && Numeral(Group(s, r.value.g2.value))
  {
    var n := FilterNameLength(s, i);
    if n == 0 then None
    else match Gap(s, i + n)
      case None => None
      case Some(k) =>
        var cutoff := Or(match Word(s, k, "filter") case Some(f) => OptionalWordDigits(s, f, "at") case None => None,
                         OptionalWordDigits(s, k, "at"));
        match cutoff
        case Some(c) => Some(Match(Span(i, i + n), Some(c)))
        case None => None
  }

  /** `'slice'`: `(?:slice|chop)\s+(?:into\s+)?(\d+)\s*(?:slices?|parts?)?` at `i`. */
  function SliceAt(s: string, i: nat): (r: Option<Match>)
    ensures r.Some? ==> SpanIn(r.value.g1, s) && Numeral(Group(s, r.value.g1))
  {
    var n := if At(s, i, "slice") then 5 else if At(s, i, "chop") then 4 else 0;
    if n == 0 then None
    else match Gap(s, i + n)
      case None => None
      case Some(k) =>
        match OptionalWordDigits(s, k, "into")
        case Some(g) => Some(Match(g, None))
        case None => None
  }

  /** `'insert_position'`: `insert\s+(?:at\s+)?(?:bar\s+)?(\d+)(?:\s+beat\s+)?(\d+)?` at `i`. */
  function InsertAt(s: string, i: nat): (r: Option<Match>)
    ensures r.Some? ==> SpanIn(r.value.g1, s) && Numeral(Group(s, r.value.g1))
    ensures r.Some? && r.value.g2.Some? ==> SpanIn(r.value.g2.value, s) && Numeral(Group(s, r.value.g2.value))
  {
    match Word(s, i, "insert")
    case None => None
    case Some(k) =>
      var bar := Or(match Word(s, k, "at") case Some(a) => OptionalWordDigits(s, a, "bar") case None => None,
                    OptionalWordDigits(s, k, "bar"));
      match bar
      case None => None
      case Some(b) =>
        // `(?:\s+beat\s+)?(\d+)?`: without the optional words the second group
        // would start right after a digit run, where no digit follows.
        var beat := match Gap(s, b.end)
          case Some(g) => (match Word(s, g, "beat") case Some(q) => Digits(s, q) case None => None)
          case None => None;
        Some(Match(b, beat))
  }

  /** `(?:measure|bar)\s+(\d+)` at `p`. */
  function MeasureCore(s: string, p: nat): (r: Option<Span>)
    ensures r.Some? ==> SpanIn(r.value, s) && Numeral(Group(s, r.value))
  {
    var n := if At(s, p, "measure") then 7 else if At(s, p, "bar") then 3 else 0;
    if n == 0 then None
    else match Gap(s, p + n)
      case Some(k) => Digits(s, k)
      case None => None
  }

  /** `(?:end\s+of\s+)?(?:measure|bar)\s+(\d+)` at `p`. */
  function EndOfMeasure(s: string, p: nat): (r: Option<Span>)
    ensures r.Some? ==> SpanIn(r.value, s) && Numeral(Group(s, r.value))
  {
    var viaEnd := match Word(s, p, "end")
      case Some(e) => (match Word(s, e, "of") case Some(o) => MeasureCore(s, o) case None => None)
      case None => None;
    Or(viaEnd, MeasureCore(s, p))
  }

  /** `(?:the\s+)?(?:end\s+of\s+)?(?:measure|bar)\s+(\d+)` at `p`. */
  function TheMeasure(s: string, p: nat): (r: Option<Span>)
    ensures r.Some? ==> SpanIn(r.value, s) && Numeral(Group(s, r.value))
  {
    Or(match Word(s, p, "the") case Some(t) => EndOfMeasure(s, t) case None => None, EndOfMeasure(s, p))
  }

  /** `'measure_position'`: `(?:at\s+)?(?:the\s+)?(?:end\s+of\s+)?(?:measure|bar)\s+(\d+)` at `i`. */
  function MeasureAt(s: string, i: nat): (r: Option<Match>)
    ensures r.Some? ==> SpanIn(r.value.g1, s) && Numeral(Group(s, r.value.g1))
  {
    match Or(match Word(s, i, "at") case Some(a) => TheMeasure(s, a) case None => None, TheMeasure(s, i))
    case Some(g) => Some(Match(g, None))
    case None => None
  }

  /** `'beat_position'`: `(?:beat|count)\s+(\d+)` at `i`. */
  function BeatAt(s: string, i: nat): (r: Option<Match>)
    ensures r.Some? ==> SpanIn(r.value.g1, s) && Numeral(Group(s, r.value.g1))
  {
    var n := if At(s, i, "beat") then 4 else if At(s, i, "count") then 5 else 0;
    if n == 0 then None
    else match Gap(s, i + n)
      case None => None
      case Some(k) =>
        match Digits(s, k)
        case Some(g) => Some(Match(g, None))
        case None => None
  }

  /** `'create_beat'`: `create\s+(?:a\s+)?(.+?)\s+(?:style\s+)?beat` at `i`. */
  function CreateAt(s: string, i: nat): (r: Option<Match>)
    ensures r.Some? ==> SpanIn(r.value.g1, s)
  {
    match Word(s, i, "create")
    case None => None
    case Some(k) =>
      // Only the longest first `\s+` leaves `a` in front of the group; the
      // shorter ones leave a space there.
      var withArticle := if At(s, k, "a") then
          match Gap(s, k + 1) case Some(a) => LazyDown(BeatWord, s, a, k + 2) case None => None
        else None;
      match Or(withArticle, LazyDown(BeatWord, s, k, i + 7))
      case Some(g) => Some(Match(g, None))
      case None => None
  }

  /** The words the `'genre'` pattern accepts, other than `boom\s*bap`. */
  predicate PlainGenre(w: string) {
    w == "memphis" || w == "trap" || w == "lofi" || w == "drill"
  }

  /** `'genre'`: `(memphis|trap|lofi|boom\s*bap|drill)` at `i`. */
  function GenreAt(s: string, i: nat): (r: Option<Match>)
    ensures r.Some? ==> SpanIn(r.value.g1, s) && r.value.g1.start == i < r.value.g1.end
  {
    if At(s, i, "memphis") then Some(Match(Span(i, i + 7), None))
    else if At(s, i, "trap") || At(s, i, "lofi") then Some(Match(Span(i, i + 4), None))
    else if At(s, i, "boom") && At(s, SpaceEnd(s, i + 4), "bap") then Some(Match(Span(i, SpaceEnd(s, i + 4) + 3), None))
    else if At(s, i, "drill") then Some(Match(Span(i, i + 5), None))
    else None
  }

  /** `'with_808'`: `with\s+808s?` at `i`; the pattern has no group, `g1` is the whole match. */
  function With808At(s: string, i: nat): (r: Option<Match>)
    ensures r.Some? ==> SpanIn(r.value.g1, s)
  {
    match Word(s, i, "with")
    case None => None
    case Some(k) =>
      if At(s, k, "808") then Some(Match(Span(i, if At(s, k + 3, "s") then k + 4 else k + 3), None))
      else None
  }

  /** `(\d+)\s*bpm` at `p`. */
  function BpmCore(s: string, p: nat): (r: Option<Span>)
    ensures r.Some? ==> SpanIn(r.value, s) && Numeral(Group(s, r.value))
  {
    match Digits(s, p)
    case Some(d) => if At(s, SpaceEnd(s, d.end), "bpm") then Some(d) else None
    case None => None
  }

  /** `'bpm'`: `(?:at\s+)?(\d+)\s*bpm` at `i`. */
  function BpmAt(s: string, i: nat): (r: Option<Match>)
    ensures r.Some? ==> SpanIn(r.value.g1, s) && Numeral(Group(s, r.value.g1))
  {
    match Or(match Word(s, i, "at") case Some(a) => BpmCore(s, a) case None => None, BpmCore(s, i))
    case Some(g) => Some(Match(g, None))
    case None => None
  }

  /** `([A-G][#b]?m?)` at `p`. */
  function KeyCore(s: string, p: nat): (r: Option<Span>)
    ensures r.Some? <==> p < |s| && 'A' <= s[p] <= 'G'
    ensures r.Some? ==> r.value.start == p < r.value.end <= |s|
  {
    if p < |s| && 'A' <= s[p] <= 'G' then
      var j := if p + 1 < |s| && (s[p + 1] == '#' || s[p + 1] == 'b') then p + 2 else p + 1;
      Some(Span(p, if j < |s| && s[j] == 'm' then j + 1 else j))
    else None
  }

  /** `(?:key\s+of\s+)?([A-G][#b]?m?)` at `p`. */
  function KeyOf(s: string, p: nat): (r: Option<Span>)
    ensures r.Some? ==> SpanIn(r.value, s) && r.value.start < |s| && 'A' <= s[r.value.start] <= 'G'
  {
    var viaKeyOf := match Word(s, p, "key")
      case Some(k) => (match Word(s, k, "of") case Some(o) => KeyCore(s, o) case None => None)
      case None => None;
    Or(viaKeyOf, KeyCore(s, p))
  }

  /** `'key'`: `(?:in\s+)?(?:key\s+of\s+)?([A-G][#b]?m?)` at `i`. */
  function KeyAt(s: string, i: nat): (r: Option<Match>)
    ensures r.Some? ==> SpanIn(r.value.g1, s) && r.value.g1.start < |s| && 'A' <= s[r.value.g1.start] <= 'G'
  {
    match Or(match Word(s, i, "in") case Some(a) => KeyOf(s, a) case None => None, KeyOf(s, i))
    case Some(g) => Some(Match(g, None))
    case None => None
  }

  /** `'bars'`: `(\d+)\s+bars?` at `i`. */
  function BarsAt(s: string, i: nat): (r: Option<Match>)
    ensures r.Some? ==> SpanIn(r.value.g1, s) && Numeral(Group(s, r.value.g1))
  {
    match Digits(s, i)
    case None => None
    case Some(d) =>
      match Gap(s, d.end)
      case Some(b) => if At(s, b, "bar") then Some(Match(d, None)) else None
      case None => None
  }

  /** A match found by the search, with the position where it starts (`match.start()`). */
  datatype Found = Found(start: nat, m: Match)

  /**
   * `re.search` from position `i` for the pattern whose matcher at one start
   * is `at`: the leftmost start at which it matches.
   */
  function SearchFrom(at: (string, nat) -> Option<Match>, s: string, i: nat): (r: Option<Found>)
    requires i <= |s|
    ensures r.Some? ==> i <= r.value.start <= |s| && at(s, r.value.start) == Some(r.value.m)
    decreases |s| - i
  {
    var here := at(s, i);
    if here.Some? then Some(Found(i, here.value))
    else if i == |s| then None
    else SearchFrom(at, s, i + 1)
  }

  /** The search from `i` passes over no start where the pattern matches. */
  lemma {:induction false} SearchFromLeftmost(at: (string, nat) -> Option<Match>, s: string, i: nat)
    requires i <= |s|
    ensures SearchFrom(at, s, i).Some? ==> forall k :: i <= k < SearchFrom(at, s, i).value.start ==> at(s, k).None?
    ensures SearchFrom(at, s, i).None? ==> forall k :: i <= k <= |s| ==> at(s, k).None?
    decreases |s| - i
  {
    if at(s, i).None? && i < |s| {
      SearchFromLeftmost(at, s, i + 1);
    }
  }

  /** `re.search(pattern, s)`: the leftmost match, or `None`. */
  function Search(at: (string, nat) -> Option<Match>, s: string): (r: Option<Found>)
    ensures r.Some? ==> r.value.start <= |s| && at(s, r.value.start) == Some(r.value.m)
  {
    SearchFrom(at, s, 0)
  }

  /** The search finds the leftmost start where the pattern matches, and finds nothing only when it matches nowhere. */
  lemma SearchLeftmost(at: (string, nat) -> Option<Match>, s: string)
    ensures Search(at, s).Some? ==> forall k :: 0 <= k < Search(at, s).value.start ==> at(s, k).None?
    ensures Search(at, s).None? ==> forall k :: 0 <= k <= |s| ==> at(s, k).None?
  {
    SearchFromLeftmost(at, s, 0);
  }

  /** The characters `s[a..b]` are all white space. */
  predicate Blank(s: string, a: nat, b: nat)
    requires a <= b <= |s|
  {
    forall j :: a <= j < b ==> IsSpace(s[j])
  }

  /** A white-space run that ends at `b` is the run `SpaceEnd` finds. */
  lemma {:induction false} SpaceEndAt(s: string, a: nat, b: nat)
    requires a <= b <= |s| && Blank(s, a, b) && (b == |s| || !IsSpace(s[b]))
    ensures SpaceEnd(s, a) == b
    decreases b - a
  {
    if a < b {
      SpaceEndAt(s, a + 1, b);
    }
  }

  /** A digit run that ends at `b` is the run `DigitEnd` finds. */
  lemma {:induction false} DigitEndAt(s: string, a: nat, b: nat)
    requires a <= b <= |s| && AllDigits(s[a..b]) && (b == |s| || !IsDigit(s[b]))
    ensures DigitEnd(s, a) == b
    decreases b - a
  {
    if a < b {
      assert IsDigit(s[a..b][0]);
      assert s[a + 1..b] == s[a..b][1..];
      DigitEndAt(s, a + 1, b);
    }
  }

  /** `with\s+808` occurs in `s`, written without the matcher. */
  predicate With808Text(s: string) {
    exists i, k | 0 <= i && i + 4 < k <= |s| :: At(s, i, "with") && Blank(s, i + 4, k) && At(s, k, "808")
  }

  /** The `'with_808'` search succeeds exactly when `with`, white space and `808` occur in a row. */
  lemma With808Found(s: string)
    ensures Search(With808At, s).Some? <==> With808Text(s)
  {
    if Search(With808At, s).Some? {
      With808FoundText(s);
    }
    if With808Text(s) {
      With808TextFound(s);
    }
  }

  lemma With808FoundText(s: string)
    requires Search(With808At, s).Some?
    ensures With808Text(s)
  {
    var i := Search(With808At, s).value.start;
    var k := Word(s, i, "with").value;
    assert At(s, i, "with") && Blank(s, i + 4, k) && At(s, k, "808");
  }

  lemma With808TextFound(s: string)
    requires With808Text(s)
    ensures Search(With808At, s).Some?
  {
    var i, k :| 0 <= i && i + 4 < k <= |s| && At(s, i, "with") && Blank(s, i + 4, k) && At(s, k, "808");
    assert s[k] == "808"[0];
    SpaceEndAt(s, i + 4, k);
    SearchLeftmost(With808At, s);
    assert With808At(s, i).Some?;
  }

  /** `(\d+)\s*bpm` occurs in `s`, written without the matcher: a digit run, optional white space, `bpm`. */
  predicate BpmText(s: string) {
    exists i, j | 0 <= i < j <= |s| :: AllDigits(s[i..j]) && At(s, SpaceEnd(s, j), "bpm")
  }

  /** A match of `(\d+)\s*bpm` at `p` is a digit run followed by `bpm`. */
  lemma BpmCoreText(s: string, p: nat)
    requires BpmCore(s, p).Some?
    ensures BpmText(s)
  {
    var d := BpmCore(s, p).value;
    assert d.start < d.end && AllDigits(s[d.start..d.end]) && At(s, SpaceEnd(s, d.end), "bpm");
  }

  /** A digit run followed by `bpm` is matched by `(\d+)\s*bpm` at its start. */
  lemma BpmCoreAt(s: string, i: nat, j: nat)
    requires i < j <= |s| && AllDigits(s[i..j]) && At(s, SpaceEnd(s, j), "bpm")
    ensures BpmCore(s, i).Some?
  {
    assert IsDigit(s[i..j][0]);
    DigitEndAt(s, i, j);
  }

  /** The `'bpm'` search succeeds only when digits followed by `bpm` occur in `s`. */
  lemma BpmFoundText(s: string)
    requires Search(BpmAt, s).Some?
    ensures BpmText(s)
  {
    var i := Search(BpmAt, s).value.start;
    var a := Word(s, i, "at");
    if a.Some? && BpmCore(s, a.value).Some? {
      BpmCoreText(s, a.value);
    } else {
      BpmCoreText(s, i);
    }
  }

  /** The `'bpm'` search succeeds whenever digits followed by `bpm` occur in `s`. */
  lemma BpmTextFound(s: string)
    requires BpmText(s)
    ensures Search(BpmAt, s).Some?
  {
    var i, j :| 0 <= i < j <= |s| && AllDigits(s[i..j]) && At(s, SpaceEnd(s, j), "bpm");
    BpmCoreAt(s, i, j);
    assert BpmAt(s, i).Some?;
    SearchLeftmost(BpmAt, s);
  }

  /** No upper-case ASCII letter occurs in `s`, as after `str.lower()`. */
  predicate NoUpper(s: string) {
    forall k :: 0 <= k < |s| ==> !('A' <= s[k] <= 'Z')
  }

  /** `(?:key\s+of\s+)?([A-G][#b]?m?)` needs an upper-case letter. */
  lemma KeyOfNone(s: string, p: nat)
    requires NoUpper(s)
    ensures KeyOf(s, p).None?
  {
    var k := Word(s, p, "key");
    if k.Some? {
      var o := Word(s, k.value, "of");
      if o.Some? {
        assert KeyCore(s, o.value).None?;
      }
    }
    assert KeyCore(s, p).None?;
  }

  /** The `'key'` pattern wants an upper-case letter, so it never matches text without one. */
  lemma KeyNeedsUppercase(s: string)
    requires NoUpper(s)
    ensures Search(KeyAt, s).None?
  {
    forall i: nat | i <= |s|
      ensures KeyAt(s, i).None?
    {
      var a := Word(s, i, "in");
      if a.Some? {
        KeyOfNone(s, a.value);
      }
      KeyOfNone(s, i);
    }
    SearchLeftmost(KeyAt, s);
  }

  /** Wherever one of the plain genre words occurs, the `'genre'` search has a match. */
  lemma GenreWordFound(s: string, g: string)
    requires PlainGenre(g) && Contains(s, g)
    ensures Search(GenreAt, s).Some?
  {
    var i :| 0 <= i <= |s| && At(s, i, g);
    assert GenreAt(s, i).Some?;
    SearchLeftmost(GenreAt, s);
  }
}
