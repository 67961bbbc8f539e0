/** The workout description format written back out: a renderer for the
    workouts the format can express, and the proof that loading a rendered
    workout gives the workout back. */
module Format {
  import opened Basics
  import opened Text
  import opened WorkoutModel
  import opened Loader

  // ---------------------------------------------------------------------------
  // Which workouts the text format can express

  /** A time the `MM:SS` token can carry. */
  predicate WritableDuration(d: nat)
  {
    d < 6000
  }

  predicate CanonicalElement(p: WorkoutSetElement)
  {
    match p
    case Excercise(name, Time(d, _)) => '\n' !in name && WritableDuration(d)
    case Excercise(name, Reps(_)) => '\n' !in name
    case Rest(d) => WritableDuration(d)
  }

  /** A section name must not be read back as a set rest, as blank space or
      as part of the count; a section without a name can only be repeated
      once, since `Set xN` reads `xN` as the name. */
  predicate CanonicalSection(s: WorkoutSet)
  {
    && (match s.name
        case None => s.reps == 1
        case Some(n) => |n| > 0 && !IsWhitespace(n[0]) && '\n' !in n && !("rest" <= n))
    && (s.setRest.Some? ==> WritableDuration(s.setRest.value))
    && (forall i :: 0 <= i < |s.parts| ==> CanonicalElement(s.parts[i]))
  }

  predicate Canonical(w: Workout)
  {
    '\n' !in w.name && !EndsWith(w.name, '\r')
    && forall i :: 0 <= i < |w.sections| ==> CanonicalSection(w.sections[i])
  }

  // ---------------------------------------------------------------------------
  // Rendering

  function TwoDigits(n: nat): string
    requires n < 100
  {
    [DigitChar(n / 10), DigitChar(n % 10)]
  }

  /** A duration as `MM:SS`. */
  function DurText(d: nat): (t: string)
    requires WritableDuration(d)
    ensures |t| == 5
  {
    TwoDigits(d / 60) + ":" + TwoDigits(d % 60)
  }

  function HeaderText(s: WorkoutSet): string
  {
    match s.name
    case None => "Set"
    case Some(n) => "Set " + n + " x" + NatToDec(s.reps)
  }

  function AmountText(a: ExcerciseAmout): string
    requires a.Time? ==> WritableDuration(a.duration)
  {
    match a
    case Reps(n) => "x" + NatToDec(n)
    case Time(d, midbeep) => DurText(d) + (if midbeep then "\"" else "")
  }

  function ElementText(p: WorkoutSetElement): string
    requires CanonicalElement(p)
  {
    match p
    case Excercise(name, amount) => "Excercise " + name + " " + AmountText(amount)
    case Rest(d) => "Rest " + DurText(d)
  }

  function SetRestText(d: nat): string
    requires WritableDuration(d)
  {
    "Set rest " + DurText(d)
  }

  function ElementsText(ps: seq<WorkoutSetElement>): (r: seq<string>)
    requires forall i :: 0 <= i < |ps| ==> CanonicalElement(ps[i])
    ensures |r| == |ps| && forall i :: 0 <= i < |ps| ==> r[i] == ElementText(ps[i])
  {
    if ps == [] then [] else [ElementText(ps[0])] + ElementsText(ps[1..])
  }

  /** The number of lines a section takes. */
  function SectionSize(s: WorkoutSet): nat
  {
    1 + |s.parts| + (if s.setRest.Some? then 1 else 0)
  }

  function SectionText(s: WorkoutSet): (r: seq<string>)
    requires CanonicalSection(s)
    ensures |r| == SectionSize(s)
  {
    [HeaderText(s)] + ElementsText(s.parts) + (if s.setRest.Some? then [SetRestText(s.setRest.value)] else [])
  }

  function SectionsText(secs: seq<WorkoutSet>): seq<string>
    requires forall i :: 0 <= i < |secs| ==> CanonicalSection(secs[i])
  {
    if secs == [] then [] else SectionText(secs[0]) + SectionsText(secs[1..])
  }

  function RenderLines(w: Workout): seq<string>
    requires Canonical(w)
  {
    ["Workout " + w.name] + SectionsText(w.sections)
  }

  /** The description text of a workout, one line feed after each line. */
  function Render(w: Workout): string
    requires Canonical(w)
  {
    JoinLines(RenderLines(w))
  }

  // ---------------------------------------------------------------------------
  // Each rendered line reads back as what it renders

  lemma TrimStartKeeps(s: string)
    requires |s| > 0 && !IsWhitespace(s[0])
    ensures TrimStart(s) == s
  {
  }

  lemma TwoDigitsParse(n: nat, max: nat)
    requires n < 100 && 99 <= max
    ensures ParseUnsigned(TwoDigits(n), max) == Some(n)
  {
    var t := TwoDigits(n);
    assert Unsigned(t) == t;
    assert t[..1] == [DigitChar(n / 10)];
    assert t[..1][..0] == [];
    assert DigitsValue(t[..1]) == n / 10;
    assert DigitsValue(t) == 10 * (n / 10) + n % 10;
  }

  /** A rendered duration decodes to itself, whatever follows it. */
  lemma ParseDurText(d: nat, suffix: string)
    requires WritableDuration(d)
    ensures ParseDur(DurText(d) + suffix) == Ok(d)
  {
    var s := DurText(d) + suffix;
    TakeBytesAscii(s, 5);
    var head := s[..5];
    assert head == DurText(d);
    TakeBytesAscii(head, 2);
    var tail := head[2..];
    TakeBytesAscii(tail, 1);
    assert head[..2] == TwoDigits(d / 60);
    assert tail[1..] == TwoDigits(d % 60);
    TwoDigitsParse(d / 60, U64Max);
    TwoDigitsParse(d % 60, U64Max);
  }

  lemma DurTextShape(d: nat)
    requires WritableDuration(d)
    ensures ' ' !in DurText(d) && '\n' !in DurText(d) && '"' !in DurText(d)
    ensures IsDigit(DurText(d)[0]) && IsDigit(DurText(d)[4])
  {
  }

  /** What follows `Set` in a named header: the name and the count. */
  lemma NamedHeaderNameReps(n: string, reps: U16)
    requires |n| > 0 && !IsWhitespace(n[0])
    ensures GetNameReps(" " + n + " x" + NatToDec(reps)) == (Some(n), reps)
  {
    var dec := NatToDec(reps);
    var afterSet := " " + n + " x" + dec;
    var t := n + " x" + dec;
    assert afterSet[1..] == t;
    TrimStartKeeps(t);
    assert TrimStart(afterSet) == t;
    DigitsExclude(dec, ' ');
    assert ' ' !in "x" + dec;
    assert t == n + [' '] + ("x" + dec);
    RSplitOnceAt(n, "x" + dec, ' ');
    assert StripPrefix("x" + dec, "x") == Some(dec);
    NatToDecRoundTrip(reps, U16Max);
  }

  /** A header reads back as its name and count. */
  lemma HeaderNameReps(s: WorkoutSet)
    requires CanonicalSection(s)
    ensures ParseHeaderLine(HeaderText(s)) == Some((s.name, s.reps))
  {
    var line := HeaderText(s);
    TrimStartKeeps(line);
    match s.name
    case None =>
      assert line[3..] == [];
    case Some(n) =>
      var afterSet := " " + n + " x" + NatToDec(s.reps);
      assert line == "Set" + afterSet;
      assert StripPrefix(line, "Set") == Some(afterSet);
      NamedHeaderNameReps(n, s.reps);
  }

  /** A header line of a name that does not start with `rest` is no set rest. */
  lemma NamedHeaderIsNoSetRest(n: string, tail: string)
    requires |n| > 0 && !("rest" <= n) && |tail| > 0 && tail[0] == ' '
    ensures !("Set rest " <= "Set " + n + tail)
  {
    var line := "Set " + n + tail;
    if |n| >= 4 {
      assert n[..4] != "rest";
      assert line[4..8] == n[..4];
    } else {
      assert line[4 + |n|] == ' ';
    }
  }

  /** A line whose first word is neither `Excercise` nor `Rest` ends the element list. */
  lemma OtherWordEndsElements(word: string, rest: string)
    requires |word| > 0 && !IsWhitespace(word[0]) && ' ' !in word
    requires word != "Excercise" && word != "Rest"
    ensures ParseElementLine(word + " " + rest) == EndOfElements
  {
    TrimStartKeeps(word + " " + rest);
    assert word + " " + rest == word + [' '] + rest;
    SplitOnceAt(word, rest, ' ');
  }

  /** A line of one word, with no space, ends the element list. */
  lemma OneWordEndsElements(word: string)
    requires |word| > 0 && !IsWhitespace(word[0]) && ' ' !in word
    ensures ParseElementLine(word) == EndOfElements
  {
    TrimStartKeeps(word);
  }

  /** The header of a section without a name ends the element list before
      it and is no set rest. */
  lemma UnnamedHeaderIsNoElement(line: string)
    requires line == "Set"
    ensures ParseElementLine(line) == EndOfElements
    ensures ParseSetRestLine(line) == Ok(None)
  {
    assert |line| == 3 && ' ' !in line && !IsWhitespace(line[0]);
    OneWordEndsElements(line);
    TrimStartKeeps(line);
  }

  /** A named header ends the element list before it, ... */
  lemma NamedHeaderEndsElements(n: string, reps: U16)
    ensures ParseElementLine("Set " + n + " x" + NatToDec(reps)) == EndOfElements
  {
    var rest := n + " x" + NatToDec(reps);
    assert "Set " + n + " x" + NatToDec(reps) == "Set" + " " + rest;
    OtherWordEndsElements("Set", rest);
  }

  /** ... and is no set rest. */
  lemma NamedHeaderNoSetRest(n: string, reps: U16)
    requires |n| > 0 && !("rest" <= n)
    ensures ParseSetRestLine("Set " + n + " x" + NatToDec(reps)) == Ok(None)
  {
    var tail := " x" + NatToDec(reps);
    TrimStartKeeps("Set " + n + tail);
    NamedHeaderIsNoSetRest(n, tail);
  }

  /** A header ends the element list before it and is no set rest. */
  lemma HeaderIsNoElement(s: WorkoutSet)
    requires CanonicalSection(s)
    ensures ParseElementLine(HeaderText(s)) == EndOfElements
    ensures ParseSetRestLine(HeaderText(s)) == Ok(None)
  {
    match s.name
    case None =>
      UnnamedHeaderIsNoElement(HeaderText(s));
    case Some(n) =>
      NamedHeaderEndsElements(n, s.reps);
      NamedHeaderNoSetRest(n, s.reps);
  }

  lemma HeaderKind(s: WorkoutSet)
    requires CanonicalSection(s)
    ensures Classify(HeaderText(s)) == LineKind(Some((s.name, s.reps)), EndOfElements, Ok(None))
  {
    HeaderNameReps(s);
    HeaderIsNoElement(s);
  }

  lemma RepsLineParses(name: string, n: U16)
    requires '\n' !in name
    ensures ParseElementLine(ElementText(Excercise(name, Reps(n)))) == Element(Excercise(name, Reps(n)))
  {
    var line := ElementText(Excercise(name, Reps(n)));
    var a := AmountText(Reps(n));
    var rest := name + " " + a;
    assert line == "Excercise" + [' '] + rest;
    TrimStartKeeps(line);
    SplitOnceAt("Excercise", rest, ' ');
    DigitsExclude(NatToDec(n), ' ');
    assert ' ' !in a;
    assert rest == name + [' '] + a;
    RSplitOnceAt(name, a, ' ');
    assert StripPrefix(a, "x") == Some(NatToDec(n));
    NatToDecRoundTrip(n, U16Max);
  }

  lemma TimeLineParses(name: string, d: nat, midbeep: bool)
    requires '\n' !in name && WritableDuration(d)
    ensures ParseElementLine(ElementText(Excercise(name, Time(d, midbeep)))) == Element(Excercise(name, Time(d, midbeep)))
  {
    var line := ElementText(Excercise(name, Time(d, midbeep)));
    var a := AmountText(Time(d, midbeep));
    var rest := name + " " + a;
    assert line == "Excercise" + [' '] + rest;
    TrimStartKeeps(line);
    SplitOnceAt("Excercise", rest, ' ');
    DurTextShape(d);
    assert ' ' !in a;
    assert rest == name + [' '] + a;
    RSplitOnceAt(name, a, ' ');
    assert a[0] == DurText(d)[0];
    assert StripPrefix(a, "x") == None;
    ParseDurText(d, if midbeep then "\"" else "");
    assert EndsWith(a, '"') == midbeep;
  }

  lemma RestLineParses(d: nat)
    requires WritableDuration(d)
    ensures ParseElementLine(ElementText(Rest(d))) == Element(Rest(d))
  {
    var line := ElementText(Rest(d));
    var t := DurText(d);
    assert line == "Rest" + [' '] + t;
    TrimStartKeeps(line);
    SplitOnceAt("Rest", t, ' ');
    ParseDurText(d, []);
    assert t + [] == t;
  }

  /** An element line reads back as its element, ... */
  lemma ElementParses(p: WorkoutSetElement)
    requires CanonicalElement(p)
    ensures ParseElementLine(ElementText(p)) == Element(p)
  {
    match p
    case Excercise(name, Reps(n)) => RepsLineParses(name, n);
    case Excercise(name, Time(d, midbeep)) => TimeLineParses(name, d, midbeep);
    case Rest(d) => RestLineParses(d);
  }

  /** ... and is neither a header nor a set rest. */
  lemma ElementIsNoSetRest(p: WorkoutSetElement)
    requires CanonicalElement(p)
    ensures ParseSetRestLine(ElementText(p)) == Ok(None)
  {
    TrimStartKeeps(ElementText(p));
  }

  lemma ElementKind(p: WorkoutSetElement)
    requires CanonicalElement(p)
    ensures Classify(ElementText(p)).element == Element(p)
    ensures Classify(ElementText(p)).setRest == Ok(None)
  {
    ElementParses(p);
    ElementIsNoSetRest(p);
  }

  /** A set-rest line reads back as its duration and ends the element list. */
  lemma SetRestKind(d: nat)
    requires WritableDuration(d)
    ensures Classify(SetRestText(d)).element == EndOfElements
    ensures Classify(SetRestText(d)).setRest == Ok(Some(d))
  {
    var line := SetRestText(d);
    TrimStartKeeps(line);
    var rest := "rest " + DurText(d);
    assert line == "Set" + [' '] + rest;
    SplitOnceAt("Set", rest, ' ');
    assert StripPrefix(line, "Set rest ") == Some(DurText(d));
    ParseDurText(d, []);
    assert DurText(d) + [] == DurText(d);
  }

  // ---------------------------------------------------------------------------
  // Classified lines laid out as sections parse to those sections

  predicate HeaderOf(k: LineKind, s: WorkoutSet)
  {
    k.header == Some((s.name, s.reps)) && k.element == EndOfElements && k.setRest == Ok(None)
  }

  /** Line `j` ends an element list and is no set rest (or there is no line `j`). */
  predicate Follows(ks: seq<LineKind>, j: nat)
    requires j <= |ks|
  {
    j == |ks| || (ks[j].element == EndOfElements && ks[j].setRest == Ok(None))
  }

  predicate ElementsAt(ks: seq<LineKind>, j: nat, ps: seq<WorkoutSetElement>)
  {
    j + |ps| <= |ks| && forall i :: 0 <= i < |ps| ==> ks[j + i].element == Element(ps[i])
  }

  /** Section `s` laid out from line `l`. */
  predicate SectionShaped(ks: seq<LineKind>, l: nat, s: WorkoutSet)
  {
    && l + SectionSize(s) <= |ks|
    && HeaderOf(ks[l], s)
    && ElementsAt(ks, l + 1, s.parts)
    && (s.setRest.Some? ==>
          ks[l + 1 + |s.parts|].element == EndOfElements && ks[l + 1 + |s.parts|].setRest == Ok(s.setRest))
  }

  /** Sections `secs` laid out from line `l`, ending just before line `m`. */
  predicate SectionsLaid(ks: seq<LineKind>, l: nat, secs: seq<WorkoutSet>, m: nat)
    decreases |secs|
  {
    if secs == [] then l == m
    else
      && SectionShaped(ks, l, secs[0])
      && l + SectionSize(secs[0]) <= m
      && SectionsLaid(ks, l + SectionSize(secs[0]), secs[1..], m)
  }

  /** Sections `secs` laid out from line `l` to the end. */
  predicate SectionsShaped(ks: seq<LineKind>, l: nat, secs: seq<WorkoutSet>)
  {
    SectionsLaid(ks, l, secs, |ks|)
  }

  lemma {:induction false} ElementsFromAt(ks: seq<LineKind>, j: nat, ps: seq<WorkoutSetElement>)
    requires ElementsAt(ks, j, ps)
    requires j + |ps| == |ks| || ks[j + |ps|].element == EndOfElements
    ensures ElementsFrom(ks, j) == Ok(ps)
    decreases |ps|
  {
    if ps != [] {
      assert ks[j + 0].element == Element(ps[0]);
      forall i | 0 <= i < |ps[1..]|
        ensures ks[j + 1 + i].element == Element(ps[1..][i])
      {
        assert ks[j + (i + 1)].element == Element(ps[i + 1]);
      }
      ElementsFromAt(ks, j + 1, ps[1..]);
      assert [ps[0]] + ps[1..] == ps;
    }
  }

  /** Elements followed by a line that does not parse: the element list is
      that line's error. */
  lemma {:induction false} ElementsThenInvalid(ks: seq<LineKind>, j: nat, ps: seq<WorkoutSetElement>)
    requires ElementsAt(ks, j, ps) && j + |ps| < |ks| && ks[j + |ps|].element.Invalid?
    ensures ElementsFrom(ks, j) == Err(ks[j + |ps|].element.error)
    decreases |ps|
  {
    if ps != [] {
      assert ks[j + 0].element == Element(ps[0]);
      forall i | 0 <= i < |ps[1..]|
        ensures ks[j + 1 + i].element == Element(ps[1..][i])
      {
        assert ks[j + (i + 1)].element == Element(ps[i + 1]);
      }
      ElementsThenInvalid(ks, j + 1, ps[1..]);
    }
  }

  lemma SectionAtShaped(ks: seq<LineKind>, l: nat, s: WorkoutSet)
    requires SectionShaped(ks, l, s)
    requires s.setRest.None? ==> Follows(ks, l + 1 + |s.parts|)
    ensures SectionAt(ks, l) == Ok((s, l + SectionSize(s)))
  {
    ElementsFromAt(ks, l + 1, s.parts);
  }

  /** Sections laid out up to line `m`, where the element list of the last
      one may end, read as those sections followed by what is read from `m`. */
  lemma {:induction false} SectionsFromLaid(ks: seq<LineKind>, l: nat, secs: seq<WorkoutSet>, m: nat)
    requires l <= m <= |ks| && SectionsLaid(ks, l, secs, m) && Follows(ks, m)
    ensures SectionsFrom(ks, l) == PrependSections(secs, SectionsFrom(ks, m))
    decreases |secs|
  {
    if secs == [] {
      SectionsNothing(SectionsFrom(ks, m));
    } else {
      var next := l + SectionSize(secs[0]);
      if secs[1..] != [] {
        assert HeaderOf(ks[next], secs[1..][0]);
      }
      SectionAtShaped(ks, l, secs[0]);
      SectionsFromLaid(ks, next, secs[1..], m);
      SectionsAppend([secs[0]], secs[1..], SectionsFrom(ks, m));
      assert [secs[0]] + secs[1..] == secs;
    }
  }

  lemma SectionsFromShaped(ks: seq<LineKind>, l: nat, secs: seq<WorkoutSet>)
    requires l <= |ks| && SectionsShaped(ks, l, secs)
    ensures SectionsFrom(ks, l) == Ok(secs)
  {
    SectionsFromLaid(ks, l, secs, |ks|);
    assert secs + [] == secs;
  }

  // ---------------------------------------------------------------------------
  // Rendered sections are laid out as sections

  lemma HeaderRendered(lines: seq<string>, ks: seq<LineKind>, l: nat, s: WorkoutSet)
    requires Classified(lines, ks) && CanonicalSection(s)
    requires l < |lines| && lines[l] == HeaderText(s)
    ensures HeaderOf(ks[l], s)
  {
    assert ks[l] == Classify(lines[l]);
    HeaderKind(s);
  }

  lemma ElementsRendered(lines: seq<string>, ks: seq<LineKind>, j: nat, ps: seq<WorkoutSetElement>)
    requires Classified(lines, ks) && forall i :: 0 <= i < |ps| ==> CanonicalElement(ps[i])
    requires j + |ps| <= |lines| && forall i :: 0 <= i < |ps| ==> lines[j + i] == ElementText(ps[i])
    ensures ElementsAt(ks, j, ps)
  {
    forall i | 0 <= i < |ps|
      ensures ks[j + i].element == Element(ps[i])
    {
      assert ks[j + i] == Classify(lines[j + i]);
      ElementKind(ps[i]);
    }
  }

  lemma SetRestRendered(lines: seq<string>, ks: seq<LineKind>, j: nat, d: nat)
    requires Classified(lines, ks) && WritableDuration(d)
    requires j < |lines| && lines[j] == SetRestText(d)
    ensures ks[j].element == EndOfElements && ks[j].setRest == Ok(Some(d))
  {
    assert ks[j] == Classify(lines[j]);
    SetRestKind(d);
  }

  /** The lines from `l` on are a section's text: its header, ... */
  lemma SectionHeaderLine(lines: seq<string>, l: nat, s: WorkoutSet)
    requires CanonicalSection(s) && l + SectionSize(s) <= |lines|
    requires forall i :: 0 <= i < SectionSize(s) ==> lines[l + i] == SectionText(s)[i]
    ensures lines[l] == HeaderText(s)
  {
    SectionTextHead(s);
    assert lines[l + 0] == SectionText(s)[0];
  }

  /** ... its elements ... */
  lemma SectionElementLines(lines: seq<string>, l: nat, s: WorkoutSet)
    requires CanonicalSection(s) && l + SectionSize(s) <= |lines|
    requires forall i :: 0 <= i < SectionSize(s) ==> lines[l + i] == SectionText(s)[i]
    ensures forall i :: 0 <= i < |s.parts| ==> lines[l + 1 + i] == ElementText(s.parts[i])
  {
    forall i | 0 <= i < |s.parts|
      ensures lines[l + 1 + i] == ElementText(s.parts[i])
    {
      SectionTextElement(s, i);
      assert lines[l + (1 + i)] == SectionText(s)[1 + i];
    }
  }

  /** ... and its set rest. */
  lemma SectionSetRestLine(lines: seq<string>, l: nat, s: WorkoutSet)
    requires CanonicalSection(s) && l + SectionSize(s) <= |lines| && s.setRest.Some?
    requires forall i :: 0 <= i < SectionSize(s) ==> lines[l + i] == SectionText(s)[i]
    ensures lines[l + 1 + |s.parts|] == SetRestText(s.setRest.value)
  {
    SectionTextSetRest(s);
    assert lines[l + (1 + |s.parts|)] == SectionText(s)[1 + |s.parts|];
  }

  /** A rendered section's header is classified as its header, ... */
  lemma SectionHeaderRendered(lines: seq<string>, ks: seq<LineKind>, l: nat, s: WorkoutSet)
    requires Classified(lines, ks) && CanonicalSection(s)
    requires l + SectionSize(s) <= |lines|
    requires forall i :: 0 <= i < SectionSize(s) ==> lines[l + i] == SectionText(s)[i]
    ensures HeaderOf(ks[l], s)
  {
    SectionHeaderLine(lines, l, s);
    HeaderRendered(lines, ks, l, s);
  }

  /** ... its element lines as its elements ... */
  lemma SectionElementsRendered(lines: seq<string>, ks: seq<LineKind>, l: nat, s: WorkoutSet)
    requires Classified(lines, ks) && CanonicalSection(s)
    requires l + SectionSize(s) <= |lines|
    requires forall i :: 0 <= i < SectionSize(s) ==> lines[l + i] == SectionText(s)[i]
    ensures ElementsAt(ks, l + 1, s.parts)
  {
    SectionElementLines(lines, l, s);
    ElementsRendered(lines, ks, l + 1, s.parts);
  }

  /** ... and its set-rest line as its set rest. */
  lemma SectionSetRestRendered(lines: seq<string>, ks: seq<LineKind>, l: nat, s: WorkoutSet)
    requires Classified(lines, ks) && CanonicalSection(s) && s.setRest.Some?
    requires l + SectionSize(s) <= |lines|
    requires forall i :: 0 <= i < SectionSize(s) ==> lines[l + i] == SectionText(s)[i]
    ensures ks[l + 1 + |s.parts|].element == EndOfElements && ks[l + 1 + |s.parts|].setRest == Ok(s.setRest)
  {
    SectionSetRestLine(lines, l, s);
    SetRestRendered(lines, ks, l + 1 + |s.parts|, s.setRest.value);
  }

  lemma SectionShapedRendered(lines: seq<string>, ks: seq<LineKind>, l: nat, s: WorkoutSet)
    requires Classified(lines, ks) && CanonicalSection(s)
    requires l + SectionSize(s) <= |lines|
    requires forall i :: 0 <= i < SectionSize(s) ==> lines[l + i] == SectionText(s)[i]
    ensures SectionShaped(ks, l, s)
  {
    SectionHeaderRendered(lines, ks, l, s);
    SectionElementsRendered(lines, ks, l, s);
    if s.setRest.Some? {
      SectionSetRestRendered(lines, ks, l, s);
    }
  }

  /** Rendered sections between lines `l` and `m` are laid out as sections. */
  lemma {:induction false} SectionsLaidRendered(lines: seq<string>, ks: seq<LineKind>, l: nat, m: nat, secs: seq<WorkoutSet>)
    requires Classified(lines, ks)
    requires forall i :: 0 <= i < |secs| ==> CanonicalSection(secs[i])
    requires l <= m <= |lines| && lines[l..m] == SectionsText(secs)
    ensures SectionsLaid(ks, l, secs, m)
    decreases |secs|
  {
    if secs != [] {
      var size := SectionSize(secs[0]);
      var rest := SectionsText(secs[1..]);
      assert lines[l..m] == SectionText(secs[0]) + rest;
      forall i | 0 <= i < size
        ensures lines[l + i] == SectionText(secs[0])[i]
      {
        assert lines[l + i] == lines[l..m][i];
      }
      assert lines[l + size..m] == lines[l..m][size..] == rest;
      SectionShapedRendered(lines, ks, l, secs[0]);
      SectionsLaidRendered(lines, ks, l + size, m, secs[1..]);
    }
  }

  // ---------------------------------------------------------------------------
  // The text of a rendered workout

  /** A line `lines()` gives back whole and that starts with a visible
      character, so that the blank-line filter keeps it. */
  predicate SolidLine(line: string)
  {
    PlainLine(line) && |line| > 0 && !IsWhitespace(line[0])
  }

  lemma SolidLinesFilled(ls: seq<string>)
    requires forall i :: 0 <= i < |ls| ==> SolidLine(ls[i])
    ensures forall i :: 0 <= i < |ls| ==> PlainLine(ls[i])
    ensures forall i :: 0 <= i < |ls| ==> !IsBlank(ls[i])
  {
    forall i | 0 <= i < |ls|
      ensures !IsBlank(ls[i])
    {
      assert !IsWhitespace(ls[i][0]);
    }
  }

  lemma HeaderSolid(s: WorkoutSet)
    requires CanonicalSection(s)
    ensures SolidLine(HeaderText(s))
  {
    if s.name.Some? {
      var dec := NatToDec(s.reps);
      DigitsExclude(dec, '\n');
      assert HeaderText(s)[|HeaderText(s)| - 1] == dec[|dec| - 1];
    }
  }

  lemma RepsLineSolid(name: string, n: U16)
    requires '\n' !in name
    ensures SolidLine(ElementText(Excercise(name, Reps(n))))
  {
    var line := ElementText(Excercise(name, Reps(n)));
    var dec := NatToDec(n);
    assert line == "Excercise " + name + " x" + dec;
    DigitsExclude(dec, '\n');
    assert line[|line| - 1] == dec[|dec| - 1];
  }

  lemma TimeLineSolid(name: string, d: nat, midbeep: bool)
    requires '\n' !in name && WritableDuration(d)
    ensures SolidLine(ElementText(Excercise(name, Time(d, midbeep))))
  {
    var line := ElementText(Excercise(name, Time(d, midbeep)));
    DurTextShape(d);
    if !midbeep {
      assert line == "Excercise " + name + " " + DurText(d);
      assert line[|line| - 1] == DurText(d)[4];
    }
  }

  lemma RestLineSolid(d: nat)
    requires WritableDuration(d)
    ensures SolidLine(ElementText(Rest(d)))
  {
    var line := ElementText(Rest(d));
    DurTextShape(d);
    assert line[|line| - 1] == DurText(d)[4];
  }

  lemma ElementSolid(p: WorkoutSetElement)
    requires CanonicalElement(p)
    ensures SolidLine(ElementText(p))
  {
    match p
    case Excercise(name, Reps(n)) => RepsLineSolid(name, n);
    case Excercise(name, Time(d, midbeep)) => TimeLineSolid(name, d, midbeep);
    case Rest(d) => RestLineSolid(d);
  }

  lemma SetRestSolid(d: nat)
    requires WritableDuration(d)
    ensures SolidLine(SetRestText(d))
  {
    DurTextShape(d);
    assert SetRestText(d)[|SetRestText(d)| - 1] == DurText(d)[4];
  }

  /** The lines of a section: its header, ... */
  lemma SectionTextHead(s: WorkoutSet)
    requires CanonicalSection(s)
    ensures SectionText(s)[0] == HeaderText(s)
  {
  }

  /** ... its elements, ... */
  lemma SectionTextElement(s: WorkoutSet, i: nat)
    requires CanonicalSection(s) && i < |s.parts|
    ensures SectionText(s)[1 + i] == ElementText(s.parts[i])
  {
    var es := ElementsText(s.parts);
    var tail := if s.setRest.Some? then [SetRestText(s.setRest.value)] else [];
    assert SectionText(s) == [HeaderText(s)] + es + tail;
    assert (([HeaderText(s)] + es) + tail)[1 + i] == es[i];
  }

  /** ... and its set rest. */
  lemma SectionTextSetRest(s: WorkoutSet)
    requires CanonicalSection(s) && s.setRest.Some?
    ensures SectionText(s)[1 + |s.parts|] == SetRestText(s.setRest.value)
  {
    var es := ElementsText(s.parts);
    assert SectionText(s) == [HeaderText(s)] + es + [SetRestText(s.setRest.value)];
  }

  /** The header of a section is solid, ... */
  lemma SectionHeadSolid(s: WorkoutSet)
    requires CanonicalSection(s)
    ensures SolidLine(SectionText(s)[0])
  {
    SectionTextHead(s);
    HeaderSolid(s);
  }

  /** ... so are its elements ... */
  lemma SectionElementSolid(s: WorkoutSet, i: nat)
    requires CanonicalSection(s) && i < |s.parts|
    ensures SolidLine(SectionText(s)[1 + i])
  {
    SectionTextElement(s, i);
    ElementSolid(s.parts[i]);
  }

  /** ... and its set rest. */
  lemma SectionSetRestSolid(s: WorkoutSet)
    requires CanonicalSection(s) && s.setRest.Some?
    ensures SolidLine(SectionText(s)[1 + |s.parts|])
  {
    SectionTextSetRest(s);
    SetRestSolid(s.setRest.value);
  }

  /** One line of a section is solid. */
  lemma SectionLineSolid(s: WorkoutSet, i: nat)
    requires CanonicalSection(s) && i < SectionSize(s)
    ensures SolidLine(SectionText(s)[i])
  {
    if i == 0 {
      SectionHeadSolid(s);
    } else if i <= |s.parts| {
      SectionElementSolid(s, i - 1);
    } else {
      SectionSetRestSolid(s);
    }
  }

  lemma SectionSolid(s: WorkoutSet)
    requires CanonicalSection(s)
    ensures forall i :: 0 <= i < |SectionText(s)| ==> SolidLine(SectionText(s)[i])
  {
    forall i | 0 <= i < |SectionText(s)|
      ensures SolidLine(SectionText(s)[i])
    {
      SectionLineSolid(s, i);
    }
  }

  lemma {:induction false} SectionsSolid(secs: seq<WorkoutSet>)
    requires forall i :: 0 <= i < |secs| ==> CanonicalSection(secs[i])
    ensures forall i :: 0 <= i < |SectionsText(secs)| ==> SolidLine(SectionsText(secs)[i])
    decreases |secs|
  {
    if secs != [] {
      SectionSolid(secs[0]);
      SectionsSolid(secs[1..]);
    }
  }

  lemma RenderLinesSolid(w: Workout)
    requires Canonical(w)
    ensures forall i :: 0 <= i < |RenderLines(w)| ==> SolidLine(RenderLines(w)[i])
  {
    var first := "Workout " + w.name;
    if w.name != [] {
      assert first[|first| - 1] == w.name[|w.name| - 1];
    }
    assert !IsWhitespace(first[0]);
    SectionsSolid(w.sections);
  }

  // ---------------------------------------------------------------------------
  // The round trip

  /** The lines of a rendered workout are its rendered lines. */
  lemma RenderedLines(w: Workout)
    requires Canonical(w)
    ensures NonBlankLines(Render(w)) == RenderLines(w)
  {
    RenderLinesSolid(w);
    SolidLinesFilled(RenderLines(w));
    LinesJoinLines(RenderLines(w));
    NonBlankKeepsFilled(RenderLines(w));
  }

  /** The first line names the workout. */
  lemma WorkoutLineName(name: string)
    ensures StripPrefix(TrimStart("Workout " + name), "Workout ") == Some(name)
  {
    var first := "Workout " + name;
    TrimStartKeeps(first);
    assert first[..8] == "Workout ";
  }

  /** Loading a rendered workout gives the workout back. */
  lemma LoadRender(w: Workout)
    requires Canonical(w)
    ensures LoadSpec(Render(w)) == Ok(w)
  {
    var ks := ClassifyLines(RenderLines(w));
    RenderedLines(w);
    WorkoutLineName(w.name);
    RenderedSectionsShaped(w);
    SectionsFromShaped(ks, 1, w.sections);
  }

  /** The lines of a rendered workout after its `Workout` line are laid out
      as its sections. */
  lemma RenderedSectionsShaped(w: Workout)
    requires Canonical(w)
    ensures SectionsShaped(ClassifyLines(RenderLines(w)), 1, w.sections)
  {
    var lines := RenderLines(w);
    ClassifyLinesClassified(lines);
    AfterFirst("Workout " + w.name, SectionsText(w.sections));
    SectionsLaidRendered(lines, ClassifyLines(lines), 1, |lines|, w.sections);
  }

  /** The lines of a rendered workout followed by any lines: its sections
      are laid out from line 1 to the end of its own lines. */
  lemma RenderedSectionsLaid(w: Workout, rest: seq<string>)
    requires Canonical(w)
    ensures SectionsLaid(ClassifyLines(RenderLines(w) + rest), 1, w.sections, |RenderLines(w)|)
  {
    var lines := RenderLines(w) + rest;
    ClassifyLinesClassified(lines);
    AfterFirstThen("Workout " + w.name, SectionsText(w.sections), rest);
    SectionsLaidRendered(lines, ClassifyLines(lines), 1, |RenderLines(w)|, w.sections);
  }

  lemma AfterFirst<T>(a: T, x: seq<T>)
    ensures ([a] + x)[1..|[a] + x|] == x
  {
  }

  lemma AfterFirstThen<T>(a: T, x: seq<T>, r: seq<T>)
    ensures ([a] + x + r)[1..1 + |x|] == x
  {
  }

  /** A workout the format can express loads back from its own text, and two
      such workouts with the same text are the same workout. */
  lemma RenderInjective(w1: Workout, w2: Workout)
    requires Canonical(w1) && Canonical(w2) && Render(w1) == Render(w2)
    ensures w1 == w2
  {
    LoadRender(w1);
    LoadRender(w2);
  }
}
