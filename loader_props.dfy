/** Properties of `load_workout` and its helpers: what `parse_dur` reads,
    how a `Set` header splits into name and count, which lines end an
    element list, the lenient `Set rest` line, and the errors of a whole text. */
module LoaderProperties {
  import opened Basics
  import opened Text
  import opened WorkoutModel
  import opened Loader
  import opened Format

  // ---------------------------------------------------------------------------
  // parse_dur

  /** On a token whose first five characters are one byte each, `parse_dur`
      reads characters 0-1 as minutes and 3-4 as seconds; character 2 and
      everything after character 4 are not looked at. */
  lemma ParseDurAscii(s: string)
    requires |s| >= 5 && forall i :: 0 <= i < 5 ==> Utf8Len(s[i]) == 1
    ensures ParseDur(s).Ok? <==>
      ParseUnsigned(s[..2], U64Max).Some? && ParseUnsigned(s[3..5], U64Max).Some?
    ensures ParseDur(s).Ok? ==>
      ParseDur(s).value == 60 * ParseUnsigned(s[..2], U64Max).value + ParseUnsigned(s[3..5], U64Max).value
    ensures ParseDur(s).Err? ==> ParseDur(s).error == BadNumber
  {
    TakeBytesAscii(s, 5);
    var head := s[..5];
    TakeBytesAscii(head, 2);
    var tail := head[2..];
    TakeBytesAscii(tail, 1);
    assert head[..2] == s[..2];
    assert tail[1..] == s[3..5];
  }

  /** Fewer one-byte characters than bytes asked for: no byte boundary there. */
  lemma {:induction false} TakeBytesShort(s: string, k: nat)
    requires |s| < k && forall i :: 0 <= i < |s| ==> Utf8Len(s[i]) == 1
    ensures TakeBytes(s, k) == None
    decreases |s|
  {
    if s != [] {
      TakeBytesShort(s[1..], k - 1);
    }
  }

  /** A token of fewer than five one-byte characters makes the slicing panic. */
  lemma ParseDurShort(s: string)
    requires |s| < 5 && forall i :: 0 <= i < |s| ==> Utf8Len(s[i]) == 1
    ensures ParseDur(s) == Err(Malformed)
  {
    TakeBytesShort(s, 5);
  }

  /** Two-digit minutes and seconds around any one-byte separator, followed by
      anything: seconds are not limited to 59. */
  lemma ParseDurFields(m: nat, c: char, sec: nat, suffix: string)
    requires m < 100 && sec < 100 && Utf8Len(c) == 1
    ensures ParseDur(TwoDigits(m) + [c] + TwoDigits(sec) + suffix) == Ok(60 * m + sec)
  {
    var s := TwoDigits(m) + [c] + TwoDigits(sec) + suffix;
    assert s[..2] == TwoDigits(m);
    assert s[3..5] == TwoDigits(sec);
    TwoDigitsParse(m, U64Max);
    TwoDigitsParse(sec, U64Max);
    ParseDurAscii(s);
  }

  /** `01:30` is a minute and a half. */
  lemma ParseDurMinutesSeconds(s: string)
    requires s == "01:30"
    ensures ParseDur(s) == Ok(90)
  {
    assert s == TwoDigits(1) + [':'] + TwoDigits(30) + [];
    ParseDurFields(1, ':', 30, []);
  }

  /** The `"` that marks a timed exercise with a beep halfway is not read. */
  lemma ParseDurIgnoresSuffix(s: string)
    requires s == "01:30\""
    ensures ParseDur(s) == Ok(90)
  {
    assert s == TwoDigits(1) + [':'] + TwoDigits(30) + ['"'];
    ParseDurFields(1, ':', 30, ['"']);
  }

  /** The separator is not checked, and 75 seconds are 75 seconds. */
  lemma ParseDurAnySeparator(s: string)
    requires s == "01-75"
    ensures ParseDur(s) == Ok(135)
  {
    assert s == TwoDigits(1) + ['-'] + TwoDigits(75) + [];
    ParseDurFields(1, '-', 75, []);
  }

  /** Fields that are not numbers are a `BadNumber`, not a panic. */
  lemma ParseDurLetters(s: string)
    requires s == "ab:cd"
    ensures ParseDur(s) == Err(BadNumber)
  {
    ParseDurAscii(s);
    assert s[..2] == ['a', 'b'];
    assert !AllDigits(s[..2]);
  }

  /** `1:30` is too short for the byte slicing: a panic, not a `BadNumber`. */
  lemma ParseDurSingleDigitMinutes(s: string)
    requires s == "1:30"
    ensures ParseDur(s) == Err(Malformed)
  {
    ParseDurShort(s);
  }

  /** A character of several bytes inside the minutes makes the slicing panic
      even when the token is five characters long. */
  lemma ParseDurSplitsACharacter(s: string)
    requires s == "1é:30"
    ensures ParseDur(s) == Err(Malformed)
  {
    assert s[1..][1..] == ":30";
    TakeBytesAscii(":30", 2);
    assert TakeBytes(s, 5) == Some(4);
    var head := s[..4];
    assert head[1..][0] == s[1] && Utf8Len(s[1]) == 2;
    assert TakeBytes(head[1..], 1) == None;
    assert TakeBytes(head, 2) == None;
  }

  // ---------------------------------------------------------------------------
  // get_name_reps

  /** Trimming a blank text leaves nothing. */
  lemma {:induction false} TrimStartBlank(s: string)
    requires IsBlank(s)
    ensures TrimStart(s) == []
  {
    if s != [] {
      TrimStartBlank(s[1..]);
    }
  }

  /** A bare `Set` (or one followed by blanks only) is unnamed and played once. */
  lemma GetNameRepsBlank(afterSet: string)
    requires IsBlank(afterSet)
    ensures GetNameReps(afterSet) == (None, 1)
  {
    TrimStartBlank(afterSet);
  }

  /** A single word after `Set` is the name, even when it looks like a count. */
  lemma GetNameRepsOneWord(t: string)
    requires |t| > 0 && !IsWhitespace(t[0]) && ' ' !in t
    ensures GetNameReps(" " + t) == (Some(t), 1)
  {
    assert (" " + t)[1..] == t;
    TrimStartKeeps(t);
  }

  /** `Set x3` is a section named `x3` played once, not an unnamed section
      played three times. */
  lemma UnnamedCountIsAName(afterSet: string)
    requires afterSet == " x3"
    ensures GetNameReps(afterSet) == (Some("x3"), 1)
  {
    var t := afterSet[1..];
    assert t == "x3";
    GetNameRepsOneWord(t);
    assert afterSet == " " + t;
  }

  /** A last word that is not `x` followed by a `u16` belongs to the name. */
  lemma GetNameRepsNoCount(n: string, word: string)
    requires |n| > 0 && !IsWhitespace(n[0]) && ' ' !in word
    requires StripPrefix(word, "x").None? || ParseUnsigned(StripPrefix(word, "x").value, U16Max).None?
    ensures GetNameReps(" " + n + " " + word) == (Some(n + " " + word), 1)
  {
    var t := n + " " + word;
    assert (" " + n + " " + word)[1..] == t;
    TrimStartKeeps(t);
    assert t == n + [' '] + word;
    RSplitOnceAt(n, word, ' ');
  }

  lemma SpaceX(a: string, b: string)
    ensures a + " x" + b == a + " " + ("x" + b)
  {
    var l := a + " x" + b;
    var r := a + " " + ("x" + b);
    assert |l| == |r|;
    forall i | 0 <= i < |l|
      ensures l[i] == r[i]
    {
      if i < |a| {
      } else if i == |a| {
      } else if i == |a| + 1 {
      } else {
        assert l[i] == b[i - |a| - 2];
      }
    }
  }

  /** `x` and a number beyond `u16`: no repetition count. */
  lemma OversizedCount(digits: string)
    requires |digits| > 0 && AllDigits(digits) && DigitsValue(digits) > U16Max
    ensures ' ' !in "x" + digits
    ensures StripPrefix("x" + digits, "x") == Some(digits)
    ensures ParseUnsigned(digits, U16Max).None?
  {
    DigitsExclude(digits, ' ');
    assert Unsigned(digits) == digits;
  }

  /** A count beyond `u16` is part of the name, and the section is played once. */
  lemma OversizedCountIsName(n: string, digits: string)
    requires |n| > 0 && !IsWhitespace(n[0])
    requires |digits| > 0 && AllDigits(digits) && DigitsValue(digits) > U16Max
    ensures GetNameReps(" " + n + " x" + digits) == (Some(n + " x" + digits), 1)
  {
    var word := "x" + digits;
    SpaceX(" " + n, digits);
    SpaceX(n, digits);
    OversizedCount(digits);
    GetNameRepsNoCount(n, word);
  }

  // ---------------------------------------------------------------------------
  // Element lines

  /** An exercise line without a second space has no amount. */
  lemma ExcerciseWithoutAmount(name: string)
    requires ' ' !in name
    ensures ParseElementLine("Excercise " + name) == Invalid(MissingAmount)
  {
    ExcerciseKeyword(name);
  }

  /** The keyword of an `Excercise` line and what follows it. */
  lemma ExcerciseKeyword(rest: string)
    ensures SplitOnce(TrimStart("Excercise " + rest), ' ') == Some(("Excercise", rest))
  {
    var line := "Excercise " + rest;
    TrimStartKeeps(line);
    assert line == "Excercise" + [' '] + rest;
    SplitOnceAt("Excercise", rest, ' ');
  }

  lemma Grouped<T>(a: seq<T>, b: seq<T>, c: seq<T>, d: seq<T>)
    ensures a + b + c + d == a + (b + c + d)
  {
  }

  /** A name, a space and an amount without spaces split at that space. */
  lemma NameThenAmount(name: string, amount: string)
    requires ' ' !in amount
    ensures RSplitOnce(name + " " + amount, ' ') == Some((name, amount))
  {
    assert name + " " + amount == name + [' '] + amount;
    RSplitOnceAt(name, amount, ' ');
  }

  /** An `x` amount that is no `u16` is a bad repetition count, never a time. */
  lemma ExcerciseBadReps(name: string, digits: string)
    requires ' ' !in digits && ParseUnsigned(digits, U16Max).None?
    ensures ParseElementLine("Excercise " + name + " x" + digits) == Invalid(BadExcerciseReps)
  {
    ExcerciseKeywordThen(name, " x", digits);
    CountSplit(name, digits);
    BadCountLine("Excercise " + name + " x" + digits, name + " x" + digits, name, "x" + digits, digits);
  }

  /** The keyword of a line `Excercise <name><sep><tail>` and what follows it. */
  lemma ExcerciseKeywordThen(name: string, sep: string, tail: string)
    ensures SplitOnce(TrimStart("Excercise " + name + sep + tail), ' ') == Some(("Excercise", name + sep + tail))
  {
    Grouped("Excercise ", name, sep, tail);
    ExcerciseKeyword(name + sep + tail);
  }

  /** A name, then ` x` and digits without spaces: the amount is `x` and the digits. */
  lemma CountSplit(name: string, digits: string)
    requires ' ' !in digits
    ensures RSplitOnce(name + " x" + digits, ' ') == Some((name, "x" + digits))
  {
    assert name + " x" + digits == name + " " + ("x" + digits);
    NameThenAmount(name, "x" + digits);
  }

  lemma BadCountLine(line: string, rest: string, name: string, amount: string, digits: string)
    requires SplitOnce(TrimStart(line), ' ') == Some(("Excercise", rest))
    requires RSplitOnce(rest, ' ') == Some((name, amount))
    requires amount == "x" + digits && ParseUnsigned(digits, U16Max).None?
    ensures ParseElementLine(line) == Invalid(BadExcerciseReps)
  {
    assert StripPrefix(amount, "x") == Some(digits);
  }

  /** The spelling `Exercise` is not the keyword: such a line ends the element list. */
  lemma ExerciseSpellingEndsElements(line: string)
    requires line == "Exercise Push x10"
    ensures ParseElementLine(line) == EndOfElements
  {
    TrimStartKeeps(line);
    assert line == "Exercise" + [' '] + "Push x10";
    SplitOnceAt("Exercise", "Push x10", ' ');
  }

  // ---------------------------------------------------------------------------
  // The set-rest line

  /** A `Set rest` line whose duration is not a number is no set rest, and is
      a `Set` header whose name starts with `rest`. */
  lemma SetRestBadNumber(x: string)
    requires ParseDur(x) == Err(BadNumber)
    ensures ParseSetRestLine("Set rest " + x) == Ok(None)
    ensures ParseHeaderLine("Set rest " + x) == Some(GetNameReps(" rest " + x))
  {
    var line := "Set rest " + x;
    TrimStartKeeps(line);
    assert StripPrefix(line, "Set rest ") == Some(x);
    assert line == "Set" + (" rest " + x);
  }

  /** A `Set rest` line whose duration is too short fails the whole load. */
  lemma SetRestShortFails(line: string)
    requires line == "Set rest 1:30"
    ensures ParseSetRestLine(line) == Err(MalformedDuration)
  {
    TrimStartKeeps(line);
    var arg := line[9..];
    assert line == "Set rest " + arg;
    assert StripPrefix(line, "Set rest ") == Some(arg);
    ParseDurShort(arg);
  }

  /** Read as a header, an undecodable one-word set rest names a section played once. */
  lemma SetRestWordHeader(x: string)
    requires ParseDur(x) == Err(BadNumber) && ' ' !in x
    requires StripPrefix(x, "x").None? || ParseUnsigned(StripPrefix(x, "x").value, U16Max).None?
    ensures ParseHeaderLine("Set rest " + x) == Some((Some("rest " + x), 1))
  {
    assert " " + "rest" + " " + x == " rest " + x;
    assert "rest" + " " + x == "rest " + x;
    SetRestBadNumber(x);
    GetNameRepsNoCount("rest", x);
  }

  /** A `Set rest` line ends an element list. */
  lemma SetRestWordElement(x: string)
    ensures ParseElementLine("Set rest " + x) == EndOfElements
  {
    assert "Set" + " " + ("rest " + x) == "Set rest " + x;
    OtherWordEndsElements("Set", "rest " + x);
  }

  /** An undecodable one-word set-rest line is read as a header only. */
  lemma SetRestWordKind(x: string)
    requires ParseDur(x) == Err(BadNumber) && ' ' !in x
    requires StripPrefix(x, "x").None? || ParseUnsigned(StripPrefix(x, "x").value, U16Max).None?
    ensures Classify("Set rest " + x) == LineKind(Some((Some("rest " + x), 1)), EndOfElements, Ok(None))
  {
    SetRestBadNumber(x);
    SetRestWordHeader(x);
    SetRestWordElement(x);
  }

  // ---------------------------------------------------------------------------
  // A one-section workout followed by one more line

  /** Joining lines distributes over concatenation. */
  lemma {:induction false} JoinLinesAppend(a: seq<string>, b: seq<string>)
    ensures JoinLines(a + b) == JoinLines(a) + JoinLines(b)
  {
    if a != [] {
      assert (a + b)[1..] == a[1..] + b;
      JoinLinesAppend(a[1..], b);
    } else {
      assert a + b == b;
    }
  }

  /** The lines of a one-section workout's text followed by one more line. */
  lemma OneSectionThenLineLines(w: Workout, line: string)
    requires Canonical(w) && |w.sections| == 1 && SolidLine(line)
    ensures NonBlankLines(Render(w) + line + "\n") == RenderLines(w) + [line]
  {
    var rendered := RenderLines(w);
    var lines := rendered + [line];
    var source := Render(w) + line + "\n";
    assert source == JoinLines(lines) by {
      JoinLinesAppend(rendered, [line]);
      assert JoinLines([line]) == line + "\n";
      assert Render(w) + line + "\n" == JoinLines(rendered) + (line + "\n");
    }
    RenderLinesSolid(w);
    forall i | 0 <= i < |lines|
      ensures SolidLine(lines[i])
    {
      if i < |rendered| {
        assert lines[i] == rendered[i];
      }
    }
    SolidLinesFilled(lines);
    LinesJoinLines(lines);
    NonBlankKeepsFilled(lines);
  }

  /** How those lines are read: the section, then the extra line. */
  lemma OneSectionThenLineKinds(w: Workout, line: string)
    requires Canonical(w) && |w.sections| == 1
    ensures var lines := RenderLines(w) + [line];
      && |lines| == 2 + SectionSize(w.sections[0])
      && SectionShaped(ClassifyLines(lines), 1, w.sections[0])
      && ClassifyLines(lines)[1 + SectionSize(w.sections[0])] == Classify(line)
  {
    var a := w.sections[0];
    var rendered := RenderLines(w);
    var lines := rendered + [line];
    assert SectionsText(w.sections) == SectionText(a);
    var ks := ClassifyLines(lines);
    ClassifyLinesClassified(lines);
    forall i | 0 <= i < SectionSize(a)
      ensures lines[1 + i] == SectionText(a)[i]
    {
      assert lines[1 + i] == rendered[1 + i];
    }
    SectionShapedRendered(lines, ks, 1, a);
    assert |rendered| == 1 + SectionSize(a);
    assert lines[|rendered|] == line;
    assert ks[|rendered|] == Classify(lines[|rendered|]);
  }

  /** Loading a one-section workout's text followed by one more line reads
      the sections from those lines. */
  lemma OneSectionThenLine(w: Workout, line: string)
    requires Canonical(w) && |w.sections| == 1 && SolidLine(line)
    ensures LoadSpec(Render(w) + line + "\n") ==
      NamedWorkout(w.name, SectionsFrom(ClassifyLines(RenderLines(w) + [line]), 1))
  {
    OneSectionThenLineLines(w, line);
    LoadNamedLines(Render(w) + line + "\n", w.name, RenderLines(w) + [line]);
  }

  /** A section followed by a header line of a section without elements or
      set rest reads as those two sections. */
  lemma SectionThenHeaderLine(ks: seq<LineKind>, a: WorkoutSet, r: WorkoutSet)
    requires |ks| == 2 + SectionSize(a) && SectionShaped(ks, 1, a)
    requires HeaderOf(ks[1 + SectionSize(a)], r) && r.parts == [] && r.setRest.None?
    ensures SectionsFrom(ks, 1) == Ok([a, r])
  {
    var next := 1 + SectionSize(a);
    assert SectionsShaped(ks, next + 1, []);
    assert SectionShaped(ks, next, r);
    assert [a, r][1..] == [r];
    assert SectionsShaped(ks, 1, [a, r]);
    SectionsFromShaped(ks, 1, [a, r]);
  }

  /** An undecodable set-rest line is a whole, non-blank line. */
  lemma SetRestLineSolid(x: string)
    requires ParseDur(x) == Err(BadNumber) && PlainLine(x)
    ensures SolidLine("Set rest " + x)
  {
    var line := "Set rest " + x;
    assert x != [] by {
      assert ParseDur([]) == Err(Malformed);
    }
    assert line[|line| - 1] == x[|x| - 1];
    assert !IsWhitespace(line[0]);
  }

  /** The lenient set rest on a whole text: a `Set rest` line whose duration
      is not a number, after a section without a set rest, becomes a second
      section named after the line, rather than an error or a rest. */
  lemma LenientSetRestMakesASection(w: Workout, x: string)
    requires Canonical(w) && |w.sections| == 1 && w.sections[0].setRest.None?
    requires ParseDur(x) == Err(BadNumber) && ' ' !in x && PlainLine(x)
    requires StripPrefix(x, "x").None? || ParseUnsigned(StripPrefix(x, "x").value, U16Max).None?
    ensures LoadSpec(Render(w) + "Set rest " + x + "\n") ==
      Ok(Workout(w.name, w.sections + [WorkoutSet(Some("rest " + x), [], 1, None)]))
  {
    var a := w.sections[0];
    var r := WorkoutSet(Some("rest " + x), [], 1, None);
    var line := "Set rest " + x;
    assert Render(w) + "Set rest " + x + "\n" == Render(w) + line + "\n";
    assert w.sections + [r] == [a, r] by {
      assert w.sections == [a];
    }
    SetRestLineSolid(x);
    OneSectionThenLine(w, line);
    OneSectionThenLineKinds(w, line);
    SetRestWordKind(x);
    SectionThenHeaderLine(ClassifyLines(RenderLines(w) + [line]), a, r);
  }

  /** A line whose first word is `Exercise` is neither a header, an element nor a set rest. */
  lemma ExerciseLineKind(rest: string)
    ensures Classify("Exercise " + rest) == LineKind(None, EndOfElements, Ok(None))
  {
    var line := "Exercise " + rest;
    OtherWordEndsElements("Exercise", rest);
    TrimStartKeeps(line);
    assert !("Set" <= line) && !("Set rest " <= line) by {
      assert line[0] == 'E';
    }
  }

  /** An `Exercise` line is a whole, non-blank line. */
  lemma ExerciseLineSolid(rest: string)
    requires PlainLine(rest)
    ensures SolidLine("Exercise " + rest)
  {
    var line := "Exercise " + rest;
    if rest != [] {
      assert line[|line| - 1] == rest[|rest| - 1];
    }
    assert !IsWhitespace(line[0]);
  }

  /** After sections laid out up to line `m`, a line that is neither a
      header, an element nor a set rest cannot go on. */
  lemma SectionsThenStrayLine(ks: seq<LineKind>, secs: seq<WorkoutSet>, m: nat)
    requires 1 <= m < |ks| && SectionsLaid(ks, 1, secs, m)
    requires ks[m] == LineKind(None, EndOfElements, Ok(None))
    ensures SectionsFrom(ks, 1) == Err(ExpectedSet)
  {
    SectionsFromLaid(ks, 1, secs, m);
  }

  /** With the keyword spelt `Exercise`, the line after the last section of
      any expressible workout is taken for the next header and is none: the
      load fails, whatever follows. */
  lemma ExerciseSpellingFails(w: Workout, rest: string, more: seq<string>)
    requires Canonical(w) && PlainLine(rest)
    requires forall k :: 0 <= k < |more| ==> PlainLine(more[k])
    ensures LoadSpec(Render(w) + JoinLines(["Exercise " + rest] + more)) == Err(ExpectedSet)
  {
    var line := "Exercise " + rest;
    ExerciseLineSolid(rest);
    var lines := RenderedThenLine(w, line, more);
    ExerciseLineKind(rest);
    LineKindAt(lines, |RenderLines(w)|, line);
    SectionsThenStrayLine(ClassifyLines(lines), w.sections, |RenderLines(w)|);
  }

  /** The non-blank lines of a rendered workout followed by one more line and
      others, and how their sections are laid out. */
  lemma RenderedThenLine(w: Workout, line: string, more: seq<string>) returns (lines: seq<string>)
    requires Canonical(w) && PlainLine(line) && !IsBlank(line)
    requires forall k :: 0 <= k < |more| ==> PlainLine(more[k])
    ensures lines == RenderLines(w) + ([line] + NonBlank(more))
    ensures LoadSpec(Render(w) + JoinLines([line] + more)) == NamedWorkout(w.name, SectionsFrom(ClassifyLines(lines), 1))
    ensures SectionsLaid(ClassifyLines(lines), 1, w.sections, |RenderLines(w)|)
    ensures |RenderLines(w)| < |lines| && lines[|RenderLines(w)|] == line
  {
    lines := RenderLines(w) + ([line] + NonBlank(more));
    RenderThenLines(w, line, more);
    Reassociate(RenderLines(w), line, NonBlank(more));
    LoadNamedLines(Render(w) + JoinLines([line] + more), w.name, lines);
    RenderedSectionsLaid(w, [line] + NonBlank(more));
  }

  /** The classification of line `j`. */
  lemma LineKindAt(lines: seq<string>, j: nat, line: string)
    requires j < |lines| && lines[j] == line
    ensures ClassifyLines(lines)[j] == Classify(line)
  {
    ClassifyAt(lines, j);
  }

  /** The lines of a rendered workout followed by more whole, non-blank lines. */
  lemma RenderThenLines(w: Workout, line: string, more: seq<string>)
    requires Canonical(w) && PlainLine(line) && !IsBlank(line)
    requires forall k :: 0 <= k < |more| ==> PlainLine(more[k])
    ensures NonBlankLines(Render(w) + JoinLines([line] + more)) == RenderLines(w) + [line] + NonBlank(more)
  {
    RenderLinesSolid(w);
    SolidThenLines(RenderLines(w), line, more);
  }

  /** Solid lines, one more non-blank line and further lines, joined: the
      lines that carry something. */
  lemma SolidThenLines(solid: seq<string>, line: string, more: seq<string>)
    requires forall k :: 0 <= k < |solid| ==> SolidLine(solid[k])
    requires PlainLine(line) && !IsBlank(line)
    requires forall k :: 0 <= k < |more| ==> PlainLine(more[k])
    ensures NonBlankLines(JoinLines(solid) + JoinLines([line] + more)) == solid + [line] + NonBlank(more)
  {
    var tail := [line] + more;
    var all := solid + tail;
    JoinLinesAppend(solid, tail);
    SolidThenPlain(solid, line, more);
    LinesJoinLines(all);
    SolidThenFilled(solid, line);
    Reassociate(solid, line, more);
    NonBlankFilledPrefix(solid + [line], more);
  }

  lemma SolidThenPlain(solid: seq<string>, line: string, more: seq<string>)
    requires forall k :: 0 <= k < |solid| ==> SolidLine(solid[k])
    requires PlainLine(line)
    requires forall k :: 0 <= k < |more| ==> PlainLine(more[k])
    ensures forall k :: 0 <= k < |solid + ([line] + more)| ==> PlainLine((solid + ([line] + more))[k])
  {
    var all := solid + ([line] + more);
    forall k | 0 <= k < |all|
      ensures PlainLine(all[k])
    {
      if k < |solid| {
        assert all[k] == solid[k];
      } else if k == |solid| {
        assert all[k] == line;
      } else {
        assert all[k] == more[k - |solid| - 1];
      }
    }
  }

  lemma SolidThenFilled(solid: seq<string>, line: string)
    requires forall k :: 0 <= k < |solid| ==> SolidLine(solid[k])
    requires !IsBlank(line)
    ensures forall k :: 0 <= k < |solid + [line]| ==> !IsBlank((solid + [line])[k])
  {
    var kept := solid + [line];
    forall k | 0 <= k < |kept|
      ensures !IsBlank(kept[k])
    {
      if k < |solid| {
        assert kept[k] == solid[k];
        assert !IsWhitespace(solid[k][0]);
      }
    }
  }

  lemma Reassociate<T>(a: seq<T>, b: T, c: seq<T>)
    ensures a + ([b] + c) == a + [b] + c
  {
  }

  /** Sections laid out up to line `m`, the last without a set rest, and a
      line `m` that is no valid element: the line is read as the next element
      of the last section, and its error stops the load. */
  lemma {:induction false} LaidThenInvalid(ks: seq<LineKind>, l: nat, secs: seq<WorkoutSet>, m: nat)
    requires l <= m < |ks| && SectionsLaid(ks, l, secs, m)
    requires |secs| > 0 && secs[|secs| - 1].setRest.None?
    requires ks[m].element.Invalid?
    ensures SectionsFrom(ks, l) == Err(ks[m].element.error)
    decreases |secs|
  {
    var a := secs[0];
    var next := l + SectionSize(a);
    if |secs| == 1 {
      assert next == m;
      ElementsThenInvalid(ks, l + 1, a.parts);
    } else {
      assert HeaderOf(ks[next], secs[1..][0]);
      SectionAtShaped(ks, l, a);
      LaidThenInvalid(ks, next, secs[1..], m);
    }
  }

  /** An element line that does not parse, after any expressible workout
      whose last section has no set rest, makes the whole load fail with that
      line's error, whatever follows. The bad line stands in the element list
      of the last section, after all its elements: at any position of any set. */
  lemma InvalidElementAnywhere(w: Workout, line: string, more: seq<string>)
    requires Canonical(w) && |w.sections| > 0 && w.sections[|w.sections| - 1].setRest.None?
    requires PlainLine(line) && !IsBlank(line) && ParseElementLine(line).Invalid?
    requires forall k :: 0 <= k < |more| ==> PlainLine(more[k])
    ensures LoadSpec(Render(w) + JoinLines([line] + more)) == Err(ParseElementLine(line).error)
  {
    var lines := RenderedThenLine(w, line, more);
    LineKindAt(lines, |RenderLines(w)|, line);
    LaidThenInvalid(ClassifyLines(lines), 1, w.sections, |RenderLines(w)|);
  }

  // ---------------------------------------------------------------------------
  // Whole texts

  /** `load_workout` looks at a text only through its non-blank lines. */
  lemma LoadSpecOfLines(s1: string, s2: string)
    requires NonBlankLines(s1) == NonBlankLines(s2)
    ensures LoadSpec(s1) == LoadSpec(s2)
  {
  }

  /** Inserting a line keeps every line whole. */
  lemma InsertedPlain(ls: seq<string>, i: nat, blank: string)
    requires i <= |ls| && forall k :: 0 <= k < |ls| ==> PlainLine(ls[k])
    requires PlainLine(blank)
    ensures forall k :: 0 <= k < |ls[..i] + [blank] + ls[i..]| ==> PlainLine((ls[..i] + [blank] + ls[i..])[k])
  {
    var with := ls[..i] + [blank] + ls[i..];
    forall k | 0 <= k < |with|
      ensures PlainLine(with[k])
    {
      if k < i {
        assert with[k] == ls[k];
      } else if k > i {
        assert with[k] == ls[k - 1];
      }
    }
  }

  /** The non-blank lines of joined whole lines are the non-blank ones among them. */
  lemma BlankLineLines(ls: seq<string>, i: nat, blank: string)
    requires i <= |ls| && forall k :: 0 <= k < |ls| ==> PlainLine(ls[k])
    requires PlainLine(blank)
    ensures NonBlankLines(JoinLines(ls[..i] + [blank] + ls[i..])) == NonBlank(ls[..i] + [blank] + ls[i..])
    ensures NonBlankLines(JoinLines(ls)) == NonBlank(ls)
  {
    InsertedPlain(ls, i, blank);
    LinesJoinLines(ls[..i] + [blank] + ls[i..]);
    LinesJoinLines(ls);
  }

  /** A blank line inserted anywhere in a text changes nothing. */
  lemma BlankLineIgnored(ls: seq<string>, i: nat, blank: string)
    requires i <= |ls| && forall k :: 0 <= k < |ls| ==> PlainLine(ls[k])
    requires IsBlank(blank) && PlainLine(blank)
    ensures LoadSpec(JoinLines(ls[..i] + [blank] + ls[i..])) == LoadSpec(JoinLines(ls))
  {
    BlankLineLines(ls, i, blank);
    NonBlankIgnoresBlank(ls[..i], blank, ls[i..]);
    assert ls[..i] + ls[i..] == ls;
    LoadSpecOfLines(JoinLines(ls[..i] + [blank] + ls[i..]), JoinLines(ls));
  }

  /** Only blank lines: nothing is kept. */
  lemma {:induction false} NonBlankOfBlanks(ls: seq<string>)
    requires forall k :: 0 <= k < |ls| ==> IsBlank(ls[k])
    ensures NonBlank(ls) == []
  {
    if ls != [] {
      NonBlankOfBlanks(ls[1..]);
    }
  }

  /** A text of nothing but blank lines makes the first-line lookup panic. */
  lemma BlankTextIsEmpty(ls: seq<string>)
    requires forall k :: 0 <= k < |ls| ==> PlainLine(ls[k]) && IsBlank(ls[k])
    ensures LoadSpec(JoinLines(ls)) == Err(EmptySource)
  {
    LinesJoinLines(ls);
    NonBlankOfBlanks(ls);
  }

  /** One whole line before whole lines: the lines read back. */
  lemma FirstLinePlain(first: string, rest: seq<string>)
    requires PlainLine(first)
    requires forall k :: 0 <= k < |rest| ==> PlainLine(rest[k])
    ensures Lines(JoinLines([first] + rest)) == [first] + rest
  {
    var ls := [first] + rest;
    forall k | 0 <= k < |ls|
      ensures PlainLine(ls[k])
    {
      if k > 0 {
        assert ls[k] == rest[k - 1];
      }
    }
    LinesJoinLines(ls);
  }

  /** The first line that carries something must start with `Workout `. */
  lemma FirstLineNotWorkout(first: string, rest: seq<string>)
    requires PlainLine(first) && !IsBlank(first) && !("Workout " <= TrimStart(first))
    requires forall k :: 0 <= k < |rest| ==> PlainLine(rest[k])
    ensures LoadSpec(JoinLines([first] + rest)) == Err(MissingWorkoutName)
  {
    FirstLinePlain(first, rest);
    assert ([first] + rest)[1..] == rest;
  }

  /** Two whole lines before whole lines: all lines whole. */
  lemma PrependedPlain(first: string, line: string, rest: seq<string>)
    requires PlainLine(first) && PlainLine(line)
    requires forall k :: 0 <= k < |rest| ==> PlainLine(rest[k])
    ensures forall k :: 0 <= k < |[first, line] + rest| ==> PlainLine(([first, line] + rest)[k])
  {
    var ls := [first, line] + rest;
    forall k | 0 <= k < |ls|
      ensures PlainLine(ls[k])
    {
      if k > 1 {
        assert ls[k] == rest[k - 2];
      }
    }
  }

  /** The non-blank lines of two lines followed by others. */
  lemma PlainLinesThen(first: string, line: string, rest: seq<string>)
    requires PlainLine(first) && PlainLine(line)
    requires forall k :: 0 <= k < |rest| ==> PlainLine(rest[k])
    ensures NonBlankLines(JoinLines([first, line] + rest)) == NonBlank([first, line] + rest)
  {
    PrependedPlain(first, line, rest);
    LinesJoinLines([first, line] + rest);
  }

  /** Two non-blank lines are kept ahead of the rest. */
  lemma FilledLinesThen(first: string, line: string, rest: seq<string>)
    requires !IsBlank(first) && !IsBlank(line)
    ensures NonBlank([first, line] + rest) == [first, line] + NonBlank(rest)
  {
    var ls := [first, line] + rest;
    assert ls[1..] == [line] + rest;
    assert ls[1..][1..] == rest;
    assert NonBlank(ls[1..]) == [line] + NonBlank(rest);
  }

  /** Line 1 is no header: no section can start. */
  lemma NoHeaderAtOne(ks: seq<LineKind>)
    requires |ks| > 1 && ks[1].header.None?
    ensures SectionsFrom(ks, 1) == Err(ExpectedSet)
  {
  }

  /** A text whose non-blank lines open with a `Workout` line loads the
      sections read from line 1 on. */
  lemma LoadNamedLines(source: string, name: string, lines: seq<string>)
    requires NonBlankLines(source) == lines && |lines| > 0 && lines[0] == "Workout " + name
    ensures LoadSpec(source) == NamedWorkout(name, SectionsFrom(ClassifyLines(lines), 1))
  {
    WorkoutLineName(name);
  }

  /** A line that does not start with `Set` is no header. */
  lemma NoSetNoHeader(lines: seq<string>)
    requires |lines| > 1 && !("Set" <= TrimStart(lines[1]))
    ensures SectionsFrom(ClassifyLines(lines), 1) == Err(ExpectedSet)
  {
    ClassifyAt(lines, 1);
    NoHeaderAtOne(ClassifyLines(lines));
  }

  /** Where a section is expected, a line that does not start with `Set` is an error. */
  lemma SectionMustStartWithSet(name: string, line: string, rest: seq<string>)
    requires PlainLine("Workout " + name) && PlainLine(line) && !IsBlank(line) && !("Set" <= TrimStart(line))
    requires forall k :: 0 <= k < |rest| ==> PlainLine(rest[k])
    ensures LoadSpec(JoinLines(["Workout " + name, line] + rest)) == Err(ExpectedSet)
  {
    var first := "Workout " + name;
    assert !IsWhitespace(first[0]);
    PlainLinesThen(first, line, rest);
    FilledLinesThen(first, line, rest);
    var lines := [first, line] + NonBlank(rest);
    LoadNamedLines(JoinLines([first, line] + rest), name, lines);
    NoSetNoHeader(lines);
  }

  // ---------------------------------------------------------------------------
  // Durations that do not decode inside the element list

  /** A `Rest` line whose duration does not decode is an error: a bad rest
      duration, or the slicing panic. */
  lemma RestLineError(x: string)
    requires ParseDur(x).Err?
    ensures ParseElementLine("Rest " + x) ==
      Invalid(if ParseDur(x).error == Malformed then MalformedDuration else BadRestDuration)
  {
    var line := "Rest " + x;
    TrimStartKeeps(line);
    assert line == "Rest" + [' '] + x;
    SplitOnceAt("Rest", x, ' ');
  }

  /** A timed `Excercise` line whose duration does not decode is an error: a
      bad exercise duration, or the slicing panic. */
  lemma ExcerciseDurationError(name: string, amount: string)
    requires ' ' !in amount && !("x" <= amount) && ParseDur(amount).Err?
    ensures ParseElementLine("Excercise " + name + " " + amount) ==
      Invalid(if ParseDur(amount).error == Malformed then MalformedDuration else BadExcerciseDuration)
  {
    var line := "Excercise " + name + " " + amount;
    ExcerciseKeywordThen(name, " ", amount);
    NameThenAmount(name, amount);
    NoCountPrefix(amount);
    BadTimeLine(line, name + " " + amount, name, amount, ParseDur(amount).error);
  }

  lemma NoCountPrefix(amount: string)
    requires !("x" <= amount)
    ensures StripPrefix(amount, "x") == None
  {
  }

  lemma BadTimeLine(line: string, rest: string, name: string, amount: string, e: DurError)
    requires SplitOnce(TrimStart(line), ' ') == Some(("Excercise", rest))
    requires RSplitOnce(rest, ' ') == Some((name, amount))
    requires StripPrefix(amount, "x") == None && ParseDur(amount) == Err(e)
    ensures ParseElementLine(line) ==
      Invalid(if e == Malformed then MalformedDuration else BadExcerciseDuration)
  {
  }

  /** `Rest ab:cd` is a bad rest duration. */
  lemma RestLettersLine(line: string)
    requires line == "Rest ab:cd"
    ensures ParseElementLine(line) == Invalid(BadRestDuration)
  {
    assert line == "Rest " + "ab:cd";
    ParseDurLetters("ab:cd");
    RestLineError("ab:cd");
  }

  /** `Rest 1:30` makes the slicing panic. */
  lemma RestShortLine(line: string)
    requires line == "Rest 1:30"
    ensures ParseElementLine(line) == Invalid(MalformedDuration)
  {
    assert line == "Rest " + "1:30";
    ParseDurSingleDigitMinutes("1:30");
    RestLineError("1:30");
  }

  /** `Excercise Run ab:cd` is a bad exercise duration. */
  lemma ExcerciseLettersLine(line: string)
    requires line == "Excercise Run ab:cd"
    ensures ParseElementLine(line) == Invalid(BadExcerciseDuration)
  {
    assert line == "Excercise " + "Run" + " " + "ab:cd";
    ParseDurLetters("ab:cd");
    assert "ab:cd"[0] != 'x';
    ExcerciseDurationError("Run", "ab:cd");
  }

  // ---------------------------------------------------------------------------
  // An invalid element line in a whole text

  /** A bare `Set` is an unnamed header played once. */
  lemma BareSetHeader(line: string)
    requires line == "Set"
    ensures ParseHeaderLine(line) == Some((None, 1))
  {
    TrimStartKeeps(line);
    assert StripPrefix(line, "Set") == Some([]);
  }

  /** A header at line 1 and an invalid element line at line 2: the load fails
      with the element line's error. */
  lemma InvalidAtTwo(lines: seq<string>)
    requires |lines| > 2 && ParseHeaderLine(lines[1]).Some? && ParseElementLine(lines[2]).Invalid?
    ensures SectionsFrom(ClassifyLines(lines), 1) == Err(ParseElementLine(lines[2]).error)
  {
    var ks := ClassifyLines(lines);
    ClassifyAt(lines, 1);
    ClassifyAt(lines, 2);
    assert ks[1].header == ParseHeaderLine(lines[1]);
    assert ks[2].element == ParseElementLine(lines[2]);
    InvalidElementAt(ks);
  }

  /** The same on the line kinds. */
  lemma InvalidElementAt(ks: seq<LineKind>)
    requires |ks| > 2 && ks[1].header.Some? && ks[2].element.Invalid?
    ensures SectionsFrom(ks, 1) == Err(ks[2].element.error)
  {
    assert ElementsFrom(ks, 2) == Err(ks[2].element.error);
    assert SectionAt(ks, 1) == Err(ks[2].element.error);
  }

  /** An element line of a whole text that does not parse makes the whole
      load fail with that line's error, whatever follows it. */
  lemma InvalidElementFails(name: string, header: string, line: string, rest: seq<string>)
    requires PlainLine("Workout " + name)
    requires PlainLine(header) && !IsBlank(header) && ParseHeaderLine(header).Some?
    requires PlainLine(line) && !IsBlank(line) && ParseElementLine(line).Invalid?
    requires forall k :: 0 <= k < |rest| ==> PlainLine(rest[k])
    ensures LoadSpec(JoinLines(["Workout " + name, header, line] + rest)) == Err(ParseElementLine(line).error)
  {
    var lines := ["Workout " + name, header, line] + NonBlank(rest);
    WorkoutLineFilled(name);
    HeaderThenLines("Workout " + name, header, line, rest);
    InvalidLines(JoinLines(["Workout " + name, header, line] + rest), name, lines);
  }

  /** Non-blank lines that open with a `Workout` line, a header and an
      invalid element line. */
  lemma InvalidLines(source: string, name: string, lines: seq<string>)
    requires NonBlankLines(source) == lines && |lines| > 2 && lines[0] == "Workout " + name
    requires ParseHeaderLine(lines[1]).Some? && ParseElementLine(lines[2]).Invalid?
    ensures LoadSpec(source) == Err(ParseElementLine(lines[2]).error)
  {
    LoadNamedLines(source, name, lines);
    InvalidAtTwo(lines);
  }

  /** The `Workout` line is never blank. */
  lemma WorkoutLineFilled(name: string)
    ensures !IsBlank("Workout " + name)
  {
    assert ("Workout " + name)[0] == 'W';
  }

  /** The non-blank lines of three non-blank lines followed by others. */
  lemma HeaderThenLines(first: string, header: string, line: string, rest: seq<string>)
    requires PlainLine(first) && !IsBlank(first)
    requires PlainLine(header) && !IsBlank(header)
    requires PlainLine(line) && !IsBlank(line)
    requires forall k :: 0 <= k < |rest| ==> PlainLine(rest[k])
    ensures NonBlankLines(JoinLines([first, header, line] + rest)) == [first, header, line] + NonBlank(rest)
  {
    var tail := [line] + rest;
    PrependedLinePlain(line, rest);
    Regroup(first, header, line, rest);
    PlainLinesThen(first, header, tail);
    FilledLinesThen(first, header, tail);
    FilledLineFirst(line, rest);
    Regroup(first, header, line, NonBlank(rest));
  }

  /** Three lines joined. */
  lemma JoinThree(a: string, b: string, c: string)
    ensures JoinLines([a, b, c]) == a + "\n" + b + "\n" + c + "\n"
  {
    assert [a, b, c][1..] == [b, c];
    assert [b, c][1..] == [c];
    assert [c][1..] == [];
    assert JoinLines([c]) == c + "\n";
    assert JoinLines([b, c]) == b + "\n" + (c + "\n");
    assert b + "\n" + (c + "\n") == b + "\n" + c + "\n";
    assert a + "\n" + (b + "\n" + c + "\n") == a + "\n" + b + "\n" + c + "\n";
  }

  /** Three items before a sequence are two items before the third and the rest. */
  lemma Regroup<T>(a: T, b: T, c: T, r: seq<T>)
    ensures [a, b, c] + r == [a, b] + ([c] + r)
  {
  }

  /** A whole line before whole lines: all lines whole. */
  lemma PrependedLinePlain(line: string, rest: seq<string>)
    requires PlainLine(line)
    requires forall k :: 0 <= k < |rest| ==> PlainLine(rest[k])
    ensures forall k :: 0 <= k < |[line] + rest| ==> PlainLine(([line] + rest)[k])
  {
    var tail := [line] + rest;
    forall k | 0 <= k < |tail|
      ensures PlainLine(tail[k])
    {
      if k > 0 {
        assert tail[k] == rest[k - 1];
      }
    }
  }

  /** A non-blank line is kept ahead of the rest. */
  lemma FilledLineFirst(line: string, rest: seq<string>)
    requires !IsBlank(line)
    ensures NonBlank([line] + rest) == [line] + NonBlank(rest)
  {
    assert ([line] + rest)[1..] == rest;
  }

  /** A whole text whose one rest does not decode fails to load. */
  lemma RestLettersText(s: string)
    requires s == "Workout W\nSet\nRest ab:cd\n"
    ensures LoadSpec(s) == Err(BadRestDuration)
  {
    RestLettersTextLines(s);
    BareSetHeader("Set");
    RestLettersLine("Rest ab:cd");
    InvalidElementFails("W", "Set", "Rest ab:cd", []);
  }

  /** The text above as its lines. */
  lemma RestLettersTextLines(s: string)
    requires s == "Workout W\nSet\nRest ab:cd\n"
    ensures s == JoinLines(["Workout " + "W", "Set", "Rest ab:cd"] + [])
    ensures PlainLine("Workout " + "W") && PlainLine("Set") && !IsBlank("Set")
    ensures PlainLine("Rest ab:cd") && !IsBlank("Rest ab:cd")
  {
    JoinThree("Workout W", "Set", "Rest ab:cd");
    assert "Workout " + "W" == "Workout W";
    assert ["Workout W", "Set", "Rest ab:cd"] + [] == ["Workout W", "Set", "Rest ab:cd"];
    assert "Set"[0] == 'S' && "Rest ab:cd"[0] == 'R';
  }
}
