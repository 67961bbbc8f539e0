/** `load_workout` of src/workout.rs: a line-oriented parser from workout
    description text to the workout model. The recursive functions below
    specify what each stretch of lines parses to; the method `LoadWorkout`
    walks the lines with a cursor, as `load_workout` does, and is proved to
    agree with them. */
module Loader {
  import opened Basics
  import opened Text
  import opened WorkoutModel

  /** Why a description does not load. `EmptySource` and `MalformedDuration`
      stand for the two panics of `load_workout` (indexing the first line of a
      text without lines, and slicing a duration token shorter than 5 bytes or
      off a character boundary). */
  datatype LoadError =
    | EmptySource
    | MissingWorkoutName
    | ExpectedSet
    | MissingAmount
    | BadExcerciseReps
    | BadExcerciseDuration
    | BadRestDuration
    | MalformedDuration

  /** The two ways `parse_dur` fails: the byte slicing panics (`Malformed`),
      or a field is not a number (`BadNumber`). */
  datatype DurError = Malformed | BadNumber

  /** `parse_dur`: the first 5 bytes of `s` as `MM:SS`, in seconds. Byte 2 is
      skipped unchecked; anything after byte 5 is ignored. */
  function ParseDur(s: string): Result<nat, DurError>
  {
    match TakeBytes(s, 5)
    case None => Err(Malformed)
    case Some(i5) =>
      var head := s[..i5];
      match TakeBytes(head, 2)
      case None => Err(Malformed)
      case Some(i2) =>
        var tail := head[i2..];
        match TakeBytes(tail, 1)
        case None => Err(Malformed)
        case Some(i1) =>
          match (ParseUnsigned(head[..i2], U64Max), ParseUnsigned(tail[i1..], U64Max))
          case (Some(mins), Some(secs)) => Ok(mins * 60 + secs)
          case _ => Err(BadNumber)
  }

  /** `get_name_reps`: the name and repetition count of a `Set` header, from
      what follows `Set`. */
  function GetNameReps(afterSet: string): (Option<string>, U16)
  {
    var t := TrimStart(afterSet);
    if t == [] then (None, 1)
    else
      match RSplitOnce(t, ' ')
      case None => (Some(t), 1)
      case Some((name, reps)) =>
        match StripPrefix(reps, "x")
        case None => (Some(t), 1)
        case Some(digits) =>
          match ParseUnsigned(digits, U16Max)
          case None => (Some(t), 1)
          case Some(n) => (Some(name), n)
  }

  /** What one line means where an element is expected. */
  datatype ElementLine =
    | Element(part: WorkoutSetElement)
    | EndOfElements
    | Invalid(error: LoadError)

  /** The body of the element loop of `load_workout` for one line. */
  function ParseElementLine(line: string): ElementLine
  {
    var trimmed := TrimStart(line);
    match SplitOnce(trimmed, ' ')
    case None => EndOfElements
    case Some((t, rest)) =>
      if t == "Excercise" then
        match RSplitOnce(rest, ' ')
        case None => Invalid(MissingAmount)
        case Some((name, amount)) =>
          match StripPrefix(amount, "x")
          case Some(digits) =>
            (match ParseUnsigned(digits, U16Max)
             case None => Invalid(BadExcerciseReps)
             case Some(n) => Element(Excercise(name, Reps(n))))
          case None =>
            match ParseDur(amount)
            case Ok(d) => Element(Excercise(name, Time(d, EndsWith(amount, '"'))))
            case Err(Malformed) => Invalid(MalformedDuration)
            case Err(BadNumber) => Invalid(BadExcerciseDuration)
      else if t == "Rest" then
        match ParseDur(rest)
        case Ok(d) => Element(Rest(d))
        case Err(Malformed) => Invalid(MalformedDuration)
        case Err(BadNumber) => Invalid(BadRestDuration)
      else EndOfElements
  }

  /** The optional `Set rest MM:SS` line after the elements: a duration that
      does not decode leaves the line where it is (no set rest), except that
      the slicing panic of `parse_dur` is not caught by `.ok()`. */
  function ParseSetRestLine(line: string): (r: Result<Option<nat>, LoadError>)
  {
    match StripPrefix(TrimStart(line), "Set rest ")
    case None => Ok(None)
    case Some(arg) =>
      match ParseDur(arg)
      case Ok(d) => Ok(Some(d))
      case Err(BadNumber) => Ok(None)
      case Err(Malformed) => Err(MalformedDuration)
  }

  /** A `Set` header line: the name and repetition count it announces. */
  function ParseHeaderLine(line: string): Option<(Option<string>, U16)>
  {
    match StripPrefix(TrimStart(line), "Set")
    case None => None
    case Some(afterSet) => Some(GetNameReps(afterSet))
  }

  /** Everything the parser may read a line as, depending on where it stands. */
  datatype LineKind = LineKind(header: Option<(Option<string>, U16)>, element: ElementLine, setRest: Result<Option<nat>, LoadError>)

  function Classify(line: string): LineKind
  {
    LineKind(ParseHeaderLine(line), ParseElementLine(line), ParseSetRestLine(line))
  }

  // ---------------------------------------------------------------------------
  // What the (non-blank) lines parse to, from a cursor on

  function ClassifyLines(ls: seq<string>): (ks: seq<LineKind>)
    ensures |ks| == |ls|
  {
    if ls == [] then [] else [Classify(ls[0])] + ClassifyLines(ls[1..])
  }

  /** The elements that follow a `Set` header, from line `j`: one per element
      line until a line that ends the list, or the end of the text; the
      first invalid line before that is the error. */
  function ElementsFrom(ks: seq<LineKind>, j: nat): (r: Result<seq<WorkoutSetElement>, LoadError>)
    requires j <= |ks|
    ensures r.Ok? ==> j + |r.value| <= |ks|
    decreases |ks| - j
  {
    if j == |ks| then Ok([])
    else
      match ks[j].element
      case EndOfElements => Ok([])
      case Invalid(e) => Err(e)
      case Element(p) =>
        match ElementsFrom(ks, j + 1)
        case Err(e) => Err(e)
        case Ok(ps) => Ok([p] + ps)
  }

  /** The set rest read from line `j`, the line after the elements, if there is one. */
  function SetRestAt(ks: seq<LineKind>, j: nat): (r: Result<Option<nat>, LoadError>)
    requires j <= |ks|
    ensures r.Ok? && r.value.Some? ==> j < |ks|
  {
    if j == |ks| then Ok(None) else ks[j].setRest
  }

  /** One section, from its `Set` header at line `l`: the header, its
      elements and its optional set rest, and the line after them. */
  function SectionAt(ks: seq<LineKind>, l: nat): (r: Result<(WorkoutSet, nat), LoadError>)
    requires l < |ks|
    ensures r.Ok? ==> l < r.value.1 <= |ks|
  {
    match ks[l].header
    case None => Err(ExpectedSet)
    case Some(nameReps) =>
      match ElementsFrom(ks, l + 1)
      case Err(e) => Err(e)
      case Ok(parts) =>
        var afterParts := l + 1 + |parts|;
        match SetRestAt(ks, afterParts)
        case Err(e) => Err(e)
        case Ok(setRest) =>
          Ok((WorkoutSet(nameReps.0, parts, nameReps.1, setRest), afterParts + (if setRest.Some? then 1 else 0)))
  }

  /** The sections of a workout from line `l`, one after the other until the
      lines run out. */
  function SectionsFrom(ks: seq<LineKind>, l: nat): Result<seq<WorkoutSet>, LoadError>
    requires l <= |ks|
    decreases |ks| - l
  {
    if l == |ks| then Ok([])
    else
      match SectionAt(ks, l)
      case Err(e) => Err(e)
      case Ok((section, next)) => PrependSections([section], SectionsFrom(ks, next))
  }

  /** The workout named `name` with the sections read, or the error met
      reading them. */
  function NamedWorkout(name: string, r: Result<seq<WorkoutSet>, LoadError>): Result<Workout, LoadError>
  {
    match r
    case Err(e) => Err(e)
    case Ok(sections) => Ok(Workout(name, sections))
  }

  /** What `load_workout` makes of the non-blank lines of a text. */
  function LoadLines(lines: seq<string>): Result<Workout, LoadError>
  {
    if lines == [] then Err(EmptySource)
    else
      match StripPrefix(TrimStart(lines[0]), "Workout ")
      case None => Err(MissingWorkoutName)
      case Some(name) => NamedWorkout(name, SectionsFrom(ClassifyLines(lines), 1))
  }

  /** What `load_workout` returns for a whole text. */
  function LoadSpec(source: string): Result<Workout, LoadError>
  {
    LoadLines(NonBlankLines(source))
  }

  function PrependParts(parts: seq<WorkoutSetElement>, r: Result<seq<WorkoutSetElement>, LoadError>): Result<seq<WorkoutSetElement>, LoadError>
  {
    match r
    case Ok(ps) => Ok(parts + ps)
    case Err(e) => Err(e)
  }

  function PrependSections(secs: seq<WorkoutSet>, r: Result<seq<WorkoutSet>, LoadError>): Result<seq<WorkoutSet>, LoadError>
  {
    match r
    case Ok(ss) => Ok(secs + ss)
    case Err(e) => Err(e)
  }

  // ---------------------------------------------------------------------------
  // Lemmas that carry the loops of `load_workout`

  /** `ks` holds the classification of each of `lines`. */
  predicate Classified(lines: seq<string>, ks: seq<LineKind>)
  {
    |ks| == |lines| && forall i {:trigger Classify(lines[i])} :: 0 <= i < |lines| ==> ks[i] == Classify(lines[i])
  }

  /** Line `i` is classified on its own. */
  lemma {:induction false} ClassifyAt(ls: seq<string>, i: nat)
    requires i < |ls|
    ensures ClassifyLines(ls)[i] == Classify(ls[i])
  {
    if i > 0 {
      ClassifyAt(ls[1..], i - 1);
    }
  }

  lemma ClassifyLinesClassified(ls: seq<string>)
    ensures Classified(ls, ClassifyLines(ls))
  {
    forall i | 0 <= i < |ls|
      ensures ClassifyLines(ls)[i] == Classify(ls[i])
    {
      ClassifyAt(ls, i);
    }
  }

  /** A section whose header, elements and set rest all read. */
  lemma SectionOk(ks: seq<LineKind>, l: nat, nameReps: (Option<string>, U16), parts: seq<WorkoutSetElement>, setRest: Option<nat>)
    requires l < |ks| && ks[l].header == Some(nameReps)
    requires ElementsFrom(ks, l + 1) == Ok(parts)
    requires SetRestAt(ks, l + 1 + |parts|) == Ok(setRest)
    ensures SectionAt(ks, l) == Ok((WorkoutSet(nameReps.0, parts, nameReps.1, setRest), l + 1 + |parts| + (if setRest.Some? then 1 else 0)))
  {
  }

  /** The element loop keeps its invariant over an element line, ... */
  lemma ElementsAdvance(ks: seq<LineKind>, l: nat, k: nat, parts: seq<WorkoutSetElement>)
    requires l <= k < |ks| && ks[k].element.Element?
    requires ElementsFrom(ks, l) == PrependParts(parts, ElementsFrom(ks, k))
    ensures ElementsFrom(ks, l) == PrependParts(parts + [ks[k].element.part], ElementsFrom(ks, k + 1))
  {
    PartsAppend(parts, ks[k].element.part, ElementsFrom(ks, k + 1));
  }

  /** ... fails on an invalid one, ... */
  lemma ElementsFail(ks: seq<LineKind>, l: nat, k: nat, parts: seq<WorkoutSetElement>)
    requires l <= k < |ks| && ks[k].element.Invalid?
    requires ElementsFrom(ks, l) == PrependParts(parts, ElementsFrom(ks, k))
    ensures ElementsFrom(ks, l) == Err(ks[k].element.error)
  {
  }

  /** ... and is done at the end of the text or at a line that is no element. */
  lemma ElementsStop(ks: seq<LineKind>, l: nat, k: nat, parts: seq<WorkoutSetElement>)
    requires l <= k <= |ks| && (k == |ks| || ks[k].element.EndOfElements?)
    requires ElementsFrom(ks, l) == PrependParts(parts, ElementsFrom(ks, k))
    ensures ElementsFrom(ks, l) == Ok(parts)
  {
    assert parts + [] == parts;
  }

  lemma PartsAppend(parts: seq<WorkoutSetElement>, p: WorkoutSetElement, r: Result<seq<WorkoutSetElement>, LoadError>)
    ensures PrependParts(parts, PrependParts([p], r)) == PrependParts(parts + [p], r)
  {
    match r {
      case Ok(ps) => assert parts + ([p] + ps) == parts + [p] + ps;
      case Err(_) =>
    }
  }

  lemma PartsNothing(r: Result<seq<WorkoutSetElement>, LoadError>)
    ensures PrependParts([], r) == r
  {
    match r {
      case Ok(ps) => assert [] + ps == ps;
      case Err(_) =>
    }
  }

  lemma SectionsNothing(r: Result<seq<WorkoutSet>, LoadError>)
    ensures PrependSections([], r) == r
  {
    match r {
      case Ok(ss) => assert [] + ss == ss;
      case Err(_) =>
    }
  }

  lemma SectionsAppend(a: seq<WorkoutSet>, b: seq<WorkoutSet>, r: Result<seq<WorkoutSet>, LoadError>)
    ensures PrependSections(a, PrependSections(b, r)) == PrependSections(a + b, r)
  {
    match r {
      case Ok(ss) => assert a + (b + ss) == a + b + ss;
      case Err(_) =>
    }
  }

  // ---------------------------------------------------------------------------
  // The parser as `load_workout` runs it
  //
  // `ReadElementLine`, `ReadHeader` and `ReadSetRest` are the statements
  // `load_workout` runs on one line. Each is proved equal to one field of the
  // line's classification, so the loops that call them reason about one line
  // at a time.

  /** The body of the element loop for line `k`. */
  method ReadElementLine(lines: seq<string>, ghost ks: seq<LineKind>, k: nat) returns (p: ElementLine)
    requires Classified(lines, ks) && k < |lines|
    ensures p == ks[k].element
  {
    assert ks[k] == Classify(lines[k]);
    p := ParseElementLine(lines[k]);
  }

  /** The element loop of `load_workout`: from line `l`, push one element per
      line until a line ends the list; the cursor ends `|parts|` lines on. */
  method ReadElements(lines: seq<string>, ghost ks: seq<LineKind>, l: nat) returns (r: Result<seq<WorkoutSetElement>, LoadError>)
    requires Classified(lines, ks) && l <= |lines|
    ensures r == ElementsFrom(ks, l)
  {
    var parts: seq<WorkoutSetElement> := [];
    var k := l;
    PartsNothing(ElementsFrom(ks, l));
    while k < |lines|
      invariant l <= k <= |lines| && k == l + |parts|
      invariant ElementsFrom(ks, l) == PrependParts(parts, ElementsFrom(ks, k))
      decreases |lines| - k
    {
      var p := ReadElementLine(lines, ks, k);
      if p.EndOfElements? {
        break;
      }
      if p.Invalid? {
        ElementsFail(ks, l, k, parts);
        return Err(p.error);
      }
      ElementsAdvance(ks, l, k, parts);
      parts := parts + [p.part];
      k := k + 1;
    }
    ElementsStop(ks, l, k, parts);
    return Ok(parts);
  }

  /** The optional set-rest line at line `l`, as `load_workout` reads it. */
  method ReadSetRest(lines: seq<string>, ghost ks: seq<LineKind>, l: nat) returns (r: Result<Option<nat>, LoadError>)
    requires Classified(lines, ks) && l <= |lines|
    ensures r == SetRestAt(ks, l)
  {
    if l == |lines| {
      return Ok(None);
    }
    assert ks[l] == Classify(lines[l]);
    var arg := StripPrefix(TrimStart(lines[l]), "Set rest ");
    if arg.None? {
      return Ok(None);
    }
    var d := ParseDur(arg.value);
    if d.Ok? {
      return Ok(Some(d.value));
    } else if d.error == Malformed {
      return Err(MalformedDuration);
    }
    return Ok(None);
  }

  /** The `Set` header at line `l`: its name and repetition count. */
  method ReadHeader(lines: seq<string>, ghost ks: seq<LineKind>, l: nat) returns (h: Option<(Option<string>, U16)>)
    requires Classified(lines, ks) && l < |lines|
    ensures h == ks[l].header
  {
    assert ks[l] == Classify(lines[l]);
    var afterSet := StripPrefix(TrimStart(lines[l]), "Set");
    if afterSet.None? {
      return None;
    }
    return Some(GetNameReps(afterSet.value));
  }

  /** One pass of the section loop of `load_workout`, from the header at line
      `l`: the section and the line after it. */
  method ReadSection(lines: seq<string>, ghost ks: seq<LineKind>, l: nat) returns (r: Result<(WorkoutSet, nat), LoadError>)
    requires Classified(lines, ks) && l < |lines|
    ensures r == SectionAt(ks, l)
  {
    var header := ReadHeader(lines, ks, l);
    if header.None? {
      return Err(ExpectedSet);
    }
    var nameReps := header.value;
    var elements := ReadElements(lines, ks, l + 1);
    if elements.Err? {
      return Err(elements.error);
    }
    var parts := elements.value;
    var next := l + 1 + |parts|;
    var setRest := ReadSetRest(lines, ks, next);
    if setRest.Err? {
      return Err(setRest.error);
    }
    if setRest.value.Some? {
      next := next + 1;
    }
    SectionOk(ks, l, nameReps, parts, setRest.value);
    return Ok((WorkoutSet(nameReps.0, parts, nameReps.1, setRest.value), next));
  }

  /** The section loop of `load_workout`: from line `l0` to the end of the
      text, one section per pass. */
  method ReadSections(lines: seq<string>, ghost ks: seq<LineKind>, l0: nat) returns (r: Result<seq<WorkoutSet>, LoadError>)
    requires Classified(lines, ks) && l0 <= |lines|
    ensures r == SectionsFrom(ks, l0)
  {
    var l := l0;
    var sections: seq<WorkoutSet> := [];
    SectionsNothing(SectionsFrom(ks, l0));
    while l < |lines|
      invariant l0 <= l <= |lines|
      invariant SectionsFrom(ks, l0) == PrependSections(sections, SectionsFrom(ks, l))
      decreases |lines| - l
    {
      var next := ReadSection(lines, ks, l);
      if next.Err? {
        return Err(next.error);
      }
      var (section, after) := next.value;
      SectionsAppend(sections, [section], SectionsFrom(ks, after));
      sections := sections + [section];
      l := after;
    }
    assert sections + [] == sections;
    return Ok(sections);
  }

  /** `load_workout`: the `Workout` line, then the sections. */
  method LoadWorkout(source: string) returns (r: Result<Workout, LoadError>)
    ensures r == LoadSpec(source)
  {
    var lines := NonBlankLines(source);
    if |lines| == 0 {
      return Err(EmptySource);
    }
    var header := StripPrefix(TrimStart(lines[0]), "Workout ");
    if header.None? {
      return Err(MissingWorkoutName);
    }
    ClassifyLinesClassified(lines);
    var sections := ReadSections(lines, ClassifyLines(lines), 1);
    if sections.Err? {
      return Err(sections.error);
    }
    return Ok(Workout(header.value, sections.value));
  }
}
