/** `parse_from` of src/main.rs: the optional second command-line argument
    `SET[/SET_REP].EXCERCISE`, 1-based, read as a 0-based start position. */
module StartPosition {
  import opened Basics
  import opened Text

  /** Why a start position does not parse, in the order `parse_from` checks:
      no `.` at all, then the repetition, then the set, then the exercise. */
  datatype FromError = BadFormat | BadSetRep | BadSet | BadExcercise

  /** A component parsed as `u16` and counted from 1: `saturating_sub(1)`. */
  function Component(s: string): (r: Option<U16>)
    ensures r.Some? <==> ParseUnsigned(s, U16Max).Some?
    ensures r.Some? ==> r.value == SatSub(ParseUnsigned(s, U16Max).value, 1) && r.value <= 65534
  {
    match ParseUnsigned(s, U16Max)
    case None => None
    case Some(n) => Some(SatSub(n, 1))
  }

  /** `parse_from`: split at the first `.`; the set part at its first `/`
      gives the repetition (0 when there is none). */
  function ParseFrom(s: string): (r: Result<(U16, U16, U16), FromError>)
    ensures r == Err(BadFormat) <==> '.' !in s
    ensures r.Ok? ==> r.value.0 <= 65534 && r.value.1 <= 65534 && r.value.2 <= 65534
  {
    match SplitOnce(s, '.')
    case None => Err(BadFormat)
    case Some((setPart, excercise)) =>
      var setAndRep: Result<(string, U16), FromError> :=
        match SplitOnce(setPart, '/')
        case None => Ok((setPart, 0))
        case Some((seti, srep)) =>
          (match Component(srep)
           case None => Err(BadSetRep)
           case Some(rep) => Ok((seti, rep)));
      match setAndRep
      case Err(e) => Err(e)
      case Ok((setNum, rep)) =>
        match (Component(setNum), Component(excercise))
        case (None, _) => Err(BadSet)
        case (Some(_), None) => Err(BadExcercise)
        case (Some(si), Some(ei)) => Ok((si, rep, ei))
  }

  /** The start position used by `main`: (0, 0, 0) without an argument. */
  function StartFrom(arg: Option<string>): (r: Result<(U16, U16, U16), FromError>)
    ensures arg.None? ==> r == Ok((0, 0, 0))
    ensures arg.Some? ==> r == ParseFrom(arg.value)
    ensures r == Err(BadFormat) <==> arg.Some? && '.' !in arg.value
    ensures r.Ok? ==> r.value.0 <= 65534 && r.value.1 <= 65534 && r.value.2 <= 65534
  {
    match arg
    case None => Ok((0, 0, 0))
    case Some(a) => ParseFrom(a)
  }

  // ---------------------------------------------------------------------------
  // Properties

  /** An argument with a repetition part parses component by component,
      the repetition checked first. */
  lemma ParseFromWithRep(x: string, y: string, z: string)
    requires '.' !in x && '/' !in x && '.' !in y
    ensures ParseFrom(x + "/" + y + "." + z) ==
      if Component(y).None? then Err(BadSetRep)
      else if Component(x).None? then Err(BadSet)
      else if Component(z).None? then Err(BadExcercise)
      else Ok((Component(x).value, Component(y).value, Component(z).value))
  {
    var setPart := x + ['/'] + y;
    assert '.' !in setPart;
    assert x + "/" + y + "." + z == setPart + ['.'] + z;
    SplitOnceAt(setPart, z, '.');
    SplitOnceAt(x, y, '/');
  }

  /** An argument without a repetition part has repetition 0. */
  lemma ParseFromNoRep(x: string, z: string)
    requires '.' !in x && '/' !in x
    ensures ParseFrom(x + "." + z) ==
      if Component(x).None? then Err(BadSet)
      else if Component(z).None? then Err(BadExcercise)
      else Ok((Component(x).value, 0, Component(z).value))
  {
    assert x + "." + z == x + ['.'] + z;
    SplitOnceAt(x, z, '.');
  }

  /** The 1-based decimal text of a 0-based component. */
  lemma ComponentOfDec(a: nat)
    requires a < 65535
    ensures Component(NatToDec(a + 1)) == Some(a)
    ensures '.' !in NatToDec(a + 1) && '/' !in NatToDec(a + 1)
  {
    NatToDecRoundTrip(a + 1, U16Max);
    DigitsExclude(NatToDec(a + 1), '.');
    DigitsExclude(NatToDec(a + 1), '/');
  }

  /** Printing a 0-based position 1-based, as `SET/SET_REP.EXCERCISE`, and
      parsing it gives the position back. */
  lemma ParseFromRoundTrip(a: nat, b: nat, c: nat)
    requires a < 65535 && b < 65535 && c < 65535
    ensures ParseFrom(NatToDec(a + 1) + "/" + NatToDec(b + 1) + "." + NatToDec(c + 1)) == Ok((a, b, c))
  {
    ComponentOfDec(a);
    ComponentOfDec(b);
    ComponentOfDec(c);
    ParseFromWithRep(NatToDec(a + 1), NatToDec(b + 1), NatToDec(c + 1));
  }

  /** Without a repetition part the repetition is 0. */
  lemma ParseFromRoundTripNoRep(a: nat, c: nat)
    requires a < 65535 && c < 65535
    ensures ParseFrom(NatToDec(a + 1) + "." + NatToDec(c + 1)) == Ok((a, 0, c))
  {
    ComponentOfDec(a);
    ComponentOfDec(c);
    ParseFromNoRep(NatToDec(a + 1), NatToDec(c + 1));
  }

  /** A text that names the first item in every place. */
  lemma AllFirst(x: string)
    requires '.' !in x && '/' !in x && Component(x) == Some(0)
    ensures ParseFrom(x + "/" + x + "." + x) == Ok((0, 0, 0))
  {
    ParseFromWithRep(x, x, x);
  }

  /** `0` counts from 1 and saturates to the first item. */
  lemma ZeroComponent(x: string)
    requires x == "0"
    ensures Component(x) == Some(0) && '.' !in x && '/' !in x
  {
    assert x == NatToDec(0);
    NatToDecRoundTrip(0, U16Max);
  }

  /** `0` names the first set, repetition or exercise, ... */
  lemma ZeroIsFirst()
    ensures ParseFrom("0/0.0") == Ok((0, 0, 0))
  {
    assert "0/0.0" == "0" + "/" + "0" + "." + "0";
    ZeroComponent("0");
    AllFirst("0");
  }

  /** ... and so does `1`. */
  lemma OneIsFirst()
    ensures ParseFrom("1/1.1") == Ok((0, 0, 0))
  {
    assert "1/1.1" == "1" + "/" + "1" + "." + "1";
    assert NatToDec(1) == "1";
    ComponentOfDec(0);
    AllFirst("1");
  }

  /** An exercise part that holds another `.` never parses. */
  lemma SecondDotFails(setNum: string, ex: string)
    requires '.' !in setNum && '.' in ex
    ensures ParseFrom(setNum + ['.'] + ex).Err?
  {
    SplitOnceAt(setNum, ex, '.');
    var i :| 0 <= i < |Unsigned(ex)| && Unsigned(ex)[i] == '.' by {
      var k :| 0 <= k < |ex| && ex[k] == '.';
      if |ex| > 0 && ex[0] == '+' {
        assert Unsigned(ex)[k - 1] == '.';
      } else {
        assert Unsigned(ex)[k] == '.';
      }
    }
    assert !AllDigits(Unsigned(ex));
  }

  /** Asking to start from `1.1` is asking to start from the beginning. */
  lemma FirstExerciseIsDefault()
    ensures StartFrom(Some("1.1")) == StartFrom(None)
  {
    assert Component("1") == Some(0) by {
      NatToDecRoundTrip(1, U16Max);
      assert NatToDec(1) == "1";
    }
    ParseFromNoRep("1", "1");
    assert "1" + "." + "1" == "1.1";
  }
}
