/** The abbreviated flight-plan parser (pkg/sim/nas.go:921-1063): the
    tokens a controller types are classified one by one, first match
    wins, into the fields of an abbreviated plan.

    `Visit` states what one token does and `ParseTokens` what a run of
    tokens does; the method `ParseAbbreviatedFPFields` is the token loop
    of the source, proved to compute `Parse`. The aircraft performance
    database, av.ParseSquawk and the facility's AllowLongScratchpad flags
    come in through `AvDatabase` and `STARSFacilityAdaptation`. */
module Parser {
  import opened Common
  import opened Squawks
  import opened Messages
  import opened Adaptation

  /** AbbreviatedFPFields; `error` is None where the source leaves it nil. */
  datatype AbbreviatedFPFields = AbbreviatedFPFields(
    acid: string,
    bcn: Squawk,
    controllingPosition: string,
    typeOfFlight: string,
    sc1: string,
    sc2: string,
    aircraftType: string,
    requestedALT: string,
    rules: FlightRules,
    departureAirport: string,
    error: Option<Error>)

  /** The zero value the parser starts from. */
  const EmptyFields := AbbreviatedFPFields("", 0, "", "", "", "", "", "", UnknownRules, "", None)

  /** STARSTriangleCharacter, string(rune(0x80)): the two bytes of its UTF-8 encoding. */
  const Triangle: string := [0xC2 as char, 0x80 as char]

  /** Scratchpad texts the parser refuses. */
  const BadScratchpads: seq<string> := ["NAT", "CST", "AMB", "RDR", "ADB", "XXX"]

  /** The letters that open a flight-type-plus-airport token. */
  const FlightTypes: seq<string> := ["A", "P", "E"]

  /** What the loop does after one token: go on to the next one with the
      fields so far, return them, or panic (a slice or index out of range). */
  datatype ParseStep = Next(out: AbbreviatedFPFields) | Stop(out: AbbreviatedFPFields) | Panic

  /** A first token the parser accepts as the aircraft identifier. */
  predicate ValidACID(s: string)
  {
    2 <= |s| <= 7 && IsLetterByte(s[0])
  }

  /** s[:1] and s[1:], written so that they are defined for every string. */
  function FirstByte(s: string): string
  {
    if |s| > 0 then s[..1] else ""
  }

  function AfterFirstByte(s: string): string
  {
    if |s| > 0 then s[1..] else ""
  }

  /** The guard of the first scratchpad test. */
  predicate Scratchpad1Shape(adapt: STARSFacilityAdaptation, field: string)
  {
    (HasPrefix(field, Triangle) && 3 < |field| <= 5) || (|field| <= 6 && adapt.allowLongScratchpad.0)
  }

  /** The guard of the second scratchpad test. */
  predicate Scratchpad2Shape(adapt: STARSFacilityAdaptation, field: string)
  {
    HasPrefix(field, "+") && |field| > 2 && (|field| <= 4 || (|field| <= 5 && adapt.allowLongScratchpad.1))
  }

  /** A scratchpad that ends in three digits is flagged, but still stored. */
  function FlagNumericScratchpad(out: AbbreviatedFPFields, field: string): AbbreviatedFPFields
    requires |field| >= 3
  {
    if IsAllNumbers(field[|field| - 3..]) then out.(error := Some(ErrIllegalScratchpad)) else out
  }

  /** One token, in the order of the source's tests. */
  function Visit(adapt: STARSFacilityAdaptation, db: AvDatabase, out: AbbreviatedFPFields, field: string): ParseStep
  {
    if db.parseSquawk(field).Some? then Next(out.(bcn := db.parseSquawk(field).value))
    else if |field| == 2 then Next(out.(controllingPosition := field))
    else if |field| == 2 && FirstByte(field) in FlightTypes then
      Next(out.(typeOfFlight := FirstByte(field), departureAirport := AfterFirstByte(field)))
    else
      var typed :=
        if field == "A" then out.(typeOfFlight := "arrival")
        else if field == "P" then out.(typeOfFlight := "departure")
        else if field == "E" then out.(typeOfFlight := "overflight")
        else out;
      Scratchpad1(adapt, db, typed, field)
  }

  /** The first scratchpad test; a blacklisted text ends the parse. */
  function Scratchpad1(adapt: STARSFacilityAdaptation, db: AvDatabase, out: AbbreviatedFPFields, field: string): ParseStep
  {
    if !Scratchpad1Shape(adapt, field) then Scratchpad2(adapt, db, out, field)
    else if field in BadScratchpads then Stop(out.(error := Some(ErrIllegalScratchpad)))
    else if |field| < 3 then Panic
    else Scratchpad2(adapt, db, FlagNumericScratchpad(out, field).(sc1 := field), field)
  }

  /** The second scratchpad test, with the same blacklist. */
  function Scratchpad2(adapt: STARSFacilityAdaptation, db: AvDatabase, out: AbbreviatedFPFields, field: string): ParseStep
  {
    if !Scratchpad2Shape(adapt, field) then LastTests(db, out, field)
    else if field in BadScratchpads then Stop(out.(error := Some(ErrIllegalScratchpad)))
    else LastTests(db, FlagNumericScratchpad(out, field).(sc2 := field), field)
  }

  /** The aircraft type, the requested altitude and the flight rules. */
  function LastTests(db: AvDatabase, out: AbbreviatedFPFields, field: string): ParseStep
  {
    if |field| >= 4 then AircraftField(db, out, field)
    else if |field| == 3 && IsAllNumbers(field) then Next(out.(requestedALT := field))
    else if |field| == 2 then RulesCode(out, field)
    else Next(out)
  }

  /** A token of four or more bytes read as an aircraft type: TYPE,
      COUNT/TYPE, TYPE/EQUIPMENT or COUNT/TYPE/EQUIPMENT. */
  function AircraftField(db: AvDatabase, out: AbbreviatedFPFields, field: string): ParseStep
  {
    var ac := Split(field, '/');
    if |ac| == 1 then
      if field !in db.aircraftPerformance then Next(out.(error := Some(ErrIllegalACType)))
      else Next(out.(aircraftType := field))
    else if |ac| == 2 then
      if IsAllNumbers(ac[0]) then
        if |ac[1]| == 0 then Panic
        else if !IsLetterByte(ac[1][0]) then Stop(out.(error := Some(ErrInvalidAbbreviatedFP)))
        else if ac[1] !in db.aircraftPerformance then Next(out.(error := Some(ErrIllegalACType)))
        else Next(out.(aircraftType := field))
      else if |ac[1]| > 1 || !IsAllLetters(ac[1]) then Stop(out.(error := Some(ErrInvalidAbbreviatedFP)))
      else if ac[0] !in db.aircraftPerformance then Next(out.(error := Some(ErrIllegalACType)))
      else Next(out.(aircraftType := field))
    else if |ac| == 3 then
      if |ac[2]| > 1 || !IsAllLetters(ac[2]) then Stop(out.(error := Some(ErrInvalidAbbreviatedFP)))
      else if |ac[1]| == 0 then Panic
      else if !IsLetterByte(ac[1][0]) then Stop(out.(error := Some(ErrInvalidAbbreviatedFP)))
      else if ac[1] !in db.aircraftPerformance then Next(out.(error := Some(ErrIllegalACType)))
      else Next(out.(aircraftType := field))
    else Next(out)
  }

  /** A two-byte ".V", ".P" or ".E" flight-rules code. */
  function RulesCode(out: AbbreviatedFPFields, field: string): ParseStep
  {
    var code := AfterFirstByte(field);
    if !HasPrefix(field, ".") then Stop(out.(error := Some(ErrInvalidAbbreviatedFP)))
    else if code == "V" || code == "P" then Next(out.(rules := VFR))
    else if code == "E" then Next(out.(rules := IFR))
    else Stop(out.(error := Some(ErrInvalidAbbreviatedFP)))
  }

  /** The tokens in turn, from the fields `out` holds so far. */
  function ParseTokens(adapt: STARSFacilityAdaptation, db: AvDatabase, out: AbbreviatedFPFields, tokens: seq<string>): ParseStep
    decreases |tokens|
  {
    if |tokens| == 0 then Next(out)
    else
      match Visit(adapt, db, out, tokens[0])
      case Next(o) => ParseTokens(adapt, db, o, tokens[1..])
      case Stop(o) => Stop(o)
      case Panic => Panic
  }

  /** The whole parse: the identifier, then every other token. */
  function Parse(adapt: STARSFacilityAdaptation, db: AvDatabase, fields: seq<string>): ParseStep
  {
    if |fields| == 0 then Panic
    else if !ValidACID(fields[0]) then Stop(EmptyFields.(error := Some(ErrIllegalACID)))
    else ParseTokens(adapt, db, EmptyFields.(acid := fields[0]), fields[1..])
  }

  /** What is left of a parse after a first stretch of tokens ended in `s`. */
  function Then(adapt: STARSFacilityAdaptation, db: AvDatabase, s: ParseStep, rest: seq<string>): ParseStep
  {
    match s
    case Next(o) => ParseTokens(adapt, db, o, rest)
    case Stop(o) => Stop(o)
    case Panic => Panic
  }

  /** ParseAbbreviatedFPFields. `panicked` reports the runs the source
      aborts: no token at all, or a token its slicing cannot handle.
      The body of the token loop is `VisitToken` and the methods it
      hands on to. The two-byte flight-type-plus-airport test and the
      closing flight-rules test of the source are not written out there:
      every two-byte token has been taken as a controlling position
      before them (see `ParsedFields`). */
  method ParseAbbreviatedFPFields(adapt: STARSFacilityAdaptation, db: AvDatabase, fields: seq<string>)
    returns (output: AbbreviatedFPFields, panicked: bool)
    ensures panicked <==> Parse(adapt, db, fields).Panic?
    ensures !panicked ==> output == Parse(adapt, db, fields).out
    ensures |fields| > 0 && !ValidACID(fields[0]) ==>
      !panicked && output == EmptyFields.(error := Some(ErrIllegalACID))
  {
    output := EmptyFields;
    panicked := false;
    if |fields| == 0 {
      panicked := true;
      return;
    }
    if 2 <= |fields[0]| <= 7 && IsLetterByte(fields[0][0]) {
      output := output.(acid := fields[0]);
    } else {
      output := output.(error := Some(ErrIllegalACID));
      return;
    }
    var i := 1;
    while i < |fields|
      invariant 1 <= i <= |fields|
      invariant !panicked
      invariant ParseTokens(adapt, db, output, fields[i..]) == Parse(adapt, db, fields)
    {
      var field := fields[i];
      assert fields[i..] == [field] + fields[i + 1..];
      i := i + 1;
      var step := VisitToken(adapt, db, output, field);
      match step
      case Next(o) =>
        output := o;
      case Stop(o) =>
        output := o;
        return;
      case Panic =>
        panicked := true;
        return;
    }
  }

  /** The body of the token loop: what one token does to the fields.
      `Next` stands for the source's `continue`, `Stop` for its early
      `return`. */
  method VisitToken(adapt: STARSFacilityAdaptation, db: AvDatabase, out: AbbreviatedFPFields, field: string)
    returns (step: ParseStep)
    ensures step == Visit(adapt, db, out, field)
  {
    var output := out;
    var sq := db.parseSquawk(field);
    if sq.Some? {
      return Next(output.(bcn := sq.value));
    }
    if |field| == 2 {
      return Next(output.(controllingPosition := field));
    }
    if |field| == 1 {
      if field == "A" {
        output := output.(typeOfFlight := "arrival");
      } else if field == "P" {
        output := output.(typeOfFlight := "departure");
      } else if field == "E" {
        output := output.(typeOfFlight := "overflight");
      }
    }

    if (HasPrefix(field, Triangle) && 3 < |field| <= 5) || (|field| <= 6 && adapt.allowLongScratchpad.0) {
      if field in BadScratchpads {
        return Stop(output.(error := Some(ErrIllegalScratchpad)));
      }
      if |field| < 3 {
        return Panic;
      }
      if IsAllNumbers(field[|field| - 3..]) {
        output := output.(error := Some(ErrIllegalScratchpad));
      }
      output := output.(sc1 := field);
    }
    step := LaterTests(adapt, db, output, field);
  }

  /** The rest of the loop body, from the second scratchpad test on.
      Two-byte tokens never get this far, so the closing flight-rules
      test is not written out. */
  method LaterTests(adapt: STARSFacilityAdaptation, db: AvDatabase, out: AbbreviatedFPFields, field: string)
    returns (step: ParseStep)
    requires |field| != 2
    ensures step == Scratchpad2(adapt, db, out, field)
  {
    var output := out;
    if HasPrefix(field, "+") && |field| > 2 && (|field| <= 4 || (|field| <= 5 && adapt.allowLongScratchpad.1)) {
      PlusToken(field);
      if IsAllNumbers(field[|field| - 3..]) {
        output := output.(error := Some(ErrIllegalScratchpad));
      }
      output := output.(sc2 := field);
    }
    step := FinalTests(db, output, field);
  }

  /** The aircraft-type and requested-altitude tests that end the loop body. */
  method FinalTests(db: AvDatabase, out: AbbreviatedFPFields, field: string) returns (step: ParseStep)
    requires |field| != 2
    ensures step == LastTests(db, out, field)
  {
    if |field| >= 4 {
      step := AircraftToken(db, out, field);
      return;
    }
    if |field| == 3 && IsAllNumbers(field) {
      return Next(out.(requestedALT := field));
    }
    return Next(out);
  }

  /** A token that starts with '+' is neither blacklisted nor a number. */
  lemma PlusToken(field: string)
    requires HasPrefix(field, "+")
    ensures field !in BadScratchpads && !IsAllNumbers(field)
  {
    assert field[0] == '+';
  }

  /** The aircraft-type test of the token loop: the token is split at
      '/' and read by the number of its parts. */
  method AircraftToken(db: AvDatabase, output: AbbreviatedFPFields, field: string) returns (step: ParseStep)
    ensures step == AircraftField(db, output, field)
  {
    var acFields := Split(field, '/');
    if |acFields| == 1 {
      if field !in db.aircraftPerformance {
        return Next(output.(error := Some(ErrIllegalACType)));
      }
      return Next(output.(aircraftType := field));
    } else if |acFields| == 2 {
      if IsAllNumbers(acFields[0]) {
        if |acFields[1]| == 0 {
          return Panic;
        }
        if !IsLetterByte(acFields[1][0]) {
          return Stop(output.(error := Some(ErrInvalidAbbreviatedFP)));
        }
        if acFields[1] !in db.aircraftPerformance {
          return Next(output.(error := Some(ErrIllegalACType)));
        }
        return Next(output.(aircraftType := field));
      } else {
        if |acFields[1]| > 1 || !IsAllLetters(acFields[1]) {
          return Stop(output.(error := Some(ErrInvalidAbbreviatedFP)));
        }
        if acFields[0] !in db.aircraftPerformance {
          return Next(output.(error := Some(ErrIllegalACType)));
        }
        return Next(output.(aircraftType := field));
      }
    } else if |acFields| == 3 {
      if |acFields[2]| > 1 || !IsAllLetters(acFields[2]) {
        return Stop(output.(error := Some(ErrInvalidAbbreviatedFP)));
      }
      if |acFields[1]| == 0 {
        return Panic;
      }
      if !IsLetterByte(acFields[1][0]) {
        return Stop(output.(error := Some(ErrInvalidAbbreviatedFP)));
      }
      if acFields[1] !in db.aircraftPerformance {
        return Next(output.(error := Some(ErrIllegalACType)));
      }
      return Next(output.(aircraftType := field));
    }
    return Next(output);
  }

  // ---------------------------------------------------------------------
  // Properties of the parse

  /** Parsing two stretches of tokens is parsing the first, then the
      second from where the first left off. */
  lemma {:induction false} ParseAppend(adapt: STARSFacilityAdaptation, db: AvDatabase, out: AbbreviatedFPFields,
                                       a: seq<string>, b: seq<string>)
    ensures ParseTokens(adapt, db, out, a + b) == Then(adapt, db, ParseTokens(adapt, db, out, a), b)
    decreases |a|
  {
    if |a| == 0 {
      assert a + b == b;
    } else {
      assert (a + b)[0] == a[0];
      assert (a + b)[1..] == a[1..] + b;
      match Visit(adapt, db, out, a[0])
      case Next(o) => ParseAppend(adapt, db, o, a[1..], b);
      case Stop(o) =>
      case Panic =>
    }
  }

  /** A token that av.ParseSquawk accepts sets the beacon code and nothing
      else, wherever it stands, once the tokens before it have not ended
      the parse. */
  lemma SquawkTokenSetsBCN(adapt: STARSFacilityAdaptation, db: AvDatabase, out: AbbreviatedFPFields,
                           before: seq<string>, t: string, after: seq<string>)
    requires db.parseSquawk(t).Some?
    ensures var s := ParseTokens(adapt, db, out, before);
      ParseTokens(adapt, db, out, before + [t] + after) ==
        if s.Next? then ParseTokens(adapt, db, s.out.(bcn := db.parseSquawk(t).value), after) else s
  {
    assert before + [t] + after == before + ([t] + after);
    ParseAppend(adapt, db, out, before, [t] + after);
    assert ([t] + after)[1..] == after;
  }

  /** Any other two-byte token becomes the controlling position, and the
      parser moves on to the next token. */
  lemma TwoByteTokenSetsPosition(adapt: STARSFacilityAdaptation, db: AvDatabase, out: AbbreviatedFPFields,
                                 before: seq<string>, t: string, after: seq<string>)
    requires db.parseSquawk(t).None? && |t| == 2
    ensures var s := ParseTokens(adapt, db, out, before);
      ParseTokens(adapt, db, out, before + [t] + after) ==
        if s.Next? then ParseTokens(adapt, db, s.out.(controllingPosition := t), after) else s
  {
    assert before + [t] + after == before + ([t] + after);
    ParseAppend(adapt, db, out, before, [t] + after);
    assert ([t] + after)[1..] == after;
  }

  /** A blacklisted scratchpad ends the parse with ErrIllegalScratchpad
      when the facility allows long first scratchpads (only then does a
      three-byte token pass the scratchpad guard); otherwise the token
      changes nothing. The tokens after it are never looked at in the
      first case. */
  lemma BadScratchpadStops(adapt: STARSFacilityAdaptation, db: AvDatabase, out: AbbreviatedFPFields,
                           before: seq<string>, t: string, after: seq<string>)
    requires t in BadScratchpads && db.parseSquawk(t).None?
    ensures var s := ParseTokens(adapt, db, out, before);
      ParseTokens(adapt, db, out, before + [t] + after) ==
        if !s.Next? then s
        else if adapt.allowLongScratchpad.0 then Stop(s.out.(error := Some(ErrIllegalScratchpad)))
        else ParseTokens(adapt, db, s.out, after)
  {
    assert before + [t] + after == before + ([t] + after);
    ParseAppend(adapt, db, out, before, [t] + after);
    assert ([t] + after)[1..] == after;
    assert |t| == 3 && !HasPrefix(t, Triangle) && !HasPrefix(t, "+") && !IsDigit(t[0]);
  }

  /** The fields a run of tokens never changes: the identifier, the flight
      rules and the departure airport. */
  predicate Kept(before: AbbreviatedFPFields, after: AbbreviatedFPFields)
  {
    after.acid == before.acid && after.rules == before.rules && after.departureAirport == before.departureAirport
  }

  /** What holds of every outcome from `out`: a panic, or fields that keep
      what `Kept` names, with an error recorded on every early return. */
  predicate Sound(out: AbbreviatedFPFields, s: ParseStep)
  {
    s.Panic? || (Kept(out, s.out) && (s.Stop? ==> s.out.error.Some?))
  }

  lemma AircraftFieldSound(db: AvDatabase, out: AbbreviatedFPFields, field: string)
    ensures Sound(out, AircraftField(db, out, field))
  {
  }

  lemma LastTestsSound(db: AvDatabase, out: AbbreviatedFPFields, field: string)
    requires |field| != 2
    ensures Sound(out, LastTests(db, out, field))
  {
    AircraftFieldSound(db, out, field);
  }

  lemma Scratchpad2Sound(adapt: STARSFacilityAdaptation, db: AvDatabase, out: AbbreviatedFPFields, field: string)
    requires |field| != 2
    ensures Sound(out, Scratchpad2(adapt, db, out, field))
  {
    LastTestsSound(db, out, field);
    if Scratchpad2Shape(adapt, field) {
      PlusToken(field);
      LastTestsSound(db, FlagNumericScratchpad(out, field).(sc2 := field), field);
    }
  }

  lemma Scratchpad1Sound(adapt: STARSFacilityAdaptation, db: AvDatabase, out: AbbreviatedFPFields, field: string)
    requires |field| != 2
    ensures Sound(out, Scratchpad1(adapt, db, out, field))
  {
    Scratchpad2Sound(adapt, db, out, field);
    if Scratchpad1Shape(adapt, field) && |field| >= 3 {
      Scratchpad2Sound(adapt, db, FlagNumericScratchpad(out, field).(sc1 := field), field);
    }
  }

  /** One token keeps the identifier, the rules and the departure airport,
      and an early return always records an error. */
  lemma VisitSound(adapt: STARSFacilityAdaptation, db: AvDatabase, out: AbbreviatedFPFields, field: string)
    ensures Sound(out, Visit(adapt, db, out, field))
  {
    if db.parseSquawk(field).None? && |field| != 2 {
      var typed :=
        if field == "A" then out.(typeOfFlight := "arrival")
        else if field == "P" then out.(typeOfFlight := "departure")
        else if field == "E" then out.(typeOfFlight := "overflight")
        else out;
      Scratchpad1Sound(adapt, db, typed, field);
    }
  }

  /** The same of any run of tokens. */
  lemma {:induction false} TokensSound(adapt: STARSFacilityAdaptation, db: AvDatabase, out: AbbreviatedFPFields,
                                       tokens: seq<string>)
    ensures Sound(out, ParseTokens(adapt, db, out, tokens))
    decreases |tokens|
  {
    if |tokens| > 0 {
      VisitSound(adapt, db, out, tokens[0]);
      match Visit(adapt, db, out, tokens[0])
      case Next(o) => TokensSound(adapt, db, o, tokens[1..]);
      case Stop(o) =>
      case Panic =>
    }
  }

  /** A parse that does not panic keeps the identifier it accepted and
      records an error whenever it returns early; as written, it never
      sets the flight rules or the departure airport, because ".V" and
      "P3" are two-byte tokens and so controlling positions. */
  lemma ParsedFields(adapt: STARSFacilityAdaptation, db: AvDatabase, fields: seq<string>)
    ensures var r := Parse(adapt, db, fields);
      !r.Panic? ==>
        && (ValidACID(fields[0]) ==> r.out.acid == fields[0])
        && (!ValidACID(fields[0]) ==> r == Stop(EmptyFields.(error := Some(ErrIllegalACID))))
        && (r.Stop? ==> r.out.error.Some?)
        && r.out.rules == UnknownRules
        && r.out.departureAirport == ""
  {
    if |fields| > 0 && ValidACID(fields[0]) {
      TokensSound(adapt, db, EmptyFields.(acid := fields[0]), fields[1..]);
    }
  }

  /** A plain aircraft type the performance database knows, in a token
      that no earlier test takes, sets the aircraft type. */
  lemma KnownTypeToken(adapt: STARSFacilityAdaptation, db: AvDatabase, out: AbbreviatedFPFields, t: string)
    requires db.parseSquawk(t).None? && |t| >= 4 && '/' !in t && t in db.aircraftPerformance
    requires !Scratchpad1Shape(adapt, t) && !HasPrefix(t, "+")
    ensures Visit(adapt, db, out, t) == Next(out.(aircraftType := t))
  {
    SplitWithoutSeparator(t, '/');
  }

  /** The entry "UAL123 1234 P35 B738 .V" as the code reads it: the
      squawk and the aircraft type are taken, "P35" is ignored when long
      first scratchpads are not allowed, and ".V" becomes the controlling
      position; the flight type and the rules stay unset. */
  lemma ExampleEntry(adapt: STARSFacilityAdaptation, db: AvDatabase)
    requires db.parseSquawk("1234") == Some(668)
    requires db.parseSquawk("P35") == None && db.parseSquawk("B738") == None && db.parseSquawk(".V") == None
    requires "B738" in db.aircraftPerformance && !adapt.allowLongScratchpad.0
    ensures Parse(adapt, db, ["UAL123", "1234", "P35", "B738", ".V"]) ==
      Next(EmptyFields.(acid := "UAL123", bcn := 668, controllingPosition := ".V", aircraftType := "B738"))
  {
    var o1 := EmptyFields.(acid := "UAL123");
    var o2 := o1.(bcn := 668);
    var o3 := o2.(aircraftType := "B738");
    assert ValidACID("UAL123");
    assert Visit(adapt, db, o2, "P35") == Next(o2) by {
      assert "P35"[..1] == "P" && "P35"[0] == 'P';
    }
    assert Visit(adapt, db, o2, "B738") == Next(o3) by {
      assert "B738"[..1] == "B" && "B738"[..2] == "B7";
      KnownTypeToken(adapt, db, o2, "B738");
    }
    calc {
      Parse(adapt, db, ["UAL123", "1234", "P35", "B738", ".V"]);
      { assert ["UAL123", "1234", "P35", "B738", ".V"][1..] == ["1234", "P35", "B738", ".V"]; }
      ParseTokens(adapt, db, o1, ["1234", "P35", "B738", ".V"]);
      { assert ["1234", "P35", "B738", ".V"][1..] == ["P35", "B738", ".V"]; }
      ParseTokens(adapt, db, o2, ["P35", "B738", ".V"]);
      { assert ["P35", "B738", ".V"][1..] == ["B738", ".V"]; }
      ParseTokens(adapt, db, o2, ["B738", ".V"]);
      { assert ["B738", ".V"][1..] == [".V"]; }
      ParseTokens(adapt, db, o3, [".V"]);
      { assert [".V"][1..] == []; }
      Next(o3.(controllingPosition := ".V"));
    }
  }
}
