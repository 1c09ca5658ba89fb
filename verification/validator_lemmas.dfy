/**
 Properties of kafo's validator that relate several calls, or a call and an
 independent description of its result: error accumulation across a run,
 independence from earlier calls, integer bounds, pattern wrapping, the
 legacy bridge, and the behaviour its own test suite pins down.
 */
module ValidatorLemmas {
  import opened RubyValues
  import opened KafoValidator

  // ---------------------------------------------------------------------------
  // Accumulation across calls

  /** One call sent to a validator: a function name and its argument list. */
  datatype Call = Call(name: string, args: seq<Value>)

  /** Sends the calls to one validator in order. The verdict is true when
      every call answered true; the first exception ends the run. */
  function Run(v: Validator, env: Env, calls: seq<Call>): (r: Outcome)
    ensures r.Returned? ==> v.errors <= r.state.errors && v.log <= r.state.log
    ensures r.Returned? && r.ok ==> r.state.errors == v.errors
    ensures r.Returned? && !r.ok ==>
              (|r.state.errors| > |v.errors|
               || exists j :: 0 <= j < |calls| && calls[j].name == "validate_legacy")
    decreases |calls|
  {
    if |calls| == 0 then Returned(true, v)
    else
      match Dispatch(v, env, calls[0].name, calls[0].args)
      case Raised(e) => Raised(e)
      case Returned(ok, s) =>
        match Run(s, env, calls[1..])
        case Raised(e) => Raised(e)
        case Returned(rest, t) =>
          assert forall j :: 1 <= j < |calls| ==> calls[1..][j - 1] == calls[j];
          Returned(ok && rest, t)
  }

  /** What a call does to a validator `v`, given what it does to a fresh one:
      the fresh validator's errors and log lines are appended to `v`'s. */
  function Shift(v: Validator, o: Outcome): (r: Outcome)
    ensures r.Raised? <==> o.Raised?
    ensures r.Returned? ==> r.ok == o.ok && v.errors <= r.state.errors && v.log <= r.state.log
  {
    match o
    case Raised(e) => o
    case Returned(ok, s) => Returned(ok, Validator(v.errors + s.errors, v.log + s.log))
  }

  /** Recording a message on `v` appends what recording it on a fresh
      validator produces. */
  lemma RejectedShifts(v: Validator, m: string)
    ensures Rejected(v, m) == Validator(v.errors + Rejected(Fresh(), m).errors, v.log + Rejected(Fresh(), m).log)
  {
    assert Rejected(Fresh(), m).errors == [m];
    assert Rejected(Fresh(), m).log == [LogLine(Error, "Validation error: " + m)];
  }

  lemma CheckEachIgnoresHistory(v: Validator, c: ArgCheck, args: seq<Value>)
    ensures CheckEach(v, c, args) == Shift(v, CheckEach(Fresh(), c, args))
  {
    var k := FirstRejected(c, args);
    if k < |args| {
      RejectedShifts(v, Complaint(c, args[k]));
    }
  }

  lemma IntegerIgnoresHistory(v: Validator, args: seq<Value>)
    ensures ValidateInteger(v, args) == Shift(v, ValidateInteger(Fresh(), args))
  {
    var value, max, min := Arg(args, 0), Arg(args, 1), Arg(args, 2);
    RejectedShifts(v, Inspect(value) + " is not a valid integer");
    RejectedShifts(v, ToS(value) + " must be at least " + ToS(min));
    RejectedShifts(v, ToS(value) + " must be less than " + ToS(max));
  }

  lemma ReIgnoresHistory(v: Validator, env: Env, args: seq<Value>)
    ensures ValidateRe(v, env, args) == Shift(v, ValidateRe(Fresh(), env, args))
  {
    RejectedShifts(v, ReMessage(args));
  }

  lemma ReconcileIgnoresHistory(v: Validator, env: Env, typeName: Value, functionName: string, value: Value,
                                 dt: TypeVerdict, funcValid: bool, legacyErrors: seq<string>)
    ensures Reconcile(v, env, typeName, functionName, value, dt, funcValid, legacyErrors)
         == Shift(v, Reconcile(Fresh(), env, typeName, functionName, value, dt, funcValid, legacyErrors))
  {
  }

  lemma LegacyIgnoresHistory(v: Validator, env: Env, args: seq<Value>)
    ensures ValidateLegacy(v, env, args) == Shift(v, ValidateLegacy(Fresh(), env, args))
  {
    var typeName, name, value := Arg(args, 0), Arg(args, 1), Arg(args, 2);
    if name.VStr? {
      match LegacyFunction(env, name.s, value)
      case Raised(_) =>
      case Returned(ok, o) =>
        ReconcileIgnoresHistory(v, env, typeName, name.s, value, env.checkType(typeName, value), ok, o.errors);
    }
  }

  /** A call's verdict, and what it records, do not depend on what the
      validator recorded before: the record is only ever appended to. */
  lemma CheckIgnoresHistory(v: Validator, env: Env, name: string, args: seq<Value>)
    ensures Dispatch(v, env, name, args) == Shift(v, Dispatch(Fresh(), env, name, args))
  {
    if name == "validate_legacy" {
      LegacyIgnoresHistory(v, env, args);
    } else if name == "validate_integer" {
      IntegerIgnoresHistory(v, args);
    } else if name == "validate_re" {
      ReIgnoresHistory(v, env, args);
    } else if name == "validate_absolute_path" {
      CheckEachIgnoresHistory(v, AbsolutePath, args);
    } else if name == "validate_array" {
      CheckEachIgnoresHistory(v, ArrayArg, args);
    } else if name == "validate_bool" {
      CheckEachIgnoresHistory(v, BoolArg, args);
    } else if name == "validate_hash" {
      CheckEachIgnoresHistory(v, HashArg, args);
    } else if name == "validate_listen_on" {
      CheckEachIgnoresHistory(v, ListenOn, args);
    } else if name == "validate_string" {
      CheckEachIgnoresHistory(v, StringArg, args);
    } else {
      var f := Fresh();
      assert f.errors + [] == f.errors;
    }
  }

  // ---------------------------------------------------------------------------
  // validate_integer

  /** With integer bounds the verdict is `min <= n <= max`, a value equal to
      either bound passes, and a violated minimum is reported before a
      violated maximum. */
  lemma ValidateIntegerOnIntegers(v: Validator, n: int, max: int, min: int)
    ensures ValidateInteger(v, [VInt(n), VInt(max), VInt(min)])
         == if n < min then Returned(false, Rejected(v, IntToDecimal(n) + " must be at least " + IntToDecimal(min)))
            else if n > max then Returned(false, Rejected(v, IntToDecimal(n) + " must be less than " + IntToDecimal(max)))
            else Returned(true, v)
  {
    IntegerRoundTrip(n);
  }

  /** Bounds given as strings behave exactly as the integers they spell. */
  lemma StringBoundsAsIntegers(v: Validator, n: int, max: int, min: int)
    ensures ValidateInteger(v, [VInt(n), VStr(IntToDecimal(max)), VStr(IntToDecimal(min))]).ok
        <==> min <= n <= max
    ensures ValidateInteger(v, [VInt(n), VStr(IntToDecimal(max)), VStr(IntToDecimal(min))]).Returned?
  {
    IntegerRoundTrip(n);
    RenderedBoundConverts(max);
    RenderedBoundConverts(min);
  }

  /** A value that is itself the decimal string of an integer is read as
      that integer. */
  lemma NumericStringsAreIntegers(v: Validator, n: int)
    ensures ValidateInteger(v, [VStr(IntToDecimal(n))]) == Returned(true, v)
    ensures ValidateInteger(v, [VInt(n)]) == Returned(true, v)
  {
    IntegerRoundTrip(n);
  }

  // ---------------------------------------------------------------------------
  // validate_re

  /** A single pattern behaves exactly like a one-element list holding it,
      default message included. */
  lemma SinglePatternIsWrapped(v: Validator, env: Env, value: Value, pattern: Value, rest: seq<Value>)
    requires !pattern.VArr?
    ensures ValidateRe(v, env, [value, pattern] + rest) == ValidateRe(v, env, [value, VArr([pattern])] + rest)
  {
    assert Arg([value, pattern] + rest, 1) == pattern;
    assert Arg([value, VArr([pattern])] + rest, 1) == VArr([pattern]);
    assert Arg([value, pattern] + rest, 2) == Arg([value, VArr([pattern])] + rest, 2);
  }

  /** A value that is not a string matches no pattern, so once the patterns
      are strings the check fails with the given message. */
  lemma NonStringNeverMatches(v: Validator, env: Env, value: Value, patterns: seq<string>, message: string)
    requires !value.VStr?
    ensures ValidateRe(v, env, [value, VArr(seq(|patterns|, k requires 0 <= k < |patterns| => VStr(patterns[k]))), VStr(message)])
         == Returned(false, Rejected(v, message))
  {
  }

  // ---------------------------------------------------------------------------
  // validate_legacy

  /** `validate_legacy` given a single argument raises: its function name,
      `args[1]`, is nil. This is why sending `validate_legacy` to the inner
      validator, which gets `[value]`, raises. */
  lemma LegacyOnOneArgumentRaises(v: Validator, env: Env, value: Value)
    ensures ValidateLegacy(v, env, [value]) == Raised("TypeError")
    ensures LegacyFunction(env, "validate_legacy", value) == Dispatch(Fresh(), env, "validate_legacy", [value])
  {
  }

  /** The legacy side of `validate_legacy` is a fresh validator sent the
      named function with `[value]`, whenever it implements that name. */
  lemma LegacyFunctionIsDispatch(env: Env, name: string, value: Value)
    requires name in Implemented
    ensures LegacyFunction(env, name, value) == Dispatch(Fresh(), env, name, [value])
  {
    if name == "validate_legacy" {
      LegacyOnOneArgumentRaises(Fresh(), env, value);
    }
  }

  /** A legacy function the validator does not implement counts as passing,
      so the call is accepted whatever the data type says and records no
      error. */
  lemma UnknownLegacyFunctionAccepts(v: Validator, env: Env, typeName: Value, name: string, value: Value)
    requires name !in Implemented
    ensures var r := ValidateLegacy(v, env, [typeName, VStr(name), value]);
      r.Returned? && r.ok && r.state.errors == v.errors
  {
  }

  /** `validate_re` as a legacy function always raises: the inner call gets
      only `[value]`, so its pattern argument is nil, which is wrapped into
      `[nil]` and fails to compile. */
  lemma LegacyReAlwaysRaises(v: Validator, env: Env, typeName: Value, value: Value, rest: seq<Value>)
    ensures ValidateLegacy(v, env, [typeName, VStr("validate_re"), value] + rest) == Raised("TypeError")
  {
  }

  /** The four combinations of the two verdicts: the call is accepted unless
      both reject, and only then are the data type's messages recorded. */
  lemma LegacyTruthTable(v: Validator, env: Env, typeName: Value, name: string, value: Value)
    requires LegacyFunction(env, name, value).Returned?
    ensures var r := ValidateLegacy(v, env, [typeName, VStr(name), value]);
      var dt := env.checkType(typeName, value);
      var func := LegacyFunction(env, name, value).ok;
      && (dt.valid && func ==> r == Returned(true, v))
      && (dt.valid && !func ==> r.Returned? && r.ok && r.state.errors == v.errors)
      && (!dt.valid && func ==> r.Returned? && r.ok && r.state.errors == v.errors)
      && (!dt.valid && !func ==> r == Returned(false, RejectedAll(v, dt.errors)))
  {
  }

  /** A value that is not an integer, under a data type that rejects it and
      the legacy `validate_integer`: rejected, with exactly the data type's
      messages recorded. */
  lemma LegacyIntegerRejectsNonInteger(v: Validator, env: Env, typeName: Value, value: Value)
    requires !env.checkType(typeName, value).valid
    requires ParseInteger(ToS(value)).None?
    ensures ValidateLegacy(v, env, [typeName, VStr("validate_integer"), value])
         == Returned(false, RejectedAll(v, env.checkType(typeName, value).errors))
  {
    var f := LegacyFunction(env, "validate_integer", value);
    assert f == ValidateInteger(Fresh(), [value]);
  }

  // ---------------------------------------------------------------------------
  // Name dispatch

  /** An unimplemented name with the `validate_` prefix passes and records
      nothing; any other unimplemented name raises. */
  lemma UnknownNames(v: Validator, env: Env, name: string, args: seq<Value>)
    requires name !in Implemented
    ensures StartsWith(name, ValidatePrefix) ==>
              (Dispatch(v, env, name, args).Returned? && Dispatch(v, env, name, args).ok
               && Dispatch(v, env, name, args).state.errors == v.errors)
    ensures !StartsWith(name, ValidatePrefix) ==> Dispatch(v, env, name, args).Raised?
  {
  }

  // ---------------------------------------------------------------------------
  // Cases from the validator's test suite

  lemma ErrorsListsTheMessage()
    ensures ValidateString(Fresh(), [VInt(1)]).state.errors == ["1 is not a valid string"]
  {
    assert FirstRejected(StringArg, [VInt(1)]) == 0;
    var c := CheckEach(Fresh(), StringArg, [VInt(1)]);
    assert c.state == Rejected(Fresh(), Complaint(StringArg, [VInt(1)][0]));
    assert DigitChar(1) == '1' && Inspect(VInt(1)) == "1";
    assert Complaint(StringArg, VInt(1)) == "1 is not a valid string";
  }

  lemma StringPassingExamples()
    ensures ValidateString(Fresh(), [VStr("foo")]) == Returned(true, Fresh())
    ensures ValidateString(Fresh(), [VStr("foo"), VStr("bar")]) == Returned(true, Fresh())
  {
  }

  lemma StringFailingExamples()
    ensures !ValidateString(Fresh(), [VInt(1), VStr("foo")]).ok
    ensures !ValidateString(Fresh(), [VNil]).ok
  {
  }

  lemma IntegerPassingExamples()
    ensures ValidateInteger(Fresh(), [VInt(1), VInt(2)]) == Returned(true, Fresh())
    ensures ValidateInteger(Fresh(), [VInt(3), VNil, VInt(2)]) == Returned(true, Fresh())
    ensures ValidateInteger(Fresh(), [VStr("3"), VStr("5"), VStr("2")]) == Returned(true, Fresh())
  {
    IntegerRoundTrip(1);
    IntegerRoundTrip(3);
    assert DecimalValue("3") == 3 && DecimalValue("5") == 5 && DecimalValue("2") == 2;
    assert DigitPrefix("5") == "5" && DigitPrefix("2") == "2";
  }

  /** A one-digit integer prints as its digit. */
  lemma OneDigitRendering(d: int)
    requires 0 <= d < 10
    ensures ToS(VInt(d)) == [DigitChar(d)] && ParseInteger(ToS(VInt(d))) == Some(d)
  {
    IntegerRoundTrip(d);
  }

  /** The message `validate_integer([3, 2])` builds. */
  lemma ThreeAboveTwoMessage()
    ensures ToS(VInt(3)) + " must be less than " + ToS(VInt(2)) == "3 must be less than 2"
  {
    OneDigitRendering(3);
    OneDigitRendering(2);
    assert DigitChar(2) == '2' && DigitChar(3) == '3';
  }

  lemma AboveMaximumExample()
    ensures ValidateInteger(Fresh(), [VInt(3), VInt(2)]).state.errors == ["3 must be less than 2"]
  {
    var args := [VInt(3), VInt(2)];
    assert Arg(args, 0) == VInt(3) && Arg(args, 1) == VInt(2) && Arg(args, 2) == VNil;
    IntegerRoundTrip(3);
    ThreeAboveTwoMessage();
    assert ValidateInteger(Fresh(), args)
        == Returned(false, Rejected(Fresh(), ToS(VInt(3)) + " must be less than " + ToS(VInt(2))));
  }

  /** The message `validate_integer([1, _, 2])` builds. */
  lemma OneBelowTwoMessage()
    ensures ToS(VInt(1)) + " must be at least " + ToS(VInt(2)) == "1 must be at least 2"
  {
    OneDigitRendering(1);
    OneDigitRendering(2);
    assert DigitChar(1) == '1' && DigitChar(2) == '2';
  }

  lemma BelowMinimumExamples()
    ensures ValidateInteger(Fresh(), [VInt(1), VNil, VInt(2)]).state.errors == ["1 must be at least 2"]
    ensures ValidateInteger(Fresh(), [VInt(1), VInt(5), VInt(2)]).state.errors == ["1 must be at least 2"]
  {
    IntegerRoundTrip(1);
    OneBelowTwoMessage();
    var message := ToS(VInt(1)) + " must be at least " + ToS(VInt(2));
    var args := [VInt(1), VNil, VInt(2)];
    assert Arg(args, 0) == VInt(1) && Arg(args, 1) == VNil && Arg(args, 2) == VInt(2);
    assert ValidateInteger(Fresh(), args) == Returned(false, Rejected(Fresh(), message));
    var args' := [VInt(1), VInt(5), VInt(2)];
    assert Arg(args', 0) == VInt(1) && Arg(args', 1) == VInt(5) && Arg(args', 2) == VInt(2);
    assert ValidateInteger(Fresh(), args') == Returned(false, Rejected(Fresh(), message));
  }

  /** `"foo"` is not an integer literal, and inspects with its quotes. */
  lemma FooIsNotAnInteger()
    ensures ParseInteger(ToS(VStr("foo"))).None?
    ensures Inspect(VStr("foo")) == "\"foo\""
  {
    assert !IsDigit('f');
    assert EscapeQuoted("foo") == "foo" by {
      assert EscapeQuoted("o") == "o";
      assert EscapeQuoted("oo") == "oo";
    }
  }

  lemma NotAnIntegerExample()
    ensures ValidateInteger(Fresh(), [VStr("foo")]).state.errors == ["\"foo\"" + " is not a valid integer"]
  {
    var args := [VStr("foo")];
    assert Arg(args, 0) == VStr("foo");
    FooIsNotAnInteger();
  }

  lemma NilIsNotAnIntegerExample()
    ensures ValidateInteger(Fresh(), [VNil]).state.errors == ["nil is not a valid integer"]
  {
    assert Arg([VNil], 0) == VNil;
    assert ParseInteger(ToS(VNil)).None?;
    assert Inspect(VNil) + " is not a valid integer" == "nil is not a valid integer";
  }

  lemma ListenOnPassingExamples()
    ensures ValidateListenOn(Fresh(), [VStr("http")]) == Returned(true, Fresh())
    ensures ValidateListenOn(Fresh(), [VStr("https")]) == Returned(true, Fresh())
    ensures ValidateListenOn(Fresh(), [VStr("both")]) == Returned(true, Fresh())
    ensures ValidateListenOn(Fresh(), [VStr("http"), VStr("https")]) == Returned(true, Fresh())
  {
  }

  lemma ListenOnFailingExamples()
    ensures !ValidateListenOn(Fresh(), [VStr("foo")]).ok
    ensures !ValidateListenOn(Fresh(), [VNil]).ok
  {
  }

  lemma ReMessageExample(env: Env)
    requires !env.matches("foo", "^bar$")
    ensures ValidateRe(Fresh(), env, [VStr("foo"), VStr("^bar$"), VStr("Does not match")]).state.errors
         == ["Does not match"]
  {
  }

  lemma ReNilExample(env: Env)
    ensures !ValidateRe(Fresh(), env, [VNil, VStr("^(freeipmi|ipmitool|shell)$")]).ok
  {
  }

  /** The legacy side of the first debug-log case: `validate_integer(['foo'])`
      on a fresh validator. */
  lemma IntegerLegacyRejectsFoo(env: Env)
    ensures LegacyFunction(env, "validate_integer", VStr("foo"))
         == Returned(false, Rejected(Fresh(), "\"foo\"" + " is not a valid integer"))
  {
    FooIsNotAnInteger();
    assert Arg([VStr("foo")], 0) == VStr("foo");
  }

  /** A data type that accepts `'foo'` outvotes a failing `validate_integer`;
      the two debug lines report the value and the legacy error. */
  lemma LegacyDebugLogExample(env: Env)
    requires env.checkType(VStr("Variant[Integer, String]"), VStr("foo")) == TypeVerdict(true, [])
    ensures ValidateLegacy(Fresh(), env,
              [VStr("Variant[Integer, String]"), VStr("validate_integer"), VStr("foo")])
         == Returned(true, Validator([], [
              LogLine(Debug, "Value " + "\"foo\""
                             + " was accepted as it matches data types, but failed when validated against "
                             + "validate_integer"),
              LogLine(Debug, "Legacy validation error: " + "\"foo\"" + " is not a valid integer")]))
  {
    var value := VStr("foo");
    var args := [VStr("Variant[Integer, String]"), VStr("validate_integer"), value];
    assert Arg(args, 0) == VStr("Variant[Integer, String]") && Arg(args, 1) == VStr("validate_integer")
        && Arg(args, 2) == value;
    FooIsNotAnInteger();
    IntegerLegacyRejectsFoo(env);
    var message := "\"foo\"" + " is not a valid integer";
    var dt := env.checkType(Arg(args, 0), value);
    assert ValidateLegacy(Fresh(), env, args)
        == Reconcile(Fresh(), env, Arg(args, 0), "validate_integer", value, dt, false, [message]);
    var first := LogLine(Debug, "Value " + Inspect(value)
                   + " was accepted as it matches data types, but failed when validated against "
                   + "validate_integer");
    var second := LogLine(Debug, "Legacy validation error: " + message);
    assert Lines(Debug, "Legacy validation error: ", [message]) == [second];
    assert Reconcile(Fresh(), env, Arg(args, 0), "validate_integer", value, dt, false, [message])
        == Returned(true, Validator([], [] + [first] + [second]));
    assert [] + [first] + [second] == [first, second];
    assert second == LogLine(Debug, "Legacy validation error: " + "\"foo\"" + " is not a valid integer");
  }

  /** `["foo"]` inspects as the array of its one quoted element. */
  lemma FooArrayInspects()
    ensures Inspect(VArr([VStr("foo")])) == "[" + "\"foo\"" + "]"
  {
    FooIsNotAnInteger();
    assert seq(1, k requires 0 <= k < 1 => Inspect([VStr("foo")][k])) == ["\"foo\""];
  }

  /** The legacy side of the warn-log case: `validate_array([['foo']])` on a
      fresh validator accepts. */
  lemma ArrayLegacyAcceptsFooArray(env: Env)
    ensures LegacyFunction(env, "validate_array", VArr([VStr("foo")])) == Returned(true, Fresh())
  {
    assert FirstRejected(ArrayArg, [VArr([VStr("foo")])]) == 1;
  }

  /** `validate_array` accepts `[['foo']]`, so a rejecting data type only
      costs two warn lines. */
  lemma LegacyWarnLogExample(env: Env)
    requires env.checkType(VStr("Array[Integer]"), VArr([VStr("foo")]))
          == TypeVerdict(false, ["Elements of the array are invalid: \"foo\" is not a valid integer"])
    requires env.describeType(VStr("Array[Integer]")) == "array of integer"
    ensures ValidateLegacy(Fresh(), env,
              [VStr("Array[Integer]"), VStr("validate_array"), VArr([VStr("foo")])])
         == Returned(true, Validator([], [
              LogLine(Warn, "Value " + "[\"foo\"]"
                            + " was accepted, but will not be valid in future versions - ensure it matches "
                            + "array of integer"),
              LogLine(Warn, "Validation error: "
                            + "Elements of the array are invalid: \"foo\" is not a valid integer")]))
  {
    var value := VArr([VStr("foo")]);
    var args := [VStr("Array[Integer]"), VStr("validate_array"), value];
    assert Arg(args, 0) == VStr("Array[Integer]") && Arg(args, 1) == VStr("validate_array")
        && Arg(args, 2) == value;
    FooArrayInspects();
    ArrayLegacyAcceptsFooArray(env);
    var message := "Elements of the array are invalid: \"foo\" is not a valid integer";
    var dt := env.checkType(Arg(args, 0), value);
    assert ValidateLegacy(Fresh(), env, args)
        == Reconcile(Fresh(), env, Arg(args, 0), "validate_array", value, dt, true, []);
    var first := LogLine(Warn, "Value " + Inspect(value)
                   + " was accepted, but will not be valid in future versions - ensure it matches "
                   + "array of integer");
    var second := LogLine(Warn, "Validation error: " + message);
    assert Lines(Warn, "Validation error: ", [message]) == [second];
    assert Reconcile(Fresh(), env, Arg(args, 0), "validate_array", value, dt, true, [])
        == Returned(true, Validator([], [] + [first] + [second]));
    assert [] + [first] + [second] == [first, second];
    assert first == LogLine(Warn, "Value " + "[\"foo\"]"
                            + " was accepted, but will not be valid in future versions - ensure it matches "
                            + "array of integer");
  }
}
