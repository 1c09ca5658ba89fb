/**
 kafo's legacy validation dispatcher (`Kafo::Validator`): one check per
 historical `validate_*` function name, each taking the argument list of a
 manifest validation rule, answering true or false and, on false, recording a
 message in an error list that only ever grows.

 The validator is threaded through the checks as an immutable value. The two
 collaborators it cannot see, the structural data types and Ruby's regular
 expressions, are supplied as an `Env`.
 */
module KafoValidator {
  import opened RubyValues

  datatype Severity = Debug | Warn | Error

  /** One line sent to the validator's logger. */
  datatype LogLine = LogLine(level: Severity, text: string)

  /** A validator: the accumulated `errors` and the lines written to the
      logger it was created with. */
  datatype Validator = Validator(errors: seq<string>, log: seq<LogLine>)

  /** `Validator.new`: no errors, nothing logged. */
  function Fresh(): Validator {
    Validator([], [])
  }

  /** What calling a validation function does: it returns a verdict together
      with the validator afterwards, or it raises the named exception. */
  datatype Outcome = Returned(ok: bool, state: Validator) | Raised(exception: string)

  /** What a structural data type says of a value: `valid?` of the typecast
      value, and the messages `valid?` appended. */
  datatype TypeVerdict = TypeVerdict(valid: bool, errors: seq<string>)

  /** The collaborators: `checkType(t, x)` builds the data type named by `t`
      and judges `typecast(x)` with it, `describeType(t)` is that data type's
      `to_s`, and `matches(s, p)` says whether the string `s` matches the
      regular expression compiled from `p`. */
  datatype Env = Env(
    checkType: (Value, Value) -> TypeVerdict,
    describeType: Value -> string,
    matches: (string, string) -> bool)

  /** `args[i]`, which is nil past the end of the list. */
  function Arg(args: seq<Value>, i: nat): Value {
    if i < |args| then args[i] else VNil
  }

  /** The private `error`: records the message and logs it at error level. */
  function Rejected(v: Validator, message: string): Validator {
    Validator(v.errors + [message], v.log + [LogLine(Error, "Validation error: " + message)])
  }

  /** The log lines that report each message in turn, at one severity. */
  function Lines(level: Severity, prefix: string, messages: seq<string>): (r: seq<LogLine>)
    ensures |r| == |messages|
  {
    seq(|messages|, k requires 0 <= k < |messages| => LogLine(level, prefix + messages[k]))
  }

  /** `error` called for each message in order. */
  function RejectedAll(v: Validator, messages: seq<string>): (r: Validator)
    ensures r.errors == v.errors + messages
    ensures r.log == v.log + Lines(Error, "Validation error: ", messages)
    decreases |messages|
  {
    if |messages| == 0 then v
    else
      var r := RejectedAll(Rejected(v, messages[0]), messages[1..]);
      assert messages == [messages[0]] + messages[1..];
      assert Lines(Error, "Validation error: ", messages)
          == [LogLine(Error, "Validation error: " + messages[0])]
             + Lines(Error, "Validation error: ", messages[1..]);
      r
  }

  // ---------------------------------------------------------------------------
  // Checks that every argument must pass

  /** The six checks that walk the argument list and stop at the first
      argument that fails. */
  datatype ArgCheck = AbsolutePath | ArrayArg | BoolArg | HashArg | ListenOn | StringArg

  /** The values `validate_listen_on` accepts. */
  const ListenOnValues: seq<string> := ["http", "https", "both"]

  predicate Accepts(c: ArgCheck, arg: Value) {
    match c
    case AbsolutePath => StartsWith(ToS(arg), "/")
    case ArrayArg => arg.VArr?
    case BoolArg => arg.VBool?
    case HashArg => arg.VHash?
    case ListenOn => arg.VStr? && arg.s in ListenOnValues
    case StringArg => arg.VStr?
  }

  /** The message recorded for an argument the check rejects. */
  function Complaint(c: ArgCheck, arg: Value): string {
    Inspect(arg) +
    match c
    case AbsolutePath => " is not an absolute path"
    case ArrayArg => " is not a valid array"
    case BoolArg => " is not a valid boolean"
    case HashArg => " is not a valid hash"
    case ListenOn => " is not a valid value.  Valid values are: " + JoinWith(ListenOnValues, ", ")
    case StringArg => " is not a valid string"
  }

  /** The index of the first argument the check rejects, or `|args|`. */
  function FirstRejected(c: ArgCheck, args: seq<Value>): (k: nat)
    ensures k <= |args|
    ensures forall j :: 0 <= j < k ==> Accepts(c, args[j])
    ensures k < |args| ==> !Accepts(c, args[k])
  {
    if |args| == 0 || !Accepts(c, args[0]) then 0 else 1 + FirstRejected(c, args[1..])
  }

  /** Runs one argument check over the whole list. */
  function CheckEach(v: Validator, c: ArgCheck, args: seq<Value>): (r: Outcome)
    ensures r.Returned?
    ensures r.ok <==> forall j :: 0 <= j < |args| ==> Accepts(c, args[j])
    ensures r.ok ==> r.state == v
    ensures !r.ok ==>
      exists k :: 0 <= k < |args| && !Accepts(c, args[k])
                  && (forall j :: 0 <= j < k ==> Accepts(c, args[j]))
                  && r.state == Rejected(v, Complaint(c, args[k]))
  {
    var k := FirstRejected(c, args);
    if k == |args| then Returned(true, v) else Returned(false, Rejected(v, Complaint(c, args[k])))
  }

  /** `validate_absolute_path`: every argument's `to_s` starts with a slash. */
  function ValidateAbsolutePath(v: Validator, args: seq<Value>): (r: Outcome)
    ensures r.Returned?
    ensures r.ok <==> forall j :: 0 <= j < |args| ==> StartsWith(ToS(args[j]), "/")
    ensures r.ok ==> r.state == v
    ensures !r.ok ==>
      exists k :: 0 <= k < |args| && !StartsWith(ToS(args[k]), "/")
                  && (forall j :: 0 <= j < k ==> StartsWith(ToS(args[j]), "/"))
                  && r.state == Rejected(v, Inspect(args[k]) + " is not an absolute path")
  {
    CheckEach(v, AbsolutePath, args)
  }

  /** `validate_array`: every argument is an array. */
  function ValidateArray(v: Validator, args: seq<Value>): (r: Outcome)
    ensures r.Returned?
    ensures r.ok <==> forall j :: 0 <= j < |args| ==> args[j].VArr?
    ensures r.ok ==> r.state == v
    ensures !r.ok ==>
      exists k :: 0 <= k < |args| && !args[k].VArr?
                  && (forall j :: 0 <= j < k ==> args[j].VArr?)
                  && r.state == Rejected(v, Inspect(args[k]) + " is not a valid array")
  {
    CheckEach(v, ArrayArg, args)
  }

  /** `validate_bool`: every argument is `true` or `false`. */
  function ValidateBool(v: Validator, args: seq<Value>): (r: Outcome)
    ensures r.Returned?
    ensures r.ok <==> forall j :: 0 <= j < |args| ==> args[j].VBool?
    ensures r.ok ==> r.state == v
    ensures !r.ok ==>
      exists k :: 0 <= k < |args| && !args[k].VBool?
                  && (forall j :: 0 <= j < k ==> args[j].VBool?)
                  && r.state == Rejected(v, Inspect(args[k]) + " is not a valid boolean")
  {
    CheckEach(v, BoolArg, args)
  }

  /** `validate_hash`: every argument is a hash. */
  function ValidateHash(v: Validator, args: seq<Value>): (r: Outcome)
    ensures r.Returned?
    ensures r.ok <==> forall j :: 0 <= j < |args| ==> args[j].VHash?
    ensures r.ok ==> r.state == v
    ensures !r.ok ==>
      exists k :: 0 <= k < |args| && !args[k].VHash?
                  && (forall j :: 0 <= j < k ==> args[j].VHash?)
                  && r.state == Rejected(v, Inspect(args[k]) + " is not a valid hash")
  {
    CheckEach(v, HashArg, args)
  }

  /** `validate_listen_on`: every argument is one of the strings "http",
      "https" and "both". */
  function ValidateListenOn(v: Validator, args: seq<Value>): (r: Outcome)
    ensures r.Returned?
    ensures r.ok <==> forall j :: 0 <= j < |args| ==>
                        args[j] == VStr("http") || args[j] == VStr("https") || args[j] == VStr("both")
    ensures r.ok ==> r.state == v
    ensures !r.ok ==>
      exists k :: 0 <= k < |args| && !(args[k].VStr? && args[k].s in ListenOnValues)
                  && (forall j :: 0 <= j < k ==> args[j].VStr? && args[j].s in ListenOnValues)
                  && r.state == Rejected(v, Inspect(args[k])
                       + " is not a valid value.  Valid values are: http, https, both")
  {
    var r := CheckEach(v, ListenOn, args);
    assert JoinWith(ListenOnValues, ", ") == "http, https, both";
    assert forall a :: Complaint(ListenOn, a)
                       == Inspect(a) + " is not a valid value.  Valid values are: http, https, both";
    r
  }

  /** `validate_string`: every argument is a string. */
  function ValidateString(v: Validator, args: seq<Value>): (r: Outcome)
    ensures r.Returned?
    ensures r.ok <==> forall j :: 0 <= j < |args| ==> args[j].VStr?
    ensures r.ok ==> r.state == v
    ensures !r.ok ==>
      exists k :: 0 <= k < |args| && !args[k].VStr?
                  && (forall j :: 0 <= j < k ==> args[j].VStr?)
                  && r.state == Rejected(v, Inspect(args[k]) + " is not a valid string")
  {
    CheckEach(v, StringArg, args)
  }

  // ---------------------------------------------------------------------------
  // validate_integer

  /** A bound whose `to_i` raises: it is present (truthy) but is not an
      integer, a string or nil. */
  predicate Unconvertible(bound: Value) {
    Truthy(bound) && ToI(bound).None?
  }

  /** `n` respects the minimum: the bound is absent, or converts and `n` is
      at least its `to_i`. */
  predicate AtLeast(n: int, min: Value) {
    !Truthy(min) || (ToI(min).Some? && n >= ToI(min).value)
  }

  /** `n` respects the maximum: the bound is absent, or converts and `n` is
      at most its `to_i`. */
  predicate AtMost(n: int, max: Value) {
    !Truthy(max) || (ToI(max).Some? && n <= ToI(max).value)
  }

  /** `validate_integer([value, max, min])`. */
  function ValidateInteger(v: Validator, args: seq<Value>): (r: Outcome)
    // a value that does not parse is reported, never raised, whatever the bounds
    ensures ParseInteger(ToS(Arg(args, 0))).None? ==>
      r == Returned(false, Rejected(v, Inspect(Arg(args, 0)) + " is not a valid integer"))
    // the verdict: parses, and within each bound that is present
    ensures r.Returned? ==>
      (r.ok <==> var p := ParseInteger(ToS(Arg(args, 0)));
                 p.Some? && AtLeast(p.value, Arg(args, 2)) && AtMost(p.value, Arg(args, 1)))
    // only a bound without `to_i` raises, and the maximum is only looked at
    // once the minimum is satisfied
    ensures r.Raised? <==>
      var p := ParseInteger(ToS(Arg(args, 0)));
      p.Some? && (Unconvertible(Arg(args, 2))
                  || (AtLeast(p.value, Arg(args, 2)) && Unconvertible(Arg(args, 1))))
    ensures r.Raised? ==> r.exception == "NoMethodError"
    ensures r.Returned? && r.ok ==> r.state == v
    // the minimum is checked, and reported, before the maximum
    ensures var p := ParseInteger(ToS(Arg(args, 0)));
      p.Some? && Truthy(Arg(args, 2)) && !AtLeast(p.value, Arg(args, 2)) && !Unconvertible(Arg(args, 2)) ==>
      r == Returned(false, Rejected(v, ToS(Arg(args, 0)) + " must be at least " + ToS(Arg(args, 2))))
    ensures var p := ParseInteger(ToS(Arg(args, 0)));
      p.Some? && AtLeast(p.value, Arg(args, 2)) && !AtMost(p.value, Arg(args, 1)) && !Unconvertible(Arg(args, 1)) ==>
      r == Returned(false, Rejected(v, ToS(Arg(args, 0)) + " must be less than " + ToS(Arg(args, 1))))
  {
    var value, max, min := Arg(args, 0), Arg(args, 1), Arg(args, 2);
    match ParseInteger(ToS(value))
    case None => Returned(false, Rejected(v, Inspect(value) + " is not a valid integer"))
    case Some(n) =>
      if Truthy(min) && ToI(min).None? then Raised("NoMethodError")
      else if Truthy(min) && n < ToI(min).value then
        Returned(false, Rejected(v, ToS(value) + " must be at least " + ToS(min)))
      else if Truthy(max) && ToI(max).None? then Raised("NoMethodError")
      else if Truthy(max) && n > ToI(max).value then
        Returned(false, Rejected(v, ToS(value) + " must be less than " + ToS(max)))
      else Returned(true, v)
  }

  // ---------------------------------------------------------------------------
  // validate_re

  /** The pattern argument as a list: an array is used as it is, anything
      else is wrapped into a one-element list. */
  function Patterns(arg: Value): seq<Value> {
    if arg.VArr? then arg.elems else [arg]
  }

  /** `value =~ Regexp.compile(pattern)` is truthy: only a string value can
      match, and only a string pattern compiles. */
  predicate Matches(env: Env, value: Value, pattern: Value) {
    value.VStr? && pattern.VStr? && env.matches(value.s, pattern.s)
  }

  /** `patterns.any? { |rx| value =~ Regexp.compile(rx) }`: tries the
      patterns in order and stops at the first match; reaching a pattern that
      is not a string raises `TypeError` (`None`). */
  function AnyPatternMatches(env: Env, value: Value, patterns: seq<Value>): (r: Option<bool>)
    ensures (forall j :: 0 <= j < |patterns| ==> patterns[j].VStr?) ==>
      r == Some(exists k :: 0 <= k < |patterns| && Matches(env, value, patterns[k]))
    ensures (exists k :: 0 <= k < |patterns| && Matches(env, value, patterns[k])
                         && forall j :: 0 <= j < k ==> patterns[j].VStr?) ==> r == Some(true)
    ensures r == Some(true) ==> exists k :: 0 <= k < |patterns| && Matches(env, value, patterns[k])
    ensures r.None? ==> exists k :: 0 <= k < |patterns| && !patterns[k].VStr?
    ensures (exists k :: 0 <= k < |patterns| && !patterns[k].VStr?
                         && forall j :: 0 <= j < k ==> patterns[j].VStr? && !Matches(env, value, patterns[j]))
            ==> r.None?
  {
    if |patterns| == 0 then Some(false)
    else if !patterns[0].VStr? then None
    else if Matches(env, value, patterns[0]) then Some(true)
    else
      var r := AnyPatternMatches(env, value, patterns[1..]);
      assert forall k :: 1 <= k < |patterns| ==> patterns[k] == patterns[1..][k - 1];
      UncompilableReachedInTail(env, value, patterns);
      r
  }

  /** When the first pattern compiles and does not match, a non-string
      pattern reached before any match is also reached in the rest. */
  lemma UncompilableReachedInTail(env: Env, value: Value, patterns: seq<Value>)
    requires |patterns| > 0 && patterns[0].VStr? && !Matches(env, value, patterns[0])
    ensures (exists k :: 0 <= k < |patterns| && !patterns[k].VStr?
                         && forall j :: 0 <= j < k ==> patterns[j].VStr? && !Matches(env, value, patterns[j]))
            ==> (exists k :: 0 <= k < |patterns[1..]| && !patterns[1..][k].VStr?
                   && forall j :: 0 <= j < k ==> patterns[1..][j].VStr? && !Matches(env, value, patterns[1..][j]))
  {
    if exists k :: 0 <= k < |patterns| && !patterns[k].VStr?
                   && forall j :: 0 <= j < k ==> patterns[j].VStr? && !Matches(env, value, patterns[j]) {
      var k :| 0 <= k < |patterns| && !patterns[k].VStr?
               && forall j :: 0 <= j < k ==> patterns[j].VStr? && !Matches(env, value, patterns[j]);
      assert k >= 1;
      assert patterns[1..][k - 1] == patterns[k];
      assert forall j :: 0 <= j < k - 1 ==> patterns[1..][j] == patterns[j + 1];
    }
  }

  /** The message `validate_re` records on failure: the third argument when
      it is given, otherwise a default that lists the patterns. */
  function ReMessage(args: seq<Value>): string {
    if Truthy(Arg(args, 2)) then ToS(Arg(args, 2))
    else Inspect(Arg(args, 0)) + " does not match the accepted inputs: "
         + JoinValue(VArr(Patterns(Arg(args, 1))), ", ")
  }

  /** `validate_re([value, patterns, message])`. */
  function ValidateRe(v: Validator, env: Env, args: seq<Value>): (r: Outcome)
    ensures var ps := Patterns(Arg(args, 1));
      (forall j :: 0 <= j < |ps| ==> ps[j].VStr?) ==>
        r.Returned? && (r.ok <==> exists k :: 0 <= k < |ps| && Matches(env, Arg(args, 0), ps[k]))
    ensures r.Returned? && r.ok ==> r.state == v
    ensures r.Returned? && !r.ok ==> r.state == Rejected(v, ReMessage(args))
    ensures r.Raised? ==>
      r.exception == "TypeError"
      && exists k :: 0 <= k < |Patterns(Arg(args, 1))| && !Patterns(Arg(args, 1))[k].VStr?
    ensures var ps := Patterns(Arg(args, 1));
      (exists k :: 0 <= k < |ps| && !ps[k].VStr?
                   && forall j :: 0 <= j < k ==> ps[j].VStr? && !Matches(env, Arg(args, 0), ps[j]))
      ==> r == Raised("TypeError")
  {
    var message := ReMessage(args);
    match AnyPatternMatches(env, Arg(args, 0), Patterns(Arg(args, 1)))
    case None => Raised("TypeError")
    case Some(true) => Returned(true, v)
    case Some(false) => Returned(false, Rejected(v, message))
  }

  // ---------------------------------------------------------------------------
  // Name dispatch and validate_legacy

  /** The validation functions the validator implements, which are the names
      it `respond_to?`. */
  const Implemented: seq<string> := [
    "validate_absolute_path", "validate_array", "validate_bool", "validate_hash",
    "validate_integer", "validate_legacy", "validate_listen_on", "validate_re",
    "validate_string"]

  /** The prefix that `method_missing` lets through. */
  const ValidatePrefix: string := "validate_"

  /** Every implemented name carries the `validate_` prefix. */
  lemma ImplementedArePrefixed()
    ensures forall name :: name in Implemented ==> StartsWith(name, ValidatePrefix)
  {
    forall name | name in Implemented
      ensures StartsWith(name, ValidatePrefix)
    {
      assert name[..|ValidatePrefix|] == ValidatePrefix;
    }
  }

  /** Calls one of the implemented checks other than `validate_legacy`. */
  function RunCheck(v: Validator, env: Env, name: string, args: seq<Value>): (r: Outcome)
    requires name in Implemented && name != "validate_legacy"
    ensures r.Returned? ==> v.errors <= r.state.errors && v.log <= r.state.log
    ensures r.Returned? && r.ok ==> r.state == v
    ensures r.Returned? && !r.ok ==> |r.state.errors| == |v.errors| + 1
  {
    if name == "validate_absolute_path" then ValidateAbsolutePath(v, args)
    else if name == "validate_array" then ValidateArray(v, args)
    else if name == "validate_bool" then ValidateBool(v, args)
    else if name == "validate_hash" then ValidateHash(v, args)
    else if name == "validate_integer" then ValidateInteger(v, args)
    else if name == "validate_listen_on" then ValidateListenOn(v, args)
    else if name == "validate_re" then ValidateRe(v, env, args)
    else ValidateString(v, args)
  }

  /** Sends any name other than `validate_legacy`: an implemented check is
      run, and any other name is answered as `method_missing` answers it. */
  function DispatchCheck(v: Validator, env: Env, name: string, args: seq<Value>): (r: Outcome)
    requires name != "validate_legacy"
    ensures r.Returned? ==> v.errors <= r.state.errors && v.log <= r.state.log
    ensures r.Returned? && r.ok ==> r.state.errors == v.errors
    ensures r.Returned? && !r.ok ==> |r.state.errors| == |v.errors| + 1
    ensures !StartsWith(name, ValidatePrefix) ==> r == Raised("NoMethodError")
    ensures StartsWith(name, ValidatePrefix) && name !in Implemented ==>
      r == Returned(true, Validator(v.errors, v.log + [LogLine(Debug,
             "Skipping validation with " + name + " as it's not implemented in Kafo")]))
  {
    ImplementedArePrefixed();
    if name in Implemented then RunCheck(v, env, name, args)
    else if StartsWith(name, ValidatePrefix) then
      Returned(true, Validator(v.errors, v.log + [LogLine(Debug,
        "Skipping validation with " + name + " as it's not implemented in Kafo")]))
    else Raised("NoMethodError")
  }

  /** The legacy function's side of `validate_legacy`: a fresh validator
      (logging elsewhere) is sent the function by name with `[value]` as its
      only argument, when it responds to that name; otherwise the legacy side
      accepts. Sending `validate_legacy` itself raises `TypeError`, because
      the inner call's second argument is nil (see `LegacyOnOneArgumentRaises`). */
  function LegacyFunction(env: Env, name: string, value: Value): (r: Outcome)
    ensures name !in Implemented ==> r == Returned(true, Fresh())
    ensures name == "validate_legacy" ==> r == Raised("TypeError")
    ensures r.Returned? && r.ok ==> r.state.errors == []
  {
    if name == "validate_legacy" then Raised("TypeError")
    else if name in Implemented then DispatchCheck(Fresh(), env, name, [value])
    else Returned(true, Fresh())
  }

  /** The reconciliation policy of `validate_legacy`, given the data type's
      verdict `dt` and the legacy function's verdict and recorded errors:
      the call is accepted when either side accepts; an acceptance by the
      data type alone is logged at debug level, an acceptance by the legacy
      function alone at warn level, and only a rejection by both records
      errors, namely the data type's messages. */
  function Reconcile(v: Validator, env: Env, typeName: Value, functionName: string, value: Value,
                     dt: TypeVerdict, funcValid: bool, legacyErrors: seq<string>): (r: Outcome)
    ensures r.Returned? && r.ok == (dt.valid || funcValid)
    ensures v.log <= r.state.log
    ensures dt.valid && funcValid ==> r.state == v
    ensures dt.valid || funcValid ==> r.state.errors == v.errors
    ensures !dt.valid && !funcValid ==> r.state == RejectedAll(v, dt.errors)
    ensures dt.valid && !funcValid ==>
      |r.state.log| == |v.log| + 1 + |legacyErrors|
      && forall k :: |v.log| <= k < |r.state.log| ==> r.state.log[k].level == Debug
    ensures !dt.valid && funcValid ==>
      |r.state.log| == |v.log| + 1 + |dt.errors|
      && forall k :: |v.log| <= k < |r.state.log| ==> r.state.log[k].level == Warn
  {
    if dt.valid && funcValid then Returned(true, v)
    else if dt.valid then
      Returned(true, Validator(v.errors, v.log
        + [LogLine(Debug, "Value " + Inspect(value)
             + " was accepted as it matches data types, but failed when validated against "
             + functionName)]
        + Lines(Debug, "Legacy validation error: ", legacyErrors)))
    else if funcValid then
      Returned(true, Validator(v.errors, v.log
        + [LogLine(Warn, "Value " + Inspect(value)
             + " was accepted, but will not be valid in future versions - ensure it matches "
             + env.describeType(typeName))]
        + Lines(Warn, "Validation error: ", dt.errors)))
    else Returned(false, RejectedAll(v, dt.errors))
  }

  /** `validate_legacy([type_name, function_name, value])`: judges the value
      with the data type and with the legacy function, and reconciles the
      two verdicts. */
  function ValidateLegacy(v: Validator, env: Env, args: seq<Value>): (r: Outcome)
    ensures !Arg(args, 1).VStr? ==> r == Raised("TypeError")
    ensures Arg(args, 1).VStr? ==>
      var dt := env.checkType(Arg(args, 0), Arg(args, 2));
      var f := LegacyFunction(env, Arg(args, 1).s, Arg(args, 2));
      && (f.Raised? ==> r == Raised(f.exception))
      && (f.Returned? ==> r.Returned? && r.ok == (dt.valid || f.ok))
      && (f.Returned? && (dt.valid || f.ok) ==> r.state.errors == v.errors)
      && (f.Returned? && !dt.valid && !f.ok ==> r.state == RejectedAll(v, dt.errors))
    ensures r.Returned? ==> v.log <= r.state.log
  {
    var typeName, functionName, value := Arg(args, 0), Arg(args, 1), Arg(args, 2);
    var dt := env.checkType(typeName, value);
    if !functionName.VStr? then Raised("TypeError")
    else
      match LegacyFunction(env, functionName.s, value)
      case Raised(e) => Raised(e)
      case Returned(funcValid, other) =>
        Reconcile(v, env, typeName, functionName.s, value, dt, funcValid, other.errors)
  }

  /** Sending a validation function to the validator by name. */
  function Dispatch(v: Validator, env: Env, name: string, args: seq<Value>): (r: Outcome)
    ensures r.Returned? ==> v.errors <= r.state.errors && v.log <= r.state.log
    ensures r.Returned? && r.ok ==> r.state.errors == v.errors
    ensures r.Returned? && !r.ok && name != "validate_legacy" ==> |r.state.errors| == |v.errors| + 1
    ensures !StartsWith(name, ValidatePrefix) ==> r == Raised("NoMethodError")
    ensures StartsWith(name, ValidatePrefix) && name !in Implemented ==>
      r == Returned(true, Validator(v.errors, v.log + [LogLine(Debug,
             "Skipping validation with " + name + " as it's not implemented in Kafo")]))
  {
    if name == "validate_legacy" then ValidateLegacy(v, env, args)
    else DispatchCheck(v, env, name, args)
  }
}
