# kafo's legacy validator, in Dafny

This project models `Kafo::Validator`, the dispatcher kafo uses to run the
validation functions an installer's manifest declares. The validator has one
method per historical validation-function name (`validate_string`,
`validate_integer`, `validate_re`, …). Each method takes the rule's argument
list and answers true or false. On false it records a message in the
validator's `errors`, a list that is never cleared.

`validate_legacy` bridges the two validation mechanisms. It judges a value
with a structural data type (such as `Integer` or `Variant[Integer, String]`)
and with a legacy function. It accepts the value when either accepts it.
Unknown names starting with `validate_` pass without any check. Any other
unknown name fails hard.

Files:

- `ruby_values.dfy` (module `RubyValues`): the Ruby values a check receives,
  and the Ruby behaviour the checks use: truthiness, `to_s`, `inspect`,
  `Array#join`, `Integer()` on a string, `String#to_i`. It also holds the
  proofs that printing an integer and parsing it back give the same number.
- `validator.dfy` (module `KafoValidator`): the validator state, every check,
  the legacy bridge and name dispatch.
- `validator_lemmas.dfy` (module `ValidatorLemmas`): properties that relate
  several calls, and the cases the validator's test suite pins down.

The model is functional. A validator is the value
`Validator(errors, log)`. `log` records the lines sent to the logger the
validator was created with. Each check takes a validator and returns an
`Outcome`. That is either `Returned(ok, validator')` or `Raised(exception)`,
for the Ruby exceptions the code lets escape. Three collaborators are outside
the validator, and an `Env` value supplies them:

- `checkType(t, x)`: build the data type named `t` and call `valid?` on
  `typecast(x)`. Its result is the verdict plus the messages `valid?` added.
- `describeType(t)`: the `to_s` of the data type named `t`, which the warn
  line of `validate_legacy` prints.
- `matches(s, p)`: does string `s` match the regular expression compiled from
  `p`?

In one place the code does something its own test suite does not expect, and
the model follows the code: `validate_legacy` sends the legacy function a
one-element argument list holding only the value. It drops the rule's
arguments after the value. The test at `test/kafo/validator_test.rb:25-29`
expects those arguments to arrive, so that test disagrees with the code. One
consequence is that `validate_re` as a legacy function always raises
`TypeError`: its pattern argument is nil, and nil does not compile.

Two further notes on what the code does:

- When `validate_legacy` names a legacy function the validator does not
  implement, `respond_to?` is false and the function counts as passing. No
  "Skipping validation" line is logged in that case. That line only comes
  from a direct call that reaches `method_missing`.

## Model

| member | source | states |
|---|---|---|
| `KafoValidator.ValidateAbsolutePath` | lib/kafo/validator.rb:13-21 | true iff every argument's `to_s` starts with `/`; on true nothing is recorded; on false exactly one message, `<inspect> is not an absolute path`, for the first argument that fails |
| `KafoValidator.ValidateArray` | lib/kafo/validator.rb:23-31 | true iff every argument is an array; on false exactly one `is not a valid array` message naming the first non-array |
| `KafoValidator.ValidateBool` | lib/kafo/validator.rb:33-41 | true iff every argument is `true` or `false`; on false one `is not a valid boolean` message naming the first other argument |
| `KafoValidator.ValidateHash` | lib/kafo/validator.rb:43-51 | true iff every argument is a hash; on false one `is not a valid hash` message naming the first non-hash |
| `KafoValidator.ValidateListenOn` | lib/kafo/validator.rb:99-108 | true iff every argument is one of the strings `http`, `https`, `both`; on false one message naming the first other argument and listing the three values |
| `KafoValidator.ValidateString` | lib/kafo/validator.rb:124-132 | true iff every argument is a string; on false one `is not a valid string` message naming the first non-string |
| `KafoValidator.FirstRejected` | lib/kafo/validator.rb:14-19 | the walk that stops early: every argument before the index it returns passes, and the argument at that index fails |
| `KafoValidator.CheckEach` | lib/kafo/validator.rb:14-20 | the shared shape of the six walks: the verdict is "all arguments pass"; on true the validator is unchanged; on false exactly one message is recorded, naming the first failing argument |
| `KafoValidator.ValidateInteger` | lib/kafo/validator.rb:53-70 | a value that does not parse is recorded as `<inspect> is not a valid integer` and never raises; otherwise true iff the value is at least min (when min is present) and at most max (when max is present); the minimum is checked and reported before the maximum; only a present bound without `to_i` raises |
| `KafoValidator.AnyPatternMatches` | lib/kafo/validator.rb:116 | when all patterns are strings, true iff some pattern matches; a match stops the search before any later non-string pattern is compiled; reaching a non-string pattern before any match raises `TypeError`, and a `TypeError` only comes from a non-string pattern |
| `KafoValidator.ValidateRe` | lib/kafo/validator.rb:110-122 | when the patterns are strings, true iff the value matches one of them; a non-string pattern reached before any match raises `TypeError`, and only such a pattern raises; true leaves the validator unchanged; false records exactly the third argument when it is given, and otherwise the default message that lists the patterns |
| `KafoValidator.RejectedAll` | lib/kafo/validator.rb:145-148 | the private `error`, applied to each message in turn as line 93 does: recording a list of messages appends exactly those messages, in order, to `errors`, and one `Validation error:` line per message to the log |
| `KafoValidator.Reconcile` | lib/kafo/validator.rb:82-95 | the verdict is `dt_valid or func_valid`; `errors` changes only when both verdicts are false, and then gains exactly the data-type messages; a data-type-only acceptance logs only debug lines (one plus one per legacy error); a legacy-only acceptance logs only warn lines (one plus one per data-type error) |
| `KafoValidator.LegacyFunction` | lib/kafo/validator.rb:79-80 | a name the validator does not implement counts as passing; sending `validate_legacy` itself raises; an accepting legacy function recorded no errors |
| `KafoValidator.ValidateLegacy` | lib/kafo/validator.rb:72-96 | a function name that is not a string raises `TypeError`; an exception from the legacy function propagates; otherwise the verdict is `dt_valid or func_valid`, `errors` is unchanged unless both fail, and when both fail the data type's messages are recorded |
| `KafoValidator.RunCheck` | lib/kafo/validator.rb:13-132 | every implemented check other than `validate_legacy` leaves the validator unchanged when it answers true, and records exactly one message when it answers false |
| `KafoValidator.DispatchCheck` | lib/kafo/validator.rb:134-141 | an unimplemented `validate_` name answers true with only a debug line; any other unknown name raises `NoMethodError`; implemented checks only append |
| `KafoValidator.Dispatch` | lib/kafo/validator.rb:134-141 | sending any name: `errors` only grows; a true answer leaves `errors` unchanged; a false answer from a check other than `validate_legacy` records exactly one message; unknown names behave as in `DispatchCheck` |
| `KafoValidator.ImplementedArePrefixed` | lib/kafo/validator.rb:135 | every implemented check's name carries the `validate_` prefix, so only unknown names reach the prefix test |
| `RubyValues.DecimalRoundTrip` | lib/kafo/validator.rb:57 | reading back the decimal digits of a natural number gives that number |
| `RubyValues.IntegerRoundTrip` | lib/kafo/validator.rb:57 | `Integer(i.to_s) == i` for every integer `i`, so an integer value always parses as itself |
| `RubyValues.LeadingIntegerAgrees` | lib/kafo/validator.rb:58-62 | for the model's decimal-only `Integer()`: on any string it accepts, `to_i` reads the same number, so a string bound means the integer it spells |
| `RubyValues.RenderedBoundConverts` | lib/kafo/validator.rb:58-62 | a bound given as an integer, or as the decimal string of that integer, converts to the same integer |
| `ValidatorLemmas.Run` | lib/kafo/validator.rb:145-148 | across a sequence of calls on one validator, the errors before the calls are a prefix of the errors after them; a run in which every call answers true adds no error; a failing run adds at least one error unless it contains a `validate_legacy` call |
| `ValidatorLemmas.CheckIgnoresHistory` | lib/kafo/validator.rb:8-11 | a call's verdict and the errors and log lines it adds do not depend on what the validator recorded earlier: on any validator it appends what it appends on a fresh one |
| `ValidatorLemmas.ReconcileIgnoresHistory` | lib/kafo/validator.rb:82-95 | the reconciliation appends the same errors and log lines to any validator as to a fresh one |
| `ValidatorLemmas.ValidateIntegerOnIntegers` | lib/kafo/validator.rb:53-66 | with integer bounds: below min gives the `must be at least` message, even when max is also violated; otherwise above max gives `must be less than`; otherwise true, including a value equal to max |
| `ValidatorLemmas.StringBoundsAsIntegers` | lib/kafo/validator.rb:58-63 | bounds given as decimal strings never raise, and give the verdict `min <= n <= max` |
| `ValidatorLemmas.NumericStringsAreIntegers` | test/kafo/validator_test.rb:69-70 | an integer, or the decimal string of one, passes `validate_integer` with no bounds and records nothing |
| `ValidatorLemmas.SinglePatternIsWrapped` | lib/kafo/validator.rb:113-114 | a pattern argument that is not an array behaves exactly like a one-element list holding it, default message included |
| `ValidatorLemmas.NonStringNeverMatches` | test/kafo/validator_test.rb:156 | a value that is not a string matches no string pattern, so the check records the given message |
| `ValidatorLemmas.LegacyOnOneArgumentRaises` | lib/kafo/validator.rb:73-80 | `validate_legacy` called with one argument raises `TypeError`; so sending `validate_legacy` as the legacy function raises too |
| `ValidatorLemmas.LegacyFunctionIsDispatch` | lib/kafo/validator.rb:79-80 | for every implemented name, the legacy side is a fresh validator sent that name with `[value]` |
| `ValidatorLemmas.UnknownLegacyFunctionAccepts` | lib/kafo/validator.rb:80 | a legacy function name the validator does not implement makes `validate_legacy` accept, whatever the data type says, and record no error |
| `ValidatorLemmas.LegacyReAlwaysRaises` | lib/kafo/validator.rb:80 | `validate_legacy` with legacy function `validate_re` raises `TypeError` for every type, value and further arguments, because the inner call's pattern argument is nil |
| `ValidatorLemmas.LegacyTruthTable` | lib/kafo/validator.rb:82-95 | all four combinations of the two verdicts: both true leaves the validator as it was; exactly one true accepts without recording errors; both false rejects and records exactly the data type's messages |
| `ValidatorLemmas.LegacyIntegerRejectsNonInteger` | test/kafo/validator_test.rb:35-38 | a non-integer value under a data type that rejects it, with legacy function `validate_integer`, is rejected, and exactly the data type's messages are recorded |
| `ValidatorLemmas.UnknownNames` | test/kafo/validator_test.rb:41-47 | an unimplemented `validate_` name passes and records nothing; any other unknown name raises |
| `ValidatorLemmas.ErrorsListsTheMessage` | test/kafo/validator_test.rb:12-15 | `validate_string([1])` leaves `errors` equal to `["1 is not a valid string"]` |
| `ValidatorLemmas.StringPassingExamples` | test/kafo/validator_test.rb:101-102 | `['foo']` and `['foo','bar']` pass and record nothing |
| `ValidatorLemmas.StringFailingExamples` | test/kafo/validator_test.rb:166-167 | `[1,'foo']` and `[nil]` fail |
| `ValidatorLemmas.IntegerPassingExamples` | test/kafo/validator_test.rb:68-81 | `[1,2]`, `[3,nil,2]` and `['3','5','2']` pass and record nothing |
| `ValidatorLemmas.AboveMaximumExample` | test/kafo/validator_test.rb:137-138 | `[3,2]` records `3 must be less than 2` |
| `ValidatorLemmas.BelowMinimumExamples` | test/kafo/validator_test.rb:140-144 | `[1,nil,2]` and `[1,5,2]` record `1 must be at least 2` |
| `ValidatorLemmas.NotAnIntegerExample` | test/kafo/validator_test.rb:134 | `['foo']` records `"foo" is not a valid integer` |
| `ValidatorLemmas.NilIsNotAnIntegerExample` | test/kafo/validator_test.rb:135 | `[nil]` records `nil is not a valid integer` |
| `ValidatorLemmas.ListenOnPassingExamples` | test/kafo/validator_test.rb:84-87 | `['http']`, `['https']`, `['both']` and `['http','https']` pass and record nothing |
| `ValidatorLemmas.ListenOnFailingExamples` | test/kafo/validator_test.rb:148-150 | `['foo']` and `[nil]` fail |
| `ValidatorLemmas.ReMessageExample` | test/kafo/validator_test.rb:159-161 | a failing match with message `Does not match` records exactly that message |
| `ValidatorLemmas.ReNilExample` | test/kafo/validator_test.rb:156 | a nil value matches no pattern, so the check fails |
| `ValidatorLemmas.LegacyDebugLogExample` | test/kafo/validator_test.rb:20-24 | `validate_legacy(['Variant[Integer, String]', 'validate_integer', 'foo'])` with a data type that accepts `'foo'` answers true, records no error, and logs exactly the two debug lines the test expects |
| `ValidatorLemmas.LegacyWarnLogExample` | test/kafo/validator_test.rb:30-34 | `validate_legacy(['Array[Integer]', 'validate_array', ['foo']])` with a data type that rejects the value answers true, records no error, and logs exactly the two warn lines the test expects |

## Left out

- Data types: `DataType.new_from_string`, `typecast`, `valid?` and `to_s` come from `lib/kafo/data_type`, which is not part of this model. They enter only through `Env.checkType` and `Env.describeType`, with no assumption about their behaviour. `DataType.new_from_string` is taken never to raise.
- Regular expressions: matching is the abstract `Env.matches`. A string pattern with invalid syntax raises `RegexpError` in Ruby. The model treats every string pattern as compilable, and `Regexp` objects as patterns are not modelled.
- `value =~ regexp` on a non-string value is modelled as no match. That is Ruby 2's `Object#=~`, which returns nil. Symbols are not modelled.
- `Integer()` is simplified to an optional sign followed by decimal digits. Radix prefixes (`0x`, `0b`, `0o`), leading-zero octal, underscores and surrounding whitespace are not modelled. `String#to_i` is likewise an optional sign followed by the leading decimal digits, with no whitespace or underscore handling.
- `inspect` escapes only `"` and `\` inside strings. Control characters, `#{`, and non-ASCII escapes are not reproduced. Hashes print in the `{"a"=>"b"}` form.
- RubyValues.LeadingIntegerAgrees: holds only for the model's decimal-only `Integer()`. In Ruby, `Integer()` (used for the value, line 57) and `to_i` (used for the bounds, lines 58 and 62) read some strings differently: `Integer('010')` is 8 but `'010'.to_i` is 10, and `Integer('0x1A')` is 26 but `'0x1A'.to_i` is 0. So Ruby's `validate_integer(['010', '9'])` answers true while the model answers false, and Ruby rejects `['08']` while the model accepts it.
- Floats, symbols and other Ruby classes are not among the modelled values.
- `respond_to?` is modelled as membership in the nine implemented `validate_*` names. Object's own methods (`to_s`, `errors`, …) are ignored. A name that is not a string raises `TypeError`.
- The exception raised by `super` in `method_missing` is represented only by its class name, `NoMethodError`. `Raised` carries no message or backtrace.
- `ValidateRe`: when the message argument is given but is not a string, the model records its `to_s`. Ruby records the object itself, which is then printed with `to_s` when logged.
- Log lines from the validator that `validate_legacy` creates go to the default `KafoConfigure.logger`. The model drops them. Only the log of the validator under call is kept.
- Everything outside `lib/kafo/validator.rb` is not modelled: parameter defaults and lifecycle, visibility conditions, help builders, and the acceptance test's process execution.
