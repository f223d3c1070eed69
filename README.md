# optioning in Dafny

A model of the Ruby library `optioning`, with proofs about the model.

`optioning` helps a method that takes a variable argument list followed by an options Hash:

- It splits the call into positional values and the trailing options mapping.
- It lets the library author deprecate an option in favour of a replacement key, optionally with a removal deadline. The deadline is a version, or a year and month.
- When an option is looked up, it first renames deprecated options to their replacements in its working copy of the caller's mapping.
- It writes a warning for every deprecated option the caller used (`deprecation_warn`).
- It writes a report of every option the library does not recognize (`unrecognized_warn`).
- `process` runs both passes in that order.

The project has six modules:

- `Wrappers`: `Option` and `Result`.
- `Decimal`: the decimal text of integers and zero padding, plus the functions that read the text back.
- `Dates`: `Date.new(year, month, 1)` and `strftime("%Y-%m-%d")`.
- `Deprecations` models `lib/deprecation.rb`:
  - the pure parts `extract_date_and_version`, `when_deprecation_occurs` and `warn` are functions;
  - the record is the class `Deprecation`, whose settable field is `caller`.
- `OptionMaps` models the options Hash:
  - a sequence of key/value pairs with unique keys, in insertion order;
  - `Hash#[]`, `Hash#delete` and `Hash#[]=`;
  - alias resolution, which moves a deprecated key's value to its replacement.
- `Optionings` models `lib/optioning.rb` as the class `Optioning`:
  - the fields `args`, `values`, `options`, the registered rules, the recognized keys, and `stderr`, the diagnostic channel as the text written so far;
  - `initialize`, `raw` and `values` follow lib/optioning.rb:19-38;
  - `on` is the lookup of lib/optioning.rb:44-46, preceded by alias resolution as test/deprecation_test.rb:60-63 expects it. The resolution is not in lib/optioning.rb, and the model answers none where lib/optioning.rb raises (see "## Findings");
  - `deprecate`, `recognize`, `deprecation_warn`, `unrecognized_warn` and `process` are not in lib/optioning.rb. They follow what the repository's test files expect of them. Behaviour that no test pins down is listed under "## Left out".

`Scenarios` replays the test cases on the model. Each member's contract is the outcome the test expects, or the code's outcome where the two disagree.

Option values (lambdas, strings) are an opaque type parameter `V`.

## Model

| member | source | states |
|---|---|---|
| Dates.FirstOfMonth | lib/deprecation.rb:56 | Date.new(year, month, 1) succeeds exactly for months 1..12 and -12..-1. A negative month counts back from December. The result keeps the year, is day 1 and is a valid date. |
| Dates.Format | lib/deprecation.rb:68 | strftime("%Y-%m-%d") has dashes six and three characters from the end. For a year in 0..9999 it is the 10-character YYYY-MM-DD. |
| Dates.YearReadsBack | lib/deprecation.rb:68 | The %Y text of any year, negative or past 9999, reads back as that year. |
| Dates.FormatRoundTrip | lib/deprecation.rb:68 | Parsing a formatted valid date gives the date back, so the warning's date text determines the deadline. |
| Decimal.PaddedDigitsValue | lib/deprecation.rb:68 | Zero-padding the digits of n to any width keeps them digits and keeps their value n. |
| Decimal.IntToS | lib/deprecation.rb:68 | Integer#to_s of a numeric version starts with '-' exactly when the number is negative. |
| Decimal.IntToSRoundTrip | lib/deprecation.rb:68 | The decimal text of any integer reads back as that integer. |
| Deprecations.ExtractDateAndVersion | lib/deprecation.rb:51-59 | Without a month the third argument is the version and there is no date. With a month it succeeds exactly when the third argument is a number and Date.new accepts the month; the date is then the first of that month and there is no version. A date and a version are never both set. |
| Deprecations.WhenDeprecationOccurs | lib/deprecation.rb:65-72 | A date gives "on or after YYYY-MM-DD" whatever the version. A version alone gives "on or after version V". Neither gives "in a future version". |
| Deprecations.WarnText | lib/deprecation.rb:38-44 | The three joined pieces, "\nCalled from C." only when a caller is set, then a final "\n". |
| Deprecations.NoticeTemplate | lib/deprecation.rb:39-41 | The joined pieces read "NOTE: option `:O` is deprecated; use `:R` instead. It will be removed CLAUSE.". |
| Deprecations.WarnTemplate | lib/deprecation.rb:38-43 | Without a caller the warning is exactly that sentence followed by "\n". |
| Deprecations.CalledWarnTemplate | lib/deprecation.rb:42-43 | With caller C the warning is exactly that sentence, "\nCalled from C.", then "\n". |
| Deprecations.CallerInserted | lib/deprecation.rb:42-43 | The plain warning ends in "\n". Setting a caller inserts "\nCalled from C." just before that newline and changes nothing else. |
| Deprecations.DateReadBack | lib/deprecation.rb:65-68 | The text just before the final ".\n" of a dated warning parses back to the deadline date. |
| Deprecations.Deprecation.constructor | lib/deprecation.rb:28-32 | Stores option and replacement unchanged and the deadline fields as extract_date_and_version gives them; no caller. It is callable only where Date.new would not raise. |
| Deprecations.Deprecation.SetCaller | lib/deprecation.rb:5 | caller= changes the caller field and nothing else. |
| Deprecations.Deprecation.Warn | lib/deprecation.rb:38-44 | Reads the record and changes nothing, so two calls give the same text. Equals WarnText of the fields and ends in a newline. |
| OptionMaps.Lookup | lib/optioning.rb:45 | Hash#[] finds a value exactly when the key is present, and the value is the one stored under it. |
| OptionMaps.Remove | test/deprecation_test.rb:60-63 | Hash#delete drops exactly the given key. Deleting an absent key changes nothing. |
| OptionMaps.RemoveLookup | test/deprecation_test.rb:60-63 | After Hash#delete the key is absent and every other key keeps its value. |
| OptionMaps.Put | test/deprecation_test.rb:60-63 | Hash#[]= adds exactly the given key. A new key goes last. |
| OptionMaps.PutLookup | test/deprecation_test.rb:60-63 | After Hash#[]= the key holds the new value and every other key keeps its value. |
| OptionMaps.Resolve | test/deprecation_test.rb:60-63 | One rule leaves a mapping without the deprecated key alone. Otherwise the replacement takes the deprecated key's value and the deprecated key disappears. Every other key is unchanged. |
| OptionMaps.ResolveAllUntouched | test/deprecation_test.rb:60-63 | A key no rule mentions keeps its value through alias resolution. |
| OptionMaps.ResolveAllMoves | test/deprecation_test.rb:60-63 | With independent rules, each rule's deprecated key ends up absent. Its replacement holds the deprecated key's value if the caller supplied it, else the replacement's own value. |
| OptionMaps.ResolveAllNothingDeprecated | test/deprecation_test.rb:60-63 | A mapping containing no deprecated key is unchanged. |
| OptionMaps.ResolveAllKeepsAbsent | test/deprecation_test.rb:60-63 | A key that is absent stays absent unless some rule introduces it. |
| OptionMaps.ResolveAllClearsDeprecated | test/deprecation_test.rb:60-63 | When no replacement is itself deprecated, no deprecated key survives alias resolution. |
| OptionMaps.ResolveAllIdempotent | test/deprecation_test.rb:60-63 | Under that condition a second resolution changes nothing, so repeated `on` calls agree. |
| OptionMaps.ResolveAllNotIdempotent | test/deprecation_test.rb:60-63 | Without the condition, the rules b→c, a→b registered in that order need two passes: the first pass yields b and the second yields c. |
| Optionings.Split | lib/optioning.rb:19-23 | There is a mapping exactly when the last argument is a Hash. In that case the arguments are the values followed by it; otherwise the values are all the arguments. |
| Optionings.OptionOn | lib/optioning.rb:44-46 | on(k) is a value exactly when a mapping exists and contains k, and then it is k's value. |
| Optionings.OnAsWritten | lib/optioning.rb:44-46 | `on` as lib/optioning.rb:44-46 writes it raises exactly when no mapping was passed, and otherwise agrees with OptionOn. |
| Optionings.OnAsWrittenRaisesWithoutOptions | lib/optioning.rb:44-46 | A call with no trailing Hash makes `on`, as lib/optioning.rb:44-46 writes it, raise for every key, while OptionOn answers none. |
| Optionings.AddKeys | test/unrecognized_option_test.rb:41-44 | Recognizing keys keeps the keys already recognized, in their order, in front. |
| Optionings.AddKeysMembers | test/unrecognized_option_test.rb:41-44 | A key is recognized afterwards exactly when it was before or is one of the added keys. |
| Optionings.AddKeysNoDup | test/unrecognized_option_test.rb:41-44 | Recognizing never lists a key twice. |
| Optionings.AddKeysAppend | test/unrecognized_option_test.rb:41-44 | Recognizing a + b is recognizing a, then b. |
| Optionings.AddKeysSnoc | test/unrecognized_option_test.rb:41-44 | The order of first declaration: one more key is appended at the end when it is new, and changes nothing when it is already recognized. |
| Optionings.Unrecognized | test/unrecognized_option_test.rb:20-65 | Reports at most the supplied keys. An unknown first key is reported first. |
| Optionings.UnrecognizedMembers | test/unrecognized_option_test.rb:20-65 | A key is reported exactly when it was supplied and is neither recognized nor deprecated. |
| Optionings.UnrecognizedConcat | test/unrecognized_option_test.rb:20-65 | The report keeps the supplied order: the keys of a + b are those of a, then those of b. |
| Optionings.AllKnown | test/unrecognized_option_test.rb:60-65 | Nothing is reported when every supplied key is recognized or deprecated. |
| Optionings.UnrecognizedReport | test/unrecognized_option_test.rb:27-65 | The report is empty exactly when no key is unrecognized. |
| Optionings.NoteLinesConcat | test/unrecognized_option_test.rb:27-32 | The notes on the keys a + b are the notes on a, then the notes on b, so there is one note per key, in order. |
| Optionings.NoteLinesOne | test/unrecognized_option_test.rb:30 | A key's note is "NOTE: unrecognized option `:k` used.\n". |
| Optionings.ReportCallSite | test/unrecognized_option_test.rb:27-32 | With a call site, the report is the one without it followed by "\nCalled from C.", where C is the first frame. |
| Optionings.DeprecationNotesOne | test/optioning_test.rb:25-32 | A single rule writes its warning exactly when its deprecated key was supplied, and nothing otherwise. |
| Optionings.DeprecationNotesConcat | test/optioning_test.rb:25-32 | The warnings of the rules a + b are those of a, then those of b, so they come in registration order. |
| Optionings.NoSuppliedNoNotes | test/optioning_test.rb:25-32 | Rules whose deprecated key was never supplied write nothing. |
| Optionings.DeprecationNotesFirstOfTwo | test/optioning_test.rb:29-32 | Of two rules, when only the first one's key was supplied, its warning is the whole output. |
| Optionings.Optioning.constructor | lib/optioning.rb:19-23 | Keeps the arguments. With a trailing Hash the values drop it and the options are it; otherwise the values are all the arguments and there are no options. No rules, no recognized keys, nothing written. |
| Optionings.Optioning.Raw | lib/optioning.rb:28-30 | raw is the values followed by the mapping when one was passed, and the values otherwise. Popping does not shorten it. |
| Optionings.Optioning.Values | lib/optioning.rb:36-38 | values is the arguments minus one trailing mapping, or all the arguments. |
| Optionings.Optioning.On | test/deprecation_test.rb:60-63 | Resolves every registered alias on the working options, then returns the resolved value of k, or none without a mapping. The lookup is lib/optioning.rb:45; the resolution is not in lib/optioning.rb. |
| Optionings.Optioning.Recognize | test/unrecognized_option_test.rb:14-18 | Returns the instance. The recognized keys become AddKeys of the old ones and the new keys: new keys in order, no duplicates (AddKeysSnoc, AddKeysNoDup). Nothing else changes. |
| Optionings.Optioning.Deprecate | test/deprecation_test.rb:55-63 | When the deadline is accepted, returns the instance, appends one fresh rule with the given keys and deadline and no caller, and recognizes the replacement. When Date.new would raise, returns that error and registers nothing. The options and output are never touched. |
| Optionings.Optioning.SetCallers | lib/deprecation.rb:5 | Every registered rule's caller becomes the given frame. |
| Optionings.Optioning.WriteDeprecationNotes | test/optioning_test.rb:29-32 | Appends DeprecationNotes of the rules: the warning of each rule whose deprecated key was supplied, in registration order. |
| Optionings.Optioning.DeprecationWarn | test/optioning_test.rb:29-32 | With a call site, every rule gets its first frame; without one the callers stay as they were. Then appends those warnings. Options, rules and recognized keys are unchanged. |
| Optionings.Optioning.WriteNotes | test/unrecognized_option_test.rb:27-32 | Appends one note per key, in order. |
| Optionings.Optioning.UnrecognizedWarn | test/unrecognized_option_test.rb:20-65 | Appends the report on the unrecognized keys, and nothing without a mapping. The model state is otherwise unchanged. |
| Optionings.Optioning.Process | test/optioning_test.rb:13-36 | Returns the instance and writes the deprecation warnings, then the unrecognized report. Callers are set as in DeprecationWarn. |
| Scenarios.DateDeadline | test/deprecation_test.rb:11-14 | `2015, 3` gives the date 2015-03-01 and no version. |
| Scenarios.VersionDeadline | test/deprecation_test.rb:16-19 | "v2.0.0" without a month is the version. |
| Scenarios.WarnPlain | test/deprecation_test.rb:22-26 | The warning without a deadline, with the final newline. |
| Scenarios.WarnVersioned | test/deprecation_test.rb:28-32 | The warning with a version deadline. |
| Scenarios.VersionClause | test/deprecation_test.rb:28-32 | The clause for version v2.0.0. |
| Scenarios.WarnDated | test/deprecation_test.rb:34-38 | The warning with the date 2015-03-01. |
| Scenarios.DateClause | test/deprecation_test.rb:34-38 | The clause for that date. |
| Scenarios.WarnCalled | test/deprecation_test.rb:40-50 | The versioned warning with the "Called from" line and then a newline. |
| Scenarios.SplitCall | test/optioning_test.rb:39-56 | raw, values and on(:to_hash) of `:path, :commit, to_hash: f`. |
| Scenarios.DeprecateRenames | test/deprecation_test.rb:55-63 | deprecate returns the instance. on(:to) then gives the to_hash value, and :to_hash is gone. |
| Scenarios.ToHashRenamed | test/deprecation_test.rb:60-63 | The rule to_hash → to moves the value to :to, and resolving again changes nothing. |
| Scenarios.DeprecateBadDeadline | lib/deprecation.rb:56 | deprecate with month 13, or with a version string and a month, returns Date.new's error and registers no rule and no key. |
| Scenarios.OnlyLastUnrecognized | test/unrecognized_option_test.rb:27-58 | When only the last supplied key is unknown, it is the whole report list. |
| Scenarios.ReportOne | test/unrecognized_option_test.rb:30-31 | The text of a report on one key. |
| Scenarios.ReportsUnrecognized | test/unrecognized_option_test.rb:27-32 | The report for :no_one_knows with :from, :to recognized. |
| Scenarios.DeprecatedNotReported | test/unrecognized_option_test.rb:34-45 | A supplied deprecated key is not reported. The replacement is listed first among the recognized keys. |
| Scenarios.ReplacementNotReported | test/unrecognized_option_test.rb:47-58 | A supplied replacement key is not reported. |
| Scenarios.SilentWhenAllRecognized | test/unrecognized_option_test.rb:60-65 | Nothing at all is written when every key is recognized. |
| Scenarios.ProcessSetup | test/optioning_test.rb:19-27 | The instance after two deprecations and one recognize. The recognized keys are :new, :from, :omg. |
| Scenarios.ProcessKeys | test/optioning_test.rb:19-27 | The keys it supplies, and :wtf as the only unrecognized one. |
| Scenarios.ProcessText | test/optioning_test.rb:30-35 | The text process writes for that call, assembled from its pieces. |
| Scenarios.ProcessReport | test/optioning_test.rb:18-36 | process writes the :old warning (with its newline), then the :wtf note and the summary. |

## Left out

- I/O: `$stderr` is the field `stderr`, holding everything written so far. The tests' swapping of `$stderr` for a StringIO is not modelled.
- Call sites: Ruby's `caller` stack is a sequence of frame strings passed in, of which only the first is used. The `puts` output in examples/file.rb and examples/module_maroto.rb is not part of this model.
- Ruby `Date` is a year/month/day triple. Only `Date.new(y, m, 1)` and `%Y-%m-%d` are modelled.
- Values are an opaque type: lambdas and `object_id` identity checks become equality on `V`.
- `optioning/version` (lib/optioning.rb:1) is only a packaging constant and is not modelled.
- Deprecations.Deprecation.constructor: where Date.new would raise (a non-numeric year with a month, or a month out of range), the constructor has a precondition, because a Dafny constructor cannot fail. ExtractDateAndVersion returns the error for those inputs, and Optionings.Optioning.Deprecate checks it before constructing, so `deprecate` reports the error instead.
- The unrecognized-option test files pass one array (`Optioning.new [hash]`). The model's constructor takes the argument list itself, so those scenarios use the Hash as the last argument.
- Aliasing between `@args` and `@options`: `@values = @args.dup` copies the array but shares the Hash. The model keeps the caller's mapping (`Raw`) separate from the working `options`, which alias resolution rewrites. A later `raw` therefore shows the Hash as passed.
- The trailing "\n" of Deprecation#warn is kept, as lib/deprecation.rb:43 writes it. test/deprecation_test.rb:24-25, 30-31, 36-37 and 47-49 expect the text without it. test/optioning_test.rb:31-32 expects it.
- Deprecation notes and the unrecognized report use the keys the caller supplied, before alias resolution renames them.
- The summary line of unrecognized_warn is written only when at least one key is unrecognized, as test/unrecognized_option_test.rb:60-65 requires.
- Behaviour that no test in the repository pins down, and how the model settles it:
  - both warning passes use only the first frame of the call site, as "\nCalled from C." after the deprecation sentence or after the summary (ReportCallSite);
  - each unrecognized key gets its own note ending in "\n" (NoteLinesConcat). No test has two unrecognized keys;
  - `on` applies every registered rule, in registration order, before the lookup.
- WriteDeprecationNotes collects the warnings in its loop and appends them to `stderr` in one write. The text written is the same as writing each warning in turn.
- Concurrency and the Hash's hashing are not modelled; keys are compared as strings.

## Findings

| source | as written | input that shows it | evidently intended | confidence | as-written member | corrected member |
|---|---|---|---|---|---|---|
| lib/optioning.rb:44-46 | `on` indexes `@options`, which stays nil when the last argument is not a Hash (line 22), so `on` raises NoMethodError | `Optioning.new(:a).on(:x)` | answer nil, as for a key absent from the mapping | not executed | Optionings.OnAsWritten (Optionings.OnAsWrittenRaisesWithoutOptions) | Optionings.OptionOn |
