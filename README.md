# DisallowGenericVariableNamesInForEachLoop, modelled in Dafny

The KentStandards coding standard has one PHP_CodeSniffer sniff,
`DisallowGenericVariableNamesInForEachLoop`. It listens for `foreach` tokens.
For each one it looks forward for the first opening parenthesis. It reads that
parenthesis's recorded closer. Then it scans the loop header, the token window
`[opener, closer)`. Every variable in that window whose text, `$` included, is
at most two bytes long (`$k`, `$v`), or is exactly `$value` or `$key`, gets a
`GenericVariableNamesInForEachLoop` warning at its own index. The warning
carries the variable's text as its argument. A missing opener gets one
`MissingOpenParenthesis` warning at the `foreach`, and so does a missing closer
with `MissingCloseParenthesis`. Nothing is scanned in those two cases.

The project has two modules:

- `code_sniffer.dfy`, module `CodeSniffer`: the host boundary the sniff uses.
  It holds the token array as a sequence of `Token(kind, content, closer)`
  records, with content as bytes. It holds the bracket matcher's invariant
  (`ClosersInRange`: the closer recorded on an opening parenthesis lies
  after it and no further than the end of the array; closers the host
  records on other tokens are not constrained). It has `findNext` as the
  function `FindNext`. It has the file as a class `File` whose `warnings` sequence is the
  append-only sink, and `addWarning` as `File.AddWarning`.
- `generic_names_sniff.dfy`, module `DisallowGenericVariableNamesInForEachLoop`:
  the sniff. `Process` is the `process` method. Its `for` loop is the method
  `ScanHeader`, which keeps the `!=` guard. `Process` is proved to append exactly
  `ProcessWarnings(tokens, stackPtr)` to the sink and to leave the token array
  alone. `ProcessWarnings` is built from `ScanWindow` and `TokenWarnings`.
  These follow the source branch by branch: the length rule is checked
  first, then the blacklist, and each rule that fires reports once. The
  lemmas then say what those warnings are. The two error paths each give one
  warning. Name warnings lie only inside the header, on offending variables,
  in ascending order, at most one per token. Every offending variable in the
  header is reported, and no descriptive one is; a header with no offending
  variable gets no warning at all. Three worked headers:
  `foreach ($items as $k => $v)` reports `$k` and `$v`;
  `foreach ($items as $key => $value)` reports `$key` and `$value`;
  `foreach ($items as $itemKey => $itemValue)` reports nothing.

The two rules are checked independently, as at lines 65 and 71 of the
source, and the model keeps them so. Both blacklisted names are longer than
two bytes (`GenericNamesAreNotShort`), so a token gets at most one warning
(`TokenWarningsAtMostOne`).

The host calls the sniff with the file and the index of a `foreach` token. The
model does not require that token to be a `foreach`, because `process` does
not look at it. It requires only the host's bracket-matching invariant.
Without that invariant the `!=` loop need not terminate.

## Model

| member | source | states |
|---|---|---|
| `DisallowGenericVariableNamesInForEachLoop.Register` | phpcs/kentStandard/Sniffs/DisallowGenericVariableNamesInForEachLoopSniff.php:24-27 | the sniff listens for `foreach` tokens and no other kind |
| `CodeSniffer.FindNext` | phpcs/kentStandard/Sniffs/DisallowGenericVariableNamesInForEachLoopSniff.php:43 | the result is the least index at or after `stackPtr` holding an opening parenthesis; None exactly when no such index exists |
| `CodeSniffer.File.AddWarning` | phpcs/kentStandard/Sniffs/DisallowGenericVariableNamesInForEachLoopSniff.php:46 | reporting appends one (position, code, arguments) warning and keeps the earlier warnings as a prefix |
| `DisallowGenericVariableNamesInForEachLoop.Process` | phpcs/kentStandard/Sniffs/DisallowGenericVariableNamesInForEachLoopSniff.php:39-76 | the sink gains exactly `ProcessWarnings(tokens, stackPtr)` after its old contents, and the token array is unchanged |
| `DisallowGenericVariableNamesInForEachLoop.ScanHeader` | phpcs/kentStandard/Sniffs/DisallowGenericVariableNamesInForEachLoopSniff.php:59-75 | the header loop, run from the opener until it reaches the closer, appends exactly `ScanWindow(tokens, opener, closer)` to the sink |
| `DisallowGenericVariableNamesInForEachLoop.TooShort` | phpcs/kentStandard/Sniffs/DisallowGenericVariableNamesInForEachLoopSniff.php:64-65 | defines the length rule: a variable's text, `$` included, is at most two bytes; the lemmas below are about it |
| `DisallowGenericVariableNamesInForEachLoop.IsGenericName` | phpcs/kentStandard/Sniffs/DisallowGenericVariableNamesInForEachLoopSniff.php:69-71 | defines the blacklist rule: the text is exactly `$value` or `$key`; the lemmas below are about it |
| `DisallowGenericVariableNamesInForEachLoop.TokenWarnings` | phpcs/kentStandard/Sniffs/DisallowGenericVariableNamesInForEachLoopSniff.php:60-73 | defines one step of the scan: nothing for a non-variable, otherwise the length rule first and then the blacklist, each reporting once when it fires; `TokenWarningsAtMostOne` is about it |
| `DisallowGenericVariableNamesInForEachLoop.ScanWindow` | phpcs/kentStandard/Sniffs/DisallowGenericVariableNamesInForEachLoopSniff.php:59-75 | defines the scan of `[opener, upto)` as the steps' warnings in token order; `ScanWindowAscending`, `ScanWindowSound` and `ScanWindowComplete` are about it |
| `DisallowGenericVariableNamesInForEachLoop.ProcessWarnings` | phpcs/kentStandard/Sniffs/DisallowGenericVariableNamesInForEachLoopSniff.php:43-75 | defines everything one call reports: one diagnostic when the opener or its closer is missing, otherwise the header scan; `Process` is proved to append exactly this |
| `DisallowGenericVariableNamesInForEachLoop.DiagnosticOnlyWhenMalformed` | phpcs/kentStandard/Sniffs/DisallowGenericVariableNamesInForEachLoopSniff.php:43-56 | a `MissingOpenParenthesis` or `MissingCloseParenthesis` warning is the call's only warning, stands at the `foreach`, is outside any header, is `MissingOpenParenthesis` exactly when no opener exists, and is `MissingCloseParenthesis` exactly when the first opener has no recorded closer |
| `DisallowGenericVariableNamesInForEachLoop.DescriptiveHeaderSilent` | phpcs/kentStandard/Sniffs/DisallowGenericVariableNamesInForEachLoopSniff.php:50-75 | when the first opener has a recorded closer and no token of the header breaks a naming rule, the call reports nothing at all |
| `DisallowGenericVariableNamesInForEachLoop.MissingOpenerWarnsOnce` | phpcs/kentStandard/Sniffs/DisallowGenericVariableNamesInForEachLoopSniff.php:43-47 | with no opening parenthesis at or after `stackPtr`, the only warning is one `MissingOpenParenthesis` at `stackPtr` |
| `DisallowGenericVariableNamesInForEachLoop.MissingCloserWarnsOnce` | phpcs/kentStandard/Sniffs/DisallowGenericVariableNamesInForEachLoopSniff.php:50-54 | when the first opener has no recorded closer, the only warning is one `MissingCloseParenthesis` at `stackPtr`, and nothing is scanned |
| `DisallowGenericVariableNamesInForEachLoop.GenericNamesAreNotShort` | phpcs/kentStandard/Sniffs/DisallowGenericVariableNamesInForEachLoopSniff.php:65-71 | `$value` and `$key` are 6 and 4 bytes long, so the length rule and the blacklist never fire on the same name |
| `DisallowGenericVariableNamesInForEachLoop.TokenWarningsAtMostOne` | phpcs/kentStandard/Sniffs/DisallowGenericVariableNamesInForEachLoopSniff.php:60-73 | one scan step reports exactly one warning, at that index and carrying its text, for an offending variable, and none for any other token |
| `DisallowGenericVariableNamesInForEachLoop.ScanWindowAscending` | phpcs/kentStandard/Sniffs/DisallowGenericVariableNamesInForEachLoopSniff.php:59-75 | a header scan's warnings lie in `[opener, closer)` and their positions strictly ascend |
| `DisallowGenericVariableNamesInForEachLoop.ScanWindowSound` | phpcs/kentStandard/Sniffs/DisallowGenericVariableNamesInForEachLoopSniff.php:59-73 | every warning of a header scan is at an index of the window whose token is an offending variable, and carries that token's text |
| `DisallowGenericVariableNamesInForEachLoop.ScanWindowComplete` | phpcs/kentStandard/Sniffs/DisallowGenericVariableNamesInForEachLoopSniff.php:59-73 | every offending variable in the window gets a warning |
| `DisallowGenericVariableNamesInForEachLoop.ProcessWarningsAscending` | phpcs/kentStandard/Sniffs/DisallowGenericVariableNamesInForEachLoopSniff.php:59-75 | one call's warnings come in strictly ascending token order, so no token is warned about twice |
| `DisallowGenericVariableNamesInForEachLoop.NameWarningsInHeader` | phpcs/kentStandard/Sniffs/DisallowGenericVariableNamesInForEachLoopSniff.php:59-72 | every `GenericVariableNamesInForEachLoop` warning is at an index `opener <= i < closer` of the header whose token is an offending `T_VARIABLE`; the closing parenthesis and the loop body are never warned about |
| `DisallowGenericVariableNamesInForEachLoop.OffendingVariableWarned` | phpcs/kentStandard/Sniffs/DisallowGenericVariableNamesInForEachLoopSniff.php:62-73 | a header variable of at most two bytes, or equal to `$value` or `$key`, gets a warning at its own index carrying its text |
| `DisallowGenericVariableNamesInForEachLoop.DescriptiveVariableNotWarned` | phpcs/kentStandard/Sniffs/DisallowGenericVariableNamesInForEachLoopSniff.php:59-73 | a header variable longer than two bytes and not blacklisted, such as the iterated `$items`, gets no warning |
| `DisallowGenericVariableNamesInForEachLoop.ScanWindowSkips` | phpcs/kentStandard/Sniffs/DisallowGenericVariableNamesInForEachLoopSniff.php:59-60 | tokens that are not offending variables add nothing to a scan |
| `DisallowGenericVariableNamesInForEachLoop.ForeachTokensScan` | phpcs/kentStandard/Sniffs/DisallowGenericVariableNamesInForEachLoopSniff.php:43-60 | for `foreach ($items as KEY => VALUE) { echo VALUE; }` only the two loop variables in the header can be reported |
| `DisallowGenericVariableNamesInForEachLoop.ShortNamesExample` | phpcs/kentStandard/Sniffs/DisallowGenericVariableNamesInForEachLoopSniff.php:64-67 | `foreach ($items as $k => $v)` reports `$k` and `$v`, in that order, and not the `$v` of the body |
| `DisallowGenericVariableNamesInForEachLoop.GenericNamesExample` | phpcs/kentStandard/Sniffs/DisallowGenericVariableNamesInForEachLoopSniff.php:69-73 | `foreach ($items as $key => $value)` reports `$key` and `$value` |
| `DisallowGenericVariableNamesInForEachLoop.DescriptiveNamesExample` | phpcs/kentStandard/Sniffs/DisallowGenericVariableNamesInForEachLoopSniff.php:59-75 | `foreach ($items as $itemKey => $itemValue)` reports nothing |

## Left out

- The PHP_CodeSniffer host is not part of this model: tokenizing, the bracket matcher that fills `parenthesis_closer`, ruleset loading, the CLI and reporting. The token array and its closer annotation are inputs. The host's invariant on closers is a precondition.
- `File::getTokens` (line 41) is the `tokens` field of `File`. `File::findNext` is modelled only for the call made here: one token type, searching to the end of the file.
- The source passes the offending variable's text to `addWarning` as a bare string (lines 66 and 72). The model wraps it in a one-element argument list; the two diagnostics carry an empty list. How the host treats a bare string there is not modelled.
- Warning codes are the enumeration `Code` of the three codes the sniff reports, not arbitrary strings.
- Message text, its `%s` substitution (line 61) and the warning severity are not modelled. A warning records only position, code and arguments.
- The numeric value of `T_FOREACH` and the host's dispatch on `register()` are not modelled. Token types are a datatype whose other kinds carry their host name.
- The host's suppression of warnings (ignore comments, severity filters) and the return value of `addWarning` are not modelled. The sink records every report.
- PHP's loose comparison in `in_array` (line 71) is modelled as plain equality. Variable contents start with `$`, so the two agree.
- Token content is a byte sequence and `strlen` is its length. Multibyte character semantics are not modelled.
- Repeating a call on the same tokens gives the same warnings, because `ProcessWarnings` is a function of the token array and `stackPtr`. No separate lemma states this.
