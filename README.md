# check-mysql-query, modelled in Dafny

`check-mysql-query.rb` is a Sensu check plugin. It runs one SQL query and
reports OK, WARNING, CRITICAL or UNKNOWN. Its method `CheckMySQL#run` does
four things in a row:

1. It picks the database user and password. They come from the `[client]`
   section of an ini file when `--ini` is given, and from `-u`/`-p` otherwise.
2. It connects and runs the query. A driver error ends the run with UNKNOWN.
3. It picks the checked value. In tuples mode (`-t`) this is the row count.
   Otherwise it is the first field of the first row, run through `to_f`.
4. It hands the critical expression, then the warning expression, to the
   Dentaku calculator with that value bound to `value`. The first one that
   comes back truthy decides CRITICAL or WARNING. When neither does, the status
   is OK. An expression that is not set never fires.

The model is pure. `CheckMysqlQuery.Run` is one function from the parsed
options (`Config`) and the external code (`Collaborators`) to an `Outcome`.
An `Outcome` is either exactly one `Status` (each carrying its message) or an
exception that escapes `run`. The external code is four abstract
functions: the ini loader, the driver (connect plus `exec`), Dentaku's
`evaluate` and `String#to_f`. The Ruby core behaviour `run` depends on is
written out in module `RubyValues`: truthiness, `String#to_i` for the port,
`nil.to_f`, and `Array#inspect` for the `Results: …` text.

Files:

- `wrappers.dfy`: `Option` and `Result`.
- `ruby_values.dfy`: Ruby core behaviour (module `RubyValues`).
- `check_mysql_query.dfy`: `CheckMySQL#run` (module `CheckMysqlQuery`).

## Behaviour as the code has it

The model follows the code in these places. A reader might expect otherwise.

- In scalar mode, zero rows make `res.first` nil. Calling `values` on it then
  raises `NoMethodError`, and no status is reported by `run`. This is
  `Raises(NoMethodError("values"))`, not UNKNOWN.
- A NULL first field gives `nil.to_f`, which is 0.0. A row with no fields
  gives the same.
- A threshold escalates when Dentaku's result is truthy in Ruby's sense.
  Only `nil` and `false` are falsy, so a numeric result, even 0, escalates.
  If the calculator returns nil for an expression it cannot parse, that
  threshold does not fire, and the run can end in OK rather than UNKNOWN.
- An empty threshold string is still "present" for the `config[:x] && …`
  guard. It is handed to the calculator like any other.
- With `--ini`, a path that is not a file makes `IniFile.load` return nil.
  `ini['client']` then raises `NoMethodError`. A file that cannot be parsed
  raises the ini library's error. A missing `[client]` section or a missing
  key gives nil, and the connection is attempted without that credential.
- The port is passed as `config[:port].to_i`. So `"3306"` gives 3306, and
  text that is not a number gives 0. The port range is not checked.

## Model

| member | source | states |
|---|---|---|
| CheckMysqlQuery.ResolveCredentials | bin/check-mysql-query.rb:106-114 | without an ini path the credentials are the `-u`/`-p` values unchanged; with one they are the `client` section's `user`/`password` (nil when missing), and a missing or unparsable file raises |
| CheckMysqlQuery.IniLookup | bin/check-mysql-query.rb:108-110 | `section[key]` is present exactly when the section and key exist, and is then the stored value |
| CheckMysqlQuery.IniIgnoresExplicitFlags | bin/check-mysql-query.rb:106-110 | with an ini path set, changing the explicit user and password flags does not change the resolved credentials |
| CheckMysqlQuery.FlagsPassThrough | bin/check-mysql-query.rb:111-114 | without an ini path, the ini loader is never consulted and the flags pass through verbatim |
| CheckMysqlQuery.ConnectionParams | bin/check-mysql-query.rb:117-122 | the driver is given the configured host, the resolved user and password, the configured database, `to_i` of the port option and the configured socket |
| CheckMysqlQuery.DecimalPortReachesDriver | bin/check-mysql-query.rb:121 | a port option holding the decimal numeral of `n` (such as the default "3306") reaches the driver as `n` |
| RubyValues.ToI | bin/check-mysql-query.rb:121 | `to_i` is non-zero only when, after leading white space, the text starts with a digit or with a sign followed by a digit; it is negative only after a minus sign |
| RubyValues.LeadingDigits | bin/check-mysql-query.rb:121 | the numeral `to_i` reads at the head of the port text is all digits, no longer than the text, and non-empty exactly when the text starts with a digit |
| RubyValues.DecimalValue | bin/check-mysql-query.rb:121 | the value of the decimal numeral of `n` is `n` |
| RubyValues.LeadingDigitsOfNumeral | bin/check-mysql-query.rb:121 | a numeral followed by text that cannot continue it is read back whole |
| RubyValues.ToIDecimal | bin/check-mysql-query.rb:121 | `to_i` of a decimal port number, followed by anything that cannot continue it, is that number |
| RubyValues.ToINegativeDecimal | bin/check-mysql-query.rb:121 | `to_i` of a minus sign and a decimal numeral is the negated number |
| CheckMysqlQuery.UnknownMessage | bin/check-mysql-query.rb:125 | the UNKNOWN message starts with "Unable to query. Database: ", names the configured database right after it, and ends with the driver's error text |
| CheckMysqlQuery.UnknownMessageAsWritten | bin/check-mysql-query.rb:125 | the message as written holds the literal words "database" and "query" where the configured names were meant to go |
| CheckMysqlQuery.UnknownMessageNamesDatabase | bin/check-mysql-query.rb:125 | for one query, two different configured databases give two different corrected messages |
| CheckMysqlQuery.AsWrittenMessageOmitsDatabase | bin/check-mysql-query.rb:125 | two different databases give the same message as written but different corrected messages |
| CheckMysqlQuery.FirstField | bin/check-mysql-query.rb:131 | `values.first` is the row's first field, or nil for a row with no fields |
| RubyValues.FieldToF | bin/check-mysql-query.rb:131 | a nil field coerces to 0.0; a string coerces through `String#to_f` |
| CheckMysqlQuery.CheckedValue | bin/check-mysql-query.rb:128-132 | in tuples mode the value is the row count (any count, 0 included); otherwise it fails exactly when there are no rows, and is the coerced first field of the first row |
| CheckMysqlQuery.ScalarValueReadsFirstFieldOnly | bin/check-mysql-query.rb:131 | in scalar mode two results with the same first field of the first row give the same value |
| RubyValues.Truthy | bin/check-mysql-query.rb:135-137 | nil is falsy, a boolean is truthy exactly when it is true, and every number (0 included) and every string is truthy |
| CheckMysqlQuery.Fires | bin/check-mysql-query.rb:135-137 | an absent expression never fires, one the calculator answers with nil does not fire, and one it answers with true fires |
| CheckMysqlQuery.ResultsMessage | bin/check-mysql-query.rb:136-140 | the message is "Results: " followed by the rendered rows |
| RubyValues.Inspect | bin/check-mysql-query.rb:136-140 | its contract only fixes the outer brackets: the rendering starts with `[` and ends with `]`; the element rendering is given by its definition alone |
| CheckMysqlQuery.Classify | bin/check-mysql-query.rb:134-141 | CRITICAL exactly when the critical expression is set and truthy; WARNING exactly when critical does not fire and warning does; OK exactly when neither fires; never UNKNOWN; messages are "Results: " or "Query OK, Results: " followed by the same rendered rows |
| CheckMysqlQuery.Evaluations | bin/check-mysql-query.rb:135-137 | the calculator is handed at most two expressions; when critical fires it is handed only critical; with neither set it is handed nothing |
| CheckMysqlQuery.ClassifyReadsOnlyEvaluations | bin/check-mysql-query.rb:135-137 | two calculators that agree on the expressions actually evaluated give the same status and the same evaluations, so warning is consulted only when critical is absent or falsy |
| CheckMysqlQuery.ClassifyIsMostSevereFiring | bin/check-mysql-query.rb:135-141 | the status's exit code is the maximum of 2 for a firing critical and 1 for a firing warning (0 when neither fires), so critical dominates whatever warning gives |
| CheckMysqlQuery.FalsyThresholdsGiveOk | bin/check-mysql-query.rb:135-140 | absent expressions, or ones the calculator answers with nil or false, give OK with "Query OK, Results: …" |
| CheckMysqlQuery.ThresholdScenarios | bin/check-mysql-query.rb:135-141 | with `-c 'value > 10' -w 'value > 5'` read as comparisons, 15 is CRITICAL, 7 is WARNING and 3 is OK |
| CheckMysqlQuery.Run | bin/check-mysql-query.rb:105-142 | the run ends in UNKNOWN exactly when the driver reports an error; an exception escapes exactly when the credentials cannot be read or scalar mode gets no rows |
| CheckMysqlQuery.RunEvaluations | bin/check-mysql-query.rb:116-137 | no threshold expression is evaluated when the credentials fail or the driver reports an error |
| CheckMysqlQuery.RunReadsOnlyRunEvaluations | bin/check-mysql-query.rb:116-141 | two calculators that agree on the expressions `RunEvaluations` lists give the same run outcome, so the run consults the calculator nowhere else, and nowhere at all on the credential and driver error paths |
| CheckMysqlQuery.Query | bin/check-mysql-query.rb:106-123 | the query fails exactly when the credentials cannot be resolved, with that exception; otherwise it is the driver's answer for the connection parameters built from the resolved credentials and the configured query |
| CheckMysqlQuery.RunIgnoresFlagsWithIni | bin/check-mysql-query.rb:106-123 | with an ini path set, the whole run is the same whatever `-u`/`-p` say |
| CheckMysqlQuery.DbErrorIsUnknown | bin/check-mysql-query.rb:116-126 | a driver error gives UNKNOWN with the message carrying the error text, evaluates no threshold, and is unaffected by the thresholds, the mode, the calculator and the coercion |
| CheckMysqlQuery.EmptyTuplesAreZero | bin/check-mysql-query.rb:128-129 | in tuples mode an empty result is classified as the value 0, not treated as an error |

## Left out

- Dentaku expression evaluation is an abstract function from an expression and a value to a Ruby object. There is no parser and no grammar. If the calculator raises instead of returning, that is not modelled.
- Database connect and `exec` are one abstract function. It takes the connection parameters and the query, and gives a driver error or the result rows. The rescue clause names `MySQL::Error`, `con.exec` is called, and the result is read with `ntuples`, `first.values` and `values`. The model takes all of these at their evident meaning: a driver error is rescued, and the result is a row count and rows of fields. It does not check whether the `mysql` gem has these names.
- `String#to_f` is an abstract coercion to `real`. Float parsing, NaN and infinities are not modelled. The row count is used as a `real` too, and Ruby's Integer/Float distinction is not kept.
- `IniFile.load` is an abstract function giving a parsed document, "not a file" or a parse error. File reading and ini parsing are not modelled.
- The option declarations and their defaults (lines 41-102) are not modelled. `Config` holds the options after parsing. Lines 59-60 lack a comma between `long:` and `default:`, so the file does not parse as written. The model assumes it does.
- Process exit through `ok`/`warning`/`critical`/`unknown` is the returned `Status`. What the plugin framework does with an exception that escapes `run` (`Raises`) is outside this model.
- RubyValues.Inspect: renders rows as `Array#inspect` does. It escapes quote, backslash, newline, tab, carriage return and interpolation-starting `#`. Other control and non-printable characters are not escaped as Ruby would.
- RubyValues.ToI: models leading white space, one sign, digits and single underscores between digits. It does not skip the `0d` prefix that Ruby's base-10 `to_i` accepts, so `"0d3306"` gives 0 here and 3306 in Ruby. Other white space characters are not modelled either.
- CheckMysqlQuery.Run: on a driver error it reports the corrected message `UnknownMessage`, which names the configured database and query. Line 125 as written prints the literal words "database" and "query" instead; that text is `UnknownMessageAsWritten` (see Findings).
- bin/metric-mysql-query.rb is not part of this model. It repeats the credential choice and the value choice, then prints one Graphite line. It has no classification. It also reads options it never declares (`check_tuples`, `schema`).

## Findings

| source | as written | input that shows it | evidently intended | confidence | as-written member | corrected member |
|---|---|---|---|---|---|---|
| bin/check-mysql-query.rb:125 | `#{:database}` and `#{:query}` interpolate the symbols, giving the literal words "database" and "query" | database "sales" and error "x": the message is "Unable to query. Database: database Query: query, Error:x", which is the same for database "test" | the configured database name and query text in the message | high (not executed) | CheckMysqlQuery.AsWrittenMessageOmitsDatabase | CheckMysqlQuery.UnknownMessage |

