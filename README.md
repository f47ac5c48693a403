# Math-expert agent core, modelled in Dafny

The repository is a command-line "math expert": a hosted language model
answers an arithmetic question and may call three tools. Two components hold
its own logic, and this project models both:

- **`MathTools`** (`src/modules/tools.py`): an object whose `history` list gets
  one line `"<a> <op> <b> = <result>"` per addition or subtraction of
  integers (unbounded in the model; see "## Left out" on CPython's digit limit). `_get_history` reports the last five lines, oldest first, joined by
  newlines, or `"No previous operations"` when there are none. The list is never
  shortened. Module `Tools` (`tools.dfy`) models it as a class `MathTools`. It
  has a `history: seq<string>` field and a ghost `ops` field, the operations
  the lines describe. `Valid()` ties the two together: `history == Log(ops)`.
  Python's `str(int)`, `str.join` and `str.split` are written out, each with its
  inverse, in module `Text` (`text.dfy`).
- **AWS configuration** (`src/core/aws.py`): the `Conf` record and its
  defaults. `get_aws_conf` builds a fresh record and `setup_aws_conf` updates
  the module-global one; both override only the arguments that are not `None`.
  `get_aws_session` picks an assumed role, a named profile or static keys, in
  that order of precedence, with Python truthiness and the `isinstance(..., str)`
  test. `aws_get_service` picks the explicit configuration or the global one.
  Module `Aws` (`aws.dfy`) models the record as a datatype and the global `conf`
  as the field of a class `AwsModule`. Sessions and clients are records of the
  arguments boto3 would get. The STS `assume_role` answer is a function
  parameter.

`wrappers.dfy` holds the `Option` datatype, which models Python's `None`.

## Model

| member | source | states |
|---|---|---|
| Tools.MathTools.constructor | src/modules/tools.py:11-12 | A new instance has an empty history (and no recorded operations). |
| Tools.MathTools.DiffValues | src/modules/tools.py:14-17 | Returns a - b; the new history is the old one plus exactly the line `"<a> - <b> = <a-b>"`, with earlier lines unchanged; only this instance changes. |
| Tools.MathTools.SumValues | src/modules/tools.py:19-22 | Returns a + b; the new history is the old one plus exactly the line `"<a> + <b> = <a+b>"`; only this instance changes. |
| Tools.MathTools.GetHistory | src/modules/tools.py:24-27 | Changes nothing. Empty history gives exactly `"No previous operations"`. Otherwise the text splits on newlines into exactly the last min(5, \|history\|) lines, oldest first, and is never that message. |
| Tools.Entry | src/modules/tools.py:16 | An operation's history line never contains a newline, so it stays one line of the report. |
| Tools.EntryRoundTrip | src/modules/tools.py:14-22 | Each history line parses back to its operands, its operator and a result that matches them. |
| Tools.EntryInjective | src/modules/tools.py:14-22 | Two different operations never leave the same history line. |
| Tools.Log | src/modules/tools.py:16-21 | After n operations the history holds n lines, the i-th being the i-th operation's line; nothing is truncated. |
| Tools.LogAppend | src/modules/tools.py:16-21 | One more operation appends exactly its line; all earlier lines stay as they were. |
| Tools.Recent | src/modules/tools.py:27 | `history[-5:]`: a suffix of the history of length min(5, \|history\|). |
| Tools.HistoryText | src/modules/tools.py:24-27 | The answer of `_get_history`: exactly `"No previous operations"` for an empty history, otherwise text that starts with the oldest line of the window. `Tools.HistoryTextLines` and `Tools.NoHistoryIffEmpty` give its lines and when it is the message. |
| Tools.HistoryTextLines | src/modules/tools.py:27 | For a non-empty history of single-line entries, splitting the report on newlines gives back exactly the recent window. |
| Tools.NoHistoryIffEmpty | src/modules/tools.py:24-27 | For a history of operation lines, the report is the empty-history message if and only if there are no operations. |
| Tools.RecentOperations | src/modules/tools.py:27 | An operation's line is in the window if and only if the operation is among the last min(5, n) performed. |
| Tools.ReportedOperations | src/modules/tools.py:24-27 | The same, for the lines of the reported text, on every log: an empty log reports the message, which shows no operation's line. |
| Tools.LetterLineShowsNoOperation | src/modules/tools.py:25-26 | A one-line text starting with `N`, such as `"No previous operations"`, splits into no operation's line. |
| Tools.GetHistoryTwice | src/modules/tools.py:24-27 | Two consecutive reads return identical text. |
| Tools.FreshHistory | src/modules/tools.py:24-26 | A fresh instance reports `"No previous operations"`. |
| Tools.ThreeOperationsReport | tests/integration/test_application_integration.py:121-130 | After sum(5,3), diff(10,4), sum(8,6), the report is `"5 + 3 = 8"`, `"10 - 4 = 6"`, `"8 + 6 = 14"` joined by newlines, and splits into those three lines. |
| Tools.ThreeOperations | tests/integration/test_application_integration.py:106-130 | sum(5,3) = 8, diff(10,4) = 6, sum(8,6) = 14; the report is exactly these three lines in order. |
| Tools.NegativeOperands | tests/unit/test_tools.py:33-38 | diff(-5,-2) returns -3 and records `"-5 - -2 = -3"`. |
| Tools.SevenSums | tests/unit/test_tools.py:64-75 | After sum(i,1) for i = 0..6, the history keeps 7 lines. The report is the lines of i = 2..6: it holds `"6 + 1 = 7"` and lacks `"0 + 1 = 1"` and `"1 + 1 = 2"`. |
| Tools.SevenSumsReport | src/modules/tools.py:27 | The report after those seven sums is exactly the last five lines; the first two operations' lines are absent. |
| Tools.SeparateInstances | tests/unit/test_tools.py:135-147 | Two instances keep separate histories: each records only its own operation. |
| Text.IntToString | src/modules/tools.py:16 | `str(n)`: non-empty digits, with a leading `-` exactly for negative n, no leading zero (so each integer has one rendering), and no space or newline. |
| Text.ParseIntToString | src/modules/tools.py:16 | The decimal rendering reads back to the same integer. |
| Text.Join | src/modules/tools.py:27 | `"\n".join(...)`: the text starts with the first part. Its partner `Text.SplitJoin` recovers the parts. |
| Text.Split | tests/unit/test_tools.py:71 | `str.split("\n")`: at least one piece, no piece holds the separator, and exactly one piece when the separator is absent. |
| Text.SplitJoin | src/modules/tools.py:27 | Splitting a newline-join gives back the parts when no part contains the separator. |
| Aws.GetAwsConf | src/core/aws.py:18-48 | Each field is its argument when that is not None. Otherwise it is the `Conf()` default: `AWS_ASSUME_ROLE` False, all else None. |
| Aws.AwsModule.constructor | src/core/aws.py:119 | The global `conf` starts as `Conf()`. |
| Aws.AwsModule.SetupAwsConf | src/core/aws.py:51-76 | Exactly the global fields whose arguments are not None are overwritten; all others keep their previous values. |
| Aws.SetupMatchesGetAwsConf | src/core/aws.py:37-76 | Running `setup_aws_conf` on a fresh global gives the same record as `get_aws_conf` with the same arguments. |
| Aws.GetAwsSession | src/core/aws.py:79-116 | Picks the first eligible of assumed role (a truthy string), named profile (truthy name) and static keys. An assumed role asks STS with the root keys, the ARN and `"AssumeRoleSession"`, then uses the returned key, secret, token and region. A profile session gets only name and region; otherwise the static keys and region. |
| Aws.AssumesRoleIff | src/core/aws.py:90 | A role is assumed if and only if `AWS_ASSUME_ROLE` is a non-empty string. |
| Aws.FlagNeverAssumesRole | src/core/aws.py:88-115 | A boolean `AWS_ASSUME_ROLE`, True included, falls through to the profile or static-key branch. |
| Aws.StsOnlyForAssumedRole | src/core/aws.py:90-115 | The branch taken does not depend on STS; outside the assumed-role branch the session does not depend on STS at all. |
| Aws.DefaultConfUsesStaticKeys | src/core/aws.py:106-115 | `Conf()` yields a static-key session with no keys and no region. |
| Aws.AwsModule.AwsGetService | src/core/aws.py:122-133 | The client is for the named service, from the session of the explicit configuration if given, else of the global `conf`. |
| Aws.ExplicitConfIgnoresGlobal | src/core/aws.py:132 | With an explicit configuration, the global configuration has no influence. |
| Aws.SetupThenGetService | src/core/aws.py:67-132 | After setting region and a non-empty profile on the default global, a service client without a configuration uses that profile and region. |

## Left out

- `get_tools` (src/modules/tools.py:29-63): the `@tool` wrapping, the logging and
  the framework registration are foreign. Only the three tool names, in their
  order, are kept, as `Tools.ToolNames`.
- `Conf.session` (src/core/aws.py:15): an opaque boto3 object that defaults to
  None and that no modelled function reads.
- boto3 and STS calls (src/core/aws.py:91-115, 133): network and a foreign
  library. The STS answer is the function parameter `sts`. A session or
  client is the record of the arguments it would be built with.
- Python's dynamic typing: the model takes the operands as integers and the
  configuration fields as their annotated types. Pydantic does not check them:
  `Conf` does not turn on `validate_assignment` (src/core/aws.py:8), so the
  assignments in `get_aws_conf` and `setup_aws_conf` store whatever they are
  given. The commands pass the values from src/settings.py:13-17, where
  `AWS_ACCESS_KEY_ID`, `AWS_SECRET_ACCESS_KEY` and `AWS_PROFILE_NAME` are the
  bool `False` when their environment variable is unset. `Option<string>`
  cannot hold that `False`. It acts like `Some("")`: it overwrites the field
  and is falsy, so `Aws.GetAwsSession` takes the same branch. Where the key
  fields are forwarded, Python passes `False` rather than a string. That
  happens in the static-key session (src/core/aws.py:110-115) and in the STS
  client of the assumed-role branch (src/core/aws.py:91-95), whose
  `StsRequest` would carry `False`.
- A failing STS `assume_role` call (src/core/aws.py:96-98): in Python its
  exception propagates out of `get_aws_session`. The model's `sts` is a total
  function, so that error path is not modelled.
- Concurrency: the model is single-caller and sequential, as the source assumes.
- `Text.Split` and `Text.Join` model `str.split` and `str.join` only for
  one-character separators. The source and its tests use only `"\n"`. The
  model's own `Tools.ParseEntry` also uses `" "`, to read an entry back.
- Tools.MathTools.DiffValues / SumValues, Text.IntToString: CPython limits
  the int-to-string conversion to `sys.get_int_max_str_digits()` digits, 4300
  by default since 3.11 and the 2022 security releases of 3.7-3.10. When `a`,
  `b` or the result has more digits than that, the f-string at
  src/modules/tools.py:16 and :21 raises `ValueError`. The raise comes before
  `append`, so nothing is returned and `history` stays unchanged. The model
  renders integers of any size, so it behaves as if that limit were lifted
  (`sys.set_int_max_str_digits(0)`). It does not model this error path.
- Text.IntToString: renders integers of any number of digits, where CPython's
  `str(n)` raises `ValueError` beyond the digit limit in the line above.
- Tools.MathTools.DiffValues / SumValues keep `Valid()` (the ghost `ops` matches
  `history`) only when it held before. In Python `history` is a public list
  that outside code could overwrite; the model tracks that link only while the
  class's own operations are the only writers.
- src/core/llm/aws.py, src/modules/llm.py, src/modules/prompts.py, src/settings.py,
  src/cli.py and src/commands/ are not part of this model. They wire up the
  hosted model, the agent loop, the prompt text, environment variables and
  the command line, and hold no logic that the modelled core depends on.
  Their own small pieces of logic are left out too:
  - the normalisation of a single stop-sequence string into a one-element
    list (src/core/llm/aws.py:65-67);
  - the choice of callback handler on `DEBUG` (src/core/llm/aws.py:57-61);
  - the environment defaults of src/settings.py:13-17, whose `False` values
    are discussed in the dynamic-typing line above.
