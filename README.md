# fio-api-php, modelled in Dafny

A model of the core of a PHP client for the Fio bank's transaction-export
API. It covers two pieces:

- `Transaction::create`. This is the decoder that turns one record of an
  account statement into a `Transaction` value. A record is keyed by
  positional column identifiers (`column22`, `column0`, …). The model also
  covers the accessors of the value object, including the deprecated ones.
- The `Downloader`. It sends one GET request per operation through an HTTP
  client that is created lazily and then cached. It turns a failed response
  into `TooGreedyException` (status 409) or `InternalErrorException`
  (status 500), and rethrows any other failure unchanged.

Files:

- `wrappers.dfy`: `Option` and `Result`.
- `json.dfy`: the decoded JSON values a record holds. It also holds PHP's
  `(string)` cast of an integer, with a parser proved to invert it.
- `transaction.dfy`: the `Transaction` datatype, `Create`, the table of
  columns and rules, and the lemmas about them.
- `downloader.dfy`: `HandleException`, the `Downloader` class with its
  cached `client` field, and the download operations.

How the pieces are modelled:

- A record is a `map<nat, Value>`. Key `n` stands for the object property
  `column<n>`. A column that is absent, or whose object is null, is not in
  the map. The source reads every column as `$data->column<n>`, so keying by
  the number gives the same positions.
- `Transaction` (`src/FioApi/Transaction.php`, the fields and constructor at
  lines 10-100, the getters at lines 130-248) is a datatype. Its fields are
  set once, when it is built,
  and never change. The source's getters are the datatype's destructors.
  The deprecated getters are the member functions `DeprecatedSender…()`.
- `Transaction.php` is declared with `strict_types=1`. So when a column holds
  the wrong JSON type, `create` raises a `TypeError`. It also raises one when
  a required column (0, 1 or 14) is missing, because a non-nullable
  parameter then receives null. The model returns
  `Failure(TypeError(n))`, where `n` is the column that surfaces first.
  `column0` surfaces first because `DateTimeImmutable` is built while the
  arguments are evaluated. The remaining columns surface in the order of the
  constructor's parameters (`CHECK_ORDER`).
- `column22` is only cast with `(string)`. If it is missing, PHP reads null
  (with a warning), and `(string)null` is `''`. So the model gives the id
  `''` there and does not fail.
- `!empty($data->columnN)` tests the column object, not its value. So a
  present column whose value is `''` gives `''`, not null.
- In the Downloader, the HTTP exchange is a parameter. Each operation takes
  a `Reply`, which is `Ok(decoded statement)` or `Fail(BadResponse)`. A
  ghost field `requests` records every GET: which client sent it and which
  URL it fetched. `downloadSince`'s "now" (the clock) is also a parameter.
- `UrlBuilder` and `TransactionList` are kept uninterpreted. A URL is the
  datatype value naming its operation, token and parameters. A transaction
  list is the statement it was built from.

Two consequences of the code that are easy to miss:

- A missing variable symbol (`column5`) gives null, like every other
  optional column; there is no `"0"` default. See
  `VariableSymbolIsNullWhenAbsent` and `MinimalRecord`.
- A present but empty optional column gives `''`, not null, as explained
  above.

## Model

| member | source | states |
|---|---|---|
| `Json.NatString` | src/FioApi/Transaction.php:109 | The decimal form of a natural number is non-empty and all digits, with no leading zero: it starts with `0` only when it is `"0"` itself. |
| `Json.DecimalString` | src/FioApi/Transaction.php:109 | PHP's `(string)` of an integer is in canonical form: a minus sign only before a nonzero number, then digits without a leading zero. |
| `Json.StringCast` | src/FioApi/Transaction.php:109 | PHP's `(string)` cast returns a string value unchanged. A number becomes a canonical decimal string that parses back to that number, which by `CanonicalDecimalUnique` is the only such string. |
| `Json.ParseNatString` | src/FioApi/Transaction.php:109 | Reading back the digits of a natural number gives that number. |
| `Json.DecimalRoundTrip` | src/FioApi/Transaction.php:109 | Parsing the cast string of any integer, negative ones included, gives back the integer. |
| `Json.DecimalStringInjective` | src/FioApi/Transaction.php:109 | Two different integers never cast to the same string. |
| `Json.CanonicalDecimalUnique` | src/FioApi/Transaction.php:109 | Every canonical decimal string is the cast of the number it denotes, so `"07"` or `"-0"` is never an id made from a number. |
| `Json.NatStringOfParse` | src/FioApi/Transaction.php:109 | Printing the number a canonical digit string denotes gives back that digit string. |
| `Transactions.RuleOf` | src/FioApi/Transaction.php:108-127 | Exactly the eighteen columns `create` reads have a presence/type rule. Every other column has none. |
| `Transactions.Create` | src/FioApi/Transaction.php:106-128 | The decoder itself, with no contract of its own. The lemmas below characterise it: its failures (`OnlyTypedColumnsFail`, `CreateSucceedsIff`, `CreateReportsFirstMisfit`), its fields (`CreateThenGet`) and its inverse (`CreateInvertsEncode`). |
| `Transactions.OnlyTypedColumnsFail` | src/FioApi/Transaction.php:108-127 | A TypeError always names one of the columns `create` reads, and never column22: `(string)` cannot fail. |
| `Transactions.CreateSucceedsIff` | src/FioApi/Transaction.php:106-128 | `create` succeeds if and only if every column fits its rule. Columns 0 and 14 must hold text and column 1 a number. Optional columns must be absent or of their parameter's type. |
| `Transactions.CreateReportsFirstMisfit` | src/FioApi/Transaction.php:62-128 | When columns misfit, the TypeError names the first misfit: `column0` first, then the rest in constructor-parameter order. |
| `Transactions.CreateThenGet` | src/FioApi/Transaction.php:82-248 | Round trip, create then get. The id is the column22 text, exactly PHP's canonical decimal string of its number, or `''` when absent. The type is column8's text, or `''` when absent. Every other field mirrors its column: the value when present, null when absent. |
| `Transactions.TransactionTypeDefaultsToEmpty` | src/FioApi/Transaction.php:122 | The transaction type is never null. It is `''` exactly when column8 is absent or holds `''`. |
| `Transactions.VariableSymbolIsNullWhenAbsent` | src/FioApi/Transaction.php:118 | The variable symbol is null exactly when column5 is absent, with no other default. When present, it is column5's text. |
| `Transactions.DeprecatedGettersForward` | src/FioApi/Transaction.php:158-198 | `getSenderAccountNumber` equals `getAccountNumber` (column2). `getSenderBankCode` equals `getBankCode` (column3). `getSenderName` equals `getBankName` (column12). |
| `Transactions.Transaction.DeprecatedSenderAccountNumber` | src/FioApi/Transaction.php:158-162 | The deprecated alias of `getAccountNumber`, with no contract of its own. `DeprecatedGettersForward` states what it returns. |
| `Transactions.Transaction.DeprecatedSenderBankCode` | src/FioApi/Transaction.php:176-180 | The deprecated alias of `getBankCode`, with no contract of its own. `DeprecatedGettersForward` states what it returns. |
| `Transactions.Transaction.DeprecatedSenderName` | src/FioApi/Transaction.php:194-198 | The deprecated alias of `getBankName`, with no contract of its own. `DeprecatedGettersForward` and `DeprecatedSenderNameIgnoresColumn10` state what it returns. |
| `Transactions.DeprecatedSenderNameIgnoresColumn10` | src/FioApi/Transaction.php:194-198 | A record with only column10 among the names has sender name set, yet `getSenderName` returns null. |
| `Transactions.CreateReadsOnlyItsColumns` | src/FioApi/Transaction.php:108-127 | Two records that agree on the eighteen columns decode to the same result. Any other column has no effect. |
| `Transactions.CreateInvertsEncode` | src/FioApi/Transaction.php:106-128 | Writing each field of any transaction into its column, nulls left out, and decoding the record gives back the same transaction. |
| `Transactions.NumericIdsStayDistinct` | src/FioApi/Transaction.php:109 | Records whose numeric column22 values differ decode to transactions with different ids. |
| `Transactions.MinimalRecord` | src/FioApi/Transaction.php:106-128 | A record with only columns 22, 0, 1, 14 and 8 decodes with every optional field null, the variable symbol included. |
| `Downloads.HandleException` | src/FioApi/Downloader.php:81-94 | A failed response always ends in an exception, never a return. 409 gives TooGreedy and 500 gives InternalError, each with its message, the status as code and the original as cause. Any other status rethrows the original. |
| `Downloads.Receive` | src/FioApi/Downloader.php:67-79 | The transaction list is built only from a successful response, and holds that response's statement. A failure gives exactly `HandleException` of the response, with the response as its cause. |
| `Downloads.Acknowledge` | src/FioApi/Downloader.php:55-65 | `setLastId` returns normally exactly on success and drops the body. A failure gives exactly `HandleException` of the response. |
| `Downloads.FailedReplyClassified` | src/FioApi/Downloader.php:81-94 | For every download and for `setLastId`: a 409 ends in TooGreedy, a 500 in InternalError, each with its message, code and the response, and any other status rethrows the response. |
| `Downloads.Downloader.constructor` | src/FioApi/Downloader.php:22-26 | The downloader keeps the token's URL builder and the injected client, if any, and has sent no request. |
| `Downloads.Downloader.GetClient` | src/FioApi/Downloader.php:28-36 | Returns the client already held, if there is one. Otherwise it creates one new client, using the system CA bundle, and stores it in the field. |
| `Downloads.Downloader.DownloadTransactionsList` | src/FioApi/Downloader.php:67-79 | Resolves the client and sends exactly one GET of the URL through it. The result is `Receive` of the reply. |
| `Downloads.Downloader.DownloadFromTo` | src/FioApi/Downloader.php:38-42 | Sends one GET of the period URL for (from, to). The result is `Receive` of the reply. |
| `Downloads.Downloader.DownloadSince` | src/FioApi/Downloader.php:44-47 | Has exactly the effect and result of `DownloadFromTo(since, now)`. |
| `Downloads.Downloader.DownloadLast` | src/FioApi/Downloader.php:49-53 | Same as `DownloadFromTo` except that the URL fetched is the last-unread URL. |
| `Downloads.Downloader.SetLastId` | src/FioApi/Downloader.php:55-65 | Sends one GET of the set-last-id URL. The result is `Acknowledge` of the reply, so failures go through the same classifier. |
| `Downloads.DefaultClientCreatedOnce` | src/FioApi/Downloader.php:28-36 | With no injected client, two downloads go through one client, created freshly by the first. |
| `Downloads.InjectedClientIsKept` | src/FioApi/Downloader.php:22-36 | With an injected client, every request goes through that client, and the field still holds it afterwards. |

## Left out

- Date parsing: a date is the raw `column0` text. `DateTimeImmutable` is a
  foreign library, so a malformed date string, which raises an exception in
  the source, is not modelled.
- Floats: `amount` and `paymentOrderId` are PHP floats. The model uses
  integers, so float rounding and PHP's float-to-string form are not
  modelled.
- Other JSON value kinds: the model does not cover a column value that is a
  boolean, an array or an object. It also does not cover a column whose
  object is present but whose `value` member is null: that is read as an
  absent column.
- Warnings: PHP's warnings for a missing column22 and the `trigger_error`
  deprecation notices are logging side effects. The model keeps only the
  returned values.
- Foreign I/O: the Guzzle client, CA bundle lookup, TLS and the network are
  not modelled. `caRootBundlePath` and the `Reply` of each request are
  inputs instead.
- Transport exceptions other than `BadResponseException`, such as connection
  failures, are not caught by the source. No `Reply` represents them.
- JSON decoding of the body and the `accountStatement` lookup are a library
  call on an unseen format. A successful `Reply` carries the decoded
  statement directly, so a malformed body is not modelled.
- `UrlBuilder` and `TransactionList` are kept uninterpreted: a URL names
  its operation, token and parameters, and a list holds its statement. The
  exact URL text and the list's own parsing are not modelled.
- `src/FioApi/AbstractClient.php` is not part of this model. It holds a token
  and repeats the lazy client of `Downloader::getClient`.
