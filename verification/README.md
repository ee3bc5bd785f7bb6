# pinboard.php core, modelled in Dafny

This project models the three pieces of the Pinboard API client library that
hold its logic:

- the **option format validator** (`OptionValidation`): a table from option
  field name to one of eleven format tags (`tag`, `url`, `title`, `text`,
  `datetime`, `date`, `yes`, `no`, `md5`, `integer`, `format`) is checked
  against the caller's options. Unknown tags and absent fields are skipped; the
  answer is **true when some checked field is invalid** and false when all pass
  (the accumulator in the code is named `$isValid`, but it collects failures);
- the **validation error renderer** (`OptionException`): a map from field name
  to the list of violated tags, rendered through a message table (the default
  table, or one the caller supplies, which replaces the default entirely) with a
  generic fallback text for tags the table lacks;
- the **client** (`Client`): the auth token and default options
  (`auth_token`, `format=json`), the token update, request assembly (base URL
  plus path; caller options merged over the defaults with PHP's array union, so
  caller keys win) and the status check of `lastUpdatePosts`.

Files: `wrappers.dfy` (Option), `options.dfy` (option values: a string or an
integer), `date_format.dfy` (an explicit stand-in for PHP's
`date_create_from_format`/`DateTime::format` on the two layouts the validator
uses), `option_validation.dfy`, `option_exception.dfy`, `client.dfy`.

`validate` is a method whose loop walks the table; its postcondition ties the
answer to `AnyFieldFails`, "some pair with an allowed tag and a present field
fails its predicate", and the lemmas state what that means (empty inputs,
adding pairs, skipped pairs). `getErrorMessages` is a method with nested loops
proved to keep the field names, the list lengths and the order of each list.
The client is a class whose `Valid()` invariant is "the default options are
exactly the current token and json"; the transport is a function from the
request descriptor to a response, and the request methods also return the
descriptor they sent, so what reaches the transport can be stated.

The validator's test cases for the individual formats each validate a
one-field table; `SinglePair` shows such a table is invalid exactly when the
field's predicate rejects the value, and those cases are stated on the
predicates (the `...Example` lemmas). The empty-table case is `NothingToCheck`.

The validator's tests also call a `getErrors` method for a per-field report of
failed tags (test/OptionValidationTest.php:24-28); `Lib/OptionValidation.php`
does not define it, `validate` returns only the boolean, and this model follows
the code.

## Model

| member | source | states |
|---|---|---|
| `OptionValidation.Validate` | Lib/OptionValidation.php:9-21 | the answer is true exactly when some (name, tag) pair whose tag is one of the eleven and whose name is present in the options fails that tag's predicate |
| `OptionValidation.IsAllowType` | Lib/OptionValidation.php:23-26 | a tag is allowed exactly when it is one of the eleven names |
| `OptionValidation.TagOk` | Lib/OptionValidation.php:28-32 | tag: fewer than 255 characters |
| `OptionValidation.UrlOk` | Lib/OptionValidation.php:34-41 | url: parse_url succeeds with a scheme, and the scheme is one of http, https, javascript, mailto, ftp, file (compared exactly) |
| `OptionValidation.SchemeOf` | Lib/OptionValidation.php:39 | parse_url's scheme: the text before the first ':' when non-empty and made of scheme characters, unless the rest reads as a port (1-5 digits, then the end or '/') or opens an empty authority |
| `OptionValidation.PortLike` | Lib/OptionValidation.php:39 | after "scheme:", one to five digits and then the end or '/': parse_url reads host and port, with no scheme |
| `OptionValidation.HostMissing` | Lib/OptionValidation.php:39 | after "scheme:", "//" followed by the end or '/', '?' or '#' (an empty authority): parse_url fails; a file scheme followed by "///" is a path instead |
| `OptionValidation.LeadingDigits` | Lib/OptionValidation.php:39 | counts the digits that start a text: all counted characters are digits and the next one is not |
| `OptionValidation.TitleOk` | Lib/OptionValidation.php:43-47 | title: fewer than 255 characters |
| `OptionValidation.TextOk` | Lib/OptionValidation.php:49-53 | text: fewer than 65536 characters |
| `OptionValidation.DatetimeOk` | Lib/OptionValidation.php:55-61 | datetime: parses as Y-m-d\TH:i:s\Z and formats back to the same text |
| `OptionValidation.DateOk` | Lib/OptionValidation.php:63-68 | date: parses as Y-m-d and formats back to the same text |
| `OptionValidation.YesOk` | Lib/OptionValidation.php:70-74 | yes: exactly "yes" or "no" |
| `OptionValidation.NoOk` | Lib/OptionValidation.php:76-80 | no: exactly "yes" or "no" |
| `OptionValidation.CtypeXDigit` | Lib/OptionValidation.php:85 | ctype_xdigit: a non-empty text of hexadecimal digits |
| `OptionValidation.Md5Ok` | Lib/OptionValidation.php:82-86 | md5: exactly 32 characters, all hexadecimal digits |
| `OptionValidation.IntegerOk` | Lib/OptionValidation.php:88-92 | integer: 0 to 2^32, both included |
| `OptionValidation.FormatOk` | Lib/OptionValidation.php:94-98 | format: exactly "json" or "xml" |
| `OptionValidation.Accepts` | Lib/OptionValidation.php:17 | the dispatch `$this->$type(...)`: the value goes to the predicate the format names; an integer only to integer, a string only to the others |
| `OptionValidation.ParseType` | Lib/OptionValidation.php:23-26 | a tag is dispatched exactly when it is in the allow-list, and then to the format of that very name |
| `OptionValidation.ParseTypeName` | Lib/OptionValidation.php:25 | each of the eleven formats is allowed and is reached from its own name |
| `OptionValidation.NothingToCheck` | Lib/OptionValidation.php:11-20 | an empty table, or empty options, gives false |
| `OptionValidation.AddPair` | Lib/OptionValidation.php:12-18 | adding a new pair ORs in that pair's failure, so it can only turn false into true |
| `OptionValidation.SkippedPair` | Lib/OptionValidation.php:14-16 | a pair with a tag outside the eleven, or naming an absent field, never changes the answer |
| `OptionValidation.MoreTypesMoreFailures` | Lib/OptionValidation.php:11-20 | a table that extends another is invalid whenever the smaller one is |
| `OptionValidation.SinglePair` | Lib/OptionValidation.php:12-18 | a one-pair table is invalid exactly when that pair fails |
| `OptionValidation.LengthLimits` | Lib/OptionValidation.php:28-53 | tag and title accept exactly the strings of length at most 254 (254 in, 255 out); text accepts length at most 65535 |
| `OptionValidation.LiteralSets` | Lib/OptionValidation.php:70-98 | yes and no are the same predicate, exactly "yes" or "no"; format is exactly "json" or "xml" |
| `OptionValidation.AllXDigits` | Lib/OptionValidation.php:85 | the hexadecimal-digit check holds exactly when every character is 0-9, a-f or A-F |
| `OptionValidation.Md5Shape` | Lib/OptionValidation.php:82-86 | md5 accepts exactly 32 characters that are all hexadecimal digits |
| `OptionValidation.IntegerRange` | Lib/OptionValidation.php:88-92 | integer accepts exactly 0..2^32, both ends included |
| `OptionValidation.IndexOf` | Lib/OptionValidation.php:39 | finds the first ':' of a URL, or reports there is none |
| `OptionValidation.UrlSchemePrefix` | Lib/OptionValidation.php:34-41 | a URL that starts with a non-empty run of scheme characters and a ':' is accepted exactly when that run is an allowed scheme and the rest neither reads as a port nor opens an empty authority |
| `OptionValidation.UrlAcceptsAllowedScheme` | Lib/OptionValidation.php:34-41 | an allowed scheme followed by ':' makes an accepted URL exactly when the rest neither reads as a port ("http:80") nor opens an empty authority ("http://") |
| `OptionValidation.UrlHasAllowedScheme` | Lib/OptionValidation.php:34-41 | an accepted URL's text before its first ':' is one of http, https, javascript, mailto, ftp, file |
| `OptionValidation.UrlRejectsOtherScheme` | Lib/OptionValidation.php:38-40 | a URL whose text before the first ':' is not an allowed scheme is rejected |
| `OptionValidation.DateRoundTrip` | Lib/OptionValidation.php:63-68 | date accepts exactly what parses as Y-m-d, and every in-range date's own formatting |
| `OptionValidation.DatetimeRoundTrip` | Lib/OptionValidation.php:55-61 | datetime accepts exactly what parses as Y-m-d\TH:i:s\Z, and every in-range timestamp's own formatting |
| `DateFormat.FormatDate` | Lib/OptionValidation.php:67 | DateTime::format('Y-m-d'): ten characters, the zero-padded year, month and day separated by '-' |
| `DateFormat.FormatDateTime` | Lib/OptionValidation.php:60 | DateTime::format('Y-m-d\TH:i:s\Z'): twenty characters, the date, 'T', the zero-padded clock with ':' and a final 'Z' |
| `DateFormat.ParseDate` | Lib/OptionValidation.php:66 | date_create_from_format('Y-m-d'): four, two and two digits separated by '-', read only when the date is in range |
| `DateFormat.ParseDateTime` | Lib/OptionValidation.php:59 | date_create_from_format('Y-m-d\TH:i:s\Z'): a date, 'T', hours, minutes and seconds separated by ':' and 'Z', read only when in range |
| `DateFormat.NumberOfPad` | Lib/OptionValidation.php:59-60 | reading back a zero-padded field gives its number |
| `DateFormat.PadNumberOf` | Lib/OptionValidation.php:59-60 | padding the number a digit run denotes to its width gives the run back |
| `DateFormat.ParseFormatDate` | Lib/OptionValidation.php:66-67 | an in-range date is read back from its own Y-m-d formatting |
| `DateFormat.FormatParseDate` | Lib/OptionValidation.php:66-67 | whatever parses as Y-m-d formats back to exactly the same text |
| `DateFormat.ParseFormatDateTime` | Lib/OptionValidation.php:59-60 | an in-range timestamp is read back from its own formatting |
| `DateFormat.FormatParseDateTime` | Lib/OptionValidation.php:59-60 | whatever parses as a timestamp formats back to exactly the same text |
| `OptionValidation.UnknownTagExample` | test/OptionValidationTest.php:21 | a table naming an unknown tag gives false |
| `OptionValidation.UrlWithoutSchemeExample` | test/OptionValidationTest.php:38 | "some_foo_bar" has no scheme and is rejected |
| `OptionValidation.UrlUnknownSchemeExample` | test/OptionValidationTest.php:39 | "scheme://example.com/" has a scheme outside the list and is rejected |
| `OptionValidation.UrlHttpsExample` | test/OptionValidationTest.php:40 | "https://example.com/" is accepted |
| `OptionValidation.UrlPortAndEmptyHostExample` | Lib/OptionValidation.php:39-40 | "http:80" (host and port, no scheme) and "http://" (parse failure) are rejected; "file:///etc/hosts" is accepted |
| `OptionValidation.FormatExampleDateTime` | test/OptionValidationTest.php:58 | 11 December 2010, 19:48:02 is in range and formats as "2010-12-11T19:48:02Z" |
| `OptionValidation.DatetimeRejectedExample` | test/OptionValidationTest.php:57 | "2010-12-11 19:48:02" is rejected |
| `OptionValidation.DatetimeAcceptedExample` | test/OptionValidationTest.php:58 | "2010-12-11T19:48:02Z" is accepted |
| `OptionValidation.FormatExampleDate` | test/OptionValidationTest.php:64 | 11 December 2010 is in range and formats as "2010-12-11" |
| `OptionValidation.DateRejectedExample` | test/OptionValidationTest.php:63 | "2010/12/11" is rejected |
| `OptionValidation.DateAcceptedExample` | test/OptionValidationTest.php:64 | "2010-12-11" is accepted |
| `OptionValidation.LiteralExamples` | test/OptionValidationTest.php:67-97 | "y", "n", "html", -1 and 2^32+1 are rejected; "yes", "no", "json" and 100 accepted |
| `OptionValidation.Md5ShortExample` | test/OptionValidationTest.php:81 | a 15-digit hexadecimal string is rejected |
| `OptionValidation.Md5NonHexExample` | test/OptionValidationTest.php:82 | a 32-character string with non-hexadecimal characters is rejected |
| `OptionValidation.Md5HexExample` | test/OptionValidationTest.php:83 | a 32-digit hexadecimal string is accepted |
| `OptionException.TypeConstantsAreAllowedTypes` | Lib/Exception/OptionException.php:8-18 | the TYPE_* constants are exactly the validator's eleven allowed tags, and the default table has exactly those keys |
| `OptionException.OptionException.constructor` | Lib/Exception/OptionException.php:23-40 | stores the errors; the message table is the supplied one, or the default table when none is supplied |
| `OptionException.DefaultMessages` | Lib/Exception/OptionException.php:27-39 | the default table: one text for each of the eleven tags, yes and no sharing theirs |
| `OptionException.ErrorMessage` | Lib/Exception/OptionException.php:42-45 | getErrorMessage: the table's text for the tag, or "An error occurred during validation" when the table lacks it |
| `OptionException.DefaultTableTexts` | Lib/Exception/OptionException.php:27-39 | in the default table yes and no share one text, every allowed tag has its own text and any other tag falls back |
| `OptionException.SuppliedTableReplacesDefault` | Lib/Exception/OptionException.php:42-45 | with a supplied table a tag it lacks gets the generic fallback, not the default text |
| `OptionException.OptionException.GetErrorMessages` | Lib/Exception/OptionException.php:47-59 | the result has exactly the error's field names; each field's texts have the length and order of its tags, the i-th text being the i-th tag's message or the fallback |
| `OptionException.RenderingIsUnique` | Lib/Exception/OptionException.php:47-59 | the rendering is determined by the stored errors and table, so repeated calls give equal maps |
| `OptionException.RenderingTwoTagsExample` | test/Exception/OptionExceptionTest.php:11-12 | a field with tags tag and md5 renders as their two default texts, in that order |
| `OptionException.RenderingTwoFieldsExample` | test/Exception/OptionExceptionTest.php:14-15 | two fields render separately, title's and no's default texts |
| `OptionException.RenderingUnknownTagExample` | test/Exception/OptionExceptionTest.php:17-18 | an unknown tag renders as the fallback text |
| `Client.DefaultOptions` | Lib/Client.php:20 | the default options: auth_token is the token and format is "json" |
| `Client.ArrayUnion` | Lib/Client.php:32 | PHP array union: all keys of both sides, the caller's value on shared keys, the default's elsewhere |
| `Client.CallerOverridesDefaults` | Lib/Client.php:32 | against a client's defaults, a caller's auth_token or format wins, otherwise the token and "json" are sent, and no other key is added |
| `Client.Client.constructor` | Lib/Client.php:14-21 | the base URL is https://api.pinboard.in/v1/ and the default options are exactly the token and format json |
| `Client.Client.SetToken` | Lib/Client.php:23-27 | the token and the default auth_token become the new token, the format is unchanged, the invariant is kept |
| `Client.Client.Request` | Lib/Client.php:29-34 | the URI is the base URL followed by the path; the query has every caller key with the caller's value and every other default key with its default value, nothing else; the transport gets exactly that |
| `Client.Client.LastUpdatePosts` | Lib/Client.php:36-45 | sends GET posts/update with exactly the default options; fails exactly when the status is not 200, otherwise returns the response unchanged |
| `Client.LastUpdatePostsExample` | test/ClientTest.php:9-19 | with a transport answering 200, lastUpdatePosts sends to .../posts/update and returns that response unchanged; after setToken the new token is sent |
| `Client.BadStatusExample` | Lib/Client.php:40-42 | with a transport answering 503, lastUpdatePosts reports the error |
| `Client.RequestMergeExample` | Lib/Client.php:32 | a caller's auth_token is sent instead of the client's, and the format is filled in |

## Left out

- `Lib/HttpClient.php` and the network call: the transport is a function from the request descriptor to a response; Guzzle itself, its exceptions for 4xx/5xx statuses and transport failures are not modelled.
- `Client.Client.Request` and `Client.Client.LastUpdatePosts` also return the descriptor they sent; PHP's methods return only the response. The exception raised on a non-200 status (a plain exception with a fixed message) is the `BadStatus` outcome.
- `OptionValidation.Accepts`: PHP's type juggling of the predicates' `string`/`int` parameters is not modelled; a value of the wrong kind (an integer for a string format or a string for `integer`) fails, where PHP would coerce it or raise a TypeError.
- `OptionValidation.UrlOk`: accepts URLs with an allowed scheme whose authority `parse_url` rejects (a malformed host or port after "//", such as "http://user@/x" or "http://example.com:abc/"); when `parse_url` finds no scheme, PHP reads a missing `scheme` key and raises a notice or warning before returning false, and the model only returns false.
- `OptionValidation.SchemeOf`: `parse_url` is reduced to its scheme rule, its host:port reading and its failure on an empty authority; its other failures inside the authority (a host left empty by a login part or a port, a port longer than five characters, above 65535, or a port that does not begin with digits after optional whitespace and sign, or whose value is negative, such as "example.com:abc" or "h:-1") are not modelled.
- `OptionValidation.UrlSchemePrefix`: holds for the scheme rule of `SchemeOf`; a URL PHP rejects for a malformed host or port after "//" counts as accepted here.
- `OptionValidation.UrlAcceptsAllowedScheme`: as for `UrlSchemePrefix`, an allowed scheme followed by "//" and a malformed host or port is accepted here and rejected by PHP.
- `OptionValidation.DatetimeRoundTrip`: `date_create_from_format` reads the text as wall-clock time in PHP's default timezone; the model assumes a zone without daylight-saving gaps (such as UTC), where PHP would shift a time inside a spring-forward gap ("2010-03-14T02:30:00Z" under America/New_York) and then reject it.
- `OptionValidation.DatetimeOk`: assumes a default timezone without daylight-saving gaps (such as UTC); PHP in a zone with a spring-forward gap shifts a wall time inside it ("2010-03-14T02:30:00Z" under America/New_York becomes 03:30) and rejects it, where the model accepts it.
- `DateFormat.ParseDateTime`: returns no parse where `date_create_from_format` rolls an out-of-range field over (the round trip fails either way), and does not shift a wall time out of a daylight-saving gap of the default timezone.
- `OptionValidation.DateOk`: assumes a default timezone with no skipped calendar days (such as UTC); in Pacific/Apia no local time falls on 2011-12-30, so PHP reads "2011-12-30" as the next day and rejects it, where the model accepts it.
- `OptionValidation.DateRoundTrip`: its second clause (every in-range date's own formatting is accepted) holds under the same assumption of a default timezone with no skipped calendar days; it fails in PHP for "2011-12-30" under Pacific/Apia.
- `DateFormat.ParseDate`: `date_create_from_format` is replaced by an exact fixed-width reading with calendar ranges; PHP's roll-over of out-of-range fields is represented as no parse (the round trip fails either way); years are four digits. It also assumes a default timezone with no skipped calendar days: where PHP's reading of a skipped date (2011-12-30 in Pacific/Apia) gives the next day, the model gives the date itself.
- Strings are sequences of characters, each standing for one byte as `strlen` counts them; multi-byte encodings are not distinguished.
- Field order: PHP arrays are ordered, Dafny maps are not; the order of fields in options, type tables and error maps is not modelled (the order of each field's tag list is).
- `getErrors`, `recentPosts` and `datesPosts` are called by the tests but are not defined in the modelled source; status classification (401, 429, others), byte-order-mark stripping, JSON decoding, per-operation option builders and result projection have no code in these files.
