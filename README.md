# GitHub client core: request exceptions and the request pipeline

A Dafny model of the core of an Eclipse GitHub client library (egit-github /
mylyn-github). It covers two pieces:

- **The request exception** (`RequestException`, `request_exceptions.dfy`):
  the API's error payload (`RequestError`: an optional message and an
  optional list of `FieldError`s) and the HTTP status are turned into one
  message. Each field error is explained by its code (`invalid` with or
  without a value, `missing_field`, anything else) through the four message
  patterns of the exception class (`MessageFormat`, `message_format.dfy`).
  The message is the top-level message followed by ` (status)`, or the bare
  status when the message is absent or empty. If there are field errors, a
  colon follows, then ` explanation,` for each one, and the trailing comma is
  removed. `FormatErrors` is the string-buffer loop of the source. It is
  proved equal to `FormattedErrors`, a reference definition built on a
  separator join. Statuses are Java `int`s, rendered in decimal by
  `Decimal.ToDecimal` (`decimal.dfy`), whose inverse `ParseDecimal` shows
  that nothing is lost.
- **The HTTP client** (`GitHubClient`, `github_client.dfy`): the client
  holds the `sendCredentials` flag and the stored credentials. It builds GET
  and POST method objects: GET follows redirects, both get preemptive Basic
  authentication when credentials are to be sent, and GET gets a query string
  or POST gets form fields only for a present, non-empty parameter map. It
  then dispatches on the response status and decodes JSON. Every path
  releases the method's connection exactly once, counted by the ghost field
  `HttpMethod.releaseCount`. `Get` and `Post` return an `Outcome`: `Value`,
  `NoValue`, `StructuredError`, `IOError` or `ParseError`.

The transport and the JSON decoder are parameters. What executing a method
gave is an `Exchange` (a response with status, status text and optional body,
or a transport failure). Decoding is a function from a body to `Decoded`: a
value or a parse exception. A missing body is the "Empty body" parse exception
and is never handed to the decoder.

Two behaviours of the code worth noting:
- A JSON parse exception raised by `post` is not caught, so it escapes
  unwrapped (`ParseError`). Only `get` wraps it in an I/O exception.
- `setCredentials` tests the user and the password for null only. Empty
  strings count as present.

## Model

| member | source | states |
|---|---|---|
| `RequestException.InvalidWithValue` | org.eclipse.egit.github.core/src/org/eclipse/egit/github/core/client/RequestException.java:88-91 | code "invalid" with a value gives exactly `Invalid value of '<value>' for field '<field>'` |
| `RequestException.InvalidWithoutValue` | org.eclipse.egit.github.core/src/org/eclipse/egit/github/core/client/RequestException.java:92-93 | code "invalid" without a value gives exactly `Invalid value for field '<field>'` |
| `RequestException.MissingField` | org.eclipse.egit.github.core/src/org/eclipse/egit/github/core/client/RequestException.java:94-95 | code "missing_field" gives exactly `Missing required field '<field>'`, whatever the value |
| `RequestException.OtherCode` | org.eclipse.egit.github.core/src/org/eclipse/egit/github/core/client/RequestException.java:96-98 | any other code, an absent one included, gives exactly `Error with field '<field>' in <resource> resource` |
| `RequestException.FormatField` | org.eclipse.egit.github.core/src/org/eclipse/egit/github/core/client/RequestException.java:84-99 | every field-error explanation, whichever code selects its pattern, is non-empty and ends in `'` or `e`, never in a comma |
| `RequestException.RequestException.FormatErrors` | org.eclipse.egit.github.core/src/org/eclipse/egit/github/core/client/RequestException.java:106-123 | the buffer loop (prefix, `: `, ` explanation,` per field error, last character deleted) yields exactly the reference message `FormattedErrors` |
| `RequestException.BufferStep` | org.eclipse.egit.github.core/src/org/eclipse/egit/github/core/client/RequestException.java:118-119 | one loop turn extends the buffer from the explanations of the first i field errors to those of the first i+1 |
| `RequestException.DropTrailingComma` | org.eclipse.egit.github.core/src/org/eclipse/egit/github/core/client/RequestException.java:120 | deleting the buffer's last character after the loop leaves the prefix, `: ` and the comma-separated explanations |
| `RequestException.MessageOnly` | org.eclipse.egit.github.core/src/org/eclipse/egit/github/core/client/RequestException.java:107-116 | a non-empty message M and an absent or empty error list give exactly `M (S)`, S the decimal status |
| `RequestException.BareStatus` | org.eclipse.egit.github.core/src/org/eclipse/egit/github/core/client/RequestException.java:108-114 | an absent or empty message makes the prefix exactly the decimal status, with no space and no parentheses, and the whole message when there are no field errors |
| `RequestException.FieldErrorsMessage` | org.eclipse.egit.github.core/src/org/eclipse/egit/github/core/client/RequestException.java:115-121 | with field errors the message starts with the prefix and `: `, ends with the last field error's explanation, and has no trailing comma |
| `RequestException.RequestException.GetMessage` | org.eclipse.egit.github.core/src/org/eclipse/egit/github/core/client/RequestException.java:56-58 | the message is present exactly when the error is, and is then the formatted errors; otherwise it is absent, since no message reaches the superclass |
| `RequestException.RequestException.GetError` | org.eclipse.egit.github.core/src/org/eclipse/egit/github/core/client/RequestException.java:65-67 | the error read back is the one the exception was constructed with |
| `RequestException.RequestException.GetStatus` | org.eclipse.egit.github.core/src/org/eclipse/egit/github/core/client/RequestException.java:74-76 | the status read back is the one the exception was constructed with |
| `Decimal.ToDecimal` | org.eclipse.egit.github.core/src/org/eclipse/egit/github/core/client/RequestException.java:112-114 | the status is appended as a decimal numeral: a leading minus sign exactly when the value is negative, then at least one digit and no leading zero (`Decimal.DecimalRoundTrip` proves nothing is lost) |
| `Decimal.DecimalRoundTrip` | org.eclipse.egit.github.core/src/org/eclipse/egit/github/core/client/RequestException.java:112 | the decimal rendering of the status can be read back to the same number |
| `Decimal.DecimalCharacters` | org.eclipse.egit.github.core/src/org/eclipse/egit/github/core/client/RequestException.java:114 | a rendered status is digits with at most a leading minus sign, which appears only for a negative status |
| `GitHubClient.GitHubClient.constructor` | org.eclipse.mylyn.github.core/src/org/eclipse/mylyn/github/internal/GitHubClient.java:57 | a new client does not send credentials and stores none |
| `GitHubClient.GitHubClient.SetCredentials` | org.eclipse.mylyn.github.core/src/org/eclipse/mylyn/github/internal/GitHubClient.java:123-129 | credentials are sent iff user and password are both present; the stored credential is those two when so and absent otherwise, replacing any earlier one |
| `GitHubClient.GitHubClient.SetMethodDefaults` | org.eclipse.mylyn.github.core/src/org/eclipse/mylyn/github/internal/GitHubClient.java:95-102 | with credentials to send, the method authenticates preemptively under the Basic scheme; otherwise it is left unchanged; the same method is returned |
| `GitHubClient.GitHubClient.CreateGet` | org.eclipse.mylyn.github.core/src/org/eclipse/mylyn/github/internal/GitHubClient.java:110-115 | a new GET method for the uri that follows redirects and carries the authentication defaults |
| `GitHubClient.GitHubClient.CreatePost` | org.eclipse.mylyn.github.core/src/org/eclipse/mylyn/github/internal/GitHubClient.java:83-87 | a new POST method for the uri that does not follow redirects and carries the authentication defaults |
| `GitHubClient.ParseJson` | org.eclipse.mylyn.github.core/src/org/eclipse/mylyn/github/internal/GitHubClient.java:140-147 | a missing body is the "Empty body" parse exception; a value comes back only from a present body the decoder accepts |
| `GitHubClient.GitHubClient.GetPairs` | org.eclipse.mylyn.github.core/src/org/eclipse/mylyn/github/internal/GitHubClient.java:155-163 | a new array as long as the map, slot i holding the key and value of the i-th entry in iteration order |
| `GitHubClient.GitHubClient.Get` | org.eclipse.mylyn.github.core/src/org/eclipse/mylyn/github/internal/GitHubClient.java:175-198 | query string iff parameters are present and non-empty; 200 decodes the value, 404/500 decode the error payload, any other status is an I/O error with the status text, parse failures come back wrapped; never no-value or unwrapped parse errors; a fresh method object, preemptive only when credentials are stored; connection released exactly once |
| `GitHubClient.GitHubClient.Post` | org.eclipse.mylyn.github.core/src/org/eclipse/mylyn/github/internal/GitHubClient.java:210-236 | form fields iff parameters are present and non-empty, in entry order; 200/201 decode with a target type and give no value without one, 404/500 decode the error payload, any other status is an I/O error with the status text, parse failures escape unwrapped; a fresh method object, preemptive only when credentials are stored; connection released exactly once |
| `GitHubClient.HttpMethod.constructor` | org.eclipse.mylyn.github.core/src/org/eclipse/mylyn/github/internal/GitHubClient.java:84 | a new method object keeps its verb and uri and starts with the library's defaults: authentication on, no redirects, not preemptive, no scheme, no query string, no form fields, never released |
| `GitHubClient.HttpMethod.SetFollowRedirects` | org.eclipse.mylyn.github.core/src/org/eclipse/mylyn/github/internal/GitHubClient.java:112 | the redirect flag becomes the given value and nothing else changes |
| `GitHubClient.HttpMethod.SetDoAuthentication` | org.eclipse.mylyn.github.core/src/org/eclipse/mylyn/github/internal/GitHubClient.java:97 | the authentication flag becomes the given value and nothing else changes |
| `GitHubClient.HttpMethod.SetPreemptive` | org.eclipse.mylyn.github.core/src/org/eclipse/mylyn/github/internal/GitHubClient.java:98 | the host authentication becomes preemptive and nothing else changes |
| `GitHubClient.HttpMethod.SetBasicScheme` | org.eclipse.mylyn.github.core/src/org/eclipse/mylyn/github/internal/GitHubClient.java:99 | the host authentication scheme becomes Basic and nothing else changes |
| `GitHubClient.HttpMethod.AddParameter` | org.eclipse.mylyn.github.core/src/org/eclipse/mylyn/github/internal/GitHubClient.java:215 | one form field is appended after the existing ones |
| `GitHubClient.HttpMethod.SetQueryString` | org.eclipse.mylyn.github.core/src/org/eclipse/mylyn/github/internal/GitHubClient.java:179 | the query string becomes the pairs of the array |
| `GitHubClient.HttpMethod.ReleaseConnection` | org.eclipse.mylyn.github.core/src/org/eclipse/mylyn/github/internal/GitHubClient.java:196 | each release is counted once |

## Left out

- Network execution: `HttpClient.executeMethod`, the host configuration and protocol, and both client constructors' host settings are not modelled. The result of executing a method is the `Exchange` parameter.
- JSON decoding (Gson), with its date format and field-naming policy, is the decoder parameter. A decoder that yields null is not distinguished from one that yields a value.
- The HTTP library's authentication state (`AuthScope`, `BasicScheme`, the host auth state) is reduced to booleans on `HttpMethod`. A new method is taken to start with the library's defaults: authentication on, redirects off, not preemptive, no scheme.
- `java.text.MessageFormat` is reduced to literal text and numbered placeholders. Arguments are inserted verbatim, and locale and quoting rules beyond the escaped quote are not modelled.
- `FieldError`: the field and the resource are non-null strings. A null one would be printed as `null`.
- `RequestException.RequestException.FormatErrors`: the field-error list holds no null entries. A null entry makes the Java loop throw a `NullPointerException` when it formats that entry; `seq<FieldError>` cannot express one.
- `GitHubClient.GitHubClient.Get` and `GitHubClient.GitHubClient.Post`: parameter keys and values are non-null strings (`Entry`). A Java map may hold nulls, which the model cannot express.
- `RequestException.RequestException.FormatErrors` requires an error to be present. Called without one, the Java method throws a `NullPointerException`; `GetMessage` never calls it without one.
- The one-argument request exception raised by the client on 404/500 belongs to the client's own package and is not part of this model. `StructuredError` carries only the decoded payload, not the status.
- `GitHubClient.GitHubClient.Get`: the target type is always present. A null type handed to the decoder is not modelled.
- Concurrent use of one client's credential state is not modelled. The code promises no thread safety.
