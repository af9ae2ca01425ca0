# Error routing and webhook delivery of discord_always_online

This project models how the program reacts to an error reported by its
Discord client. The handler reads the error's text (`err.toString()`) and
makes three decisions:

- the bucket: an invalid token (critical), one of three known-harmless
  client-library errors, or anything else;
- the text of the notification, or of the console line for a harmless error;
- the webhook that gets a POST, if any.

Two versions of the handler exist and both are modelled:

- the legacy standalone handler in `index.js` (module `Legacy`);
- the refactored handler in `connect.js` (module `Connect`). It puts
  `Account: <username> ` in front of every notification and delivers through
  `sendError`/`sendLowError` in `error.js` (module `ErrorNotify`).

Shared pieces:

- `Strings.Includes` models JavaScript's `String.prototype.includes`. It is
  proved equal to a plain substring-occurrence specification, `Strings.Occurs`.
- `Routing.Classify` is the reference bucket assignment, stated on occurrence.
  Both handlers are proved to agree with it.
- `Json.ContentBody` is `JSON.stringify({ content: message })`, with
  ECMAScript string escaping written out. `Json.ParseContentBody` decodes it,
  and the round trip is proved.
- `Webhook.Post` is the one kind of request sent: method POST, JSON content
  type, body `{content: message}`.

Delivery in `error.js` is stateful. The class `ErrorNotify.Outbox` records
every fetch call made (`posts`) and every console line written (`console`).
Its methods `SendWebhookNotification`, `SendError` and `SendLowError` append
to these sequences. Environment variables (`WEBHOOK_URL`, `WEBHOOK_URL_LOW`)
are an `Env` parameter. The network's answer to a fetch is a `FetchResult`
parameter.

`index.js`, `connect.js` and `error.js` have no reconnection backoff, staggered
connect, credential masking, token-list parsing or per-account state.

## Model

| member | source | states |
|---|---|---|
| Strings.Includes | connect.js:17 | `includes` is true exactly when the searched string occurs at some position of the text |
| Strings.OccursInContext | connect.js:17-19 | a signature occurs in any text that embeds it, whatever comes before or after it |
| Json.UnescapeEscape | error.js:21 | decoding the JSON-escaped text of any string gives that string back |
| Json.EscapePrintable | error.js:21 | the escaped text of any message is never shorter than it and holds no raw control character |
| Json.EscapePlain | error.js:21 | a message with no quote, backslash or control character is written unchanged |
| Json.ContentBody | error.js:21 | the body is `{"content":"` + the escaped message + `"}`, holds no raw control character, and decodes to exactly the message |
| Json.EscapeSample | error.js:21 | a quote, a line feed and U+0001 are written `\"`, `\n` and `\u0001`, as ECMAScript's QuoteJSONString writes them |
| Json.ContentBodySample | index.js:32 | the body for a message holding a quote, a line feed and U+0001 is `{"content":"a\"b\n\u0001"}` |
| Json.ContentBodyInjective | error.js:21 | two different messages never produce the same body |
| Webhook.Post | error.js:16-22 | the request goes to the given URL with method POST and a JSON content type, and its body decodes to the message |
| ErrorNotify.Delivery | error.js:10-22 | no request exactly when the URL is falsy (unset or empty); otherwise the one POST of the message |
| ErrorNotify.Report | error.js:9-26 | a warning exactly when the URL is falsy; an error line exactly when the URL is set and fetch rejected; otherwise the success line |
| ErrorNotify.ConfiguredUrlGetsOnePost | error.js:15-22 | a configured URL gets exactly one request: a POST to that URL, JSON content type, body carrying the message |
| ErrorNotify.Outbox.SendWebhookNotification | error.js:9-27 | appends at most one request (none for a falsy URL) and one console line; a rejected fetch is logged, not retried, not raised; level defaults to `'error'` |
| ErrorNotify.Outbox.SendError | error.js:33-36 | delivers to WEBHOOK_URL at level `'error'` |
| ErrorNotify.Outbox.SendLowError | error.js:42-45 | delivers to WEBHOOK_URL_LOW at level `'low'` |
| Connect.GetUsername | connect.js:9-11 | the username when the client user is set, nothing otherwise |
| Connect.AccountPrefix | connect.js:16 | the prefix starts with `Account: ` and ends with a space |
| Connect.PrefixBeforeLogin | connect.js:9-16 | before login the prefix is `Account: undefined `; after login it is `Account: <username> ` |
| Connect.Route | connect.js:15-43 | the bucket is exactly the reference classification; the critical text is the prefix plus the invalid-token sentence; a harmless error only yields its console line; any other error yields the prefix, the report lead and the full error text |
| Connect.InvalidTokenAnywhere | connect.js:17-19 | the invalid-token signature anywhere in the text makes it critical, even next to a harmless signature |
| Connect.BenignSignatureAnywhere | connect.js:20-37 | any of the three harmless signatures, without the invalid-token signature, gives only a console line |
| Connect.BenignIsLogged | connect.js:20-37 | a text with a harmless signature and without the invalid-token signature yields only the console line `An error occurred in the Discord bot. <text>` |
| Connect.UnknownGoesLow | connect.js:38-41 | a text with none of the four signatures goes to the low channel with its whole text |
| Connect.Notification | connect.js:17-42 | at most one request: none for a harmless error; for a critical one the POST of its message to WEBHOOK_URL, for any other the POST to WEBHOOK_URL_LOW, each exactly when that URL is set |
| Connect.HandleError | connect.js:15-43 | posts exactly what the routed outcome asks for through sendError or sendLowError, at most one request per error; a harmless error adds only its console line |
| Legacy.Route | index.js:16-66 | same buckets as the reference classification; the fixed multi-line critical text; the full error text, without an account prefix, in the low report |
| Legacy.Handle | index.js:16-66 | a request exactly when the error is not harmless, to WEBHOOK_URL for an invalid token and WEBHOOK_URL_LOW otherwise, set or not; POST with JSON content type; an unset or empty URL always ends in an unhandled rejection; any rejection logs nothing; the success line exactly when the URL is set and fetch responded; a harmless error logs only `An error occurred in the Discord bot. <text>` and settles normally |
| Legacy.Posted | index.js:25-35 | the fetch of a notifying branch: the POST is always attempted; with a falsy URL it rejects; a rejection is unhandled and skips the success line; otherwise `Sent error notification to Discord.` is logged |
| Legacy.PostCarriesMessage | index.js:27-33 | the legacy POST body decodes to the routed message |
| Versions.SameDecision | index.js:18-51 | both handlers assign the same bucket to every text and log the same harmless line; the refactored low report is the legacy one behind the account prefix |
| Versions.UnsetCriticalUrl | index.js:23-27 | with WEBHOOK_URL unset or empty, an invalid token still makes the legacy handler call fetch and end in an unhandled rejection, while the refactored handler sends nothing |

## Left out

- server.js: the Express keep-alive listener on port 3000 is HTTP plumbing around a library.
- The Eris client: construction, `account.connect()` and registration of the handler are calls into a library. The logged-in user is an input (`Option<ClientUser>`), and the error's `toString()` is an input string.
- dotenv and reads of `process.env`: the two webhook variables are the `Env` parameter, and the token is not used by the modelled code.
- node-fetch: the network's answer is the `FetchResult` input. Every HTTP response resolves the call, a non-2xx status included. A non-empty URL string that fetch refuses is not told apart from a network failure; an unset or empty one always makes fetch reject.
- Asynchrony: `sendError`/`sendLowError` are not awaited in connect.js. The model runs each delivery to completion inside the handler, so the interleaving of console lines across concurrent errors is not modelled.
- Legacy.Handle: records an unhandled rejection and its cause, with fetch's error text for a failed request; for a missing URL (`NoUrl`) the text of the error fetch raises is not modelled, nor is what the Node runtime does with the rejection (warn or terminate, depending on its version).
- Console lines carry fetch's error message as an opaque input string. The exact formatting of `console.error`'s second argument beyond a single space is not modelled.
- Json.ParseContentBody: decodes everything `JSON.stringify` of a plain string produces, and also accepts `\/`, upper-case hex digits and a `\u` escape of any non-surrogate character. It rejects `\u` escapes of surrogates instead of joining surrogate pairs. JavaScript strings holding lone surrogates cannot be represented, because a Dafny `char` is a Unicode scalar value.
