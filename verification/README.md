# Faith-based SDG infographic relay, in Dafny

The repository's server has one endpoint, `POST /api/generate`. It takes a faith
tradition, a Sustainable Development Goal (SDG) and an optional description. It
composes a text prompt and sends it to an image-generation provider. It then
returns either an image URL or an error object. This project models that handler
as one pure function, `Relay.Handle`, and proves properties of it.

- `js_values.dfy` (`JsValues`): optional values, JavaScript truthiness of an
  optional string, thrown errors, and awaited promises. It also has the text the
  catch-all reports (`err.message || String(err)`).
- `decimal.dfy` (`Decimal`): decimal rendering of the provider's status code, as
  template interpolation renders it. `Value` reads a numeral back, which gives
  the round trip and injectivity.
- `prompt.dfy` (`Prompt`): the prompt template, with lemmas that place each
  field and each fixed piece of text at its offset.
- `relay.dfy` (`Relay`): the request and reply datatypes, the outbound request,
  the normalisation of the reply to one image URL, and the handler with its
  ordered early exits.

The handler's inputs are the request body, the configured credential (which may
be absent) and a `ProviderOutcome`. The outcome is either a network failure or
a reply with a status. A reply's body can be read as text or parsed as JSON,
and each read may itself throw. The handler returns an `Exchange`: the HTTP
response, plus the request it sent to the provider, which is `None` when no call
was made.

Three behaviours of the handler worth noting:
- The server checks the required fields by truthiness only. An empty string is
  rejected, but a whitespace-only string is accepted. Trimming happens only in
  the browser client.
- When a successful reply carries no usable image, the response is 500, not a
  provider error (502).
- A hosted `url` and inline `b64_json` are also tested by truthiness. An empty
  `url` falls through to `b64_json`.

## Model

| member | source | states |
|---|---|---|
| `Relay.Handle` | server.js:21-94 | Status 400 happens exactly when `faith` or `sdg` is missing or empty, and it carries the fixed validation message. With the fields present and the key absent, empty or the placeholder, the response is 500 with the configuration message. The provider is called exactly when both checks pass. The request it gets is the outbound request for the composed prompt and the key: model `gpt-image-1`, size `1024x1024`, `n = 1` and a bearer header with the key. The status is one of 200/400/500/502, and 200 exactly when the payload is a URL, so a response is never both a URL and an error. |
| `Relay.ValidationComesFirst` | server.js:25-40 | With a missing field, the result is the same for any credential and any provider behaviour, and nothing is sent. |
| `Relay.ResponseIndependentOfKey` | server.js:35-63 | For a given provider behaviour, any two usable credentials give the same response. |
| `Relay.KeyOnlyInHeader` | server.js:43-55 | The key can be read back from the sent authorization header. Requests sent under two usable keys differ only in that header. |
| `Relay.SentIndependentOfReply` | server.js:43-55 | The request sent does not depend on how the provider then behaves. |
| `Relay.OutboundRequest` | server.js:43-55 | The outbound request carries the prompt unchanged, model `gpt-image-1`, size `1024x1024` and `n = 1`. Its authorization header is a bearer header from which the key reads back unchanged. |
| `Relay.BearerToken` | server.js:47 | A header yields a credential exactly when it starts with `Bearer `, and the header is then `Bearer ` followed by that credential. |
| `Relay.FromProvider` | server.js:57-89 | Status 502 happens exactly when the status is not ok and the text body was read. It then carries `Image API error: ` plus the decimal status, with the raw text as detail. Status 200 happens exactly when an ok reply parsed to a body with a usable image. The URL is the one `ImageUrlOf` picks. |
| `Relay.FailingStatusNotParsed` | server.js:57-63 | For a non-ok status, what JSON parsing would have produced makes no difference to the response. |
| `Relay.StatusMessagesDistinct` | server.js:62 | Different failing statuses give different error messages. |
| `Relay.ImageUrlOf` | server.js:69-76 | A result exists exactly when the first entry has a truthy `url` or a truthy `b64_json`. A truthy `url` is returned unchanged. Otherwise the result is `data:image/png;base64,` followed by the data. A result is never empty. |
| `Relay.HostedUrlTakesPrecedence` | server.js:71-76 | With a non-empty `url`, the result is that URL, whatever `b64_json` holds. |
| `Relay.InlineRoundTrip` | server.js:73-75 | Stripping the data-URI prefix from a base64-derived URL gives back the provider's data exactly. |
| `Relay.NoImageIsInternalError` | server.js:78-86 | An ok reply with neither a usable `url` nor usable `b64_json` gives 500, `No image data returned from API`, with the parsed body as detail. |
| `Relay.Caught` | server.js:90-92 | A caught error is an error response with status 500 and no detail, never a success. Its error text is what `ErrorText` reports for the error. |
| `Relay.ThrownAfterSend` | server.js:43-92 | Something is caught after sending exactly when the network call fails, the text read of a failing reply fails, or the JSON parse of a successful reply fails. |
| `Relay.ThrownIsInternalError` | server.js:22-92 | Once the request has been sent, a 500 without detail arises exactly when something was thrown. It is never a success and carries that error's text. |
| `Relay.CaughtDependsOnlyOnText` | server.js:90-92 | Two thrown errors with the same text give the same response, wherever they were thrown. |
| `JsValues.ErrorText` | server.js:92 | The reported text is the message when it is truthy, and the string rendering otherwise. |
| `JsValues.MessageOverridesRendering` | server.js:92 | With a truthy message, the string rendering has no effect on the reported text. |
| `JsValues.RenderingWithoutMessage` | server.js:92 | A missing message and an empty message are reported alike, by the string rendering. |
| `Decimal.Show` | server.js:62 | A rendered status is a non-empty string of decimal digits with no leading zero, except for zero itself. |
| `Decimal.ValueOfShow` | server.js:62 | Reading a rendered number back as decimal gives the number. |
| `Decimal.ShowInjective` | server.js:62 | Distinct numbers render distinctly. |
| `Prompt.ExtraContext` | server.js:32 | The middle line is empty exactly when the description is missing or empty. Otherwise it is `Extra context: ` followed by the description verbatim. |
| `Prompt.Compose` | server.js:31-33 | The prompt's length is the sum of its parts. `faith` sits verbatim right after the opening text. `sdg` sits verbatim right after the connecting text. The middle line sits right after the first line's newline. |
| `Prompt.FirstLineFrame` | server.js:31 | The prompt starts with `Create a faith-based infographic about "`. The text `" and the Sustainable Development Goal "` follows `faith`, and `".` closes the first line. |
| `Prompt.LineBreaks` | server.js:31-33 | A newline ends the first line and another ends the middle line. The prompt ends with the fixed style line. |
| `Prompt.FieldsQuotedVerbatim` | server.js:31 | `faith` and `sdg` appear verbatim, each between double-quote characters. |
| `Prompt.NoExtraLineWhenNoDescription` | server.js:31-33 | With no description, the prompt from the closing `".` onwards is `".`, two newlines, then the style line. |
| `Prompt.PromptDeterminesDescription` | server.js:32 | For fixed `faith` and `sdg`, equal prompts have the same description presence, and the same description when one is given. |

## Left out

- Express setup, the JSON and static middleware, the `/` route, `app.listen`
  and opening the browser (server.js:1-18, 96-105): these are process and HTTP
  plumbing.
- The network call and reading `OPENAI_API_KEY` from the environment. Both are
  I/O. The provider's behaviour is the `ProviderOutcome` parameter, and the
  credential is an optional string parameter.
- The `Content-Type` header of the outbound request: it is a constant with no
  effect on the handler's logic. The endpoint URL is modelled as a constant.
- General JSON: the reply body is reduced to its first `data` entry. Its
  `url` and `b64_json` are optional strings. Request fields are optional
  strings. A non-string JSON value, such as a number, in any of these places
  is not modelled, and neither is a `req.body` that is not an object.
- `console.error` logging (server.js:59, 79-82, 91): it has no effect on the
  response.
- ResponseIndependentOfKey: the provider's behaviour is an input that does
  not depend on the key. A real provider may answer differently per key, for
  example with an authentication failure, and the 502 detail passes its raw
  text through unchanged (server.js:58, 62). The lemma says nothing about that
  dependence.
- The browser client (script.js): DOM lookup, event wiring, the loader and
  `alert`. Its trim-and-empty check runs in the browser, not in the handler.
- Timeouts: the source sets none, so a provider that never answers has no
  counterpart in the model.
