# Container lookup: a Dafny model

The site's one piece of logic is a container lookup, and it has two halves:

- The **lookup form** on the landing page (`components/Hero/index.tsx`). It normalises the typed container number by trimming it, upper-casing it and deleting all white space. It rejects anything that is not 11 characters long. Otherwise it calls the proxy endpoint, and it keeps the request lifecycle in five state cells: `containerNumber`, `data`, `loading`, `error` and `isOpen`. A good answer opens a result overlay. Any other answer sets an error message, chosen through a fallback chain.
- The **proxy endpoint** `GET /api/container?containerNumber=…` (`app/api/container/route.ts`). It checks the query parameter and builds the tracking provider's URL with an auth code. It then turns the provider's answer, or the failure to get one, into a single JSON response.

Modules:

| file | module | what it holds |
|---|---|---|
| `wrappers.dfy` | `Wrappers` | `Option`, for properties that may be `undefined` |
| `text.dfy` | `Text` | JavaScript's `\s`, `trim`, `toUpperCase`, `replace(/\s+/g, "")`, `a \|\| b` on strings, decimal rendering of a status, with their lemmas |
| `container.dfy` | `Container` | the displayed part of the provider's container record |
| `route.dfy` | `ContainerRoute` | the endpoint as a pure function of the parameter, the configured key and the provider's outcome |
| `hero.dfy` | `Hero` | normalisation; the form as a class `LookupForm` with the five state cells; the failure message; the overlay's title and rows |
| `lookup.dfy` | `Lookup` | the round trip: the endpoint's response as the form receives it |

The form's handler is split at its `await`. `Begin` runs validation and returns the request it would send, or `None` when it sends nothing. `Settle` applies the reply and ends with `loading` false. `Submit` runs both. The network, `res.json()` and the configured environment variable are all parameters. On the form's side, whether its own request delivered the endpoint's JSON is `Lookup.ClientHop`: a rejected `fetch` or a `res.json()` that throws reaches the form as `Hero.Exception` with the error's message.

## Model

| member | source | states |
|---|---|---|
| `Text.IsWhitespace` | components/Hero/index.tsx:23 | the white-space set: exactly the characters JavaScript's `\s` class and `trim` treat as white space |
| `Text.ToUpper` | components/Hero/index.tsx:23 | a lower-case ASCII letter becomes the capital at the same alphabet position; every other character is unchanged; white space stays white space |
| `Text.Upper` | components/Hero/index.tsx:23 | `toUpperCase` keeps the length, upper-cases each position, and leaves no lower-case letter |
| `Text.TrimStart` | components/Hero/index.tsx:23 | the result is a suffix of the input; everything dropped is white space; the result does not start with white space |
| `Text.TrimEnd` | components/Hero/index.tsx:23 | the result is a prefix of the input; everything dropped is white space; the result does not end with white space |
| `Text.Trim` | components/Hero/index.tsx:23 | `trim` leaves no white space at either end and never grows the string |
| `Text.TrimKeepsInterior` | components/Hero/index.tsx:23 | `trim` returns the contiguous middle of the input, and everything it drops at either end is white space |
| `Text.StripWhitespace` | components/Hero/index.tsx:23 | `replace(/\s+/g, "")` leaves no white space, never grows the string, and introduces no lower-case letter |
| `Text.StripConcat` | components/Hero/index.tsx:23 | deleting white space from a concatenation deletes it from each part separately |
| `Text.StripNoWhitespace` | components/Hero/index.tsx:23 | a string without white space is left unchanged, so every other character is kept in order |
| `Text.StripAllWhitespace` | components/Hero/index.tsx:23 | a string made only of white space is deleted entirely |
| `Text.StripSkips` | components/Hero/index.tsx:23 | one white-space character anywhere in the input makes no difference to the stripped result |
| `Text.StripTrim` | components/Hero/index.tsx:23 | trimming before stripping changes nothing, so the `trim` call is subsumed |
| `Text.StripUpper` | components/Hero/index.tsx:23 | upper-casing and deleting white space commute |
| `Text.OrElse` | components/Hero/index.tsx:40 | `a \|\| b` is `a` when `a` is present and non-empty, otherwise `b`; the result is non-empty when `b` is |
| `Text.Decimal` | components/Hero/index.tsx:34 | the rendered status is a non-empty string of decimal digits, with no leading zero unless the status is 0 |
| `Text.DecimalRoundTrip` | components/Hero/index.tsx:34 | reading the rendered status back gives the status |
| `Hero.Normalize` | components/Hero/index.tsx:23 | the normalised identifier contains no white space and no lower-case letter, and is no longer than the input |
| `Hero.NormalizeKeepsVisible` | components/Hero/index.tsx:23 | normalising keeps exactly the non-white-space characters, upper-cased and in order |
| `Hero.NormalizeIdempotent` | components/Hero/index.tsx:23 | normalising a normalised identifier returns it unchanged |
| `Hero.NormalizeIgnoresWhitespace` | components/Hero/index.tsx:23-24 | white space inside the input is deleted before the length check: one white-space character anywhere in the input makes no difference to the normalised identifier (for example, "TEMU 123 4567" is checked like "TEMU1234567") |
| `Hero.NormalizeExample` | components/Hero/index.tsx:23-24 | "temu1234567" normalises to "TEMU1234567", which has the required 11 characters |
| `Hero.Raised` | components/Hero/index.tsx:31-35 | the `try` block throws exactly when the reply is not a good one; for a failure status the thrown message is non-empty |
| `Hero.FailureMessage` | components/Hero/index.tsx:33-40 | there is a message exactly when the reply is not good, and the message is never empty |
| `Hero.NotOkMessage` | components/Hero/index.tsx:33-34 | a failure status shows the body's `error` field when it is non-empty, otherwise "Error: " followed by the status |
| `Hero.ExceptionMessage` | components/Hero/index.tsx:39-40 | an exception shows its own message when that is non-empty, and "Something went wrong" when it is empty |
| `Hero.StatusMessageNamesStatus` | components/Hero/index.tsx:34 | "Error: <status>" is the prefix followed by digits that read back as the status |
| `Hero.GenericFailureOnlyForEmptyException` | components/Hero/index.tsx:39-40 | "Something went wrong" appears only for an exception with an empty message, unless the reply's own text is that phrase |
| `Hero.LookupForm.constructor` | components/Hero/index.tsx:15-19 | the initial state: empty input, no data, not loading, no error, overlay closed |
| `Hero.LookupForm.Edit` | components/Hero/index.tsx:78 | the input's change handler stores the typed text upper-cased and changes nothing else |
| `Hero.LookupForm.SubmitDisabled` | components/Hero/index.tsx:84 | the submit button is disabled exactly while a request is in flight or while the input is empty |
| `Hero.LookupForm.Begin` | components/Hero/index.tsx:22-31 | an input that does not normalise to 11 characters sets only the fixed length message and sends no request, with `loading`, `data` and `isOpen` unchanged; otherwise `loading` is set, `error` cleared and the request carries exactly the normalised identifier, after which submit is disabled |
| `Hero.LookupForm.Settle` | components/Hero/index.tsx:30-43 | a good reply becomes `data` and opens the overlay; any other reply leaves `data` and `isOpen` and sets the failure message; `loading` ends false |
| `Hero.LookupForm.Submit` | components/Hero/index.tsx:21-44 | the whole handler: either the rejection with no request, or one request for the normalised identifier and then the reply's effect with `loading` false and `error` null on success |
| `Hero.LookupForm.Close` | components/Hero/index.tsx:121 | closing sets only `isOpen` to false and keeps the result |
| `Hero.LookupForm.Overlay` | components/Hero/index.tsx:119-139 | the overlay shows something exactly when it is open, and then shows the current result's title and rows |
| `Hero.TitleOf` | components/Hero/index.tsx:122 | there is a title exactly when there is a result: "Container " followed by its container number |
| `Hero.Rows` | components/Hero/index.tsx:124-137 | Status, POL, POD and Vessel rows always come first, followed by the optional rows; there are four rows plus one per present optional field, and each row kind appears at most once, in the view's order |
| `Hero.OptionalRows` | components/Hero/index.tsx:130-137 | the guarded rows come in the order ETA, Delay, CO2, Live Map, one per present field and each kind at most once |
| `Hero.OptionalMember` | components/Hero/index.tsx:130-137 | a row is among the guarded rows exactly when its field passes the JSX guard, and it carries that field's text |
| `Hero.RowsShown` | components/Hero/index.tsx:130-137 | ETA appears exactly when an arrival date is present; Delay, CO2 and Live Map appear exactly when their field is present and non-empty, with that field's text |
| `ContainerRoute.IsOk` | app/api/container/route.ts:23 | `res.ok`: the status is in the 2xx range |
| `ContainerRoute.AuthCode` | app/api/container/route.ts:5 | the auth code is never empty; it is the configured key when that key is set and non-empty, and otherwise the fixed default |
| `ContainerRoute.ApiUrl` | app/api/container/route.ts:18 | the outbound URL starts with the provider endpoint and ends with `&mapPoint=true`; the container number can be read back out of it unchanged |
| `ContainerRoute.Respond` | app/api/container/route.ts:20-34 | the response has a 2xx status exactly when it forwards the provider's body; an error body with a status repeats the response's status and has a non-empty message |
| `ContainerRoute.Get` | app/api/container/route.ts:7-35 | an outbound request is made exactly when the parameter is present and non-empty, and it carries that parameter; the response has a 2xx status exactly when it forwards a body |
| `ContainerRoute.MissingParameter` | app/api/container/route.ts:9-16 | a missing or empty parameter gets 400 and `{error: "containerNumber query param is required"}`, and no outbound call is made |
| `ContainerRoute.OneOutboundRequest` | app/api/container/route.ts:18-21 | a present parameter leads to exactly one request, to the endpoint + auth code + `&containerNumber=` + the parameter + `&mapPoint=true` |
| `ContainerRoute.ProviderErrorForwarded` | app/api/container/route.ts:23-25 | a non-2xx provider answer with a readable body keeps the provider's status, with body `{error: message or "Shipsgo API error", status}` |
| `ContainerRoute.SuccessForwarded` | app/api/container/route.ts:27 | a 2xx provider answer is forwarded unchanged with status 200 |
| `ContainerRoute.FailureHidesDetail` | app/api/container/route.ts:22-33 | a transport failure or an unreadable body gives 500 and `{error: "Failed to fetch container data"}`, even when the provider's status was a failure status |
| `ContainerRoute.ResponseStatuses` | app/api/container/route.ts:11-33 | the endpoint only ever answers 400, 500, 200 or the provider's own failure status |
| `ContainerRoute.DetailIrrelevant` | app/api/container/route.ts:28-33 | two failures that differ only in their detail give the same exchange, so the detail never reaches the caller |
| `Lookup.Deliver` | components/Hero/index.tsx:31-40 | a failure of the form's own request becomes an exception carrying its message; otherwise the form gets a good reply exactly when the endpoint forwarded a body, and else the endpoint's status and `error` field |
| `Lookup.Answer` | components/Hero/index.tsx:31 | a valid submission that reaches the endpoint always leads to the provider call; the endpoint answers 2xx exactly when it forwards a body |
| `Lookup.ShownMessage` | components/Hero/index.tsx:31-40 | after a valid submission, a failure of the form's own request shows that error's message or "Something went wrong"; otherwise the user sees no message on success, else the provider's message, "Shipsgo API error" or "Failed to fetch container data", and never the detail of the endpoint's failure |
| `Lookup.ClientFallbacksUnused` | components/Hero/index.tsx:33-40 | every failure response the endpoint delivers carries a non-empty `error`, so the form's "Error: <status>" and "Something went wrong" fallbacks never apply to it |
| `Lookup.ResultPassedThrough` | components/Hero/index.tsx:36-37 | a good provider answer reaches the form's `data` exactly as the provider sent it |
| `Lookup.ForwardsResponse` | app/api/container/route.ts:21-31 | a valid submission is answered with exactly the endpoint's response to the provider's outcome |

Details where the code's behaviour is easy to misread:

- The endpoint answers 400 for an empty parameter as well as a missing one (`!containerNumber`).
- The provider's `message` falls back to "Shipsgo API error" when it is empty, not only when it is absent.
- A configured key that is the empty string also falls back to the default auth code.
- The form's failure text comes from a two-step chain: the body's `error`, else "Error: <status>", and then, in the `catch`, "Something went wrong" when the thrown message is empty.

## Left out

- The network calls (`fetch` at components/Hero/index.tsx:31 and app/api/container/route.ts:21) and `res.json()`: their outcomes are parameters (`Hero.Reply`, `Lookup.ClientHop`, `ContainerRoute.ProviderOutcome`). Which browser or host error text a client-side failure carries is not modelled; it is an arbitrary message. A request that never settles is not modelled either.
- `encodeURIComponent` on the form side and `new URL(...).searchParams` on the endpoint side. `Lookup.Answer` takes it that the query string carries the 11-character identifier through unchanged.
- The endpoint inserts the parameter into the provider URL without re-encoding it. The model reads it back only with the known prefix and suffix, and does not parse the outbound query string. So a parameter holding `&` or `#` is not followed through the provider's own parsing.
- The environment variable read, and `console.error`, at app/api/container/route.ts:5 and 29. The key is a parameter, and the logging has no effect on the response.
- `NextResponse`: a response is a status and a body. A provider status that `NextResponse` itself would refuse (outside 200-599) is not modelled.
- Provider `message` and client `error` fields that are present but not strings (numbers, objects) are not modelled. Both are `Option<string>`, and only the empty string counts as falsy.
- Text.ToUpper: only the ASCII letters are upper-cased. Full Unicode case mapping, which can change a string's length (`ß` becomes `SS`), is not modelled. Lengths count Unicode scalar values, not UTF-16 code units, so input outside the Basic Multilingual Plane is counted differently from `length`.
- Date formatting (`toLocaleDateString` at components/Hero/index.tsx:131) depends on locale and time zone. The ETA row carries the raw date.
- The unused `typed` binding at components/Hero/index.tsx:36 does nothing and is not modelled.
- components/Modal/index.tsx is not part of this model: mounting into the page, its `mounted` flag and click propagation. The overlay is taken as shown exactly when `isOpen`.
- JSX layout, styling, SVG and the translated headings: these are presentation only.
- Fields of the container record that the form never reads (dates other than `ArrivalDate`, transshipment ports, tags, bill-of-lading containers and the rest). They are passed through as part of the value and are not spelled out.
- React's scheduling of state updates: each handler's updates are applied in order, as one step.
