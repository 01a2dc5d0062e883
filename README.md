# Chat session model for med-ask-insight

This project models the chat client of a medical question-answering app.
The model covers two parts:

- the submit/response cycle of the chat component, `handleSubmit` in `src/components/ChatInterface.tsx`;
- the backend configuration record in `src/lib/config.ts`.

The chat component holds three pieces of state:

- the transcript (`messages`);
- the draft in the input box (`currentQuestion`);
- a busy flag (`isLoading`).

A submit either is refused by the guard, or it appends the user's question, clears the draft and sets the flag. The exchange then settles. On success one AI message is appended and the sources callback is called. On failure the fixed apology is appended and the callback is not called. In both cases the flag is cleared.

Modules:

- `Wrappers`: the `Option` type.
- `Config`: `BASE_URL` with its `||` fallback, the endpoint constants and `buildApiUrl`.
- `JsString`: ECMAScript `String.prototype.trim`, which the guard uses, with the exact ECMAScript whitespace set.
- `ChatInterface`: the records, the reply and callback rules as functions, and the component state as the class `Session`.

`Session` has the methods `Submit` (the guard and the synchronous head of `handleSubmit`), `Complete` (the `try`/`catch`/`finally` tail) and `HandleSubmit` (both run to completion). Its invariant `Valid()` says that the transcript is a run of exchanges. Each exchange is a non-blank user question followed by the reply that `ReplyText` gives for how that exchange settled. While the flag is set, one last question is still waiting. A ghost field `outcomes` keeps the settled fetch results that this invariant refers to.

The network call is an input. `FetchResult` is either `Rejected` (the fetch promise rejects) or `Response(status, body)`. `response.ok` is modelled as a status from 200 to 299. `Body` is either `Malformed` (the body does not parse, or is JSON `null`, so reading `.answer` throws) or `Parsed(answer, sources)`.

Points of the code a reader may not expect:

- With no `sources` field, a successful reply gives the callback two fixed default sources.
- An empty `sources` array is truthy in JavaScript, so the callback receives it as it is.
- An empty-string `answer` falls back to the placeholder, just like a missing one.
- AI messages carry the role `'ai'`.
- The component posts to the hard-coded `http://localhost:8000/api/chat` (line 47). It does not use the configured base URL, whose default names `127.0.0.1`. `ChatRequestUrlBypassesConfig` states this.

## Model

| member | source | states |
|---|---|---|
| `Config.ResolveBaseUrl` | src/lib/config.ts:3 | the base URL is never empty; it is the override when that is a non-empty string, and otherwise the default `http://127.0.0.1:8000` |
| `Config.EmptyOverrideFallsBack` | src/lib/config.ts:3 | an empty-string override falls back to the default, just like a missing one |
| `Config.ResolveBaseUrlIdempotent` | src/lib/config.ts:3 | feeding a resolved base URL back in as the override gives the same base URL |
| `Config.BuildApiUrl` | src/lib/config.ts:11-13 | the URL starts with the base URL, ends with the endpoint, and its length is the sum of theirs, so nothing is inserted or rewritten |
| `Config.BuildApiUrlInjective` | src/lib/config.ts:11-13 | under one configuration, two endpoints give the same URL only if they are equal |
| `Config.EndpointUrls` | src/lib/config.ts:3-13 | the chat and sources URLs are the base URL followed by `/api/chat` and `/api/sources` |
| `JsString.TrimStart` | src/components/ChatInterface.tsx:30 | the result is a suffix of the input; everything dropped is whitespace; the result is empty or starts with a non-whitespace character |
| `JsString.TrimEnd` | src/components/ChatInterface.tsx:30 | the result is a prefix of the input; everything dropped is whitespace; the result is empty or ends with a non-whitespace character |
| `JsString.Trim` | src/components/ChatInterface.tsx:30 | `trim()` is the slice of the input with only whitespace before it and only whitespace after it, and its ends are not whitespace; it is empty exactly when every character is ECMAScript whitespace |
| `ChatInterface.SubmitBlocked` | src/components/ChatInterface.tsx:30 | the guard refuses exactly when loading is set or the draft is blank |
| `ChatInterface.Placeholder` | src/components/ChatInterface.tsx:62 | the fallback reply is the fixed head, then the question verbatim, then the fixed tail |
| `ChatInterface.PlaceholderInjective` | src/components/ChatInterface.tsx:62 | different questions give different placeholders, so the question can be read back from it |
| `ChatInterface.PlaceholderIsNotApology` | src/components/ChatInterface.tsx:59-87 | no question gives a placeholder equal to the apology |
| `ChatInterface.ReplyText` | src/components/ChatInterface.tsx:53-87 | the AI message is never empty; any failure (rejected fetch, non-ok status, unreadable body) gives the apology; success gives the non-empty answer, or the placeholder when the answer is missing or `""` |
| `ChatInterface.ApologyMeansFailureOrVerbatim` | src/components/ChatInterface.tsx:53-87 | if the reply is the apology, then either the exchange failed or the server's answer was exactly the apology text |
| `ChatInterface.StatusDecidesBeforeBody` | src/components/ChatInterface.tsx:47-55 | a non-ok status fails the exchange whatever the body is, and ends it the same way as a rejected fetch: apology, no callback |
| `ChatInterface.DeliveredSources` | src/components/ChatInterface.tsx:66-78 | the callback is called exactly when the exchange succeeds; it receives the server's list when present (even an empty one), and otherwise the two defaults |
| `ChatInterface.DefaultSourcesShape` | src/components/ChatInterface.tsx:66-75 | there are two default sources, with metadata source "Medical Journal 2023" and "Clinical Guidelines" |
| `ChatInterface.ChatRequestUrlBypassesConfig` | src/components/ChatInterface.tsx:47 | the address the component posts to is the configured chat URL for the override `http://localhost:8000`, and differs from the default configured chat URL |
| `ChatInterface.Session.constructor` | src/components/ChatInterface.tsx:24-26 | a new session has an empty transcript, an empty draft and loading cleared |
| `ChatInterface.Session.Edit` | src/components/ChatInterface.tsx:153 | typing replaces the draft and changes nothing else |
| `ChatInterface.Session.SubmitEnabled` | src/components/ChatInterface.tsx:160 | the submit button is enabled exactly when loading is cleared and the draft has a non-whitespace character, which is exactly when `Submit` accepts |
| `ChatInterface.Session.Submit` | src/components/ChatInterface.tsx:30-41 | a blank draft or a busy session changes nothing; otherwise exactly one user message holding the untrimmed draft is appended, the draft becomes `""` and loading is set; the transcript invariant is kept |
| `ChatInterface.Session.Complete` | src/components/ChatInterface.tsx:43-92 | exactly one AI message is appended, answering the pending question as `ReplyText` says; the earlier entries are kept; the callback value is `DeliveredSources`; loading is cleared |
| `ChatInterface.Session.HandleSubmit` | src/components/ChatInterface.tsx:28-93 | a submit is accepted exactly when loading is cleared and the draft is not blank; a refused one (blank draft or busy session) leaves transcript, draft and loading as they were and calls no callback; an accepted one appends the question and then its reply, and ends with the draft empty and loading cleared |
| `ChatInterface.AnsweredScenario` | src/components/ChatInterface.tsx:28-93 | asking "What is hypertension?" with an answer and one source gives a two-message transcript, and the callback receives that source |
| `ChatInterface.FailureScenarios` | src/components/ChatInterface.tsx:28-93 | an HTTP 500 and a rejected fetch both give the question followed by the apology, and neither calls the callback |
| `ChatInterface.RejectedScenarios` | src/components/ChatInterface.tsx:28-41 | a blank draft is refused on an idle session; a non-blank draft is refused while an exchange is pending |

## Left out

- Message ids and timestamps (`Date.now()`, `new Date()`) are wall-clock values and are not modelled. `Message` holds only the role and the content.
- The request itself is not modelled: the `fetch` call, `JSON.stringify` of the question, and `response.json()`. Their combined result is the input `FetchResult`.
- `response.ok` is taken to mean a status from 200 to 299, as the Fetch standard defines it.
- `Body.Parsed` holds an `answer` only when it is a string, and `sources` only when it is a list of sources. Falsy JSON values (`null`, `false`, `0`) are modelled as absent fields.
- Truthy values of other JSON types, for example a numeric `answer` or a string `sources`, are not modelled; the source passes them on unchecked.
- Source metadata (`Record<string, any>`) is modelled with string values only.
- `document.body.style.cursor` writes (lines 45 and 90) and `console.error` (line 80) are global UI side effects and are left out.
- React's asynchronous state updates, render batching and the stale-closure double submit are not modelled. `handleSubmit` runs sequentially, as `Submit` followed later by `Complete`.
- `ChatInterface.Session.Complete`: the sources callback is assumed to return normally. If it throws, the source has already queued the answer (line 77), and its `catch` block (lines 79-87) then appends the apology as well, so that exchange ends with three messages; the model does not cover this.
- `ChatInterface.Session.Edit`: the input box is disabled while loading (line 155), but the setter is not, so `Edit` has no precondition on loading.
- The JSX rendering (lines 95-169) is left out, except for the submit button's enabled state at line 160.
- Reading `import.meta.env` is left out. The override is the parameter `env: Option<string>`.
- `src/lib/api.ts` (the REST client for chat, health and document operations) is not part of this model. The component does not call it.
- `JsString`: strings are sequences of Unicode scalar values, not UTF-16 code units. The two agree for `trim`, whose whitespace characters all lie in the Basic Multilingual Plane.
