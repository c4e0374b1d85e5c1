# Joke board: submission validation and the new-joke route

A Dafny model of the decision logic of a small server-rendered joke board. Users
submit a joke (a name and a text) through the page `app/routes/jokes.new.tsx`;
the route's `action` checks that a session user exists, that the form carries
both fields as strings, and that both pass the field validators of
`app/utils/helpers.ts`, and only then stores the joke and redirects to its page.
The same module's `loader` refuses visitors without a session, the page shows an
optimistic preview of an in-flight submission, and the route's `ErrorBoundary`
turns a 401 into a login prompt.

Modules:

- `Wrappers` (`wrappers.dfy`): `Option`, the model of "`undefined` or a value".
- `JsValues` (`js_values.dfy`): JavaScript `length` of a string counted in UTF-16
  code units (`JsLength`), truthiness of an optional string (`Truthy`), and
  `Array.prototype.includes` (`Includes`).
- `Helpers` (`helpers.dfy`): the four field validators and the redirect
  allow-list `ValidateUrl`.
- `JokesNew` (`jokes_new.dfy`): the `action` as a specification function
  `ActionResponse` and as the method `JokeStore.Action` on a map-backed joke
  store; `Loader`; the preview guard `ShowPreview`; `ErrorBoundary`.

Strings are Dafny `string`s. Where the source tests `!s` on a string the model
tests `s == []`, since only the empty string is falsy; where it reads
`s.length` the model uses `JsLength(s)`, in which a character outside the Basic
Multilingual Plane counts twice, as it does in JavaScript.

## Model

| member | source | states |
|---|---|---|
| `JsValues.JsLength` | app/utils/helpers.ts:5 | `length` lies between the number of characters and twice that, so it is 0 exactly for the empty string |
| `JsValues.Includes` | app/utils/helpers.ts:39 | `includes` answers true exactly when the element occurs in the list |
| `Helpers.ValidateJokeContent` | app/utils/helpers.ts:1-8 | no message iff length >= 10; `Required` iff the string is empty; the too-short message iff 1 <= length < 10; every message is truthy |
| `Helpers.ValidateJokeName` | app/utils/helpers.ts:10-17 | no message iff length >= 3; `Required` iff empty; the name-too-short message iff 1 <= length < 3 |
| `Helpers.ValidateUsername` | app/utils/helpers.ts:19-26 | no message iff length >= 3; `Required` iff empty; the username message iff 1 <= length < 3 |
| `Helpers.ValidatePassword` | app/utils/helpers.ts:28-35 | no message iff length >= 6; `Required` iff empty; the password message iff 1 <= length < 6 |
| `Helpers.ValidateUrl` | app/utils/helpers.ts:37-44 | the result is always on the allow-list; an allow-listed target is returned unchanged; anything else becomes `/jokes` |
| `Helpers.ValidateUrlIdempotent` | app/utils/helpers.ts:38-43 | sanitising twice gives the same target as sanitising once |
| `Helpers.ValidateUrlRejectsSchemeRelative` | app/utils/helpers.ts:37-44 | `//evil.com` falls back to `/jokes` |
| `JokesNew.ActionResponse` | app/routes/jokes.new.tsx:11-47 | Unauthorized iff there is no session user; a redirect to `/jokes/<new id>` iff both fields are strings meeting the length rules; a malformed form gives only `formError` = `Form not submitted correctly.`; invalid values give only the validators' messages (at least one present) with the exact submitted strings echoed |
| `JokesNew.ShortSubmissionGetsBothFieldErrors` | app/routes/jokes.new.tsx:28-41 | name `Hi` and content `short` give both too-short messages, the echoed fields and no form error |
| `JokesNew.JokeStore.Create` | app/routes/jokes.new.tsx:43-45 | the store gains the joke with the given name, content and owner under the fresh id |
| `JokesNew.JokeStore.Action` | app/routes/jokes.new.tsx:11-47 | answers as `ActionResponse`; on a redirect exactly one joke is added, with the submitted name and content and the session user as jokester; otherwise the store is unchanged; the store keeps "every joke meets the length rules" |
| `JokesNew.Loader` | app/routes/jokes.new.tsx:49-56 | throws a 401 `Unauthorized` response iff the user id is missing or empty, and yields the empty data otherwise |
| `JokesNew.ErrorBoundary` | app/routes/jokes.new.tsx:161-174 | the login prompt, linking to `/login`, iff the error is a route error response with status 401; the generic message otherwise |
| `JokesNew.SignedOutVisitorSeesLoginPrompt` | app/routes/jokes.new.tsx:50-53 | a visitor without a session gets the thrown 401, which the error boundary shows as the login prompt |
| `JokesNew.ShowPreview` | app/routes/jokes.new.tsx:62-71 | as written: preview iff a draft is in flight, both draft entries are strings and the draft content has length >= 10; the draft name is never checked |
| `JokesNew.ShowPreviewIntended` | app/routes/jokes.new.tsx:66-71 | with the name validator applied to the name: preview iff both entries are strings meeting the length rules |
| `JokesNew.PreviewIntendedMatchesAction` | app/routes/jokes.new.tsx:66-71 | the corrected guard previews exactly the drafts that the action would store |
| `JokesNew.PreviewShownForRejectedDraft` | app/routes/jokes.new.tsx:69-70 | the guard as written previews content `Why did the chicken cross the road?` with an empty name, which the action rejects with `Required` for the name |

## Findings

| source | as written | input that shows it | evidently intended | confidence | as-written member | corrected member |
|---|---|---|---|---|---|---|
| app/routes/jokes.new.tsx:70 | `validateJokeName(content)` checks the draft content with the name rule, so the draft name is never validated | draft name `""`, content `Why did the chicken cross the road?`: the preview is shown, yet the action answers 400 with `Required` for the name | `validateJokeName(name)`, so that the preview appears exactly for drafts the action accepts | medium, not executed | `JokesNew.PreviewShownForRejectedDraft` | `JokesNew.PreviewIntendedMatchesAction` |

`ShowPreview` keeps the guard as written, because that is what the page does;
`ShowPreviewIntended` is the corrected guard.

## Left out

- Session lookup (`requireUserId`, `getUserId`) is not part of this model: the session is the optional user id it yields. What `requireUserId` throws when there is no user is represented by the abstract `Unauthorized` result, not by a particular HTTP response.
- Form parsing (`request.formData()`, `FormData.get`) is not part of this model: the action receives the two entries `form.get` returns.
- The database (`db.joke.create`) is a map from joke id to joke; the fresh id it generates is a parameter that must not already be in use (`requires newId !in jokes`), and store failures are not modelled.
- `badRequest`, `redirect` and `json` are represented by the `ActionResult` and `LoaderResult` values, not by HTTP responses with status codes and headers.
- The JSX of the page component (inputs, default values, `aria-*` attributes, the error paragraphs, `JokeDisplay`) is presentation and is not modelled; only the preview decision is.
- `console.error` logging in `ErrorBoundary`, async evaluation and the framework hooks (`useActionData`, `useNavigation`, `useRouteError`) are runtime I/O and are not modelled.
- `app/root.tsx` (stylesheets, meta tags, document layout, root error boundary) has no decision logic and is not modelled.
