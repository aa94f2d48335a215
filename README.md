# image-gen-app: a Dafny model of its decision logic

This project models the three small decision procedures of the image-generation web
application. Each is proved correct against its own contract.

- **The image generator** (`ImageGenerator`). This is the browser component that posts a prompt
  and shows the returned image. It keeps four independent state slots: `prompt`, `image`,
  `loading` and `error`. `generateImage` raises `loading` and clears `error`. It then sends a
  `POST` with a bearer `Authorization` header, as section 2.1 of RFC 6750 describes. When the
  request settles, it stores the response's `image` field or an error text, and its `finally`
  clause lowers `loading`. The class `Generator` holds the slots as fields. Its methods `Begin`,
  `Settle` and `GenerateImage` are specified by the pure functions `Began` and `Settled`. The
  functions `Step` and `Run` model sequences of user events and request settlements, and the
  lemmas over them state what holds in every reachable state.
- **The session gate** (`Session`). The root component holds one flag, `isLoggedIn`. It starts
  false. The mount effect raises it when a truthy token is stored, and `onLoginSuccess` raises it
  unconditionally. The flag selects exactly one of two pages. The class `App` holds the flag.
- **Token issuing and checking** (`AuthUtils`, `AuthRouter`). `create_access_token` copies the
  caller's claims and sets `exp` (section 4.1.4 of RFC 7519). `get_current_user` returns the
  `sub` claim (section 4.1.2 of RFC 7519) or a 401 error. `login_for_access_token` implements
  the password grant of section 4.3 of RFC 6749 over the fixed one-user table.

Some things are inputs rather than code:
- The network exchange is an `Outcome` value.
- The stored token is an `Option<string>`.
- The current time is an integer count of seconds, the NumericDate of RFC 7519.
- JWT encoding and decoding, and the bcrypt password check, are function-typed parameters.
  Where a lemma needs the decoder's behaviour, `DecodesLikeJose` states it: the decoder returns
  the payload it accepts unchanged, and refuses an expired payload, a not-yet-valid payload or
  one that names an audience with a `JWTError`.

Four facts about the code shape the generator model:
- The code does not reject a second submission while one is in flight. It only disables the
  button while `loading`.
- The response's `success` flag is never checked.
- An ok response with no `image` field gives no image and no error. It does not give a failure.
- The `image` and `error` slots are independent, so after a success a failed request shows the
  old image and the new error together.

## Model

| member | source | states |
|---|---|---|
| `ImageGenerator.AuthorizationHeader` | frontend/src/components/ImageGenerator.tsx:24 | The header is "Bearer " followed by the stored token's text, where a null token renders as "null". |
| `ImageGenerator.MakeRequest` | frontend/src/components/ImageGenerator.tsx:20-27 | The request is a `POST` of JSON to the fixed `/generate` endpoint. It carries the prompt as given. Its `Authorization` header is always "Bearer " followed by the stored token's text, and it yields back that token as bearer credentials exactly when the token is a b64token. |
| `ImageGenerator.BearerRoundTrip` | frontend/src/components/ImageGenerator.tsx:24 | Parsing the header the client builds, under section 2.1 of RFC 6750, returns the token text when it is a b64token and no credentials otherwise. An empty stored token yields no credentials. |
| `ImageGenerator.MissingTokenSendsNull` | frontend/src/components/ImageGenerator.tsx:24 | With no stored token the header is "Bearer null". That is well-formed and carries the credential "null". |
| `ImageGenerator.Attempt` | frontend/src/components/ImageGenerator.tsx:29-34 | The `try` block completes iff the response is ok and its body decodes, and it then stores the body's `image` field. A non-ok response throws the fixed `Error` without reading the body. Anything thrown by `fetch` or by reading the body reaches the `catch` unchanged. |
| `ImageGenerator.CaughtMessage` | frontend/src/components/ImageGenerator.tsx:36 | An `Error` gives its own message and any other value gives "An error occurred". The text is empty only for an `Error` whose message is empty. |
| `ImageGenerator.Began` | frontend/src/components/ImageGenerator.tsx:17-18 | `loading` is set and `error` is cleared. Prompt and image are unchanged. |
| `ImageGenerator.Settled` | frontend/src/components/ImageGenerator.tsx:29-38 | Every outcome ends with `loading` false and `prompt` unchanged. A non-ok status sets exactly "Failed to generate image" and keeps the image. An ok decoded body sets `image := body.image`, absent included, and leaves `error` alone. A thrown `Error` sets its message and keeps the image. Any other thrown value sets "An error occurred" and keeps the image. |
| `ImageGenerator.NotOkIgnoresBody` | frontend/src/components/ImageGenerator.tsx:29-31 | A non-ok response settles the same whatever its body, and the error region is shown. |
| `ImageGenerator.OnlyImageFieldMatters` | frontend/src/components/ImageGenerator.tsx:33-34 | Two ok bodies with the same `image` settle identically, whatever their `success` and `prompt` fields. |
| `ImageGenerator.MissingImageShowsNothing` | frontend/src/components/ImageGenerator.tsx:33-34 | After a submission, an ok body without `image` shows neither the image region nor the error region, and `loading` is off. |
| `ImageGenerator.ErrorShown` | frontend/src/components/ImageGenerator.tsx:82 | The error region is hidden for a null or empty error and shown for any other text. |
| `ImageGenerator.ImageShown` | frontend/src/components/ImageGenerator.tsx:97 | The image region is hidden for a null or empty image and shown for any other value. |
| `ImageGenerator.ButtonEnabled` | frontend/src/components/ImageGenerator.tsx:65 | The Generate button is disabled for an empty prompt or while loading, and enabled otherwise. |
| `ImageGenerator.InputEnabled` | frontend/src/components/ImageGenerator.tsx:60 | The prompt input is enabled iff not loading. |
| `ImageGenerator.FailureKeepsImageShown` | frontend/src/components/ImageGenerator.tsx:82-97 | A failed submission whose error message is non-empty, after a shown image, keeps that image and shows the error too. |
| `ImageGenerator.Step` | frontend/src/components/ImageGenerator.tsx:57-65 | Typing replaces the prompt while the input is enabled and does nothing otherwise. A click gives `Began(s)` while the button is enabled and does nothing otherwise. A settlement gives `Settled(s, outcome)` while loading, which lowers `loading`, and does nothing otherwise. Each step preserves the invariant "loading implies no error". |
| `ImageGenerator.RunKeepsInFlightClean` | frontend/src/components/ImageGenerator.tsx:15-39 | Any sequence of events preserves the invariant that `error` is null while loading. |
| `ImageGenerator.ReachableInFlightClean` | frontend/src/components/ImageGenerator.tsx:17-18 | In every state reachable from the initial one, `error` is null and no error is shown while a request is in flight. |
| `ImageGenerator.Generator.constructor` | frontend/src/components/ImageGenerator.tsx:10-13 | The slots start as an empty prompt, a null image, `loading` false and a null error. |
| `ImageGenerator.Generator.SetPrompt` | frontend/src/components/ImageGenerator.tsx:57-58 | Only `prompt` changes, to the typed text. |
| `ImageGenerator.Generator.Begin` | frontend/src/components/ImageGenerator.tsx:16-27 | It sets `loading` and clears `error` before the request is issued. Image and prompt are unchanged, and the request is built from the current prompt and stored token. |
| `ImageGenerator.Generator.Settle` | frontend/src/components/ImageGenerator.tsx:29-39 | The new slots are `Settled(old slots, outcome)`, so `loading` is off and a failure leaves the image as it was. |
| `ImageGenerator.Generator.GenerateImage` | frontend/src/components/ImageGenerator.tsx:15-40 | The whole handler run without interleaving. It ends not loading, with the prompt unchanged and no error after a success. The request carries the prompt from call time. |
| `Session.Mounted` | frontend/src/App.tsx:9-14 | After the mount effect the flag is true iff it was already true or the stored token is truthy, meaning neither null nor empty. |
| `Session.Render` | frontend/src/App.tsx:18-31 | Exactly one of the two pages is rendered. The generator page is rendered iff logged in. |
| `Session.Step` | frontend/src/App.tsx:9-29 | No event lowers the flag. A login success always raises it, and a mount gives `Mounted(flag, token)`, so it raises the flag only for a truthy token. |
| `Session.RunRaisesOnlyWithCause` | frontend/src/App.tsx:7-29 | After any sequence of events the flag is true iff it was true before, or some event was a login success or a mount that found a truthy token. |
| `Session.NoCauseStaysOnLoginPage` | frontend/src/App.tsx:7-31 | A session that starts logged out and sees no truthy stored token and no login success renders the login page. |
| `Session.RunNeverLogsOut` | frontend/src/App.tsx:7-29 | Once true, the flag stays true over any sequence of events. |
| `Session.LoginIsFinal` | frontend/src/App.tsx:29 | After a login success, whatever came before or after, the generator page is rendered. |
| `Session.LoginSuccessIdempotent` | frontend/src/App.tsx:29 | A second login success changes nothing. |
| `Session.App.constructor` | frontend/src/App.tsx:7 | The flag starts false, so the login page is shown. |
| `Session.App.View` | frontend/src/App.tsx:18-31 | The component renders the generator page iff its flag is set, and the login page otherwise. |
| `Session.App.Mount` | frontend/src/App.tsx:9-14 | The flag becomes `Mounted(old flag, token)`. It is never lowered. |
| `Session.App.OnLoginSuccess` | frontend/src/App.tsx:29 | The flag is true and the generator page is shown, whatever the flag was before. |
| `Session.MountFresh` | frontend/src/App.tsx:7-14 | A freshly mounted app is logged in iff the stored token is truthy, and it renders the matching page. |
| `AuthUtils.TokenPayload` | simple_webapp_k8s/auth_utils.py:59-64 | The payload has the keys of `data` plus `exp`. Every other claim is unchanged. `exp` is `now + delta` for a truthy delta, negative ones included. For an absent or zero delta it is `now + 15 minutes`. |
| `AuthUtils.CreateAccessToken` | simple_webapp_k8s/auth_utils.py:44-68 | The token is the encoding of `TokenPayload(data, delta, now)`, the copy of `data` with `exp` set. `data` itself is a value and is not changed. |
| `AuthUtils.GetCurrentUser` | simple_webapp_k8s/auth_utils.py:88-103 | It succeeds iff the token decodes and has a string `sub`, and it then returns that `sub`. A `JWTError` from decoding, or a missing or null `sub`, gives the 401 "Could not validate credentials" with `WWW-Authenticate: Bearer`. Another exception from the decoder escapes uncaught, and so does the validation error for a `sub` that is neither a string nor null. The only error ever raised is that 401. |
| `AuthUtils.EmptySubjectAccepted` | simple_webapp_k8s/auth_utils.py:97-98 | An empty-string `sub` is accepted, because only `None` is rejected. |
| `AuthUtils.IssuedTokenIdentifiesSubject` | simple_webapp_k8s/auth_utils.py:59-103 | With a decoder that behaves like python-jose's, a token issued for a string subject, with no audience, no `at_hash`, a string `jti` if any, an integer `iat` if any and an integer `nbf` no later than `now` if any, is read back as that subject by `get_current_user` until its `exp`. |
| `AuthUtils.IssuedTokenRefused` | simple_webapp_k8s/auth_utils.py:59-103 | With a decoder that behaves like python-jose's, an issued token whose `iat` and `nbf` are integers wherever present gets the 401 after its `exp`, and at once if its claims name an audience. |
| `AuthRouter.FakeUsersDb` | simple_webapp_k8s/routers/auth.py:18-20 | The table holds exactly the user "testuser", stored under its own name with the start-up hash. |
| `AuthRouter.LoginForAccessToken` | simple_webapp_k8s/routers/auth.py:73-89 | It succeeds iff the user is known and the password check passes. Otherwise it gives the 401 "Incorrect username or password" with `WWW-Authenticate: Bearer`. On success the token type is "bearer" and the token is the encoding of exactly `{sub: stored username, exp: now + 30 minutes}`. |
| `AuthRouter.UnknownUserSkipsCheck` | simple_webapp_k8s/routers/auth.py:73-81 | For an unknown user the result does not depend on the password checker, so the checker is not consulted. The result is the login 401. |
| `AuthRouter.FakeDbLogin` | simple_webapp_k8s/routers/auth.py:73-81 | With the fixed table, login succeeds iff the username is "testuser" and the password matches the stored hash. |
| `AuthRouter.LoginTokenIdentifiesUser` | simple_webapp_k8s/routers/auth.py:83-89 | With a decoder that behaves like python-jose's, the login token is read back by `get_current_user` as the stored username for 30 minutes. The 15-minute default never applies at login. |
| `AuthRouter.LoginTokenExpires` | simple_webapp_k8s/routers/auth.py:83-89 | With a decoder that behaves like python-jose's, the login token gets the 401 once 30 minutes have passed. |

## Left out

- The network and the browser are not modelled: `fetch`, `response.json()`, `localStorage`, and React's hooks, rendering markup, spinner and styling. The exchange is the input `Outcome`, and the stored token is an `Option<string>` argument.
- JSON encoding of the request body is not modelled. The request carries the prompt string itself.
- A decoded `image` field that is present but not a string (a number, say) is not modelled. The body's fields are optional strings and booleans.
- Overlapping requests are not modelled: `Step` lets a request settle only while `loading`, and requests run one after another. Timeouts and cancellation do not exist in the code either.
- `ImageGenerator.CredentialOf` recognises only the single-space form "Bearer " that the client sends, not the `1*SP` of RFC 6750.
- JWT signing and decoding (`jwt.encode`, `jwt.decode`) are foreign code. They are function parameters, and their behaviour is assumed only where a lemma requires `DecodesLikeJose`.
- bcrypt (`get_password_hash`, `verify_password`) is foreign code. The check is a function parameter, and the start-up hash is a parameter of `FakeUsersDb`.
- `AuthUtils.GetCurrentUser`: an exception that escapes uncaught is modelled only as `Escaped`. The framework's 500 response to it is not modelled. Such an exception is, for example, the `TypeError` python-jose raises for `"exp": null`, or the validation error `TokenData` raises for a `sub` that is not a string.
- `AuthUtils.DecodesLikeJose` describes the decoder only on tokens that `encode` produced, and only for the claims named there. It does not cover forged or corrupted tokens, and it leaves out claims of other types that python-jose converts (a numeric string as `exp`).
- `AuthUtils.TokenPayload`: `exp` is `now + delta` for every truthy delta. `datetime.utcnow() + expires_delta` raises `OverflowError` when the sum falls outside the years 1 to 9999, and that error path is not modelled. The only caller passes 30 minutes.
- `AuthUtils.CreateAccessToken`: through `TokenPayload`, it issues a token where the source raises `OverflowError` for a sum outside datetime's range. That path is not modelled.
- `AuthRouter.LoginForAccessToken`: the same `OverflowError` when `now` lies within 30 minutes of the end of year 9999 is not modelled.
- `AuthUtils.Value`: claim values are restricted to null, booleans, integers and strings. Fractional numbers, arrays and objects are not modelled.
- Time is whole seconds, with `now` as a parameter for `datetime.utcnow()`. Sub-second parts of a `timedelta` are not modelled.
- `ACCESS_TOKEN_EXPIRE_MINUTES` is the constant 30, its default in backend/simple_webapp_k8s/conf.py:11. An override from the environment is not modelled.
- The image endpoint (backend/simple_webapp_k8s/routers/image.py) is not part of this model. It wraps a remote inference client and base64 encoding.
- The greeting and health endpoints (backend/simple_webapp_k8s/routers/hello.py) are not part of this model.
- The application and CORS set-up (simple_webapp_k8s/api.py) is not part of this model.
- The login form, which stores the token and calls `onLoginSuccess`, and the navigation bar are not part of this model.
