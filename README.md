# identity-sdk-py, modelled in Dafny

The identity SDK has three parts. First, validators for the data it exchanges:
the bearer-token `Authorization` header, the user object, the identity service's
`{user: ...}` response envelope, and the Auth0 user payload. Second, an
`IdentityClient` whose `get_user` exchanges a bearer token for a user at
`http://<domain>/user`. Third, an `AuthMiddleware` for falcon: it resolves the user
of every inbound request, or turns the client's error into a 400, 401, 404 or 502.

The model is four modules:

- `Wrappers` (wrappers.dfy): `Option` and `Result`.
- `Json` (json.dfy): `Value`, the decoded JSON values. Python dicts are `Object`s.
- `Validation` (validation.dfy): models src/identity_sdk/validation.py.
  - The header validator is a function over `Option<string>`. `None` stands for any non-string value.
  - The regular expression `Bearer (.+)` is stated two ways. `IsBearerCapture` gives its meaning: anchored at index 0, `.` excludes the line feed, greedy capture. `TakeLine` is the greedy run that implements it.
  - The three post-schema hooks are functions that return a new map.
  - The validators these hooks call (identifier, timestamp, URL, user) are function-valued fields of the validator records.
  - `json.loads` and the URL schema are parameters of the Auth0 validator.
- `Client` (client.dfy): models src/identity_sdk/client.py.
  - `Error` carries an explicit `Cause`, which stands in for the exception it was raised from.
  - The HTTP round trip is a parameter `transport: HttpRequest -> HttpOutcome`. `GetUser` returns the request it sent, if any, together with its result.
  - `ToHttpError` is the middleware's translation table, and `Authenticate` is the middleware's decision.
  - `AuthMiddleware.ProcessResource` is a method that updates `Request.context` in place.

Two details of the code that the model keeps:

- `raise_for_status` raises only for status codes 400 to 599. So `RaisesForStatus` is `400 <= code < 600`. A 1xx or 3xx response goes on to body validation like a 2xx one.
- `UserValidator.SCHEMA` misspells `additionalProperties` (validation.py:92). So a user object may carry extra keys, and `UserPostSchemaValidate` keeps them unchanged.

A response body that the response validator rejects raises `validation.Error` inside `get_user`, just as a bad header does (client.py:38-41). So the middleware answers it with the same 400 "Invalid value … for Authorization header", although the fault is the service's (`Client.MalformedBodyIsBadRequest`).

The model follows the behaviour that the middleware's docstring (client.py:49-55) and its structure intend. It does not follow the names that are undefined at run time (see "Left out").

## Model

| member | source | states |
|---|---|---|
| `Validation.TakeLine` | src/identity_sdk/validation.py:60 | The run `.+` consumes is a prefix of the text. It holds no line feed. It ends at the end of the text or just before a line feed. |
| `Validation.ValidateAccessTokenHeader` | src/identity_sdk/validation.py:59-71 | A non-string header fails with "Missing Authorization header". A string that `Bearer (.+)` does not match at index 0 fails with "Invalid Authorization header". Otherwise the result is the pattern's capture. |
| `Validation.BearerCaptureUnique` | src/identity_sdk/validation.py:60 | A header has at most one capture: the greedy group is determined by the header. |
| `Validation.AccessTokenIsCapture` | src/identity_sdk/validation.py:60-71 | Validation returns `t` if and only if `t` is group 1 of `Bearer (.+)` in the header. This holds in both directions. |
| `Validation.BearerRoundTrip` | src/identity_sdk/validation.py:60-71 | For a non-empty `t` with no line feed, validating `"Bearer " + t` returns exactly `t`, leading spaces included. |
| `Validation.BearerStopsAtLineFeed` | src/identity_sdk/validation.py:60-71 | With no end anchor, everything from the first line feed on is dropped from the token. |
| `Validation.BearerAcceptedExamples` | src/identity_sdk/validation.py:66-71 | `"Bearer abc123"` gives `"abc123"`. `"Bearer  abc"` gives `" abc"`. |
| `Validation.BearerRejectedExamples` | src/identity_sdk/validation.py:62-69 | These are rejected: a missing scheme, a lower-case scheme, `"Bearer "` alone, `"Bearer "` followed by a line feed, and no header at all. The first four fail with "Invalid Authorization header"; only the missing header fails with "Missing Authorization header". |
| `Validation.UserPostSchemaValidate` | src/identity_sdk/validation.py:100-107 | The result has the input's keys. Only `id`, `timeJoinedTs` and `pictureUrl` change, each to its validator's result. Every other key is unchanged. Success means all three validators succeeded. Otherwise the error is that of the first failure, in the order id, timestamp, URL. |
| `Validation.UserNameUnchanged` | src/identity_sdk/validation.py:100-107 | The user's `name` is copied unchanged. |
| `Validation.UserPostSchemaShortCircuit` | src/identity_sdk/validation.py:103-105 | Once the id validator fails, the result does not depend on the timestamp or URL validators. Once the timestamp validator fails, it does not depend on the URL validator. |
| `Validation.UserResponsePostSchemaValidation` | src/identity_sdk/validation.py:128-133 | The result is a copy of the envelope in which only `user` is replaced by the user validator's result. That validator's failure is the result. |
| `Validation.ValidateAuth0User` | src/identity_sdk/validation.py:35-46 | A decode failure, a schema failure and a URL failure each give their own `ValidationError` message. On success the decoded object is returned with only `picture` replaced by the URL validator's result. |
| `Client.NewIdentityClient` | src/identity_sdk/client.py:26-29 | The user URL is `http://` + domain + `/user`, and the domain can be read back from it. The validators are kept as given. |
| `Client.GetUser` | src/identity_sdk/client.py:31-45 | A request is sent if and only if the header validates. It carries `"Bearer " + token`. A header failure is "Could not validate input/output" with a validation cause. A connection failure or timeout is "Could not reach identity service" with no code. An error status is "HTTP Error" with exactly that code, and only HTTP errors carry a code. A rejected body is a validation error. Once the request is sent, the result is a success if and only if the status is below 400 or from 600 up and the envelope validates, and then it is the envelope's `user` entry. |
| `Client.InvalidHeaderSendsNothing` | src/identity_sdk/client.py:33-34 | With an invalid header, no request is sent and the outcome is the same whatever the service would have answered. |
| `Client.GetUserDependsOnlyOnAnswer` | src/identity_sdk/client.py:34-39 | The outcome depends on the service only through its answer to the one request sent. |
| `Client.StandardClientForwardsToken` | src/identity_sdk/client.py:27-36 | With the SDK's header validator, the request goes to `http://<domain>/user`. Its `Authorization` header validates back to the same token. |
| `Client.ToHttpError` | src/identity_sdk/client.py:72-97 | Each cause gives exactly one outward error. A validation cause gives 400, with the raw header in the description. A connection failure or timeout gives 502. HTTP 401 gives Unauthorized with a `Bearer` challenge. HTTP 404 gives Not Found. Any other status gives 502. These hold in both directions. The 404 and 502 errors carry their fixed titles and descriptions. |
| `Client.Authenticate` | src/identity_sdk/client.py:61-97 | The request passes through if and only if the method is `OPTIONS` or the resource opts out. Otherwise the client's user is attached, or the client's error is translated by `ToHttpError`. |
| `Client.InvalidHeaderIsBadRequest` | src/identity_sdk/client.py:75-78 | A missing or malformed header is a 400 naming the header value, and nothing is sent to the service. |
| `Client.ServiceStatusTranslation` | src/identity_sdk/client.py:83-97 | An error status from the service becomes 401 (with a `Bearer` challenge), 404, or 502 for every other code. |
| `Client.UnreachableServiceIsBadGateway` | src/identity_sdk/client.py:79-82 | An unreachable or timed-out service is a 502. |
| `Client.BadRequestIffValidationFailure` | src/identity_sdk/client.py:40-41 | The middleware answers 400 if and only if it authenticates and `get_user` failed with a validation cause. |
| `Client.MalformedBodyIsBadRequest` | src/identity_sdk/client.py:38-41 | A response body the response validator rejects is a 400 naming the Authorization value, although the header was valid and the request was sent. |
| `Client.AuthMiddleware.constructor` | src/identity_sdk/client.py:58-59 | The middleware keeps the client it is given. |
| `Client.AuthMiddleware.ProcessResource` | src/identity_sdk/client.py:61-71 | On success the user is stored under `context['user']` and no other context key changes. A pass-through or a rejection leaves the context unchanged. A rejection returns the outward error. |

## Left out

- The HTTP transport (`requests.get`, client.py:34-36) is the `transport` parameter. No networking is modelled.
- Other `requests` exceptions (`TooManyRedirects`, `InvalidURL`, `ChunkedEncodingError`, …) escape `get_user` uncaught, since client.py:40-45 catch only `validation.Error`, `ConnectionError`/`Timeout` and `HTTPError`; the middleware does not translate them either. `HttpOutcome` has no case for them.
- `transport` delivers bodies already decoded. `json.loads` at client.py:38 can raise a `ValueError`, which escapes `get_user` uncaught. That path is not modelled.
- The `SCHEMA` dictionaries and `jsonschema` (validation.py:12-30, 52-57, 77-93, 113-123) are not modelled as data.
  - The Auth0 schema is `Auth0SchemaAccepts`. Its required keys and string types are concrete. The URL schema is a parameter.
  - The user and envelope hooks require the keys their schemas make required. Without them, Python raises `KeyError`.
- The `validation.Validator` base class, whose `validate` would run the schema check and then the hook, is not part of this model. So these are not modelled: "an object missing a required key is rejected", and the full `UserValidator.validate` composition.
- The `validation_common` Id, DateTimeTs and URL validators are not part of this model. They are function-valued fields.
- `Validation.ValidateAuth0User`: a failure of the URL validator is modelled as 'Other error'. This assumes `validation.Error` is not a `ValueError`, and that library is not shown.
- `Validation.ValidateAuth0User`: validation.py:37-38 call `json` and `jsonschema`, which the module never imports. As written, line 37 raises `NameError`; matching it against the second `except` clause (validation.py:43) evaluates `jsonschema.ValidationError` and raises a new `NameError`, which escapes `validate` without becoming a `validation.Error`. The model follows the evident intent instead.
- `Validation.UserResponsePostSchemaValidation`: the hook is named `_post_schema_validation` (validation.py:128), unlike `_post_schema_validate` (validation.py:100). Whether the base class ever calls it cannot be seen. The model takes it as the envelope's hook.
- `Client.GetUser` requires a header validator. The constructor's default is `None` (client.py:26), and with it `get_user` fails with `AttributeError`.
- `Client.GetUser` also requires that the response validator only accepts objects that hold `user`. This is the envelope schema's `required` list, which the model does not check.
- `Client.ToHttpError`: client.py:84 and :90 read `e.status_code`, but `Error` stores `_status_code` (client.py:17). The model reads the stored code.
- `Client.ToHttpError`: the 401 description formats `access_token`, which is undefined in `process_resource` (client.py:88). The model formats the raw Authorization value there. The source's spelling "auhtorize" is kept.
- `Client.ToHttpError`: the challenge list is `["Bearer"]`. The source passes the bare string `'Bearer'` to falcon, which is not part of this model.
- `Client.AuthMiddleware.ProcessResource`: client.py:71 stores the undefined `user_json['user']`. The model stores the user that `get_user` returned, as the docstring intends.
- `Client.AuthMiddleware.ProcessResource`: the `resp` and `params` arguments are unused and are omitted.
- A truthy `AUTH_NOT_REQUIRED` attribute is a boolean field of `Resource`. An absent attribute is `false`.
- `Error.__str__` (client.py:19-20) only returns the reason, which is the `reason` field.
- setup.py (packaging) and src/identity_sdk/__init__.py (re-exports) are not part of this model.
