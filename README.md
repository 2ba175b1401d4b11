# hackmd-mcp: configuration resolution and note-option validation

The hackmd-mcp server exposes the HackMD note service to Model Context Protocol clients.
This project models the two parts of it that carry logic of their own, and proves their
properties in Dafny:

- **Request configuration and request outcome** (index.ts). For one request to the `/mcp`
  endpoint, `parseConfig` reads an API token header, an API URL header and a
  base64-encoded JSON `config` query parameter. A header counts only when it is a string
  that is not blank after trimming, and it is kept untrimmed. If any header counts, the
  query parameter is never looked at. The `POST` handler then falls back to the
  `HACKMD_API_TOKEN` and `HACKMD_API_URL` environment variables and the built-in default
  URL. JavaScript `||` treats `""` as absent at each step. The handler ends in one of
  three ways:
  - a 400 reply with JSON-RPC code -32000 when the token is missing or blank;
  - a 500 reply with code -32603 when something throws (undecodable query parameter,
    a `null` configuration, a truthy token that is not a string);
  - serving the request with the resolved token and URL.

  `GET` and `DELETE` always get a 405 reply. At start-up, `TRANSPORT` picks HTTP only
  when it is exactly `"http"`. Otherwise the server runs over stdio, and it exits with
  status 1 when `HACKMD_API_TOKEN` is unset or empty.
- **Note-option schemas** (utils/schemas.ts). These validate the options of the note
  creation and update tools. Every field is optional. Text fields take any string. Read
  and write permissions must be one of three role names, and the comment permission one
  of five names. The update schema has neither a title nor a comment permission.

Modules:
- `JsValues` (js_values.dfy) holds the JavaScript semantics both parts rely on: values,
  truthiness, `||`, property access and `String.prototype.trim`.
- `Server` (server.dfy) models index.ts.
- `Schemas` (schemas.dfy) models utils/schemas.ts.

`parseConfig` builds its result object one conditional field assignment at a time. It is
therefore modelled as a method, `Server.ParseConfig`. That method is proved equal to the
function `Server.ParsedConfig`, which the pure outcome function `Server.PostOutcome` is
built on. The HTTP handler, a sequence of side-effecting steps, becomes the function
`Server.Resolve` from what `parseConfig` did to an `Outcome`.

The model follows the code in these points, where a reader might expect otherwise:
- There is no URL allow-list in index.ts, so none is modelled. Any URL from a header or
  the query parameter is served.
- A query parameter that fails to decode gives status 500 with code -32603, not a 400
  reply.
- The token precedence is not simply "header, then query, then environment". A URL
  header on its own also switches the query parameter off, so a token carried there is
  ignored (`Server.UrlHeaderAloneIgnoresQueryToken`).
- The stdio start-up checks the token only for emptiness, not after trimming.

## Model

| member | source | states |
|---|---|---|
| `JsValues.Or` | index.ts:107-108 | `a \|\| b` is truthy iff either operand is; it is `a` when `a` is truthy and `b` otherwise |
| `JsValues.GetProp` | index.ts:107-108 | reading a property throws exactly on `null` and `undefined`; on an object it yields the key's value when the key is present and `undefined` when it is not; on any other value it yields `undefined` |
| `JsValues.TrimStartDropsLeadingSpace` | index.ts:52-54 | trimming the start removes a prefix made only of white space, and what remains does not start with white space |
| `JsValues.TrimEndDropsTrailingSpace` | index.ts:52-54 | trimming the end removes a suffix made only of white space, and what remains does not end with white space |
| `JsValues.TrimDropsSpaceAtBothEnds` | index.ts:52-54 | `trim` returns an infix of the string, with white space only before and after it, that neither starts nor ends with white space |
| `JsValues.BlankIffAllSpace` | index.ts:52-54 | `s.trim().length === 0` holds exactly when every character of `s` is white space |
| `Server.EnvVar` | index.ts:107-108 | an environment variable reads as `undefined` exactly when it is unset, otherwise as its string |
| `Server.ErrorReply` | index.ts:111-118 | an error reply carries the status, `jsonrpc: "2.0"`, the given code and message, and `id: null` |
| `Server.HeaderConfig` | index.ts:52-64 | each header adds its key exactly when it is a string that is not blank, with the original untrimmed value; no other key is added |
| `Server.ParseConfig` | index.ts:45-82 | when a header contributes, the result is the header object whatever the query parameter holds; with no header and no non-blank query string it is the empty object; otherwise it is the decoded query value, unchanged; it throws only when decoding a non-blank query string throws; it equals `ParsedConfig` |
| `Server.EffectiveToken` | index.ts:107-108 | the token is the configuration's token when that is truthy, otherwise the environment's |
| `Server.EffectiveUrl` | index.ts:124-127 | the URL is always truthy: the configuration's URL if truthy, else a non-empty `HACKMD_API_URL`, else the default; `""` counts as absent at every stage |
| `Server.Resolve` | index.ts:101-153 | the only replies are the missing-token reply and the internal-error reply; the request is served exactly when the configuration was read without throwing and its effective token is a non-blank string, and then with a truthy URL; the internal error comes exactly when decoding throws, the configuration is `null` or `undefined`, or the effective token is truthy but not a string |
| `Server.PostOutcome` | index.ts:101-153 | the `POST` outcome for a request is one of the two error replies or serving; the internal error needs a non-blank query parameter and no contributing header; a non-blank token header is served untrimmed, with the URL header when that is non-blank (else the environment or default URL) |
| `Server.CatchReply` | index.ts:143-151 | the catch block writes the status-500, code -32603 reply exactly when headers have not been sent |
| `Server.HandleMcp` | index.ts:156-181 | `POST` is resolved as above; `GET` and `DELETE` get the fixed 405 reply |
| `Server.HeadersShadowQuery` | index.ts:66-69 | when either header contributes, neither the query parameter nor the decoder affects the outcome |
| `Server.UrlHeaderAloneIgnoresQueryToken` | index.ts:59-69 | with only the URL header contributing, the outcome uses the environment token (400 if that is unset or blank) and the header's URL, whatever the query parameter holds |
| `Server.TokenHeaderWins` | index.ts:52-57 | a non-blank token header is served untrimmed, whatever the query parameter and environment hold |
| `Server.QueryTokenBeatsEnvironment` | index.ts:72-78 | with no header, a decoded query object whose token is a non-blank string is served with that token, whatever the environment holds |
| `Server.EnvironmentTokenLast` | index.ts:107-119 | with no header and no usable query string, the environment token decides: 400 when it is unset or blank, otherwise serve it with the environment or default URL |
| `Server.WhitespaceQueryTokenShadowsEnvironment` | index.ts:107-119 | with no header, a decoded query object whose token is a non-empty string of white space alone yields the 400 reply, whatever its other keys and the environment hold |
| `Server.MissingTokenIff` | index.ts:110-119 | the 400 reply is given exactly when the configuration was read without an exception and the effective token is falsy or a blank string |
| `Server.UndecodableQueryIsInternalError` | index.ts:143-151 | a query parameter that fails to decode, or decodes to `null`, yields status 500 with code -32603 "Internal server error" and `id: null`, for any environment |
| `Server.NonStringTokenIsInternalError` | index.ts:107-110 | with no header, a decoded query object whose token is truthy but not a string (a number, `true`, an array, an object) makes `trim` throw, which yields the internal-error reply |
| `Server.QueryWithoutTokenUsesEnvironment` | index.ts:72-78 | with no header, a decoded query value other than `null`/`undefined` that has no token key (a number, a string, an array, an object without it) falls back to the environment token: 400 when that is unset or blank, otherwise it is served with the query value's URL, the environment URL or the default |
| `Server.ServedConfig` | index.ts:121-128 | a served configuration holds the effective token and the URL from the configuration, the environment or the default, in that order |
| `Server.GetAndDeleteRefused` | index.ts:156-181 | `GET` and `DELETE` yield 405 with code -32000 "Method not allowed." and `id: null`, independent of request and environment |
| `Server.HttpOnlyWhenRequested` | index.ts:185-198 | HTTP mode runs exactly when `TRANSPORT` is `"http"`; unset, empty or any other value runs stdio |
| `Server.StartUp` | index.ts:184-219 | HTTP mode exactly when `TRANSPORT` is `"http"`; otherwise exit with status 1 exactly when `HACKMD_API_TOKEN` is unset or empty, and else serve stdio with that token and the environment or default URL |
| `Server.HttpPort` | index.ts:22 | in HTTP mode the port is a non-empty `PORT`, otherwise 8081 |
| `Server.StdioStartUp` | index.ts:199-209 | in stdio mode an unset or empty token exits with status 1 before anything is built; otherwise the environment token is served with the environment or default URL |
| `Server.WhitespaceTokenStdioVersusHttp` | index.ts:185-209 | whatever the rest of the environment holds, a non-empty `HACKMD_API_TOKEN` of white space alone is served in stdio mode, but an HTTP request without its own configuration gets the 400 reply |
| `Schemas.ParseRole` | utils/schemas.ts:4-8 | an accepted role value is the string name of the returned role |
| `Schemas.ParseComment` | utils/schemas.ts:10-16 | an accepted comment value is the string name of the returned permission |
| `Schemas.ParseCreateNoteOptions` | utils/schemas.ts:18-48 | the creation schema accepts the input exactly when it is an object whose six fields are each missing or of their allowed form; an accepted input yields each field's string or parsed permission, and absent for a missing field |
| `Schemas.ParseUpdateNoteOptions` | utils/schemas.ts:50-69 | the update schema accepts the input exactly when it is an object whose four fields are each missing or of their allowed form; an accepted input yields each field's string or parsed role, and absent for a missing field |
| `Schemas.RoleRoundTrip` | utils/schemas.ts:4-8 | the role validator returns a role for its own name, and accepts a value exactly when it is one of `owner`, `signed_in`, `guest` |
| `Schemas.CommentRoundTrip` | utils/schemas.ts:10-16 | the comment validator returns a permission for its own name, and accepts a value exactly when it is one of `disabled`, `forbidden`, `owners`, `signed_in_users`, `everyone` |
| `Schemas.EmptyOptionsAccepted` | utils/schemas.ts:18-69 | every field is optional: the empty object is accepted by both schemas, with every field absent |
| `Schemas.CreateRejectsUnknownRole` | utils/schemas.ts:21-36 | a read or write permission that is not a role name rejects the creation input, whatever the other fields hold |
| `Schemas.CreateRejectsUnknownComment` | utils/schemas.ts:37-46 | a comment permission that is not one of the five names rejects the creation input |
| `Schemas.CreateAcceptsAnyText` | utils/schemas.ts:19-47 | title, content and permalink accept any string and are kept as given |
| `Schemas.CreateRoundTrip` | utils/schemas.ts:18-48 | validating the JSON object of any creation record gives that record back |
| `Schemas.UpdateRoundTrip` | utils/schemas.ts:50-69 | validating the JSON object of any update record gives that record back |
| `Schemas.CreateIgnoresOtherKeys` | utils/schemas.ts:18-48 | the creation schema neither checks nor keeps any key besides its six fields: adding one changes neither acceptance nor the result |
| `Schemas.UpdateIgnoresOtherKeys` | utils/schemas.ts:50-69 | the update schema neither checks nor keeps any key besides content, the two permissions and the permalink, so a title or comment permission changes nothing |
| `Schemas.UpdateOptionsAreCreateOptions` | utils/schemas.ts:52-67 | an input valid for update, with an acceptable title and comment permission, is valid for create, and both schemas agree on content, permissions and permalink |

## Left out

- The express application, CORS options, JSON body parsing and `app.listen` are HTTP
  plumbing. `StartUp` stops at the decision to listen on a port.
- Building the MCP server, the API client and the transport is left out, and so are the
  close handler, `server.connect` and `transport.handleRequest`. All of these are calls
  into the SDK. `Outcome.Serve` stands for all of them.
- `Server.Resolve`: exceptions thrown by the SDK calls after the hand-off are not
  modelled. The catch block's behaviour for them is stated on its own by
  `Server.CatchReply`.
- Base64 and JSON decoding are not modelled. They are the `Decoder` parameter, a
  function that returns the parsed value or `Threw`.
- `ConfigSchema.parse`: index.ts imports `ConfigSchema` from `./utils/schemas.js`, but
  this version of utils/schemas.ts exports no such schema, so its behaviour is unknown. It is taken as the identity on the resolved token and
  URL, so a truthy URL that is not a string is served as it is.
- utils/constants.ts is not part of this model. The header name `Hackmd-Api-Token` and
  the default URL `https://api.hackmd.io/v1` are assumed values. No property depends on
  them except through the text of the 400 message and the default URL being non-empty.
- The `.env` loading, console logging, the warning for an unknown `TRANSPORT` and the
  `process.exit` side effect are left out. Only the exit decision (`Exit(1)`) is modelled.
- The handler behind `main().catch` is left out, because what it catches comes from the
  SDK.
- HTTP methods other than GET, POST and DELETE are outside the three routes on `/mcp`.
  What express does with them is not in the source.
- JavaScript strings are UTF-16 code units. Here a string is a sequence of Unicode scalar
  values. JSON numbers are reals.
- The `.describe` texts of the schemas are metadata and are left out.
- The tool handlers under tools/ are left out. Each passes its arguments to one call of
  the HackMD API client and wraps the result or error message as text.
