# Remnawave n8n node: request dispatch

This project models the `execute` method of the Remnawave n8n node
(`nodes/Remnawave/Remnawave.node.ts`). The node turns each input record into one call to the
Remnawave user-management API and returns one output record per input. For each record it does four things:

- it reads the `action` parameter;
- it plans the request: the HTTP method, the absolute URL under the trimmed base URL, and an optional JSON body;
- it sends the request with the fixed bearer-token headers;
- on success it pushes the reply, unwrapping the device list for `getHWID`. On failure it rethrows a
  "User not found with …" or "API Error: …" message, which ends the whole batch.

Modules, one per concern:

- `Wrappers` (`wrappers.dfy`): `Option` and `Result`.
- `JsonValue` (`json.dfy`): JSON values, JavaScript truthiness and the object spread `{ ...v }`.
- `RemnawaveHost` (`host.dfy`): the host runtime as values. It covers the records' parameters, the
  credentials, the thrown error shape, and the foreign calls as total functions of a `Host` value:
  `JSON.parse`, the request helper, the missing-parameter error and template-literal conversion.
  Errors thrown by the host itself (a `SyntaxError` from `JSON.parse`, a missing parameter) are
  `HostError` values with no `statusCode`; only the request helper's errors can carry one.
- `RemnawavePlanner` (`planner.dfy`): actions, identifier types, base-URL trimming, headers and the
  per-action planner, with the route table and URL lemmas.
- `RemnawaveDispatch` (`dispatch.dfy`): the catch block's error messages and the `getHWID` reply unwrapping.
- `RemnawaveExecute` (`execute.dfy`): one loop iteration (`ExecuteItem`) and the batch as a
  specification function (`Run`). The loop itself is the method `Execute`, proved against `Run`.

The model follows the code as written, including these behaviours:

- `deleteUser` reads the parameter `deleteIdentifierValue`. The node never declares it; its field is
  named `identifierValue`. So on any record that carries only declared parameters, `deleteUser` fails
  with the host's missing-parameter error before a request exists (`DeleteUserReadsUndeclaredParameter`).
- The read of `action` sits outside the `try`, so its failure ends the batch unmapped (`Abort.Uncaught`).
- A `null` reply to `getHWID` makes `response.response` throw outside the `try` (`Abort.ResponseTypeError`).
- The envelope test uses JavaScript truthiness. An empty device array is unwrapped. A `null`, `0` or
  `""` device list falls back to the raw reply.

How errors and the listing behave in this code:

- A JSON parse failure and an unknown action are not separate error kinds. Both are thrown inside the
  `try` and come out as `"API Error: " + message`.
- Errors are not captured per record. The first error aborts the batch.
- The user listing has no pagination, and the rethrown message does not name the action.

## Model

| member | source | states |
|---|---|---|
| JsonValue.Spread | nodes/Remnawave/Remnawave.node.ts:201 | `{ ...v }` copies an object's fields unchanged. An array or a string gives exactly one field per index, keyed by the index's decimal spelling. null, booleans and numbers give `{}`. |
| JsonValue.IndexedFields | nodes/Remnawave/Remnawave.node.ts:230 | Spreading a sequence stores element k under key "k" and creates no other key. |
| JsonValue.DecimalStringInjective | nodes/Remnawave/Remnawave.node.ts:201 | Distinct indexes have distinct keys, so spreading an array loses no element. |
| RemnawaveHost.Param | nodes/Remnawave/Remnawave.node.ts:209-210 | `getNodeParameter(name, i)` yields the record's value exactly when the record has the parameter, and otherwise the host's error for that name. |
| RemnawaveHost.ParamOr | nodes/Remnawave/Remnawave.node.ts:197 | `getNodeParameter(name, i, fallback)` yields the fallback exactly when the parameter is absent. |
| RemnawaveHost.NodeError | nodes/Remnawave/Remnawave.node.ts:259 | An error the node raises itself carries no status code and carries the given message. |
| RemnawaveHost.Text | nodes/Remnawave/Remnawave.node.ts:212-214 | Interpolating a value read with `as string` leaves a string unchanged. |
| RemnawavePlanner.ParseAction | nodes/Remnawave/Remnawave.node.ts:195-258 | A value is the unknown action exactly when it matches none of the eight option values, and then the action keeps that value. |
| RemnawavePlanner.ParseActionInverse | nodes/Remnawave/Remnawave.node.ts:195-258 | Recognising an action loses nothing: the parameter value can be read back from the action. |
| RemnawavePlanner.ParseActionDeclared | nodes/Remnawave/Remnawave.node.ts:33-42 | Each declared option value is recognised as its own action. |
| RemnawavePlanner.TrimTrailingSlashes | nodes/Remnawave/Remnawave.node.ts:174 | The trimmed URL is a prefix of the input and does not end in `/`. Every character removed is a `/`. |
| RemnawavePlanner.TrimTrailingSlashesUnique | nodes/Remnawave/Remnawave.node.ts:174 | Any prefix with those properties is the trimmed URL: every trailing `/` is removed and nothing else. |
| RemnawavePlanner.TrimTrailingSlashesIdempotent | nodes/Remnawave/Remnawave.node.ts:174 | Trimming twice equals trimming once. |
| RemnawavePlanner.Headers | nodes/Remnawave/Remnawave.node.ts:177-180 | The headers are exactly `Authorization: Bearer <apiKey>` and `Content-Type: application/json`. |
| RemnawavePlanner.ParsedFields | nodes/Remnawave/Remnawave.node.ts:197-200 | `updateFields` (default `'{}'`) goes through `JSON.parse` exactly when it is a string. Otherwise it is taken as it is. |
| RemnawavePlanner.Plan | nodes/Remnawave/Remnawave.node.ts:194-260 | A planned request uses the route's method from the route table and the batch headers, under `apiUrl + "/"`. An unknown action throws `Unknown action: <action>` and plans no request. No error the planner throws carries a status code. |
| RemnawavePlanner.FirstMissing | nodes/Remnawave/Remnawave.node.ts:209-254 | The first name the record lacks: none exactly when all are present; otherwise a listed name the record lacks, with every name before it present. |
| RemnawavePlanner.PlanFailure | nodes/Remnawave/Remnawave.node.ts:194-260 | A recognised action fails exactly when it lacks a parameter it reads, and the error is the first one missing. Otherwise it fails exactly when `updateFields` does not parse for create/update. In every other case it yields a request. |
| RemnawavePlanner.PlanRoutes | nodes/Remnawave/Remnawave.node.ts:195-257 | Route table: createUser POST /users with the spread fields; getUsers GET /users; updateUser PATCH /users/{updateUuid} with the spread fields; deleteUser DELETE /users/{deleteIdentifierValue}; getHWID GET /hwid/devices/{userUuid}; deleteHWID POST /hwid/devices/delete with exactly `{userUuid, hwid}`; revokeSubscription POST /users/{revokeUuid}/actions/revoke with `{}`. getUsers, checkUser, deleteUser and getHWID send no body. |
| RemnawavePlanner.CheckUserRoutes | nodes/Remnawave/Remnawave.node.ts:208-216 | checkUser with type `uuid` requests exactly `apiUrl/users/{value}`. Every other identifier type requests `apiUrl/users/by-{type}/{value}`. Both requests are GET, and the error locals hold the type and the value. |
| RemnawavePlanner.ByPrefixOnlyForAlternateKeys | nodes/Remnawave/Remnawave.node.ts:212-214 | A uuid lookup never introduces `by-` unless the base URL or the value contains it. Every other type's URL contains `by-`. |
| RemnawavePlanner.FieldsTextOrValueAgree | nodes/Remnawave/Remnawave.node.ts:197-201 | `updateFields` as JSON text and as the value that text parses to plan the same request. |
| RemnawavePlanner.DeleteUserReadsUndeclaredParameter | nodes/Remnawave/Remnawave.node.ts:232-234 | A record with only declared parameters always fails `deleteUser` with the missing-parameter error for `deleteIdentifierValue`, and no request is planned. |
| RemnawaveDispatch.Detail | nodes/Remnawave/Remnawave.node.ts:279 | The fallback `error.message` or `error`: the message when it is non-empty, and otherwise the error's own text. |
| RemnawaveDispatch.ErrorMessage | nodes/Remnawave/Remnawave.node.ts:268-279 | A 404 on checkUser gives `User not found with {type}: {value}`. A 404 on updateUser, deleteUser or revokeSubscription gives `User not found with UUID: {value}`. Anything else gives exactly `API Error: ` plus the detail. The message starts with `API Error: ` if and only if it is not one of the two 404 cases. |
| RemnawaveDispatch.Normalize | nodes/Remnawave/Remnawave.node.ts:282-286 | Other actions pass the reply through. getHWID fails only on a null reply. A getHWID record differs from the reply only when it is the truthy `response.response.devices`. |
| RemnawaveDispatch.NormalizeUnwrapsDeviceList | nodes/Remnawave/Remnawave.node.ts:282-283 | A reply shaped `{response: {devices: d}}` with a truthy d, including any array, becomes d. |
| RemnawaveDispatch.NormalizeFallsBackToRawReply | nodes/Remnawave/Remnawave.node.ts:284-286 | A non-null getHWID reply without a truthy `response.devices` passes through unchanged. |
| RemnawaveExecute.ExecuteItem | nodes/Remnawave/Remnawave.node.ts:183-286 | A missing `action` ends the batch with the host's error, unmapped. Otherwise a request reaches the transport exactly when the plan succeeds, and it is the planned request, with the batch headers and a recognised action. A plan or transport failure ends the batch with the catch block's message for that error and the locals the plan had set. A successful reply is emitted as its normalised record, or it ends the batch with a TypeError when normalising fails. |
| RemnawaveExecute.InvalidInputSendsNothing | nodes/Remnawave/Remnawave.node.ts:194-279 | A recognised action whose record lacks a parameter it reads, or whose `updateFields` does not parse, sends nothing. Its message is `API Error: ` plus the host's message, never a "User not found" message. |
| RemnawaveExecute.Run | nodes/Remnawave/Remnawave.node.ts:182-288 | The batch never has more output records or requests than inputs. A batch that completes has one output per input. Every request sent carries the same headers. |
| RemnawaveExecute.Extend | nodes/Remnawave/Remnawave.node.ts:261-286 | One more record appends its request, if any, to the log. It then pushes its output record or records its error. |
| RemnawaveExecute.RunAbortPersists | nodes/Remnawave/Remnawave.node.ts:268-280 | Once a record has failed, the later records change nothing: the error aborts the batch. |
| RemnawaveExecute.RunInOrder | nodes/Remnawave/Remnawave.node.ts:182-288 | A completed batch has one output record per input, in input order. Record k is what input k emits after the requests before it. |
| RemnawaveExecute.UnknownActionSendsNothing | nodes/Remnawave/Remnawave.node.ts:258-261 | An unrecognised action sends no request and throws `API Error: Unknown action: <action>`. |
| RemnawaveExecute.UnknownActionStopsBatch | nodes/Remnawave/Remnawave.node.ts:258-280 | The batch ends at the first unrecognised action with that message, and the transport never sees a request for it. |
| RemnawaveExecute.Execute | nodes/Remnawave/Remnawave.node.ts:169-289 | The loop returns Run's output records when no record failed. Otherwise it returns the first record's error. The requests it hands to the transport are Run's log. Its loop body is the method `ProcessRecord`, split out so each proof stays small; it computes exactly `ExecuteItem`. |

## Left out

- The node's `description` metadata (display names, visibility rules) is not modelled. From it, only the action option values, the identifier-type option values and the declared parameter names are kept.
- `credentials/RemnawaveApi.credentials.ts` declares two fields and has no behaviour. The credentials are a read-only `{url, apiKey}` input.
- The n8n runtime and `async`/`await` are not modelled; they are foreign calls.
  - `getInputData` is the input sequence and `getCredentials` the `Credentials` value.
  - `getNodeParameter` is a lookup in each record's resolved parameter map. Absent names yield the host's error (`Host.missingParameter`).
  - `helpers.request` is `Host.transport`. Its reply may depend on every request sent earlier in the batch.
- `JSON.parse` is an abstract partial function (`Host.parse`).
- How a non-string value becomes text inside a template literal (JavaScript's `String`) is abstract (`Host.show`).
- The regular expression engine is not modelled. The trim is written directly over strings.
- JavaScript object key order is not modelled: objects are maps.
- JSON numbers are reals, with no NaN or Infinity.
- A transport reply of `undefined` is not modelled, because there is no `undefined` value. Only `null` stands for a missing reply.
- Properties inherited through prototypes are not modelled, for example a `response` key found on `Object.prototype`.
- Spreading a string splits it into Unicode characters, not UTF-16 code units.
- The request option `json: true` is the same on every call, so it is left implicit in `Request`.
- The headers object is shared by every request. The model compares it by value, not by identity.
- This node has no pagination (`start`/`size`), enable/disable/reset-traffic, delete-all-devices or list-all-devices routes, so the model has none either.
- Per-record error capture is not in this code, which rethrows and aborts the batch.
