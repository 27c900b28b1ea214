# Pay-demo admin list controller and response envelope, in Dafny

This project models two pieces of the Pay-demo payment application.

- **The admin context** (`frontend/contexts/admin-context.tsx`). It holds two server-backed lists: user pay configurations and system configurations. Each list has its own request-id counter. A refetch bumps the counter, sets `loading` and clears `error`. Its response is applied only if its captured id still equals the counter, so the last request issued wins. A failure of the current request clears `loading`. It is recorded in `error` unless the transport calls it a cancellation. A non-`Error` rejection becomes an `Error` with a fixed message. The create, update and delete wrappers await the transport mutation, then refetch. Only the update wrappers swallow a cancellation. The file also has the `useTableInteraction` hook: a select/deselect toggle keyed on `id || key`, plus a one-field edit-buffer update.
- **The response envelope** (`internal/util/response.go`). `Response[T]` has an `ErrorMsg` and a `Data` field. It is built by `OK`, `OKNil` and `Err`.

Layout:

- `wrappers.dfy`: `Option`.
- `response.dfy`, module `Response`: the envelope and its three constructors.
- `list_controller.dfy`, module `ListController`: one list resource as pure state transitions. `Issue` is the first half of a refetch. `Settle` is the arrival of a response. `Run` runs any trace of such events. The lemmas about traces cover the invariant, the counter, stale responses, last-issued-wins and cancellation silence. The mutation-wrapper policy is here too.
- `admin_context.dfy`, module `AdminContext`: the imperative side. `ListResource` is a class whose fields are the list, `loading`, `error` and the request-id ref. Its methods are proved to move its state exactly as `Issue` and `Settle` do. `AdminProvider` owns two `ListResource`s and exposes the source's refetch, create, update and delete operations. Each is proved to leave the other resource unchanged.
- `table_interaction.dfy`, module `TableInteraction`: the hook as a class with `hoveredItem`, `selectedItem`, `editData` and `saving`.

Async calls become explicit events. `Refetch` returns the request's id. The response is delivered later by `Resolve(id, data)` or `Reject(id, isCancel, thrown)`. The ghost set `pending` holds the ids still awaited, because a promise settles only once. The transport's list and mutation calls, and `isCancelError`, are not modelled. Their outcomes are method arguments.

## Model

| member | source | states |
|---|---|---|
| `Response.OK` | internal/util/response.go:41-43 | The payload is carried unchanged, the message is empty, and the response does not read as an error. |
| `Response.OKNil` | internal/util/response.go:46-48 | The payload is `nil` and the message is empty. |
| `Response.Err` | internal/util/response.go:51-53 | The message is carried unchanged and the payload is `nil`. It reads as an error exactly when the message is non-empty. |
| `Response.ErrDiffersFromOKNilOnlyByMessage` | internal/util/response.go:46-53 | `Err(msg)` equals `OKNil()` if and only if `msg` is empty. |
| `Response.OKOfNilIsOKNil` | internal/util/response.go:41-48 | `OK(nil)` at type `any` is the same value as `OKNil()`. |
| `ListController.Initial` | frontend/contexts/admin-context.tsx:106-117 | A resource starts with an empty list, not loading, no error, counter 0 and nothing pending. This state satisfies the invariant. |
| `ListController.Issue` | frontend/contexts/admin-context.tsx:123-127 | The counter rises by exactly one to a fresh id, which becomes pending. `loading` is set and `error` cleared at once. The list is kept. The invariant is preserved. |
| `ListController.Recorded` | frontend/contexts/admin-context.tsx:143 | An `Error` rejection is recorded as it is. Any other value is replaced by an `Error` with the resource's fixed message. |
| `ListController.Settle` | frontend/contexts/admin-context.tsx:128-146 | A response for a superseded id changes nothing observable. For the current id, `loading` is cleared. Success replaces the list wholesale. Failure keeps the list and sets `error` only when it is not a cancellation. The counter is unchanged and the invariant is preserved. |
| `ListController.RunPreservesValid` | frontend/contexts/admin-context.tsx:122-147 | Along any feasible trace of refetches and responses, these hold: every pending id was issued, `loading` holds exactly while the latest request is awaited, and no error is shown while loading. |
| `ListController.RunCountsIssues` | frontend/contexts/admin-context.tsx:116-123 | After any trace, the counter has risen by exactly the number of refetches issued. |
| `ListController.StaleResponsesInert` | frontend/contexts/admin-context.tsx:130-139 | Once the latest request has settled, late responses of older requests leave the list, `loading`, `error` and the counter unchanged. |
| `ListController.LatestRequestDecides` | frontend/contexts/admin-context.tsx:122-147 | While the latest request is awaited, the view stays loading, error-free and on the old list until that request's own response arrives. After it, the view is that response's resolution, whatever else arrives and in whatever order. |
| `ListController.LastIssuedWins` | frontend/contexts/admin-context.tsx:122-147 | After any history, a final refetch, and responses arriving in any order, the list, `loading` and `error` depend only on the list held at the final refetch and on how the final request settled. |
| `ListController.ArrivalOrderIrrelevant` | frontend/contexts/admin-context.tsx:122-147 | Two arrival orders in which the last request settles the same way end in the same view. |
| `ListController.CancellationsNeverRecorded` | frontend/contexts/admin-context.tsx:141-145 | Along any trace whose failures are all cancellations, an empty `error` stays empty. |
| `ListController.MutationThenRefetch` | frontend/contexts/admin-context.tsx:159-188 | A refetch follows only a successful mutation. The wrapper throws if and only if the mutation failed and it is not a cancellation caught by `update*`. What it throws is the mutation's own rejection. |
| `ListController.PoliciesDifferOnlyOnCancel` | frontend/contexts/admin-context.tsx:159-188 | The `update*` and `create*`/`delete*` wrappers behave differently exactly on a cancelled mutation. |
| `AdminContext.ListResource.constructor` | frontend/contexts/admin-context.tsx:106-117 | A new resource is in the initial state. |
| `AdminContext.ListResource.Refetch` | frontend/contexts/admin-context.tsx:123-127 | The fields move exactly as `Issue` says. The returned id is the new counter value. |
| `AdminContext.ListResource.Resolve` | frontend/contexts/admin-context.tsx:128-135 | The fields move exactly as `Settle` says for a success. |
| `AdminContext.ListResource.Reject` | frontend/contexts/admin-context.tsx:136-146 | The fields move exactly as `Settle` says for a failure. |
| `AdminContext.ListResource.MutateThenRefetch` | frontend/contexts/admin-context.tsx:159-188 | The wrapper settles as `MutationThenRefetch` says. The state moves as `Issue` when a refetch follows, and is untouched otherwise. |
| `AdminContext.AdminProvider.constructor` | frontend/contexts/admin-context.tsx:105-117 | Two distinct, fresh resources in the initial state, each with its own fallback message. |
| `AdminContext.AdminProvider.RefetchUserPayConfigs` | frontend/contexts/admin-context.tsx:122-127 | Issues a user-pay refetch. The system-config state is unchanged. |
| `AdminContext.AdminProvider.ResolveUserPayConfigs` | frontend/contexts/admin-context.tsx:128-135 | Delivers a user-pay success through `Settle`. The system-config state is unchanged. |
| `AdminContext.AdminProvider.RejectUserPayConfigs` | frontend/contexts/admin-context.tsx:136-146 | Delivers a user-pay failure through `Settle`, with the fixed message for non-`Error` values. The system-config state is unchanged. |
| `AdminContext.AdminProvider.CreateUserPayConfig` | frontend/contexts/admin-context.tsx:152-161 | On success, a user-pay refetch is issued. Any failure, cancellation included, is rethrown with no refetch and no state change. |
| `AdminContext.AdminProvider.UpdateUserPayConfig` | frontend/contexts/admin-context.tsx:166-181 | On success, a refetch is issued. A cancellation resolves silently. Any other failure is rethrown. No refetch follows a failure. |
| `AdminContext.AdminProvider.DeleteUserPayConfig` | frontend/contexts/admin-context.tsx:186-189 | On success, a refetch is issued. Any failure is rethrown with no refetch. |
| `AdminContext.AdminProvider.RefetchSystemConfigs` | frontend/contexts/admin-context.tsx:194-199 | Issues a system-config refetch. The user-pay state is unchanged. |
| `AdminContext.AdminProvider.ResolveSystemConfigs` | frontend/contexts/admin-context.tsx:200-207 | Delivers a system-config success through `Settle`. The user-pay state is unchanged. |
| `AdminContext.AdminProvider.RejectSystemConfigs` | frontend/contexts/admin-context.tsx:208-218 | Delivers a system-config failure through `Settle`. The user-pay state is unchanged. |
| `AdminContext.AdminProvider.UpdateSystemConfig` | frontend/contexts/admin-context.tsx:224-237 | On success, a refetch is issued. A cancellation resolves silently. Any other failure is rethrown. |
| `AdminContext.AdminProvider.DeleteSystemConfig` | frontend/contexts/admin-context.tsx:242-245 | On success, a refetch is issued. Any failure is rethrown with no refetch. |
| `AdminContext.SupersededResponseDropped` | frontend/contexts/admin-context.tsx:122-135 | Two overlapping user-pay refetches answered newest first: the late older response is dropped and the list is the newer one's. |
| `TableInteraction.Identity` | frontend/contexts/admin-context.tsx:22-23 | With no row the identity is `undefined`. It is the number `n` exactly when the row's id is `n` and `n` is not 0. Otherwise it is the row's key when it has one (the empty string included), else `undefined`. |
| `TableInteraction.NextSelection` | frontend/contexts/admin-context.tsx:25-31 | The selection is cleared exactly when the clicked row's identity strictly equals the selection's; otherwise the clicked row is selected. Clicking the selected row always deselects it. |
| `TableInteraction.ZeroIdFallsBackToKey` | frontend/contexts/admin-context.tsx:22-23 | An id of 0 is passed over exactly like a missing id. A non-zero id is the identity. |
| `TableInteraction.SelectFromEmpty` | frontend/contexts/admin-context.tsx:22-31 | With nothing selected, a click selects its row exactly when the row has an identity (a truthy id, or a key). |
| `TableInteraction.TableInteraction.constructor` | frontend/contexts/admin-context.tsx:11-15 | Nothing hovered or selected, an empty edit buffer, not saving. |
| `TableInteraction.TableInteraction.HandleHover` | frontend/contexts/admin-context.tsx:17-19 | The hovered row becomes the argument. |
| `TableInteraction.TableInteraction.HandleSelect` | frontend/contexts/admin-context.tsx:21-33 | The selection follows `NextSelection`. Deselecting empties the edit buffer. Selecting fills it from `getInitialEditData(item)`. Hover is cleared. |
| `TableInteraction.TableInteraction.HandleEditDataChange` | frontend/contexts/admin-context.tsx:35-40 | The named field takes the value. Every other field keeps its value, and no other field is added. |
| `TableInteraction.TableInteraction.SetEditData` | frontend/contexts/admin-context.tsx:14 | The edit buffer is replaced. |
| `TableInteraction.TableInteraction.SetSaving` | frontend/contexts/admin-context.tsx:15 | `saving` takes the value. |

## Left out

- The transport (`services.admin.*`) and `isCancelError` are outside this model. A list response is an argument of `Resolve`/`Reject`. A mutation's outcome is an argument of the wrapper. The mutation payloads, ids and keys are only forwarded to the transport, so the wrappers do not take them.
- Real async scheduling is replaced by explicit events on one thread. A wrapper's own promise settles only after its trailing refetch does. The model returns that settlement together with the refetch's id, because the refetch never throws.
- React plumbing is left out: `useState`, `useRef`, `useCallback`, batching of state updates, the context object, and `useAdmin`'s provider check. State updates take effect immediately in the model.
- `console.error` logging is left out.
- Error identity is simplified. An `Error` is modelled by its message, so a freshly made `Error` is not distinguished from another with the same message.
- TableInteraction.TableInteraction.HandleSelect: the `getInitialEditData` callback is taken as fixed when the hook is created, whereas the hook uses whichever callback the current render passes in.
- Numbers are integers. A `NaN` id, which is also falsy, is not modelled.
- The JSON encoding of the envelope (`error_msg`, `data`) and the Swagger-only `ResponseAny` type are left out. They are serialisation and documentation, not behaviour.
- The paginated transaction controller is not part of this model. Its code is in `contexts/transaction-context`, which is not modelled. The same goes for the landing page, the loading animation, the balance table, the payment-link GORM model and the user service type declarations. These are presentation, database I/O or type declarations only.
