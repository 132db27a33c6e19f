# EmbedAI admin console — verified model of its client-side core

This Dafny project models the logic of the EmbedAI admin console's web
client that is not rendering: the service facade with its response
interceptor, header builder, document-list URL and lazily built singleton;
the persisted authentication store; the bulk user operations bar, which
covers selection, menu availability, confirmation, the batch run and its
progress reporting; the members dialog and the create/edit dialog of a
knowledge base; and the documents page of a knowledge base, which covers
filters, paging, the list request, and the save and delete handlers.

Modules follow the program's files:

| module | file | models |
|---|---|---|
| `Types` | `types.dfy` | the records of `src/services/types.ts` the core uses |
| `Text` | `text.dfy` | `${n}` rendering of integers and `k=v&k=v` query strings, each with its parser |
| `Arith` | `arith.dfy` | multiplication and Euclidean-division facts the proofs need |
| `AuthStore` | `auth_store.dfy` | `src/stores/authStore.ts` |
| `AdminService` | `admin_service.dfy` | `src/services/admin.ts` |
| `ProgressRegistry` | `progress_registry.dfy` | the progress-notification registry the batch reports to |
| `BulkUserOperations` | `bulk_user_operations.dfy` | `src/features/users/components/bulk-user-operations.tsx` |
| `KnowledgeBaseUsersDialog` | `kb_users_dialog.dfy` | `src/features/knowledge-bases/components/knowledge-base-users-dialog.tsx` |
| `KnowledgeBaseEditDialog` | `kb_edit_dialog.dfy` | `src/features/knowledge-bases/components/knowledge-base-edit-dialog.tsx` |
| `DocumentsPage` | `documents_page.dfy` | `src/features/knowledge-bases/documents/index.tsx` |

Each module is built the same way:

- Component state and stores become classes whose methods change their fields and state the whole new state.
- The pure parts of the source become functions.
- Lemmas relate these functions to each other and to the state.

Per-user outcomes of a batch, how a service call settles, and the
environment variable are inputs of the model. The redirect, the toasts, the
notices and the calls made are recorded in fields.

Modelling decisions:

- **Progress registry.** The registry's own code is not part of this model. It is modelled as a map from token to entry, with guarded semantics:
  - `update`, `complete` and `error` on an entry that has left `loading`, or on an unknown token, change nothing;
  - every call is logged in order.
- **Batch order.** The batch follows `Promise.all` in list order. The rejection that ends it is the first failure in the list. The progress updates of the calls that resolved come before the terminal call.
- **Progress counts resolved calls.** Each `update` reports how many calls have resolved so far, itself included, rather than the list index of the call that sent it (see "## Findings"). With list-order settlement and no failures the two agree.
- **Two bugs.** `getHeaders` and the 401/403 branches of the interceptor read keys the auth store's root state does not have (see "## Findings"). The rest of the model uses the corrected reading, which is the `auth` slice: `GetHeaders` takes the session token and `HandleResponseError` resets `auth`.
- **The "all" item.** The document-type select's "all" item has the value `''`, which the page stores as it is. It is `AllTypes` here, distinct from "no type chosen".
- **Form resets.** `reset(values)` of the edit form replaces both the values and the defaults, and `reset()` goes back to the defaults. So after a successful submit the form shows the synced knowledge base again, not a blank form.

## Model

| member | source | states |
|---|---|---|
| Text.ShowNat | src/services/admin.ts:273 | the decimal text of a natural number is non-empty, all digits, and has no leading zero |
| Text.ShowInt | src/services/admin.ts:273 | `${i}` is non-empty and made of digits and a minus sign only |
| Text.ParseShowNat | src/services/admin.ts:273 | reading the digits back gives the number written |
| Text.ParseShowInt | src/services/admin.ts:273 | reading `${i}` back gives `i`, negative numbers included |
| Text.SplitJoin | src/services/admin.ts:273 | splitting on a separator undoes joining pieces that do not contain it |
| Text.QueryRoundTrip | src/services/admin.ts:273 | parsing a `k=v&...` query string gives back its parameters in order when no key or value contains `&` or `=` |
| Text.ShowIntQuerySafe | src/services/admin.ts:273 | an interpolated integer never contains `&` or `=` |
| AuthStore.InitialState | src/stores/authStore.ts:24-30 | the store starts with no user and an empty token |
| AuthStore.WithUser | src/stores/authStore.ts:27-28 | `setUser` replaces the user and keeps the token |
| AuthStore.WithAccessToken | src/stores/authStore.ts:30-31 | `setAccessToken` replaces the token and keeps the user |
| AuthStore.AfterResetAccessToken | src/stores/authStore.ts:32-36 | `resetAccessToken` clears the user as well as the token, back to the initial state |
| AuthStore.AfterReset | src/stores/authStore.ts:37-41 | `reset` returns the slice to the initial state |
| AuthStore.PartializeKeepsEverything | src/stores/authStore.ts:48-53 | `Partialize` keeps both fields, `Restore` of it gives the state back, and re-projecting changes nothing |
| AuthStore.ResetLaws | src/stores/authStore.ts:32-41 | `reset` is idempotent and `resetAccessToken` has the same effect |
| AuthStore.SettersCommute | src/stores/authStore.ts:27-41 | the two setters commute, and a reset erases what either wrote |
| AuthStore.Store.constructor | src/stores/authStore.ts:24-30 | a new store is in the initial state |
| AuthStore.Store.SetUser | src/stores/authStore.ts:27-28 | the new state is `WithUser` of the old one |
| AuthStore.Store.SetAccessToken | src/stores/authStore.ts:30-31 | the new state is `WithAccessToken` of the old one |
| AuthStore.Store.ResetAccessToken | src/stores/authStore.ts:32-36 | the new state is `AfterResetAccessToken` of the old one |
| AuthStore.Store.Reset | src/stores/authStore.ts:37-41 | the new state is `AfterReset` of the old one |
| AdminService.Classify | src/services/admin.ts:39-96 | a session reset exactly for 401/403, and always with a redirect to `/sign-in`; every other case is one destructive toast, and without a response it is the network-error or request-error toast depending on whether a request went out |
| AdminService.ServerMessagePolicy | src/services/admin.ts:58-81 | a 422 quotes the server message as it is; a 500 shows the fixed server-error title and text "服务器错误" / "服务器发生错误，请稍后重试" whatever the server sent; any other status quotes it unless it is missing or empty, with the fallback text otherwise |
| AdminService.NoResponsePolicy | src/services/admin.ts:82-96 | without a response, the network toast has a fixed text and the request-error toast carries the error's own message |
| AdminService.HandleResponseError | src/services/admin.ts:39-98 | always rejects with the error it got; on 401/403 it resets the auth slice and moves to `/sign-in` with no toast; otherwise it adds exactly the classified toast and changes nothing else |
| AdminService.Headers | src/services/admin.ts:109-118 | always a JSON content type; an `Authorization: Bearer <token>` header exactly when the token is neither undefined nor empty, and the token can be read back from it |
| AdminService.GetHeaders | src/services/admin.ts:109-118 | building the header dictionary by insertion gives exactly `Headers(token)` |
| AdminService.HeadersAsWrittenNeverAuthorize | src/services/admin.ts:113-116 | as written (`TokenAsWritten`, the undefined `getState().accessToken`), no state yields an authorization header; reading the `auth` slice's token (`SessionToken`) yields one for every signed-in session |
| AdminService.ClassifyAsWritten | src/services/admin.ts:47-57 | as written, the handler throws exactly on 401/403 |
| AdminService.UnauthorizedAsWrittenNeverSignsOut | src/services/admin.ts:47-57 | as written, a 401/403 throws where the intended handler resets the session and redirects; on every other error the two agree |
| AdminService.BaseUrl | src/services/admin.ts:27 | the environment's base URL unless it is missing or empty, else `http://localhost:8000`, and never empty |
| AdminService.DocumentsUrlCarries | src/services/admin.ts:268-277 | `DocumentsUrl`, built from `DocumentsParams`, is the base URL, the path and a query string that parses back to exactly `knowledge_base_id`, `skip` and `limit`, in that order, with the query's values, and with `skip` defaulting to 0 and `limit` to 10 |
| AdminService.Service.constructor | src/services/admin.ts:33-37 | a new service takes the base URL and installs one more response interceptor |
| AdminService.ServiceSingleton.GetInstance | src/services/admin.ts:102-107 | the first call creates and keeps the instance; later calls return the same one and install nothing, so there is only ever one interceptor |
| ProgressRegistry.Apply | src/features/users/components/bulk-user-operations.tsx:120-142 | on a loading entry, `update` sets the progress and text and keeps it loading; `complete` and `error` end it with their title and text; an ended entry never changes |
| ProgressRegistry.ReplaySnoc | src/features/users/components/bulk-user-operations.tsx:120-142 | replaying one more call applies it to the replayed entry |
| ProgressRegistry.ReplayAppend | src/features/users/components/bulk-user-operations.tsx:120-142 | replaying two runs of calls is replaying one after the other |
| ProgressRegistry.TerminalIsFinal | src/features/users/components/bulk-user-operations.tsx:131-142 | once an entry has ended, no later call changes it |
| ProgressRegistry.UpdatesKeepLoading | src/features/users/components/bulk-user-operations.tsx:120-123 | updates alone keep an entry loading, with its title |
| ProgressRegistry.UpdatesShowLastProgress | src/features/users/components/bulk-user-operations.tsx:119-123 | after updates the entry shows the last update's progress |
| ProgressRegistry.Registry.Add | src/features/users/components/bulk-user-operations.tsx:85-90 | a new entry under a never-used token, and the call is logged |
| ProgressRegistry.Registry.Perform | src/features/users/components/bulk-user-operations.tsx:120-142 | the named entry becomes `Apply` of itself, an unknown token changes nothing, and the call is logged |
| ProgressRegistry.Registry.Update | src/features/users/components/bulk-user-operations.tsx:120-123 | `Perform` of an update call |
| ProgressRegistry.Registry.Complete | src/features/users/components/bulk-user-operations.tsx:131-134 | `Perform` of a complete call |
| ProgressRegistry.Registry.Error | src/features/users/components/bulk-user-operations.tsx:139-142 | `Perform` of an error call |
| BulkUserOperations.Ids | src/features/users/components/bulk-user-operations.tsx:205 | the ids of the listed users, one per user, in order |
| BulkUserOperations.SelectedUserObjects | src/features/users/components/bulk-user-operations.tsx:68 | a user is kept exactly when listed and selected, and the result is no longer than the list |
| BulkUserOperations.SelectedEveryone | src/features/users/components/bulk-user-operations.tsx:68 | the filter keeps the whole list exactly when every listed id is selected |
| BulkUserOperations.CheckboxStates | src/features/users/components/bulk-user-operations.tsx:69-70 | the header checkbox is never both checked (`AllSelected`: a non-empty list and as many selected as listed) and indeterminate (`SomeSelected`: some but fewer selected); it is one of them exactly when 0 < selected ≤ listed |
| BulkUserOperations.AllSelectedMeansEveryone | src/features/users/components/bulk-user-operations.tsx:68-69 | for a duplicate-free selection of listed ids, the count-based checked state holds exactly when every listed user is selected |
| BulkUserOperations.SelectAllToggle | src/features/users/components/bulk-user-operations.tsx:201-207 | `SelectAllToggled` clears a checked selection; otherwise it selects every listed id, which designates every listed user and checks the box |
| BulkUserOperations.CallFor | src/features/users/components/bulk-user-operations.tsx:95-113 | the call for an id names that id |
| BulkUserOperations.CallForOneToOne | src/features/users/components/bulk-user-operations.tsx:95-113 | operations and per-id service calls are in one-to-one correspondence |
| BulkUserOperations.Dispatched | src/features/users/components/bulk-user-operations.tsx:93-116 | one call per id, in order, each the operation's call for that id |
| BulkUserOperations.Any | src/features/users/components/bulk-user-operations.tsx:265-271 | `some` holds exactly when some element satisfies the predicate |
| BulkUserOperations.Availability | src/features/users/components/bulk-user-operations.tsx:262-277 | reset-keys and delete are always offered; the others exactly when some listed, selected user does not already have the flag they set |
| BulkUserOperations.AvailabilityIgnoresUnlisted | src/features/users/components/bulk-user-operations.tsx:262-277 | selecting an id that is not listed never changes availability |
| BulkUserOperations.PendingFor | src/features/users/components/bulk-user-operations.tsx:219-249 | the pending operation carries the operation chosen |
| BulkUserOperations.OperationNamesDistinct | src/features/users/components/bulk-user-operations.tsx:75-82 | every operation has a non-empty name (`OperationName`) of its own, so the entry and notice texts name the operation run |
| BulkUserOperations.Progress | src/features/users/components/bulk-user-operations.tsx:119 | the percentage after `index`+1 of `n` is between 0 and 100, is 100 when all `n` are counted, and is (index+1)/n·100 rounded half up |
| BulkUserOperations.ProgressMonotone | src/features/users/components/bulk-user-operations.tsx:119 | the percentage never decreases as the count grows |
| BulkUserOperations.StartEntry | src/features/users/components/bulk-user-operations.tsx:85-90 | the entry a batch creates is loading at 0%, titled with the operation's name |
| BulkUserOperations.ItemCalls | src/features/users/components/bulk-user-operations.tsx:118-123 | a resolved call reports one update, counting itself after `done` others, with the progress `Progress(done, n)` and the text `ProgressText` "processed done+1/n"; a rejected call reports none |
| BulkUserOperations.ProgressCalls | src/features/users/components/bulk-user-operations.tsx:93-126 | the batch's reports are all updates of its own entry with progress between 0 and 100, at most one per item |
| BulkUserOperations.CountSucceeded | src/features/users/components/bulk-user-operations.tsx:118-123 | the number of resolved calls is at most the batch size, and equals it when all resolve |
| BulkUserOperations.CountUpdates | src/features/users/components/bulk-user-operations.tsx:118-123 | the reference report sequence after m of n calls resolved: the k-th update says k+1 of n |
| BulkUserOperations.ProgressCallsCount | src/features/users/components/bulk-user-operations.tsx:93-126 | the batch's updates are exactly `CountUpdates` for the number of resolved calls, so they depend on that number only |
| BulkUserOperations.CountedProgressMonotone | src/features/users/components/bulk-user-operations.tsx:118-123 | counted progress never goes backwards and, once all n calls resolved, ends at 100, whatever order they settle in |
| BulkUserOperations.IndexUpdates | src/features/users/components/bulk-user-operations.tsx:118-123 | as written: the k-th update in settlement order reports the list index of the call that settled k-th |
| BulkUserOperations.IndexProgressCanRegress | src/features/users/components/bulk-user-operations.tsx:119 | as written, two calls of which the second resolves first report 100 then 50, and with a registry whose `complete` keeps the last progress a successful batch completes at 50; counting reports 50 then 100 |
| BulkUserOperations.OneUpdatePerSuccess | src/features/users/components/bulk-user-operations.tsx:118-123 | there is exactly one update per resolved call, so one per item when all resolve |
| BulkUserOperations.FirstFailure | src/features/users/components/bulk-user-operations.tsx:128-137 | there is no failure exactly when every call resolved; otherwise it is the reason of a failed item before which everything resolved |
| BulkUserOperations.TerminalCall | src/features/users/components/bulk-user-operations.tsx:130-142 | the entry is ended on its own token: by `complete` titled "批量操作完成" exactly when every call resolved, otherwise by `error` titled "批量操作失败" with the first failure's `FailureText` |
| BulkUserOperations.FailureText | src/features/users/components/bulk-user-operations.tsx:141 | the message of a thrown `Error`, and "操作失败" for anything else thrown |
| BulkUserOperations.BatchResultOf | src/features/users/components/bulk-user-operations.tsx:128-144 | the batch resolves exactly when every call resolved |
| BulkUserOperations.BatchProtocol | src/features/users/components/bulk-user-operations.tsx:85-142 | `BatchCalls` creates one entry (`StartEntry`), first, ends it once, last, and in between only updates it, once per resolved call |
| BulkUserOperations.BatchOutcome | src/features/users/components/bulk-user-operations.tsx:85-142 | the `FinalEntry` ends `success` exactly when every call resolved and `error` otherwise; the reported progress never goes backwards, and a non-empty batch that succeeds ends at 100 (with progress counted, see "## Findings") |
| BulkUserOperations.BatchProgress | src/features/users/components/bulk-user-operations.tsx:118-123 | the updates of a batch are non-decreasing, and n of them ending at 100 when all n calls resolve |
| BulkUserOperations.ReportItem | src/features/users/components/bulk-user-operations.tsx:118-123 | the registry takes exactly the item's reports |
| BulkUserOperations.DispatchAll | src/features/users/components/bulk-user-operations.tsx:93-126 | the loop, keeping the resolved count `done`, dispatches `Dispatched(op, ids)`, logs exactly `ProgressCalls` and leaves the entry at their replay |
| BulkUserOperations.Settle | src/features/users/components/bulk-user-operations.tsx:128-144 | the terminal call is `TerminalCall` and the result is `BatchResultOf` |
| BulkUserOperations.RunBatch | src/features/users/components/bulk-user-operations.tsx:74-145 | the registry log grows by exactly `BatchCalls` under a new token, the new entry is `FinalEntry`, the dispatched calls are `Dispatched`, and the result is `BatchResultOf` |
| BulkUserOperations.Panel.constructor | src/features/users/components/bulk-user-operations.tsx:61-66 | the dialog is closed and nothing is pending |
| BulkUserOperations.Panel.HandleSelectAll | src/features/users/components/bulk-user-operations.tsx:201-207 | the selection becomes `SelectAllToggled` and nothing else changes |
| BulkUserOperations.Panel.ClearSelection | src/features/users/components/bulk-user-operations.tsx:367 | the selection becomes empty and nothing else changes |
| BulkUserOperations.Panel.HandleBulkOperation | src/features/users/components/bulk-user-operations.tsx:209-251 | with nothing selected, only the "select users" toast; otherwise the operation is pending with its texts and the dialog opens |
| BulkUserOperations.Panel.OnSuccess | src/features/users/components/bulk-user-operations.tsx:146-175 | a `SuccessNotice`, the selection cleared, the parent told, the dialog closed |
| BulkUserOperations.SuccessNotice | src/features/users/components/bulk-user-operations.tsx:157-169 | a success notice, not persistent, with the "查看用户列表" action |
| BulkUserOperations.Panel.OnError | src/features/users/components/bulk-user-operations.tsx:176-198 | an `ErrorNotice`, the dialog closed, the selection kept |
| BulkUserOperations.ErrorNotice | src/features/users/components/bulk-user-operations.tsx:178-195 | an error notice, persistent, with the "重试" action, carrying a thrown `Error`'s message and "操作失败，请稍后重试" otherwise |
| BulkUserOperations.Panel.ConfirmOperation | src/features/users/components/bulk-user-operations.tsx:253-260 | with nothing pending, nothing changes (dispatch, registry calls and entries, selection, notices, completions, dialog); otherwise one batch over the selection under a new token, the registry log grows by exactly `BatchCalls` and the entry becomes `FinalEntry`, then the `onSuccess` path when every call resolved and the `onError` path with the first failure otherwise |
| KnowledgeBaseUsersDialog.PermissionColorDistinguishes | src/features/knowledge-bases/components/knowledge-base-users-dialog.tsx:56-69 | `PermissionColor` gives each permission its own badge, none destructive or outlined, and only the owner's is `success` |
| KnowledgeBaseUsersDialog.PermissionLabelDistinguishes | src/features/knowledge-bases/components/knowledge-base-users-dialog.tsx:123-126 | the badge labels (`PermissionLabel`) tell the permissions apart |
| KnowledgeBaseUsersDialog.GrantableIsAllButOwner | src/features/knowledge-bases/components/knowledge-base-users-dialog.tsx:91-93 | the selects offer exactly the three non-owner permissions, each once |
| KnowledgeBaseUsersDialog.UpdateRequest | src/features/knowledge-bases/components/knowledge-base-users-dialog.tsx:112-134 | a row's select calls `onUpdatePermission` with the row's user and choice exactly when the row is not an owner and the choice is offered |
| KnowledgeBaseUsersDialog.RemoveRequest | src/features/knowledge-bases/components/knowledge-base-users-dialog.tsx:140-148 | a row can call `onRemoveUser` with its user exactly when it is not an owner |
| KnowledgeBaseUsersDialog.OwnerIsProtected | src/features/knowledge-bases/components/knowledge-base-users-dialog.tsx:117-140 | no row request touches an owner or grants ownership |
| KnowledgeBaseUsersDialog.InitialForm | src/features/knowledge-bases/components/knowledge-base-users-dialog.tsx:46-47 | the add form starts with an empty email and VIEWER |
| KnowledgeBaseUsersDialog.AddUser | src/features/knowledge-bases/components/knowledge-base-users-dialog.tsx:49-54 | an empty email does nothing; otherwise one `onAddUser` call, with the form reset only if it resolves |
| KnowledgeBaseUsersDialog.AddUserTwice | src/features/knowledge-bases/components/knowledge-base-users-dialog.tsx:49-54 | a second press after a successful add sends nothing; after a failed one it resends the same request |
| KnowledgeBaseUsersDialog.AddKeepsGrantable | src/features/knowledge-bases/components/knowledge-base-users-dialog.tsx:47-54 | the form only ever holds a grantable permission, and every add request has a non-empty email and a grantable permission |
| KnowledgeBaseUsersDialog.UsersDialog.constructor | src/features/knowledge-bases/components/knowledge-base-users-dialog.tsx:46-47 | the dialog starts with the initial form and no calls |
| KnowledgeBaseUsersDialog.UsersDialog.SetEmail | src/features/knowledge-bases/components/knowledge-base-users-dialog.tsx:81 | only the email changes |
| KnowledgeBaseUsersDialog.UsersDialog.ChoosePermission | src/features/knowledge-bases/components/knowledge-base-users-dialog.tsx:83-95 | only the permission changes, to one the select offers |
| KnowledgeBaseUsersDialog.UsersDialog.HandleAddUser | src/features/knowledge-bases/components/knowledge-base-users-dialog.tsx:49-54 | the calls and the form become what `AddUser` says |
| KnowledgeBaseUsersDialog.UsersDialog.ChangePermission | src/features/knowledge-bases/components/knowledge-base-users-dialog.tsx:112-117 | the call made is `UpdateRequest`'s, if any, and the form is untouched |
| KnowledgeBaseUsersDialog.UsersDialog.Remove | src/features/knowledge-bases/components/knowledge-base-users-dialog.tsx:140-148 | the call made is `RemoveRequest`'s, if any, and the form is untouched |
| KnowledgeBaseEditDialog.Validate | src/features/knowledge-bases/components/knowledge-base-edit-dialog.tsx:24-27 | accepted exactly when the name has at least one character; a rejection names the field and gives the "enter a name" message |
| KnowledgeBaseEditDialog.DescriptionIsFree | src/features/knowledge-bases/components/knowledge-base-edit-dialog.tsx:26 | the description, present or absent, never changes the verdict |
| KnowledgeBaseEditDialog.DefaultValues | src/features/knowledge-bases/components/knowledge-base-edit-dialog.tsx:46-49 | the defaults are an empty name and an empty description |
| KnowledgeBaseEditDialog.ValuesFor | src/features/knowledge-bases/components/knowledge-base-edit-dialog.tsx:52-64 | with a knowledge base, its name and its description or `''`; without one, the empty values; the description is always present |
| KnowledgeBaseEditDialog.FilledFormValidity | src/features/knowledge-bases/components/knowledge-base-edit-dialog.tsx:24-64 | the blank form is rejected; a synced form is accepted exactly when the knowledge base has a name |
| KnowledgeBaseEditDialog.LabelsAgree | src/features/knowledge-bases/components/knowledge-base-edit-dialog.tsx:76-113 | `Title` and `SubmitLabel` both read edit/save with a knowledge base and both read create without one |
| KnowledgeBaseEditDialog.ResetTo | src/features/knowledge-bases/components/knowledge-base-edit-dialog.tsx:54-62 | `reset(values)` sets both the values and the defaults |
| KnowledgeBaseEditDialog.ResetToDefaults | src/features/knowledge-bases/components/knowledge-base-edit-dialog.tsx:68 | `reset()` puts the defaults back and keeps them |
| KnowledgeBaseEditDialog.Submit | src/features/knowledge-bases/components/knowledge-base-edit-dialog.tsx:66-69 | `onSubmit` gets the current values exactly when they are accepted, and the form is reset only when it resolves |
| KnowledgeBaseEditDialog.SubmitAfterSync | src/features/knowledge-bases/components/knowledge-base-edit-dialog.tsx:52-69 | after a sync, a successful submit brings the form back to the knowledge base's values; a failed one keeps what was typed |
| KnowledgeBaseEditDialog.SyncIdempotent | src/features/knowledge-bases/components/knowledge-base-edit-dialog.tsx:52-64 | running the effect twice is running it once |
| KnowledgeBaseEditDialog.EditForm.constructor | src/features/knowledge-bases/components/knowledge-base-edit-dialog.tsx:44-50 | values and defaults start at the default values |
| KnowledgeBaseEditDialog.EditForm.SyncWithKnowledgeBase | src/features/knowledge-bases/components/knowledge-base-edit-dialog.tsx:52-64 | the form becomes `ResetTo(ValuesFor(kb))` |
| KnowledgeBaseEditDialog.EditForm.SetName | src/features/knowledge-bases/components/knowledge-base-edit-dialog.tsx:81-93 | only the name value changes |
| KnowledgeBaseEditDialog.EditForm.SetDescription | src/features/knowledge-bases/components/knowledge-base-edit-dialog.tsx:94-110 | only the description value changes |
| KnowledgeBaseEditDialog.EditForm.HandleSubmit | src/features/knowledge-bases/components/knowledge-base-edit-dialog.tsx:66-80 | returns the schema's verdict, hands the values to `onSubmit` only when they are accepted, and leaves the state `Submit` says |
| DocumentsPage.InitialSearch | src/features/knowledge-bases/documents/index.tsx:41-44 | the filters start with an empty title and no type |
| DocumentsPage.RequestFor | src/features/knowledge-bases/documents/index.tsx:61-68 | the request carries the page's knowledge base, `limit` = page size and the type as chosen, and sends the title only when it is non-empty |
| DocumentsPage.PagesTile | src/features/knowledge-bases/documents/index.tsx:64-65 | page 1 starts at 0; each page's window starts where the previous one ends; `skip` is a multiple of the size from which the page can be recovered |
| DocumentsPage.ForwardedQuery | src/services/admin.ts:268-271 | `getDocuments` keeps the knowledge base id, `skip` and `limit` of the request |
| DocumentsPage.FiltersNotForwarded | src/features/knowledge-bases/documents/index.tsx:62-68 | two states differing only in their filters request the same URL, and that URL carries the id, `(page-1)·size` and the size |
| DocumentsPage.PagerMeansMoreThanOnePage | src/features/knowledge-bases/documents/index.tsx:260 | `ShowPager` (paging data with `total > pageSize`) hidden means the first window covers every document, shown means some document lies beyond it; without paging data there is no pager |
| DocumentsPage.SaveCall | src/features/knowledge-bases/documents/index.tsx:88-94 | a submission updates the selected document if there is one, else creates one in this knowledge base, with the submitted values |
| DocumentsPage.SaveToastsTellApart | src/features/knowledge-bases/documents/index.tsx:90-106 | the four `SaveToast`s (update or create, success or failure) are pairwise different, and exactly the failures are destructive and carry a description |
| DocumentsPage.DeleteToastMarksFailure | src/features/knowledge-bases/documents/index.tsx:114-124 | exactly a failed deletion's `DeleteToast` is destructive and carries a description |
| DocumentsPage.Page.constructor | src/features/knowledge-bases/documents/index.tsx:41-49 | page 1, size 10, no filters, dialogs closed, nothing selected; so the first request skips 0, asks for 10, and sends no title and no type |
| DocumentsPage.Page.SetTitle | src/features/knowledge-bases/documents/index.tsx:155-157 | only the title filter changes, and the page is not reset |
| DocumentsPage.Page.SetDocType | src/features/knowledge-bases/documents/index.tsx:161-167 | only the type filter changes |
| DocumentsPage.Page.HandleSearch | src/features/knowledge-bases/documents/index.tsx:72-75 | back to page 1 (skip 0) with the same filters and size, and one refetch |
| DocumentsPage.Page.HandleReset | src/features/knowledge-bases/documents/index.tsx:77-84 | filters cleared, page 1, size kept, and one refetch |
| DocumentsPage.Page.HandlePageChange | src/features/knowledge-bases/documents/index.tsx:128-130 | only the page changes |
| DocumentsPage.Page.HandlePageSizeChange | src/features/knowledge-bases/documents/index.tsx:132-135 | the new size from page 1, so the request skips 0 |
| DocumentsPage.Page.OpenCreate | src/features/knowledge-bases/documents/index.tsx:186-189 | no document selected and the edit dialog open |
| DocumentsPage.Page.OpenEdit | src/features/knowledge-bases/documents/index.tsx:235-237 | the row's document selected and the edit dialog open |
| DocumentsPage.Page.OpenDelete | src/features/knowledge-bases/documents/index.tsx:246-248 | the row's document selected and the delete dialog open |
| DocumentsPage.Page.HandleCreateOrUpdate | src/features/knowledge-bases/documents/index.tsx:86-108 | one `SaveCall`, one `SaveToast`; the dialog closes and the list refetches only on success |
| DocumentsPage.Page.HandleDelete | src/features/knowledge-bases/documents/index.tsx:110-126 | nothing without a selection; otherwise one delete of the selected document, one `DeleteToast`, and the dialog closes and the list refetches only on success |

## Findings

| source | as written | input that shows it | evidently intended | confidence | as-written member | corrected member |
|---|---|---|---|---|---|---|
| src/services/admin.ts:113 | `getHeaders` reads `useAuthStore.getState().accessToken`, but the store's state holds the token under `auth`, so the read is undefined | a signed-in store whose `auth.accessToken` is `"t"`: the headers have no `Authorization` | read `getState().auth.accessToken` and send `Bearer t` | high; not executed | AdminService.HeadersAsWrittenNeverAuthorize | AdminService.GetHeaders |
| src/services/admin.ts:49 | the 401 and 403 branches call `useAuthStore.getState().reset()`, which the root state does not have, so they throw a TypeError before the redirect | any response with status 401: the store keeps its token and the browser stays where it is | reset the `auth` slice and go to `/sign-in` | high; not executed | AdminService.UnauthorizedAsWrittenNeverSignsOut | AdminService.HandleResponseError |
| src/features/users/components/bulk-user-operations.tsx:119 | each call's `update` reports `index + 1` of n, its position in the list, although the calls settle in any order | two calls where the second resolves first: progress 100, then 50; with a registry whose `complete` keeps the last progress, the entry completes at 50 | report the number of calls resolved so far, so progress never decreases and a successful batch ends at 100 | medium; not executed | BulkUserOperations.IndexProgressCanRegress | BulkUserOperations.CountedProgressMonotone |

## Left out

- Rendering, JSX, icons, class names and the DOM are not modelled. The only parts kept are the mappings the rendering uses: badge variant, labels, checkbox states and pager visibility.
- axios transport, `window.location` navigation and reload, localStorage persistence, and the environment are not modelled as I/O. The redirect is a recorded `location`, persistence is the `partialize` projection, and the base URL comes from a parameter.
- `progressNotificationManager`, `notify`, `toast`, react-query, react-hook-form and zod are foreign code and are not shown. They are modelled as recorders, a guarded registry, and the single validation rule.
- The real concurrency of `Promise.all` is not modelled. The batch is a list of per-item outcomes in list order, so three things are not captured:
  - the order in which calls settle (only `IndexUpdates` and `IndexProgressCanRegress` take a settlement order);
  - a rejection coming earlier in time than a failure listed before it;
  - `update` calls that arrive after the `error`. With the guarded registry these change nothing, but a late update that overtakes the error in time would.
- BatchOutcome: its 100% and non-decreasing clauses are about the counted progress the model uses; the source's index-based progress is non-monotone and can end below 100 when calls settle out of list order (see "## Findings").
- Progress uses exact integer rounding, half up, instead of floating-point `Math.round`.
- The notices' actions are kept as labels only: the retry action of the error notice is left out, because it depends on a React closure over `pendingOperation`, which is cleared right after; the success notice's action reloads the page, which is I/O.
- The `default` branches of the operation switches ("Unknown operation", `false`) are left out, because `BulkOperation` is closed.
- A 422 without a response body is not modelled. It would throw on `errorResponse.message`; the model takes the message as absent.
- The per-user service methods are outside this model, and so is `getKnowledgeBase` of the documents page. These are `updateUserStatus`, `updateUserAdmin`, `resetUserKeys`, `deleteUser`, `updateDocument` and `deleteDocument`, and admin.ts defines none of them. Their outcome is taken as input. The other endpoints of admin.ts are plain request wrappers and are left out.
- `DocumentsPage.Page.HandleSearch`: refetches are only counted. Which query key a `refetch()` uses inside the same render is React's business.
- Number formatting is modelled for integers only. `${n}` agrees with `ShowInt` for finite integers below 10^21 in magnitude; `NaN` from `Number(id)` of a non-numeric route parameter, and exponent notation, are not modelled. Dates and `toLocaleString` are left out.
- The remaining files hold no logic of their own: the chats list/detail toggle, the admin redirect guard, the password dialog, the users table and the type declarations. They are not part of this model.
