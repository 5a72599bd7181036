# Secret delete menu — decision logic

This project models the decision logic of Vault's UI component
`SecretDeleteMenu`, the menu that offers delete, soft-delete, destroy,
undelete and destroy-all actions for a key/value secret. It covers three parts:

- **Capability paths.** Five functions, one for each action kind, compute the path
  whose capabilities the menu queries: `{backend}/undelete/{id}`,
  `{backend}/destroy/{id}`, `{engine}/metadata/{id}`, `{engine}/data/{id}` and
  `{engine}/delete/{id}` (on a v1 engine both data-level checks use
  `{backend}/{id}`). Each returns "no path" when its guard fails. The
  permission flags then read `canUpdate` or `canDelete` from the record
  fetched for that path.
- **Small pure helpers.**
  - The error message: the error strings joined by `". "`, or a generic message.
  - `isLatestVersion`: whether the selected version is the current one.
- **The delete dispatcher.**
  - `"destroy-all-versions"` and `"v1"` destroy the whole record and then
    navigate to the backend's list root.
  - Every other delete type calls the versioned delete operation. When the
    user cannot read metadata, that call carries the version of the fetched
    data.
  - The reply to a versioned delete is handled in one of three ways. An
    empty reply closes the modal and refreshes. An adapter error flashes its
    message. Any other reply reloads the page.

JavaScript details are explicit in `js_values.dfy`:
- `undefined` is `None`.
- `${undefined}` interpolates to `"undefined"`.
- `""` is falsy.
- A property read on `undefined`, or a failing `JSON.parse`, makes the
  expression evaluate to `Throws`.

So "no path" is `Value(None)`, and a path that cannot be computed is `Throws`.

Collaborators are modelled as an effect log on the component, with these events:
- store calls (`Call(DestroyRecord)`, `Call(V2DeleteOperation(id, type, version))`);
- `TransitionTo(route)`;
- `Refresh`;
- `FlashDanger(message)`;
- `PageReload`.

The outcome of each asynchronous store call is a parameter of
`HandleDelete`. Its continuations (`OnRecordDestroyed`, `OnDeleteResponse`)
run right after the call.

Three behaviours of the code are easy to miss:
- The undelete, destroy and metadata paths are not gated on the engine
  version or the mode. They are computed for v1 engines too.
- When the user can read metadata, the versioned delete passes no version
  at all, not the selected version.
- An adapter error leaves `showDeleteModal` as it was.

## Model

| member | source | states |
|---|---|---|
| JsValues.Join | ui/app/components/secret-delete-menu.js:10 | `Array.prototype.join`. Joining no elements gives `""`. Joining one element gives that element unchanged. |
| JsValues.JoinLength | ui/app/components/secret-delete-menu.js:10 | A join's length is the total length of its elements plus one separator between each neighbouring pair. |
| JsValues.JoinBoundaries | ui/app/components/secret-delete-menu.js:10 | A join starts with its first element and ends with its last. |
| JsValues.JoinIsEmptyIff | ui/app/components/secret-delete-menu.js:10 | With a non-empty separator, a join is `""` exactly when the list is empty or is `[""]`. |
| SecretDeleteMenu.ErrorMessage | ui/app/components/secret-delete-menu.js:9-12 | The message is never empty. It is the `". "`-join when that join is non-empty. It is the generic "Something went wrong…" text when `errors` is undefined. |
| SecretDeleteMenu.ErrorMessageIsGenericIff | ui/app/components/secret-delete-menu.js:9-12 | The generic text appears exactly in these cases: the errors are absent, the list is empty, the list is `[""]`, or the errors join to that very text. |
| SecretDeleteMenu.ErrorMessageShowsErrors | ui/app/components/secret-delete-menu.js:9-12 | A single non-empty error (such as `"access denied"`) is shown verbatim. With several errors, even when some are empty, the message is their join: it starts with the first and ends with the last. |
| SecretDeleteMenu.UndeleteVersionPath | ui/app/components/secret-delete-menu.js:22-28 | There is no path exactly when `args`, `modelForData` or its id is missing or empty. An undecodable id throws. Otherwise the path is `backend + "/undelete/" + id` from the decoded composite id. |
| SecretDeleteMenu.DestroyVersionPath | ui/app/components/secret-delete-menu.js:36-42 | The same guard as undelete. The path is `backend + "/destroy/" + id`. |
| SecretDeleteMenu.MetadataPath | ui/app/components/secret-delete-menu.js:50-57 | Missing `args` throws. There is no path exactly when `model`, `model.engine` or `model.id` is falsy. Otherwise the path is `engine.id + "/metadata/" + model.id`. |
| SecretDeleteMenu.SecretDataPath | ui/app/components/secret-delete-menu.js:67-77 | There is no path exactly when the model is absent or the mode is `"create"`, whatever `isV2` is. Otherwise a check is issued or the closure throws. On v2 the path is `engine.id/data/id`, and a missing engine throws. On v1 the path is `backend/id`. |
| SecretDeleteMenu.SecretSoftDataPath | ui/app/components/secret-delete-menu.js:88-98 | There is no path exactly under the same guard. Otherwise a check is issued or the closure throws. On v2 the path is `engine.id/delete/id`, and a missing engine throws. On v1 the path is `backend/id`. |
| SecretDeleteMenu.VersionPathsIgnoreModelModeAndEngine | ui/app/components/secret-delete-menu.js:22-42 | The undelete and destroy paths depend on `modelForData` only. They do not depend on the model, the mode or `isV2`. |
| SecretDeleteMenu.MetadataPathIgnoresModeAndEngine | ui/app/components/secret-delete-menu.js:50-61 | The metadata path depends on the model only. It does not depend on the mode or `isV2`. |
| SecretDeleteMenu.V1DataPathsCoincide | ui/app/components/secret-delete-menu.js:71-94 | Without `isV2`, the data path and the soft-delete path are equal. |
| SecretDeleteMenu.V2PathShapesDistinct | ui/app/components/secret-delete-menu.js:22-98 | For one backend and id, the five v2 path shapes are pairwise different. |
| SecretDeleteMenu.V2CapabilityPathsDistinct | ui/app/components/secret-delete-menu.js:20-105 | Take a v2 engine outside create mode, where the composite id names the loaded secret. Then all five checks are issued, and they target five different paths. |
| SecretDeleteMenu.Permission | ui/app/components/secret-delete-menu.js:20-105 | A flag is true exactly when its path exists, its query has resolved and the chosen capability is granted. With no path, the flag is false. The flag throws exactly when its path throws. |
| SecretDeleteMenu.CanUndeleteVersion | ui/app/components/secret-delete-menu.js:32 | The flag reads `canUpdate` of the undelete path's record. It is false without a composite id. It throws exactly when the undelete path throws. |
| SecretDeleteMenu.CanDestroyVersion | ui/app/components/secret-delete-menu.js:46 | The flag reads `canUpdate` of the destroy path's record. It is false without a composite id. It throws exactly when the destroy path throws. |
| SecretDeleteMenu.CanDestroyAllVersions | ui/app/components/secret-delete-menu.js:63 | The flag reads `canDelete` of the metadata path's record. It is false without a model identity. It throws exactly when the metadata path throws. |
| SecretDeleteMenu.CanDeleteSecretData | ui/app/components/secret-delete-menu.js:84 | The flag reads `canDelete` of the data path's record. It is false with no model or in create mode. It throws exactly when the data path throws. |
| SecretDeleteMenu.CanSoftDeleteSecretData | ui/app/components/secret-delete-menu.js:105 | The flag reads `canUpdate` of the soft-delete path's record. It is false with no model or in create mode. It throws exactly when the soft-delete path throws. |
| SecretDeleteMenu.V1FlagsShareOneRecord | ui/app/components/secret-delete-menu.js:65-105 | On v1, both data-level flags read the record of `backend/id`. Delete reads its `canDelete`. Soft-delete reads its `canUpdate`. |
| SecretDeleteMenu.IsLatestVersion | ui/app/components/secret-delete-menu.js:107-117 | The result is false with no model. It is true exactly when `currentVersion` strictly equals `selectedVersion.version`. A missing `selectedVersion` throws. |
| SecretDeleteMenu.VersionOverride | ui/app/components/secret-delete-menu.js:130-135 | Without metadata read access, the override is `modelForData.version`. With that access, there is no override. |
| SecretDeleteMenu.DeleteCall | ui/app/components/secret-delete-menu.js:120-138 | A falsy type makes no call. `"destroy-all-versions"` and `"v1"` make the whole-record destroy and never the versioned delete. Every other type makes `V2DeleteOperation(modelForData.id, type, override)`. A missing `model` or `modelForData` throws instead. |
| SecretDeleteMenu.NoMetadataAccessTargetsFetchedVersion | ui/app/components/secret-delete-menu.js:130-138 | Without metadata access, a versioned delete carries the fetched data's version. |
| SecretDeleteMenu.ResponseEffect | ui/app/components/secret-delete-menu.js:143-155 | An empty reply causes a refresh. An adapter error flashes `ErrorMessage(errors)`. Any other reply reloads the page. These three cases are disjoint and cover every reply. |
| SecretDeleteMenu.Component.constructor | ui/app/components/secret-delete-menu.js:18 | The modal starts hidden, and no effects have happened. |
| SecretDeleteMenu.Component.OnRecordDestroyed | ui/app/components/secret-delete-menu.js:126-128 | A resolved destroy adds exactly one transition to the list root. The modal is unchanged. |
| SecretDeleteMenu.Component.OnDeleteResponse | ui/app/components/secret-delete-menu.js:139-155 | It appends the reply's one effect. It closes the modal only on an empty reply, and leaves it unchanged otherwise. |
| SecretDeleteMenu.Component.HandleDelete | ui/app/components/secret-delete-menu.js:120-157 | The call it issues is `DeleteCall`. A falsy type or a throw changes no state. A destroy logs the call, then one transition if the destroy resolved. A versioned delete logs the call, then the reply's effect, and closes the modal only on an empty reply. |
| SecretDeleteMenu.RepeatedEmptyReplyIsSafe | ui/app/components/secret-delete-menu.js:143-147 | Handling an empty reply twice leaves the modal closed and asks for two refreshes. |

## Left out

- The query macro's asynchronous fetching, memoisation and dependency-key
  invalidation (lines 20-105) are not modelled. The fetched capability
  records are an input map from path to record. A path that is absent from
  the map is a pending or failed query.
- Decoding the composite id with `JSON.parse` and `[backend, id]` is a
  foreign call. It is a decoder parameter, and `None` means the decoding
  throws. Non-string JSON members are taken in their string form.
- The `Ember.testing` early return (lines 140-142) is a test-environment
  switch. It is not modelled.
- The services, `adapterFor('secret-v2-version')`, `location.reload` and
  router transitions are external effects. They appear only as events in
  the effect log.
- A rejected `destroyRecord()` is not caught by the component. The model
  records the destroy call with no transition after it. The unhandled
  rejection itself is not modelled.
- A rejected `v2DeleteOperation` is not caught by the component either.
  It is not modelled: the reply is always one of the three shapes
  `NoBody`, an adapter error, or another body.
- A missing `args.refresh` callback would throw. The model assumes the
  callback is supplied.
- Stale replies and re-entrant calls are not modelled. The code does not
  guard against them. Each continuation runs right after its call.
- The truthiness of `isV2`, `canReadSecretMetadata` and `isAdapterError` is
  modelled as booleans.
- Versions are integers, and strict equality is modelled on integers. The
  `NaN` and string-versus-number cases are not modelled.
