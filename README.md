# Marketplace notification handler, in Dafny

This project models the notification webhook of an Azure Marketplace
managed-application solution (`applications/NotificationHandler/__init__.py`).
The Marketplace notification service POSTs a JSON event. The event names a
managed application by its Azure Resource Manager id, an event type (`PUT` or
`DELETE`) and a provisioning state. The handler records each succeeded
deployment as an entity of a tracking table. It removes the entity again when
the application is deleted. It answers every call with a fixed HTTP status,
or lets a TypeError escape (see "Left out").

The project has three parts:

- `wrappers.dfy`: the `Option` and `Result` types.
- `resource_id_parser.dfy`, module `ResourceIdParser`: `parse_resource_id`
  as pure functions.
  - The regular expression
    `\/?subscriptions\/(sub)\/resourceGroups\/(rg)(|\/providers\/Microsoft\.Solutions\/applications\/(name))$`
    becomes a staged parser.
  - Each greedy `[...]+` run is a `RunLength` over its character class.
    No group admits `/`, so the greedy run is the only way the match can go.
  - Python's `$` also matches before one final `\n`. `ParseResourceId`
    therefore drops one final newline and then matches the rest anchored at
    both ends.
  - `Format` is the inverse: it builds the id string from its groups, with
    or without the leading `/`.
- `notification_handler.dfy`, module `NotificationHandler`: `main`.
  - The decision procedure is a specification function, `Handle`. Its
    parts are `Decide`, `DecideEvent`, `DecideParsedEvent`,
    `DecideDeployment` and `Apply`.
  - `HandleNotification` is the imperative handler. It runs the source's
    early returns in the source's order. It changes a `TrackingTable`
    object, whose `rows` map is the table, through `CreateEntity` and
    `DeleteEntity`.
  - Each method is proved to produce exactly the reply and the table that
    `Handle` prescribes.
  - Calls into foreign services are inputs (`Services`): whether the
    credential could be built, what `ApplicationClient.get_by_id` returned
    (an exception, or a managed resource group id that may be a string or
    None), and whether the table service failed.
- `handler_properties.dfy`, module `HandlerProperties`: what `Handle`
  guarantees. This covers the status of each early return, which key an
  invocation may touch, that the table changes only on a 200 `OK`, and that
  a retried notification has no further effect.

Python's `re` character ranges compare code points, and so do Dafny's `char`
comparisons. The name class `[a-zA-Z0-9-_.()]` is letters, digits and the
five characters `- _ . ( )`: the `-` after the range `0-9` is a literal.

## Model

| member | source | states |
|---|---|---|
| ResourceIdParser.RunLength | applications/NotificationHandler/__init__.py:14 | a greedy `[...]+` run covers only characters of its class and stops at the first character outside it |
| ResourceIdParser.ParseSuffix | applications/NotificationHandler/__init__.py:14 | the alternative `(\|/providers/Microsoft.Solutions/applications/name)$` accepts the empty rest or the applications path followed by a non-empty name; an accepted rest is exactly the formatted suffix; otherwise the error message |
| ResourceIdParser.ParseFromGroup | applications/NotificationHandler/__init__.py:14 | after `resourceGroups/`, a success captures a non-empty resource group (and an optional name) whose formatted text is exactly the input |
| ResourceIdParser.ParseFromSubscription | applications/NotificationHandler/__init__.py:14 | after `subscriptions/`, a success captures valid groups whose formatted text is exactly the input |
| ResourceIdParser.ParseAnchored | applications/NotificationHandler/__init__.py:14-18 | with `$` read as the end of the string, a success yields valid groups that format back to the input, keeping its leading `/` or not |
| ResourceIdParser.ParseResourceId | applications/NotificationHandler/__init__.py:12-23 | a success yields valid groups, and the input is their formatted id, possibly followed by one `\n`; a failure carries "Could not parse resource id" |
| ResourceIdParser.ParseOfFormatIffValid | applications/NotificationHandler/__init__.py:14-23 | for ids built of name-class segments, with or without a final `\n`, the parse succeeds with exactly the id's groups if and only if every segment is non-empty and the subscription id has no upper-case letter, `_`, `.`, `(` or `)`; otherwise it raises the error |
| ResourceIdParser.FormatThenParse | applications/NotificationHandler/__init__.py:14-23 | round trip: every valid id, with or without the leading `/`, parses back to its own subscription id, resource group and application name (None without the provider suffix) |
| ResourceIdParser.AcceptedIffFormattedValid | applications/NotificationHandler/__init__.py:12-23 | for every string and every id: the parse yields that id if and only if the id is valid and the string is its formatted text, with or without the leading `/`, possibly followed by one `\n` |
| ResourceIdParser.LiteralsAreCaseSensitive | applications/NotificationHandler/__init__.py:14-18 | `.../resourcegroups/...` (wrong casing of a literal segment) is rejected whatever follows |
| ResourceIdParser.OtherProviderRejected | applications/NotificationHandler/__init__.py:14-18 | a provider namespace other than `Microsoft.Solutions` is rejected |
| ResourceIdParser.TrailingSegmentAfterGroupRejected | applications/NotificationHandler/__init__.py:14-18 | after the resource group, any `/` text that does not begin the applications path is rejected |
| ResourceIdParser.TrailingSegmentAfterNameRejected | applications/NotificationHandler/__init__.py:14-18 | after the application name, any further `/` segment is rejected |
| NotificationHandler.InsertIfAbsent | applications/NotificationHandler/__init__.py:136-140 | create_entity with ResourceExistsError swallowed: the keys become the old keys plus the entity's key, an existing row is kept as it is, and every other row is unchanged |
| NotificationHandler.TrackingTable.constructor | applications/NotificationHandler/__init__.py:99 | the table client opens on the given rows |
| NotificationHandler.TrackingTable.CreateEntity | applications/NotificationHandler/__init__.py:136-144 | a service fault changes nothing and fails; a taken key is refused and changes nothing; otherwise exactly the entity is added under its key |
| NotificationHandler.TrackingTable.DeleteEntity | applications/NotificationHandler/__init__.py:146-154 | a service fault changes nothing and fails; otherwise the key is removed, and a missing key is no error |
| NotificationHandler.HandleNotification | applications/NotificationHandler/__init__.py:26-156 | the reply and the new table are exactly what the specification `Handle` prescribes for the old table, the request and the service answers |
| NotificationHandler.HandleEvent | applications/NotificationHandler/__init__.py:63-73 | the application-id step: a non-string id raises, an unparseable id answers 500, and otherwise the reply and the table are what `DecideEvent` and `Apply` prescribe |
| NotificationHandler.HandleParsedEvent | applications/NotificationHandler/__init__.py:94-156 | the state filter and the two table calls produce the reply and the table that `DecideParsedEvent` and `Apply` prescribe |
| NotificationHandler.RecordDeployment | applications/NotificationHandler/__init__.py:100-144 | the (Succeeded, PUT) branch leaves the table as `DecideDeployment` and `Apply` prescribe, and returns an error reply (or the escaping TypeError) exactly when the prescribed reply is not 200 `OK` |
| NotificationHandler.InsertEntity | applications/NotificationHandler/__init__.py:136-144 | the `create_entity` call with ResourceExistsError swallowed leaves the table as `InsertIfAbsent` (or, on a fault, unchanged), and fails with 500 "Error trying to add entity: ..." exactly on a fault |
| HandlerProperties.DecideReadsFields | applications/NotificationHandler/__init__.py:52-61 | past the method, credential and body checks, the decision depends only on the three fields read |
| HandlerProperties.DecideEventOfParsed | applications/NotificationHandler/__init__.py:63-73 | once the application id parses, the decision depends only on its groups |
| HandlerProperties.DeploymentDecision | applications/NotificationHandler/__init__.py:105-130 | the (Succeeded, PUT) branch inserts an entity whose key is (subscription id, application name), raises exactly when the lookup returned no managed resource group id, and otherwise answers 500 |
| HandlerProperties.DeploymentInserts | applications/NotificationHandler/__init__.py:114-130 | with a managed resource group id that parses, the branch inserts the entity (subscription id, resource group, application name, managed group name) |
| HandlerProperties.DecideDeploymentEvent | applications/NotificationHandler/__init__.py:94-100 | a (Succeeded, PUT) notification with a parseable application id is decided by the deployment branch alone |
| HandlerProperties.ParsedEventDecision | applications/NotificationHandler/__init__.py:94-156 | after the parse, every decision answers with a known status or touches only the application's key |
| HandlerProperties.DecideDecision | applications/NotificationHandler/__init__.py:26-156 | every decision answers with one of 200, 400, 405, 500 (or raises), or inserts or removes exactly the key named by the request's application id |
| HandlerProperties.NonPostRefused | applications/NotificationHandler/__init__.py:33-34 | with both environment variables set, any method but POST gives 405 and no body, whatever the credential, the body, the services or the table |
| HandlerProperties.CredentialFailure | applications/NotificationHandler/__init__.py:45-50 | a credential failure gives 500 "Could not authenticate: ..." before the body is read, and the table is unchanged |
| HandlerProperties.MalformedBodyIs400 | applications/NotificationHandler/__init__.py:52-61 | a non-JSON body gives 400 "Could not parse request: ..."; a JSON object missing `applicationId`, `eventType` or `provisioningState` gives 400 "Could not parse request: '<field>'" naming the first missing field in the order read; the table is unchanged |
| HandlerProperties.UnparseableApplicationId | applications/NotificationHandler/__init__.py:63-73 | an application id that does not parse gives 500 "Error obtaining app subscription and resource group: Could not parse resource id", and the table is unchanged |
| HandlerProperties.OtherStatesIgnored | applications/NotificationHandler/__init__.py:94-97 | a provisioning state other than Succeeded or Deleted gives 200 "Provisioning state is '<state>'. Ignoring event...", and the table is unchanged |
| HandlerProperties.DeploymentRecorded | applications/NotificationHandler/__init__.py:100-156 | (Succeeded, PUT) with a parseable managed resource group id gives 200 `OK`; the table gains the entity (subscription id, resource group, application name, managed group name) under the key (subscription id, application name) unless that key is taken |
| HandlerProperties.ExistingEntityKept | applications/NotificationHandler/__init__.py:136-140 | a deployment notification for a key already in the table gives 200 `OK` and leaves the table exactly as it was |
| HandlerProperties.DeploymentLookupFails | applications/NotificationHandler/__init__.py:105-121 | a failed application lookup gives 500 "Failed to obtain managed application details: ..."; an unparseable managed resource group id gives 500 "Error obtaining the mrg name: ..."; nothing is inserted in either case |
| HandlerProperties.MissingGroupIdRaises | applications/NotificationHandler/__init__.py:114-121 | an application that comes back without a managed resource group id makes the parse raise a TypeError that `except ValueError` does not catch; `main` raises and nothing is inserted |
| HandlerProperties.InsertFails | applications/NotificationHandler/__init__.py:136-144 | (Succeeded, PUT) whose `create_entity` call fails gives 500 "Error trying to add entity: ..." and the table is unchanged |
| HandlerProperties.DeletionFails | applications/NotificationHandler/__init__.py:146-154 | (Deleted, DELETE) whose `delete_entity` call fails gives 500 "Error trying to delete entity: ..." and the table is unchanged |
| HandlerProperties.DeletionRemovesKey | applications/NotificationHandler/__init__.py:146-156 | (Deleted, DELETE) gives 200 `OK` and removes exactly the key (subscription id, application name), present or not |
| HandlerProperties.StoreFaultChangesNothing | applications/NotificationHandler/__init__.py:136-154 | when the table service fails, the table is unchanged; an insert answers 500 "Error trying to add entity: ...", a delete answers 500 "Error trying to delete entity: ...", and a 200 `OK` can come only from a path that calls no table operation |
| HandlerProperties.MixedPairsAcknowledged | applications/NotificationHandler/__init__.py:100-156 | Succeeded with another event type, or Deleted with another event type, gives 200 `OK` and the table is unchanged |
| HandlerProperties.StatusesUsed | applications/NotificationHandler/__init__.py:26-156 | every response has status 200, 400, 405 or 500 |
| HandlerProperties.ChangeOnlyOnSuccess | applications/NotificationHandler/__init__.py:26-156 | the table changes only when the reply is 200 `OK`; every error, and the escaping TypeError, leaves it untouched |
| HandlerProperties.OnlyEventKeyChanges | applications/NotificationHandler/__init__.py:100-156 | no invocation adds, removes or alters any key except (subscription id, application name) of its own application id |
| HandlerProperties.ApplyKeepsOtherKeys | applications/NotificationHandler/__init__.py:136-154 | carrying out an insert or a delete for one key leaves every other key's presence and row as they were |
| HandlerProperties.RetryIdempotent | applications/NotificationHandler/__init__.py:89-156 | the notification service retries until it gets a 200; handling the same notification again, with the services answering the same, gives the same reply and the same table |

## Left out

- Logging has no effect on the reply or the table. The model assumes that both environment variables read at `__init__.py:27-28` (`AzureWebJobsStorage`, `TABLE_NAME`) are set. A missing one makes `main` raise KeyError before any other step, even for a method other than POST; the model does not cover that path. The values of the variables only select which table is used.
- `create_table` and its swallowed `HttpResponseError` (`__init__.py:131-134`) are left out. The tracking table always exists.
- `DefaultAzureCredential`, `ApplicationClient.get_by_id` and the `TableClient` internals are foreign code. Their outcomes are the `Services` inputs. The text of a foreign exception is not modelled: a reply of the form "prefix: <exception text>" is `TextWithDetail(prefix)`.
- A single `storeFault` flag stands for any exception other than `ResourceExistsError` from `create_entity` and any exception from `delete_entity`. The model does not distinguish between kinds of service failure.
- Python's `str()` of a non-string JSON value, which the f-string in the "Ignoring" message prints, is an input (`NonStr(text)`). It is not computed.
- The `azure.functions` request and response types are reduced to a record of the method and the parsed body, and to a status and a body. The method is compared with `"POST"` exactly as the binding reports it.
- A JSON body that is not an object, a non-string `applicationId`, and an application whose `managed_resource_group_id` is None make `main` raise a TypeError that nothing in `main` catches. The model returns `Raised` and does not model the status the hosting runtime then sends. The code does not do what a description of the handler might suggest, a 400 for these bodies.
- The entity's RowKey is the application name, as in the code (`__init__.py:128-129`), not the resource group. An id without the provider suffix gives an application name of None. The model keeps the key optional and does not model what the SDK does with a None RowKey.
- A `delete_entity` of a missing row counts as success (`NotFound`). That the SDK swallows the service's 404 is taken as given; it is not modelled.
- Concurrent invocations on the same table are not modelled. Each invocation is one atomic step from the old table to the new one.
- The policy-states collector (`policy-states-collector/PolicyStates/__init__.py`) is not part of this model. It is asynchronous fan-out over foreign SDK calls.
- The test text expects a "Something failed during a PUT/DELETE event" body for the Failed state. The code answers with the "Ignoring" message for Failed, and the model follows the code.
- The parse of the concrete application id used in the tests is not proved on its literal text. `FormatThenParse` covers every id of that shape.
