# Charity task views in Dafny

This project models the request-handling logic of the task views of a
charity/benefactor matching backend (`charities/views.py`). Charities post
tasks and benefactors volunteer for them. The views decide:

- who may request a task, respond to it, or mark it done, and what each of
  these writes on the task (`TaskRequest.get`, `TaskResponse.post`,
  `DoneTask.post`);
- which ORM lookups a task listing filters and excludes by, taken from the
  query string through two allow-lists (`Tasks.filter_queryset`);
- which payload is handed to the serializer when a benefactor or charity
  registers and when a task is created, with the owner fields always
  supplied by the server;
- which permission class guards the task list/create view, by HTTP method
  (`Tasks.get_permissions`).

Modules, one per component of the views file:

- `Common` (common.dfy): `Option`, the abstract identity `Ref`, the
  benefactor profile, the `Reply` a view produces and the HTTP codes.
- `TaskWorkflow` (task_workflow.dfy): the three handlers as functions on a
  task value (`RequestStep`, `RespondStep`, `DoneStep`). `Run` applies any
  sequence of handler calls to one task. The lemmas say what every such
  sequence does.
- `TaskViews` (task_views.dfy): a `Task` class with the fields the handlers
  assign in place, and the three handlers as methods that mutate it.
  Each method is proved to produce exactly the reply and new field values
  of its step function.
- `QueryFilter` (query_filter.dfy): the two lookup-building loops as a
  method with a loop invariant. It is proved equal to a reference function,
  `Lookups`, whose key set and values the lemmas characterise.
- `Payloads` (payloads.dfy): the three payload dictionaries and the
  201/400 reply after validation.
- `Permissions` (permissions.dfy): the permission choice, and the view
  object whose `permissionClasses` field `GetPermissions` reassigns.

How the source is read:

- `state` and `status` are separate task fields. Only `TaskRequest.get`
  writes `state` (`PENDING` to `WAITING`) and `benefactor`. `TaskResponse.post`
  writes `status := "accepted"` and `DoneTask.post` writes
  `status := "completed"`. Neither of these two looks at `state`.
- Identities (users, charities) are compared only for equality, so they are
  the abstract type `Ref`. Line 112 compares the task's charity owner with
  the acting user's *charity*. Line 128 compares it with the acting *user*.
  Both comparisons are modelled exactly as written, as equality of `Ref`s.
  Line 128 suggests that `task.charity.owner` is a user, while
  `request.user.charity` at line 112 is a charity. Django model instances of
  different concrete models never compare equal, so as written line 112 most
  likely answers 403 to every actor. Because `Ref` is one abstract identity
  space, the model still lets that comparison succeed; its results on 200
  are those of an actor whose charity compares equal to the task's owner.
- `DoneTask.post` reads `task.benefactor.user` before the owner branch.
  When the task has no benefactor, that read raises `AttributeError`, even
  when the actor is the owner. The model's `Reply` has a separate
  `AttributeError` case for this.
- The lookup by id (`get_object_or_404`) is the handler's `task: Task?`
  argument: `null` means no such row, and the reply is 404.
- The query string is a `map<string, string>` from each parameter name to
  the value `GET.get` returns. `if param:` is true when the parameter is
  present and its value is not the empty string.

The code has no accept or reject outcome, no `ASSIGNED` or `COMPLETED`
state, and no state check in respond or done. A `PENDING` task without a
benefactor raises when marked done (`DoneOnPendingRaises`). Responding and
marking done never move `state` away from `WAITING`.

## Model

| member | source | states |
|---|---|---|
| TaskWorkflow.RequestStep | charities/views.py:95-101 | 200 exactly when the state is PENDING, otherwise 404. The two branches are exhaustive, so the reply is always 200 or 404. On 404 the task is unchanged. On 200 the state is WAITING and the benefactor is the requester's. Status and owner never change. |
| TaskWorkflow.RespondStep | charities/views.py:112-119 | 200 exactly when the task's charity owner equals the actor's charity, otherwise 403 with the task unchanged. On 200 the status is "accepted". State, benefactor and owner never change. |
| TaskWorkflow.DoneStep | charities/views.py:128-134 | AttributeError exactly when there is no benefactor. 200 exactly when there is a benefactor and the actor is its user or the charity owner. Otherwise 403. On anything but 200 the task is unchanged. On 200 the status is "completed". State, benefactor and owner never change. |
| TaskWorkflow.Run | charities/views.py:93-134 | A sequence of handler calls on one task yields one reply per call. |
| TaskWorkflow.RunKeepsOwner | charities/views.py:93-134 | No sequence of handler calls changes the task's charity owner. |
| TaskWorkflow.NotPendingStaysPut | charities/views.py:95-99 | From a non-PENDING task, no later request succeeds, and state and benefactor stay fixed whatever is called. |
| TaskWorkflow.AtMostOneGrant | charities/views.py:95-101 | In any sequence of calls, at most one request gets 200. With none, state and benefactor are unchanged. With one, the task was PENDING and ends WAITING with that requester as benefactor. |
| TaskWorkflow.RunStatus | charities/views.py:115-116 | The final status is the one written by the last successful respond or done call (see also lines 129-130), or the initial status if there was none. |
| TaskWorkflow.RunPreservesLinked | charities/views.py:95-99 | "A benefactor is set exactly when the state is not PENDING" is preserved by every sequence of handler calls. |
| TaskWorkflow.DoneOnPendingRaises | charities/views.py:128 | On a PENDING task without a benefactor, done raises AttributeError and changes nothing, whoever the actor is. |
| TaskWorkflow.Walkthrough | charities/views.py:91-134 | A concrete run: first request 200, second requester 404, a response from an actor whose charity differs from the owner 403, a response from an actor whose charity compares equal to the owner 200, the benefactor's done 200, a further request 404. The task ends WAITING with the first benefactor and status "completed". |
| TaskViews.RequestTask | charities/views.py:93-101 | 404 when no task has the id. Otherwise the reply and the task's new fields are those of RequestStep on its old fields. |
| TaskViews.RespondTask | charities/views.py:110-119 | 404 when no task has the id. Otherwise the reply and the task's new fields are those of RespondStep on its old fields. |
| TaskViews.DoneTask | charities/views.py:126-134 | 404 when no task has the id. Otherwise the reply and the task's new fields are those of DoneStep on its old fields. |
| QueryFilter.CollectLookups | charities/views.py:77-81 | The loop builds exactly Lookups(rules, query). A lookup is in it exactly when some allow-listed rule for it has its parameter present and non-empty (the predicate `Supplied`, which models `if param:` on `GET.get(value)` at lines 79-80). |
| QueryFilter.FilterQueryset | charities/views.py:76-88 | The filter arguments are Lookups of the filtering allow-list and the exclude arguments are Lookups of the excluding allow-list, over the same query. |
| QueryFilter.LookupsKeys | charities/views.py:77-86 | Key set of the lookup map: a lookup is present exactly when some rule for it has its parameter supplied. |
| QueryFilter.LookupsValue | charities/views.py:78-81 | The value of a present lookup is the parameter value of the last rule for it whose parameter is supplied. |
| QueryFilter.LookupsAllowListed | charities/views.py:77-86 | Only allow-listed lookups appear, and every value is the value of some query parameter. |
| QueryFilter.LookupsOfDistinctRules | charities/views.py:77-86 | With distinct lookups in the allow-list, each rule contributes its lookup exactly when its parameter is supplied, mapped to that parameter's value. |
| Payloads.BenefactorRegistrationPayload | charities/views.py:20-24 | The keys are exactly user, experience and free_time_per_week. The user is the actor's id. The other two are the request's values, or None when absent (the helper `Get`, which models `request.data.get` at lines 22-23). |
| Payloads.CharityRegistrationPayload | charities/views.py:35-39 | The keys are exactly user, name and reg_number. The user is the actor's id. The other two are the request's values, or None when absent (`Get`, for `request.data.get` at lines 37-38). |
| Payloads.BenefactorRegistrationIgnoresOtherFields | charities/views.py:20-24 | Request bodies that agree on experience and free_time_per_week give the same benefactor payload, so any other client field, a `user` field included, has no effect. |
| Payloads.CharityRegistrationIgnoresOtherFields | charities/views.py:35-39 | Request bodies that agree on name and reg_number give the same charity payload, so any other client field, a `user` field included, has no effect. |
| Payloads.TaskCreationPayload | charities/views.py:59-62 | All request fields are kept plus charity_id. The charity_id is always the actor's charity id, whatever the client sent. Every other field keeps its value. |
| Payloads.CreationReply | charities/views.py:26-29 | 201 exactly when the serializer accepts the payload, otherwise 400 (also lines 41-44 and 64-66). |
| Permissions.PermissionsFor | charities/views.py:69-72 | Exactly one permission class: IsAuthenticated exactly for GET, HEAD and OPTIONS, IsCharityOwner for every other method. |
| Permissions.TasksView.GetPermissions | charities/views.py:68-74 | Stores PermissionsFor(method) in the view's permission list and returns one instance per class in the same order. |

## Left out

- Persistence: `task.save()`, `serializer.save()` and the queryset's `filter`/`exclude` execution belong to the ORM. The model keeps the fields as the handlers leave them, and the lookup dictionaries handed to the queryset.
- `get_queryset` (`all_related_tasks_to_user`) is an ORM manager method that is not part of this model.
- Serializer validation: whether a payload is valid is an input to `CreationReply`. Field lists, nested serializers and password hashing (`make_password`) are framework behaviour or foreign calls.
- The permission classes `IsBenefactor` and `IsCharityOwner` and the models (`filtering_lookups`, `excluding_lookups`, task status choices, the initial state) are not part of this model. The allow-lists are parameters, and actor profiles are assumed to be the ones the permission classes let through.
- Missing profiles: `request.user.charity` and `request.user.benefactor` would raise if the actor had no such profile. The model takes the profile as given, because the views' permission classes guard these paths.
- HTTP framing: response bodies, serializer output and `detail` messages. Only the status code and the task's fields are kept.
- The static `permission_classes` lists of the other views are framework configuration that the framework checks, not logic of the views.
- QueryFilter.Supplied: a query parameter repeated in the query string is taken with the single value `GET.get` returns. Multi-valued query dictionaries are not modelled.
- Payloads.TaskCreationPayload: the request body is a dictionary of simple values. Multi-valued form bodies and non-dictionary bodies are not modelled.
- TaskWorkflow.Run: assumes that `benefactor` and `status` are saved fields of the task, that each handler call reloads the task as the previous call saved it, and that `task.charity.owner` exists. The model definitions are not part of this model, and the task serializer exposes `state` and `assigned_benefactor` but no `benefactor` or `status`, while the charity serializer names its owner field `user`. If `benefactor` or `status` were plain attributes, `save()` would drop those writes and `task.benefactor` would raise on a freshly loaded task; the trace lemmas do not cover that reading.
- Concurrency: two requests on the same task racing between read and save are not modelled. Each handler call is one atomic step in `Run`.
