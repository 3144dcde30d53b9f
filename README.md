# Kanban board and session state: a verified model

This project models the client-side core of a task/project manager: the
drag-and-drop kanban board, the platform store it dispatches to, the
per-lane projection, the status-by-priority chart, the signed-in user's
session slice, the status/priority lookup tables, the client form schemas
and the server's standalone request validators and bearer-header check.

- `wrappers.dfy` (`Wrappers`): `Option`.
- `lists.dfy` (`Lists`): the array combinators `filter`, `findIndex` and
  `find` as functions over sequences, with their order, multiplicity and
  counting lemmas.
- `sortable.dfy` (`Sortable`): `arrayMove` of the sortable-list library
  (remove at `from`, insert at `to`).
- `domain.dfy` (`Domain`): tasks, projects, users; the status and priority
  enumerations with their wire strings; ASCII `toLowerCase`.
- `platform.dfy` (`Platform`): the store state, its action union and the
  reducer.
- `kanban.dfy` (`Kanban`): the four-lane registry, target resolution (lanes
  before tasks), and the `Board` class whose `DragStart` / `DragEnd`
  methods keep the dragged task and dispatch to the store. The network call
  `updateTaskStatus` is an oracle: `DragEnd` receives its outcome as
  `response` (the server's task, or `None` when the call throws). Ghost logs
  of dispatched actions and issued requests let the contracts say what was
  sent.
- `kanban_column.dfy` (`KanbanColumn`): a lane's tasks, badge count and
  sortable ids.
- `task_analysis.dfy` (`TaskAnalysis`): the chart rows.
- `auth_slice.dfy` (`AuthSlice`): the `UserSlice` class, updated in place.
- `status_styles.dfy` (`StatusStyles`): the lookup tables.
- `schema.dfy` (`Schema`): the client form schemas as acceptance predicates.
- `auth_system.dfy` (`AuthSystem`): register/login/refresh validators,
  `split(" ")`, and `authenticate`.

The `tasks` list the drag handlers work on is a parameter: it is the list
the board was rendered with, which the handler's closure keeps even after
its own dispatches have changed the store.

## Where the code and its comments disagree

In the drop handler, the comment at
client/src/components/kanban_v2/Kanban.tsx:81 says a drop onto a task gives
the dragged task the target task's status, and the comment at :91 says the
move that follows reorders within the same status. The code does not do
this for a task in another lane. It first dispatches a status rewrite
(lines 82-89), then dispatches `arrayMove` over the list the board was
rendered with (lines 92-98). That second dispatch replaces the first, so
the dragged task keeps its old status, and no request is sent.
`Kanban.Board.DragEnd` follows the code (see
`Kanban.CrossLaneDropKeepsStatus`). The intended behaviour is stated
separately as `Kanban.IntendedTaskDrop`, which nothing else uses. The
reducer has no remove action (client/src/context/PlatformContext.tsx:11-18).

## Model

| member | source | states |
|---|---|---|
| `Lists.Filter` | client/src/components/kanban_v2/KanbanColumn.tsx:11 | the result holds exactly the input elements that satisfy the predicate, never more elements than the input |
| `Lists.FirstIndex` | client/src/components/kanban_v2/Kanban.tsx:92-93 | the index of the first element satisfying the predicate, or -1 exactly when none does |
| `Lists.Find` | client/src/components/kanban_v2/Kanban.tsx:42 | None exactly when no element satisfies the predicate; otherwise the first element of the list that satisfies it |
| `Lists.FilterAppend` | client/src/components/kanban_v2/KanbanColumn.tsx:11 | filtering keeps relative order: the filter of a concatenation is the concatenation of the filters |
| `Lists.FilterMultiplicity` | client/src/components/kanban_v2/KanbanColumn.tsx:11 | each value occurs in the filter as often as in the input when it satisfies the predicate, and not at all otherwise |
| `Lists.FilterPermutation` | client/src/components/analytics/TaskAnalysis.tsx:38-45 | lists with the same multiset give filters with the same multiset and length |
| `Sortable.ArrayMove` | client/src/components/kanban_v2/Kanban.tsx:95-98 | same length, a permutation, the moved element at `to`, the entries between `from` and `to` shifted by one, all others in place |
| `Sortable.MoveToSelf` | client/src/components/kanban_v2/Kanban.tsx:95-98 | moving an element to its own index changes nothing |
| `Sortable.MoveBack` | client/src/components/kanban_v2/Kanban.tsx:95-98 | moving from `to` back to `from` undoes a move |
| `Domain.ParseStatus` | client/src/types/types.ts:35 | a string reads as a status only if it is that status's wire string, and reads as none exactly when it is no status's wire string |
| `Domain.ParseStatusWire` | client/src/types/types.ts:35 | every status's wire string reads back as that status |
| `Domain.ParsePriority` | client/src/types/types.ts:36 | Some exactly for "low", "medium" and "high", each read as its own priority; None for every other string |
| `Domain.Lower` | client/src/components/analytics/TaskAnalysis.tsx:44 | same length, each character lower-cased, no upper-case ASCII letter left |
| `Platform.InitialState` | client/src/context/PlatformContext.tsx:20-25 | no projects, no tasks, not loading, no error |
| `Platform.ReplaceById` | client/src/context/PlatformContext.tsx:70-76 | same length and order; every entry with the payload's id becomes the payload, every other entry is kept |
| `Platform.Reduce` | client/src/context/PlatformContext.tsx:35-78 | `loading` and `error` change only under their own actions; projects change only under project actions; tasks change only under task actions |
| `Platform.SetTasksReplaces` | client/src/context/PlatformContext.tsx:65-69 | SET_TASKS replaces the task list and leaves the rest of the state as it was |
| `Platform.AddTaskAppends` | client/src/context/PlatformContext.tsx:60-64 | ADD_TASK grows the list by one, keeps the old prefix, puts the payload last, and changes nothing else |
| `Platform.ProjectActions` | client/src/context/PlatformContext.tsx:40-59 | SET_PROJECTS replaces and ADD_PROJECT appends to the project list; nothing else changes |
| `Platform.UpdateTaskReplaces` | client/src/context/PlatformContext.tsx:70-76 | UPDATE_TASK keeps length and order, replaces every entry with the payload's id, and changes nothing else |
| `Platform.UpdateTaskMissingIsNoOp` | client/src/context/PlatformContext.tsx:70-76 | UPDATE_TASK with an id not in the list leaves the state unchanged |
| `Platform.UpdateTaskIdempotent` | client/src/context/PlatformContext.tsx:70-76 | folding the same server answer in twice gives the same state as once |
| `Platform.NoTaskRemoval` | client/src/context/PlatformContext.tsx:11-18 | every action except SET_TASKS keeps every task id at its index and never shortens the list |
| `Kanban.RegistryShape` | client/src/components/kanban_v2/Kanban.tsx:18-23 | four lanes with pairwise distinct ids whose statuses are TODO, IN_PROGRESS, IN_REVIEW, DONE in that order, covering every status |
| `Kanban.FindColumn` | client/src/components/kanban_v2/Kanban.tsx:56 | a lane is found exactly when some registry lane has that id, and it is a registry lane with that id |
| `Kanban.IndexOf` | client/src/components/kanban_v2/Kanban.tsx:92-93 | the first index holding a task with that id, or -1 exactly when no task has it |
| `Kanban.FindTask` | client/src/components/kanban_v2/Kanban.tsx:52 | none exactly when the id is absent; otherwise the task at the first index with that id |
| `Kanban.SetStatus` | client/src/components/kanban_v2/Kanban.tsx:59-64 | same length and order; no field except the status changes; only tasks with the dragged id take the new status |
| `Kanban.ResolveTarget` | client/src/components/kanban_v2/Kanban.tsx:55-80 | a lane exactly when a lane has the id (lanes win); otherwise the first task with that id, if there is one |
| `Kanban.TaskDropPlacesDragged` | client/src/components/kanban_v2/Kanban.tsx:91-98 | a drop on a task yields a permutation of the same length with the dragged task at the target's former index |
| `Kanban.DropOnSelfKeepsList` | client/src/components/kanban_v2/Kanban.tsx:91-98 | dropping a task on itself dispatches the rendered list unchanged |
| `Kanban.LaneDropReconciles` | client/src/components/kanban_v2/Kanban.tsx:59-74 | after a lane drop and a successful call, every entry of the dragged task equals the server's answer in all fields, and every other entry is as rendered |
| `Kanban.CrossLaneDropKeepsStatus` | client/src/components/kanban_v2/Kanban.tsx:82-98 | as written, after a drop onto a task of another status the dragged task still has its original status, not the target's |
| `Kanban.CrossLaneDropScenario` | client/src/components/kanban_v2/Kanban.tsx:82-98 | dropping a TODO task on an IN_PROGRESS task in a two-task list swaps them and leaves the first task TODO |
| `Kanban.IntendedTaskDrop` | client/src/components/kanban_v2/Kanban.tsx:81-89 | the intended drop: same length, the dragged task at the target's index, with the target's status |
| `Kanban.Board.constructor` | client/src/components/kanban_v2/Kanban.tsx:30 | the board starts with no dragged task, over the given store, with nothing dispatched or requested |
| `Kanban.Board.Dispatch` | client/src/context/PlatformContext.tsx:85 | the store becomes the reducer's result and the action is logged |
| `Kanban.Board.DragStart` | client/src/components/kanban_v2/Kanban.tsx:40-44 | the dragged task is the first task with the active id, or none exactly when no task has it |
| `Kanban.Board.DragEnd` | client/src/components/kanban_v2/Kanban.tsx:46-100 | clears the dragged task on every path; no target, an unknown dragged id or an unknown target changes nothing; a lane drop dispatches the optimistic list, issues exactly one request, and folds in the answer only if the call succeeds; a task drop issues no request and leaves the move of the rendered list |
| `Kanban.Board.DropOnLane` | client/src/components/kanban_v2/Kanban.tsx:57-76 | one optimistic SET_TASKS, one status request, then UPDATE_TASK with the answer if there is one |
| `Kanban.Board.DropOnTask` | client/src/components/kanban_v2/Kanban.tsx:78-99 | a status rewrite only when the statuses differ, then SET_TASKS with the move of the rendered list, which is the final task list |
| `KanbanColumn.ColumnTasks` | client/src/components/kanban_v2/KanbanColumn.tsx:11 | a lane holds exactly the tasks whose status is the lane's status |
| `KanbanColumn.BadgeCount` | client/src/components/kanban_v2/KanbanColumn.tsx:23 | the badge shows the number of tasks in the lane, at most the number of tasks |
| `KanbanColumn.SortableIds` | client/src/components/kanban_v2/KanbanColumn.tsx:26 | the sortable ids are the lane tasks' ids, in lane order, one per task |
| `KanbanColumn.ColumnKeepsStoreOrder` | client/src/components/kanban_v2/KanbanColumn.tsx:11 | a lane lists its tasks in store order |
| `KanbanColumn.EnumTaskInExactlyOneColumn` | client/src/components/kanban_v2/KanbanColumn.tsx:11 | a task with one of the four statuses appears in exactly one registry lane |
| `KanbanColumn.OffEnumTaskHidden` | client/src/components/kanban_v2/KanbanColumn.tsx:11 | a task with any other status appears in no lane |
| `KanbanColumn.BadgesCountBoardTasks` | client/src/components/kanban_v2/KanbanColumn.tsx:23 | the four badges add up to the number of tasks with an enumerated status |
| `KanbanColumn.OptimisticLaneDropShowsInLane` | client/src/components/kanban_v2/Kanban.tsx:59-64 | right after the optimistic rewrite the dragged task has the lane's status and shows in that lane and in no other |
| `TaskAnalysis.ChartData` | client/src/components/analytics/TaskAnalysis.tsx:34-49 | exactly four rows, for TODO, IN_PROGRESS, IN_REVIEW, DONE in that order |
| `TaskAnalysis.Row` | client/src/components/analytics/TaskAnalysis.tsx:38-45 | a row is labelled with its status and each of its three cells is at most the number of tasks with that status |
| `TaskAnalysis.PriorityCount` | client/src/components/analytics/TaskAnalysis.tsx:42-44 | the count is at most the number of tasks of the status, and zero exactly when none of them has that lower-cased priority |
| `TaskAnalysis.CellCounts` | client/src/components/analytics/TaskAnalysis.tsx:38-45 | cell (status, priority) is the number of tasks with that status and that lower-cased priority |
| `TaskAnalysis.RowSumCountsKnownPriorities` | client/src/components/analytics/TaskAnalysis.tsx:42-47 | a row's three cells add up to the number of its tasks whose lower-cased priority is low, medium or high |
| `TaskAnalysis.RowSumBound` | client/src/components/analytics/TaskAnalysis.tsx:38-47 | a row's total is at most the number of tasks with its status, with equality when all of them have a known priority |
| `TaskAnalysis.RowTotalIsFilter` | client/src/components/analytics/TaskAnalysis.tsx:38-47 | a row's total is the number of tasks with that status and a known lower-cased priority |
| `TaskAnalysis.ChartTotal` | client/src/components/analytics/TaskAnalysis.tsx:37-49 | the twelve cells add up to the number of tasks with an enumerated status and a known lower-cased priority |
| `TaskAnalysis.ChartIgnoresOrder` | client/src/components/analytics/TaskAnalysis.tsx:37-49 | reordering the tasks does not change the chart |
| `AuthSlice.UserSlice.constructor` | client/src/store/auth/authSlice.ts:16-20 | no user, no error, not loading |
| `AuthSlice.UserSlice.SetUser` | client/src/store/auth/authSlice.ts:26-28 | the user becomes the payload; loading and error are untouched |
| `AuthSlice.UserSlice.ResetUser` | client/src/store/auth/authSlice.ts:29-31 | the user is cleared; loading and error are untouched |
| `AuthSlice.UserSlice.Pending` | client/src/store/auth/authSlice.ts:36-39 | every pending case sets loading, clears the error and keeps the user |
| `AuthSlice.UserSlice.Rejected` | client/src/store/auth/authSlice.ts:40-43 | every rejected case records the message, stops loading and keeps the user |
| `AuthSlice.UserSlice.Fulfilled` | client/src/store/auth/authSlice.ts:44-104 | every fulfilled case stops loading and clears the error; sign-out clears the user, the others take the payload |
| `StatusStyles.StatusColor` | client/src/lib/utils.ts:8-21 | the gray TODO badge colour exactly for TODO and for every string that is not a status |
| `StatusStyles.PriorityColor` | client/src/lib/utils.ts:23-32 | a colour exactly for low, medium and high, nothing for any other string |
| `StatusStyles.StatusColorCard` | client/src/lib/utils.ts:34-47 | the gray fallback card colour exactly for strings that are not a status |
| `StatusStyles.StatusLabel` | client/src/lib/utils.ts:49-62 | "Unknown" exactly for strings that are not a status |
| `StatusStyles.ColumnColor` | client/src/lib/utils.ts:64-77 | the gray TODO border exactly for TODO and for every string that is not a status |
| `StatusStyles.UnknownStatusFallsBackToTodo` | client/src/lib/utils.ts:8-21 | badge colour and lane border of an unknown status are those of TODO |
| `StatusStyles.UnknownCardColorIsDistinct` | client/src/lib/utils.ts:34-47 | the card fallback differs from the card colour of every status |
| `StatusStyles.TablesSeparateStatuses` | client/src/lib/utils.ts:8-77 | each of the four status tables gives different values to different statuses |
| `StatusStyles.PriorityColorsDistinct` | client/src/lib/utils.ts:23-32 | the three priorities get three different colours |
| `StatusStyles.LabelsAgree` | client/src/utils/constant.ts:21-38 | status options, labels and lane names agree, status by status and in order |
| `Schema.UserAccepts` | client/src/types/schema.ts:3-13 | the user schema: a name of 1-20 characters, an e-mail the library accepts, a password of 1-8 characters; pinned in both directions by `UserSchemaRule` |
| `Schema.SignInAccepts` | client/src/types/schema.ts:16 | the user schema without the name: an e-mail the library accepts and a password of 1-8 characters |
| `Schema.UpdateAccepts` | client/src/types/schema.ts:19 | the user schema without the password: a name of 1-20 characters and an e-mail the library accepts |
| `Schema.ProjectAccepts` | client/src/types/schema.ts:22-31 | the project schema: a name of 1-20 and a description of 1-60 characters; pinned by `ProjectSchemaRule` |
| `Schema.TaskAccepts` | client/src/types/schema.ts:35-47 | the task schema: bounded name and description, an enumerated status and priority, a due date the coercion accepts; pinned by `TaskSchemaRule` |
| `Schema.TaskSchemaRule` | client/src/types/schema.ts:35-47 | a task is accepted exactly when its name has 1-20 and its description 1-100 characters, its status is one of the four and its priority one of the three literal strings, and its due date coerces |
| `Schema.ProjectSchemaRule` | client/src/types/schema.ts:22-31 | a project is accepted exactly when its name has 1-20 and its description 1-60 characters |
| `Schema.UserSchemaRule` | client/src/types/schema.ts:3-13 | a user is accepted exactly when the name has 1-20 characters, the e-mail passes the library check and the password has 1-8 characters |
| `Schema.DerivedSchemasIgnoreOmittedField` | client/src/types/schema.ts:16-19 | the sign-in verdict does not depend on the name, the update verdict not on the password |
| `Schema.UserAcceptanceCarriesOver` | client/src/types/schema.ts:3-19 | whatever the user schema accepts, both derived schemas accept |
| `AuthSystem.HasCharIn` | server/auth-system.ts:110-112 | true exactly when some character lies in the range |
| `AuthSystem.RegisterPasswordOk` | server/auth-system.ts:107-112 | the register password rule: at least 8 characters and a character in each of A-Z, a-z and 0-9; pinned in both directions by `RegisterPasswordRule` |
| `AuthSystem.RegisterAccepts` | server/auth-system.ts:105-113 | the register schema: an e-mail the library accepts and a password meeting the password rule |
| `AuthSystem.LoginAccepts` | server/auth-system.ts:115-118 | the login schema: an e-mail the library accepts and a non-empty password |
| `AuthSystem.RefreshAccepts` | server/auth-system.ts:120-122 | the refresh schema: a non-empty refresh token; pinned by `RefreshTokenRule` |
| `AuthSystem.RegisterPasswordRule` | server/auth-system.ts:107-112 | a register password is accepted iff it has at least 8 characters, an upper-case letter, a lower-case letter and a digit |
| `AuthSystem.RefreshTokenRule` | server/auth-system.ts:120-122 | a refresh token is accepted iff it is not empty |
| `AuthSystem.RegisterImpliesLogin` | server/auth-system.ts:105-118 | every registrable e-mail and password pair also passes the login schema |
| `AuthSystem.Split` | server/auth-system.ts:279 | at least one field, no field contains a space, joining the fields with spaces gives the input back, the first field is the text before the first space |
| `AuthSystem.Join` | server/auth-system.ts:279 | the partner of `split(" ")`: the first field is a prefix of the join, followed by a space separator when more fields come |
| `AuthSystem.SplitJoin` | server/auth-system.ts:279 | splitting the join of space-free fields gives the fields back |
| `AuthSystem.BearerToken` | server/auth-system.ts:279 | the token is the text after "Bearer " up to the next space, and contains no space |
| `AuthSystem.Authenticate` | server/auth-system.ts:267-290 | a missing header or one not starting with "Bearer " gets 401 "Authentication required"; the request proceeds exactly when the token verifies, with the verified identity |
| `AuthSystem.DoubleSpaceGivesEmptyToken` | server/auth-system.ts:279 | for "Bearer  x" the token is the empty string |

## Findings

| source | as written | input that shows it | evidently intended | confidence | as-written member | corrected member |
|---|---|---|---|---|---|---|
| client/src/components/kanban_v2/Kanban.tsx:82-98 | the final SET_TASKS is `arrayMove` over the rendered list, so the status rewrite dispatched just before it is lost | tasks [T1 with TODO, T2 with IN_PROGRESS], drop T1 on T2: the store ends as [T2, T1] with T1 still TODO | the dragged task moves to the target's index and takes the target's status | not executed | `Kanban.CrossLaneDropScenario` | `Kanban.IntendedTaskDrop` |

The board (`Kanban.Board.DragEnd`) keeps the code's behaviour. The
corrected function is given beside it and is not used by the board.

## Left out

- HTTP, axios, the request services and the server controllers, services, routes and database: the status-update call is the `response` argument of `Kanban.Board.DragEnd`.
- Overlapping drags: each handler run is one sequential step, so an answer that arrives after a later drag is not modelled.
- Rendering, the drag sensors, the drag overlay and the old `kanban` components: presentation only.
- `DELETE_PROJECT`, which a project card dispatches, is not in the reducer's action union and has no meaning there; it is not an `Action`.
- The async thunk bodies of the session slice: they only call the user service and turn errors into messages. The slice's `rejected` payload is taken to be the message string.
- `AuthService`, token issuing, refresh-token rotation and expiry: database calls and wall-clock time.
- The e-mail format check, date coercion and JWT verification of the libraries: parameters (`isEmail`, `isDate`, `verify`).
- Validation messages of the schemas: only the accept/reject verdict is modelled.
- String lengths are counted in characters, while JavaScript counts UTF-16 code units; the two differ for characters outside the Basic Multilingual Plane.
- `Domain.Lower`: lower-cases ASCII letters only. The chart compares the result with "low", "medium" and "high". The only non-ASCII characters whose lower case contains an ASCII letter are the Kelvin sign (to "k") and capital I with dot above (to "i" and a combining dot), and neither can make a string equal to one of those words, so the counts are the same.
- A task's `priority` is assumed present; a missing priority, which the chart skips through optional chaining, behaves like any unknown priority string.
- Dates and timestamps are kept as opaque strings.
