# Appsmith application forking and App Viewer route tree, in Dafny

This project models two pieces of Appsmith.

**Forking (`forking.dfy`, module `Forking`).** This is the server-side workflow of
`ApplicationForkingServiceCEImpl`, which forks an application into a target
workspace.
- `forkApplicationToWorkspaceWithEnvironment` looks up the source application,
  the target workspace and the current user. It strips the git metadata and
  applies the fork rule. It then calls the fork engine with a one-element
  list, reads back the first created application and sends the FORK
  analytics event.
- `forkApplicationToWorkspace` first resolves which database entry to fork:
  the explicit branch, or the default branch of a git application that sits
  on a stale branch. It then forks that entry into the default environment of
  its workspace and shapes the result for the client.

Each reactive pipeline is a function returning a `Run`. A `Run` holds a `Mono`
outcome (a value, empty completion, or an error) and the list of calls the
pipeline made on its collaborators, in order. The collaborators are the
fields of `Services`. Each reactive collaborator answers as a function of the
calls made before it and of its arguments. `updateApplicationWithDefaultResources`
is a plain function of the application, and the edit permission's value is a
constant. So the model works for every possible behaviour of
the persistence layer, the session, the fork engine and the analytics service.

**Route tree (`route_tree.dfy`, module `RouteTree`).** This is the client-side
`makeRouteNode` and `getIconType` of the App Viewer. `makeRouteNode` walks a
navigation tree. It appends at most one route per node to the list it is
given. A group's route gets the routes of its children, built recursively in
order. A node whose page id is in `hideRow` is left out. Every page found in
the caller's pages map is marked visited. The model keeps this imperative
form:
- `PagesMap` and `RouteList` are classes for the two objects the code mutates.
- `MakeRouteNode` is a recursive method with a loop over the children.
- `MakeRouteNode` is proved against pure functions (`Emitted`, `BuildRoutes`,
  `MarkAll`, `VisitedTitles`), and the lemmas state properties of those
  functions.

`wrappers.dfy` holds the `Option` type, which stands for Java's `null` and
JavaScript's `undefined`.

Two behaviours of the code are worth noting:
- An empty answer from `findByBranchNameAndDefaultApplicationId` is not turned
  into a not-found error. This holds for the explicit branch and for the
  default-branch redirect. The empty completion simply propagates.
- If the analytics step's re-read of the source application completes empty,
  the inner fork workflow completes empty rather than with the forked
  application (`Forking.SendForkApplicationAnalyticsEvent`). Because the
  caller-facing `Mono.create` sink has no completion consumer, the caller of
  either public operation then receives no signal at all. The same holds for
  every other empty inner outcome (see "## Left out").

## Model

| member | source | states |
|---|---|---|
| Forking.OrNotFound | app/server/appsmith-server/src/main/java/com/appsmith/server/solutions/ce/ApplicationForkingServiceCEImpl.java:47-55 | `switchIfEmpty(error)`: never empty; an empty lookup becomes NO_RESOURCE_FOUND for that field and id; any other outcome passes through unchanged |
| Forking.Zip3 | app/server/appsmith-server/src/main/java/com/appsmith/server/solutions/ce/ApplicationForkingServiceCEImpl.java:62 | the zip yields a value iff all three parts do, and then the tuple of their values; otherwise the first non-value part, in argument order, decides the outcome |
| Forking.AllowFork | app/server/appsmith-server/src/main/java/com/appsmith/server/solutions/ce/ApplicationForkingServiceCEImpl.java:74-82 | the fork rule: a signed-in user whose permissions on the application include the edit permission, or an application whose `forkingEnabled` is exactly TRUE |
| Forking.AllowForkCases | app/server/appsmith-server/src/main/java/com/appsmith/server/solutions/ce/ApplicationForkingServiceCEImpl.java:74-82 | an opted-in application (`forkingEnabled` exactly TRUE) can always be forked; otherwise forking needs a signed-in user with the edit permission; an anonymous user may fork only an opted-in application (null counts as not opted in) |
| Forking.FetchPrerequisites | app/server/appsmith-server/src/main/java/com/appsmith/server/solutions/ce/ApplicationForkingServiceCEImpl.java:47-66 | the three lookups are issued in order under the read and application-create permissions; a missing application or workspace gives NO_RESOURCE_FOUND with its field name and id; the result is a value iff all three lookups are values, and then holds exactly the three answers; otherwise the first non-value in argument order decides: errors pass through, and an empty or failed current-user lookup is forwarded as it is; no engine call |
| Forking.ForkIfAllowed | app/server/appsmith-server/src/main/java/com/appsmith/server/solutions/ce/ApplicationForkingServiceCEImpl.java:68-91 | when the fork rule fails: APPLICATION_FORKING_NOT_ALLOWED and no call at all; otherwise exactly one engine call, with the target workspace id, the source application alone with its git metadata cleared, and the given environment; its answer is the outcome; no git metadata reaches the engine |
| Forking.FirstId | app/server/appsmith-server/src/main/java/com/appsmith/server/solutions/ce/ApplicationForkingServiceCEImpl.java:94 | `get(0)`: the first id when the list is non-empty, an index-out-of-bounds error otherwise |
| Forking.AnalyticsPayload | app/server/appsmith-server/src/main/java/com/appsmith/server/solutions/ce/ApplicationForkingServiceCEImpl.java:166-174 | `Map.of` fails exactly when the source application's name is null; otherwise the payload has exactly the four keys, with the source application id, the workspace id, the source name and the event data |
| Forking.SendForkApplicationAnalyticsEvent | app/server/appsmith-server/src/main/java/com/appsmith/server/solutions/ce/ApplicationForkingServiceCEImpl.java:161-182 | never ends in an error; re-reads the source application first; a failed re-read returns the forked application and an empty one completes empty; a found source leads to the FORK event iff its name is present, sent with the payload above and the forked application as subject; a found source with a null name returns the forked application; an error from sending is replaced by the forked application |
| Forking.CompleteFork | app/server/appsmith-server/src/main/java/com/appsmith/server/solutions/ce/ApplicationForkingServiceCEImpl.java:93-99 | no ids gives an index error and no call; otherwise the first created id is fetched first; a non-value fetch ends the workflow with that outcome; for a fetched application the trace is the fetch followed by exactly the analytics step's calls (the re-read, then the FORK event when it is sent) and the outcome is that step's, which is never an error; no engine call here |
| Forking.ForkWithPrerequisites | app/server/appsmith-server/src/main/java/com/appsmith/server/solutions/ce/ApplicationForkingServiceCEImpl.java:63-99 | with the prerequisites in hand: at most one engine call, made only when the fork rule holds for that user and application, and never with git metadata |
| Forking.ForkApplicationToWorkspaceWithEnvironment | app/server/appsmith-server/src/main/java/com/appsmith/server/solutions/ce/ApplicationForkingServiceCEImpl.java:44-112 | the three lookups always come first, in order; the fork engine is called at most once; it is called only when all prerequisites are found and the fork rule holds; it never receives git metadata; a prerequisite that is not a value (NO_RESOURCE_FOUND, a lookup error, an empty or failed current user) ends the workflow with that outcome unchanged after exactly the three lookups |
| Forking.ForkValidationOrder | app/server/appsmith-server/src/main/java/com/appsmith/server/solutions/ce/ApplicationForkingServiceCEImpl.java:47-86 | a missing source application gives NO_RESOURCE_FOUND(application, id); a found application with a missing workspace gives NO_RESOURCE_FOUND(workspace, id); found prerequisites that fail the rule give APPLICATION_FORKING_NOT_ALLOWED; in each case only the lookups were made |
| Forking.EngineCalledWhenAllowed | app/server/appsmith-server/src/main/java/com/appsmith/server/solutions/ce/ApplicationForkingServiceCEImpl.java:84-99 | when the rule holds, the engine call is the first call and the only engine call; a non-value engine answer is the outcome; a value goes on to the completion stages, with WORKSPACE mapped to the target workspace as event data |
| Forking.ForkEngineCall | app/server/appsmith-server/src/main/java/com/appsmith/server/solutions/ce/ApplicationForkingServiceCEImpl.java:62-99 | when the rule allows the fork, the engine is called right after the three lookups, with the target workspace id, the git-stripped application alone and the given environment; engine errors reach the caller unchanged; on success the created application is fetched and analytics sent, with the workspace as event data |
| Forking.AnalyticsFailureLeavesForkUnchanged | app/server/appsmith-server/src/main/java/com/appsmith/server/solutions/ce/ApplicationForkingServiceCEImpl.java:95-98 | if the re-read of the source application fails, finds a source with a null name, or sending the event fails, the result is still the fetched forked application |
| Forking.AnonymousForkNeedsOptIn | app/server/appsmith-server/src/main/java/com/appsmith/server/solutions/ce/ApplicationForkingServiceCEImpl.java:74-86 | an anonymous user forking an application that did not opt in gets APPLICATION_FORKING_NOT_ALLOWED, and the engine is never called |
| Forking.OnStaleBranch | app/server/appsmith-server/src/main/java/com/appsmith/server/solutions/ce/ApplicationForkingServiceCEImpl.java:128-134 | the redirect condition: the application has git metadata and its branch name differs from its default branch name |
| Forking.ResolveSourceApplication | app/server/appsmith-server/src/main/java/com/appsmith/server/solutions/ce/ApplicationForkingServiceCEImpl.java:117-145 | an explicit branch is one branch lookup whose answer, even empty, is the outcome; otherwise the application is read by id (missing: NO_RESOURCE_FOUND); an application on a branch other than its default is looked up again on the default branch of the same default application; any other application is used as read; no engine call |
| Forking.ShapeForClient | app/server/appsmith-server/src/main/java/com/appsmith/server/solutions/ce/ApplicationForkingServiceCEImpl.java:155-157 | a non-value fork outcome passes through and nothing is called; a forked application is converted to default resources and passed with its own id and workspace id to the import DTO builder, whose answer is the outcome |
| Forking.ForkResolvedApplication | app/server/appsmith-server/src/main/java/com/appsmith/server/solutions/ce/ApplicationForkingServiceCEImpl.java:147-158 | the default environment of the resolved application's own workspace is looked up first; if none is found that outcome is final; otherwise the fork workflow runs on the resolved application's id in that environment and its result is shaped for the client; at most one engine call, never with git metadata |
| Forking.ForkApplicationToWorkspace | app/server/appsmith-server/src/main/java/com/appsmith/server/solutions/ce/ApplicationForkingServiceCEImpl.java:114-159 | an unresolved source ends the workflow after the resolution calls; a resolved one continues as above; overall at most one engine call, never with git metadata |
| Forking.ResolvedForkLooksUpResolvedId | app/server/appsmith-server/src/main/java/com/appsmith/server/solutions/ce/ApplicationForkingServiceCEImpl.java:149-154 | once the environment is known, the fork workflow's lookups are made on the resolved application's id and the target workspace |
| Forking.StaleBranchResolvesToDefaultBranch | app/server/appsmith-server/src/main/java/com/appsmith/server/solutions/ce/ApplicationForkingServiceCEImpl.java:120-139 | without an explicit branch, an application on a stale branch resolves to the default-branch lookup's answer; exactly two calls are made: the read by id, then the lookup by default branch |
| Forking.StaleBranchForksFromDefaultBranch | app/server/appsmith-server/src/main/java/com/appsmith/server/solutions/ce/ApplicationForkingServiceCEImpl.java:120-154 | for a stale-branch application, the environment is looked up for the default-branch application's workspace, and the fork reads the default-branch application's id rather than the id the caller gave |
| RouteTree.GetIconType | app/client/src/pages/AppViewer/utils.ts:145 | an icon is produced iff the icon is present and non-empty; it is `icon-` followed by the icon name, which can be read back from it |
| RouteTree.BuildItem | app/client/src/pages/AppViewer/utils.ts:149-177 | no item exactly for a page whose title is missing from the pages map; every item carries the node's title and icon; a page's path is the viewer URL of its page id and it has no routes; a group's path is `/` and it has routes iff it has a children array |
| RouteTree.Hidden | app/client/src/pages/AppViewer/utils.ts:179 | `hideRow.find` finds an entry: some entry's page id equals the node's, two absent page ids counting as equal |
| RouteTree.BuildRoutes | app/client/src/pages/AppViewer/utils.ts:164 | the `forEach` over children: the routes each child emits, concatenated in the children's order |
| RouteTree.Emitted | app/client/src/pages/AppViewer/utils.ts:178-182 | a node appends at most one route; it appends one iff it has an item and no `hideRow` entry has its page id; what it appends is that item |
| RouteTree.PagesMap.MarkVisited | app/client/src/pages/AppViewer/utils.ts:160 | the title's entry is marked visited; nothing else in the map changes |
| RouteTree.RouteList.constructor | app/client/src/pages/AppViewer/utils.ts:163 | a group's routes list starts empty |
| RouteTree.RouteList.Push | app/client/src/pages/AppViewer/utils.ts:180 | appends the item at the end; earlier items stay as they were |
| RouteTree.MakeRouteNode | app/client/src/pages/AppViewer/utils.ts:147-183 | the list gains exactly the node's emitted route (whose children's routes are built in order); the pages map becomes the old one with exactly the pages reached under the node marked visited |
| RouteTree.MarkAllKeepsPageIds | app/client/src/pages/AppViewer/utils.ts:157-164 | marking pages visited changes no page id and no key, so each child's route does not depend on the siblings handled before it |
| RouteTree.HiddenPageStillVisited | app/client/src/pages/AppViewer/utils.ts:151-181 | a page in the pages map whose page id is hidden produces no route but is still marked visited, since marking happens before the hide check |
| RouteTree.MissingPageChangesNothing | app/client/src/pages/AppViewer/utils.ts:151-152 | a page whose title is not in the pages map produces no route and leaves the pages map unchanged |
| RouteTree.VisitedTitlesAreKeys | app/client/src/pages/AppViewer/utils.ts:152-160 | only titles already in the pages map are marked; no entry is ever added |
| RouteTree.VisitedInListAreKeys | app/client/src/pages/AppViewer/utils.ts:164 | the same for a list of siblings |
| RouteTree.BuildRoutesAppend | app/client/src/pages/AppViewer/utils.ts:164 | the routes of two runs of siblings are the routes of the first followed by those of the second: children are handled in order and independently |
| RouteTree.BuildRoutesBounded | app/client/src/pages/AppViewer/utils.ts:164-181 | a group has at most as many routes as children |

## Left out

- The cancellation decoupling of `Mono.create` (ApplicationForkingServiceCEImpl.java:110-111) is not modelled, and neither is the subscription that keeps the workflow running after the caller leaves. There is no notion of subscribers or time. The model returns the inner workflow's outcome. In the code, an empty inner outcome is never delivered to the sink, because no completion consumer is wired.
- Concurrency in `Mono.zip` is not modelled. The three lookups are always all recorded, in argument order, and the first non-value in that order decides the outcome. The code fails fast on whichever lookup fails first in time.
- The collaborators are not modelled beyond their signatures: the fork engine, application and workspace persistence, the session service, the import/export service and the analytics service are unconstrained functions of the call history and arguments; `ResponseUtils.updateApplicationWithDefaultResources` is an unconstrained function of the application alone.
- The `FieldName` constant values and the edit permission's value come from files that are not part of this model. The keys are named string constants, and the permission value is a field of `Services`.
- Null handling: `userPermissions`, the git branch names, ids and a null `branchName` are not modelled. None of them is null in the model, and an empty branch name stands for `StringUtils.isEmpty`.
- Forking.ForkIfAllowed: `setGitApplicationMetadata(null)` mutates the fetched application in place. The model passes a copy with the metadata cleared, so aliasing with the persistence layer is not modelled. Likewise, the mutable `eventData` map is modelled as the one-entry map it holds when it is read.
- Logging (`log.warn` in the analytics error handler) is not modelled.
- RouteTree.GetIconType: JavaScript truthiness is modelled for strings only; non-string icons (numbers, objects) are not part of the model.
- RouteTree.MakeRouteNode: titles are plain map keys. JavaScript prototype keys of `pagesMap`, and falsy non-object entries, are not modelled. `viewerURL` is a parameter, a function from page id to path, and the route builder functions of the app are not part of this model.
- The colour and style helpers in `utils.ts` (navigation colours, hover colours, menu item styles) are not part of this model.
