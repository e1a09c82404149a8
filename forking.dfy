/**
  The application-forking workflow of ApplicationForkingServiceCEImpl
  (app/server/appsmith-server/src/main/java/com/appsmith/server/solutions/ce/).

  Each reactive pipeline is a function that returns a `Run`: the outcome of
  the pipeline (a `Mono`: a value, empty completion, or an error) together
  with the calls it made on its collaborators, in the order it issued them.
  The collaborators themselves are the fields of `Services`; each answers as a
  function of the calls that came before it and of its arguments, so a later
  answer may depend on what an earlier call did (the engine creating the new
  application that `getById` then finds, say).
*/
module Forking {
  import opened Wrappers

  // Keys of the FieldName constants class used by the workflow.
  const APPLICATION: string := "application"
  const WORKSPACE: string := "workspace"
  const EVENT_DATA: string := "eventData"

  // Keys of the analytics payload.
  const FORKED_FROM_APP_ID: string := "forkedFromAppId"
  const FORKED_TO_ORG_ID: string := "forkedToOrgId"
  const FORKED_FROM_APP_NAME: string := "forkedFromAppName"

  datatype GitApplicationMetadata = GitApplicationMetadata(branchName: string, defaultBranchName: string)

  /** An application: `name` and `forkingEnabled` may be null. */
  datatype Application = Application(
    id: string,
    name: Option<string>,
    workspaceId: string,
    gitApplicationMetadata: Option<GitApplicationMetadata>,
    forkingEnabled: Option<bool>,
    userPermissions: set<string>)

  datatype Workspace = Workspace(id: string)

  datatype User = User(isAnonymous: bool)

  /** The permissions the lookups are made under. */
  datatype AclPermission = ApplicationRead | WorkspaceApplicationCreate

  datatype AppsmithError =
    | NoResourceFound(fieldName: string, id: string)
    | ApplicationForkingNotAllowed
    | IndexOutOfBounds
    | Raised(message: string)      // any error a collaborator signals

  /** The three ways a Reactor `Mono` can end. */
  datatype Mono<+T> = Value(value: T) | Empty | Error(error: AppsmithError)

  /** A value of an analytics map (`Map<String, Object>`). */
  datatype EventValue = Text(text: string) | WorkspaceValue(workspace: Workspace) | EventMap(entries: map<string, EventValue>)

  datatype AnalyticsEvent = FORK

  /** The import-shaped result for the client; its other parts are made by a
      collaborator and are not modelled. */
  datatype ApplicationImportDTO = ApplicationImportDTO(application: Application)

  /** A call on a collaborator, with its arguments. */
  datatype Call =
    | FindById(applicationId: string, permission: AclPermission)
    | FindWorkspaceById(workspaceId: string, permission: AclPermission)
    | GetCurrentUser
    | FindByBranchNameAndDefaultApplicationId(branchName: string, defaultApplicationId: string, permission: AclPermission)
    | GetDefaultEnvironmentId(workspaceId: string)
    | ForkApplications(targetWorkspaceId: string, applications: seq<Application>, sourceEnvironmentId: string)
    | GetById(applicationId: string)
    | SendObjectEvent(event: AnalyticsEvent, subject: Application, data: map<string, EventValue>)
    | GetApplicationImportDTO(applicationId: string, workspaceId: string, application: Application)

  /** The collaborators. Every function gets the calls made before it. */
  datatype Services = Services(
    findById: (seq<Call>, string, AclPermission) -> Mono<Application>,
    findWorkspaceById: (seq<Call>, string, AclPermission) -> Mono<Workspace>,
    getCurrentUser: seq<Call> -> Mono<User>,
    findByBranchNameAndDefaultApplicationId: (seq<Call>, string, string, AclPermission) -> Mono<Application>,
    getDefaultEnvironmentId: (seq<Call>, string) -> Mono<string>,
    forkApplications: (seq<Call>, string, seq<Application>, string) -> Mono<seq<string>>,
    getById: (seq<Call>, string) -> Mono<Application>,
    sendObjectEvent: (seq<Call>, AnalyticsEvent, Application, map<string, EventValue>) -> Mono<Application>,
    updateApplicationWithDefaultResources: Application -> Application,
    getApplicationImportDTO: (seq<Call>, string, string, Application) -> Mono<ApplicationImportDTO>,
    editPermissionValue: string)

  /** A pipeline's outcome and the calls it made. */
  datatype Run<+T> = Run(result: Mono<T>, calls: seq<Call>)

  /** The calls to the fork engine in a trace. */
  function EngineCalls(calls: seq<Call>): (r: seq<Call>)
    ensures |r| <= |calls|
    ensures forall c :: c in r ==> c in calls && c.ForkApplications?
    ensures forall c :: c in calls && c.ForkApplications? ==> c in r
  {
    if calls == [] then []
    else (if calls[0].ForkApplications? then [calls[0]] else []) + EngineCalls(calls[1..])
  }

  /** No application handed to the fork engine carries git metadata. */
  predicate NoGitReachesEngine(calls: seq<Call>) {
    forall c :: c in EngineCalls(calls) ==>
      forall a :: a in c.applications ==> a.gitApplicationMetadata.None?
  }

  /** A non-value outcome, retyped. */
  function Forward<T, U>(m: Mono<T>): (r: Mono<U>)
    requires !m.Value?
    ensures r.Empty? <==> m.Empty?
    ensures r.Error? ==> m.Error? && r.error == m.error
  {
    if m.Empty? then Empty else Error(m.error)
  }

  /** `switchIfEmpty(Mono.error(NO_RESOURCE_FOUND(fieldName, id)))` */
  function OrNotFound<T>(m: Mono<T>, fieldName: string, id: string): (r: Mono<T>)
    ensures !r.Empty?
    ensures m.Empty? ==> r == Error(NoResourceFound(fieldName, id))
    ensures !m.Empty? ==> r == m
  {
    if m.Empty? then Error(NoResourceFound(fieldName, id)) else m
  }

  /** `Mono.zip` of three lookups, taking the first that is not a value in
      argument order. */
  function Zip3<A, B, C>(a: Mono<A>, b: Mono<B>, c: Mono<C>): (r: Mono<(A, B, C)>)
    ensures r.Value? <==> a.Value? && b.Value? && c.Value?
    ensures r.Value? ==> r.value == (a.value, b.value, c.value)
    ensures !a.Value? ==> r == Forward(a)
    ensures a.Value? && !b.Value? ==> r == Forward(b)
    ensures a.Value? && b.Value? && !c.Value? ==> r == Forward(c)
  {
    if !a.Value? then Forward(a)
    else if !b.Value? then Forward(b)
    else if !c.Value? then Forward(c)
    else Value((a.value, b.value, c.value))
  }

  /** The fork rule: a signed-in user with edit permission on the application,
      or an application whose `forkingEnabled` is exactly TRUE (null counts
      as false). */
  predicate AllowFork(user: User, application: Application, editPermissionValue: string) {
    (!user.isAnonymous && editPermissionValue in application.userPermissions)
    || application.forkingEnabled == Some(true)
  }

  lemma AllowForkCases(user: User, application: Application, editPermissionValue: string)
    ensures application.forkingEnabled == Some(true) ==> AllowFork(user, application, editPermissionValue)
    ensures application.forkingEnabled != Some(true) ==>
      (AllowFork(user, application, editPermissionValue) <==> !user.isAnonymous && editPermissionValue in application.userPermissions)
    ensures user.isAnonymous ==> (AllowFork(user, application, editPermissionValue) <==> application.forkingEnabled == Some(true))
  {
  }

  /** The three lookups of the first stage, in the order they are issued. */
  function Lookups(srcApplicationId: string, targetWorkspaceId: string): seq<Call> {
    [FindById(srcApplicationId, ApplicationRead),
     FindWorkspaceById(targetWorkspaceId, WorkspaceApplicationCreate),
     GetCurrentUser]
  }

  /** Stage 1: source application, target workspace and current user. */
  function FetchPrerequisites(svc: Services, h: seq<Call>, srcApplicationId: string, targetWorkspaceId: string)
    : (r: Run<(Application, Workspace, User)>)
    ensures r.calls == Lookups(srcApplicationId, targetWorkspaceId)
    ensures EngineCalls(r.calls) == []
    ensures svc.findById(h, srcApplicationId, ApplicationRead).Empty? ==>
      r.result == Error(NoResourceFound(APPLICATION, srcApplicationId))
    ensures svc.findById(h, srcApplicationId, ApplicationRead).Error? ==>
      r.result == Error(svc.findById(h, srcApplicationId, ApplicationRead).error)
    ensures svc.findById(h, srcApplicationId, ApplicationRead).Value? ==>
      var ws := svc.findWorkspaceById(h + [FindById(srcApplicationId, ApplicationRead)], targetWorkspaceId, WorkspaceApplicationCreate);
      && (ws.Empty? ==> r.result == Error(NoResourceFound(WORKSPACE, targetWorkspaceId)))
      && (ws.Error? ==> r.result == Error(ws.error))
    ensures var source := svc.findById(h, srcApplicationId, ApplicationRead);
      var target := svc.findWorkspaceById(h + [FindById(srcApplicationId, ApplicationRead)], targetWorkspaceId, WorkspaceApplicationCreate);
      var user := svc.getCurrentUser(h + [FindById(srcApplicationId, ApplicationRead),
                                          FindWorkspaceById(targetWorkspaceId, WorkspaceApplicationCreate)]);
      && (r.result.Value? <==> source.Value? && target.Value? && user.Value?)
      && (source.Value? && target.Value? && !user.Value? ==> r.result == Forward(user))
    ensures r.result.Value? ==>
      && Value(r.result.value.0) == svc.findById(h, srcApplicationId, ApplicationRead)
      && Value(r.result.value.1) == svc.findWorkspaceById(h + r.calls[..1], targetWorkspaceId, WorkspaceApplicationCreate)
      && Value(r.result.value.2) == svc.getCurrentUser(h + r.calls[..2])
  {
    var calls := Lookups(srcApplicationId, targetWorkspaceId);
    assert calls[..1] == [FindById(srcApplicationId, ApplicationRead)];
    assert calls[..2] == [FindById(srcApplicationId, ApplicationRead), FindWorkspaceById(targetWorkspaceId, WorkspaceApplicationCreate)];
    assert EngineCalls(calls[2..]) == [] && EngineCalls(calls[1..]) == [];
    var source := OrNotFound(svc.findById(h, srcApplicationId, ApplicationRead), APPLICATION, srcApplicationId);
    var target := OrNotFound(svc.findWorkspaceById(h + calls[..1], targetWorkspaceId, WorkspaceApplicationCreate), WORKSPACE, targetWorkspaceId);
    var user := svc.getCurrentUser(h + calls[..2]);
    Run(Zip3(source, target, user), calls)
  }

  /** Stage 2: strip git metadata, apply the fork rule, call the fork engine
      with the target workspace's id, a one-element list and the environment. */
  function ForkIfAllowed(svc: Services, h: seq<Call>, application: Application, targetWorkspace: Workspace, user: User, sourceEnvironmentId: string)
    : (r: Run<seq<string>>)
    ensures !AllowFork(user, application, svc.editPermissionValue) ==>
      r == Run(Error(ApplicationForkingNotAllowed), [])
    ensures AllowFork(user, application, svc.editPermissionValue) ==>
      var stripped := application.(gitApplicationMetadata := None);
      && r.calls == [ForkApplications(targetWorkspace.id, [stripped], sourceEnvironmentId)]
      && r.result == svc.forkApplications(h, targetWorkspace.id, [stripped], sourceEnvironmentId)
    ensures NoGitReachesEngine(r.calls)
  {
    var stripped := application.(gitApplicationMetadata := None);
    if !AllowFork(user, stripped, svc.editPermissionValue) then
      Run(Error(ApplicationForkingNotAllowed), [])
    else
      Run(svc.forkApplications(h, targetWorkspace.id, [stripped], sourceEnvironmentId),
          [ForkApplications(targetWorkspace.id, [stripped], sourceEnvironmentId)])
  }

  /** `applicationIds.get(0)` */
  function FirstId(applicationIds: seq<string>): (r: Mono<string>)
    ensures r.Value? <==> |applicationIds| > 0
    ensures r.Value? ==> r.value == applicationIds[0]
    ensures !r.Value? ==> r == Error(IndexOutOfBounds)
  {
    if |applicationIds| > 0 then Value(applicationIds[0]) else Error(IndexOutOfBounds)
  }

  /** The analytics payload, `Map.of(...)`; None when a value is null, which
      `Map.of` refuses by throwing. */
  function AnalyticsPayload(applicationId: string, workspaceId: string, sourceApplication: Application, eventData: map<string, EventValue>)
    : (r: Option<map<string, EventValue>>)
    ensures r.Some? <==> sourceApplication.name.Some?
    ensures r.Some? ==>
      && r.value.Keys == {FORKED_FROM_APP_ID, FORKED_TO_ORG_ID, FORKED_FROM_APP_NAME, EVENT_DATA}
      && r.value[FORKED_FROM_APP_ID] == Text(applicationId)
      && r.value[FORKED_TO_ORG_ID] == Text(workspaceId)
      && r.value[FORKED_FROM_APP_NAME] == Text(sourceApplication.name.value)
      && r.value[EVENT_DATA] == EventMap(eventData)
  {
    if sourceApplication.name.None? then None
    else Some(map[FORKED_FROM_APP_ID := Text(applicationId),
                  FORKED_TO_ORG_ID := Text(workspaceId),
                  FORKED_FROM_APP_NAME := Text(sourceApplication.name.value),
                  EVENT_DATA := EventMap(eventData)])
  }

  /** `sendForkApplicationAnalyticsEvent`: re-reads the source application and
      sends the FORK event. Any error on the way is absorbed and the forked
      application is returned unchanged. */
  function SendForkApplicationAnalyticsEvent(svc: Services, h: seq<Call>, applicationId: string, workspaceId: string,
                                             application: Application, eventData: map<string, EventValue>)
    : (r: Run<Application>)
    ensures !r.result.Error?
    ensures 1 <= |r.calls| <= 2 && r.calls[0] == FindById(applicationId, ApplicationRead)
    ensures EngineCalls(r.calls) == []
    ensures svc.findById(h, applicationId, ApplicationRead).Error? ==> r == Run(Value(application), r.calls[..1])
    ensures svc.findById(h, applicationId, ApplicationRead).Empty? ==> r.result.Empty?
    ensures var source := svc.findById(h, applicationId, ApplicationRead);
      source.Value? ==> (|r.calls| == 2 <==> source.value.name.Some?)
    ensures var source := svc.findById(h, applicationId, ApplicationRead);
      source.Value? && source.value.name.None? ==> r == Run(Value(application), r.calls[..1])
    ensures |r.calls| == 2 ==>
      var source := svc.findById(h, applicationId, ApplicationRead);
      && source.Value?
      && r.calls[1].SendObjectEvent?
      && r.calls[1].event == FORK
      && r.calls[1].subject == application
      && Some(r.calls[1].data) == AnalyticsPayload(applicationId, workspaceId, source.value, eventData)
      && var sent := svc.sendObjectEvent(h + r.calls[..1], FORK, application, r.calls[1].data);
         r.result == if sent.Error? then Value(application) else sent
  {
    var lookup := FindById(applicationId, ApplicationRead);
    match svc.findById(h, applicationId, ApplicationRead)
    case Error(_) => Run(Value(application), [lookup])
    case Empty => Run(Empty, [lookup])
    case Value(sourceApplication) =>
      match AnalyticsPayload(applicationId, workspaceId, sourceApplication, eventData)
      case None => Run(Value(application), [lookup])
      case Some(data) =>
        var sent := svc.sendObjectEvent(h + [lookup], FORK, application, data);
        assert [lookup, SendObjectEvent(FORK, application, data)][..1] == [lookup];
        Run(if sent.Error? then Value(application) else sent, [lookup, SendObjectEvent(FORK, application, data)])
  }

  /** A slice beyond the first part of a concatenation lies in the second. */
  lemma SliceOfSuffix<T>(a: seq<T>, b: seq<T>, i: nat, j: nat)
    requires |a| <= i <= j <= |a| + |b|
    ensures (a + b)[i..j] == b[i - |a|..j - |a|]
  {
  }

  lemma ConcatAssociates<T>(a: seq<T>, b: seq<T>, c: seq<T>)
    ensures a + b + c == a + (b + c)
  {
  }

  /** The engine calls of a concatenated trace are those of each part. */
  lemma {:induction false} EngineCallsAppend(a: seq<Call>, b: seq<Call>)
    ensures EngineCalls(a + b) == EngineCalls(a) + EngineCalls(b)
    decreases |a|
  {
    if a == [] {
      assert a + b == b;
    } else {
      assert (a + b)[0] == a[0];
      assert (a + b)[1..] == a[1..] + b;
      EngineCallsAppend(a[1..], b);
    }
  }

  /** Stages 3 and 4: take the first id the engine returned, fetch the new
      application and send the analytics event. */
  function CompleteFork(svc: Services, h: seq<Call>, applicationIds: seq<string>, srcApplicationId: string,
                        targetWorkspaceId: string, eventData: map<string, EventValue>)
    : (r: Run<Application>)
    ensures EngineCalls(r.calls) == []
    ensures applicationIds == [] ==> r == Run(Error(IndexOutOfBounds), [])
    ensures applicationIds != [] ==>
      var created := svc.getById(h, applicationIds[0]);
      && r.calls != [] && r.calls[0] == GetById(applicationIds[0])
      && (!created.Value? ==> r == Run(Forward(created), r.calls[..1]))
      && (created.Value? ==>
            var analytics := SendForkApplicationAnalyticsEvent(
              svc, h + [GetById(applicationIds[0])], srcApplicationId, targetWorkspaceId, created.value, eventData);
            && !r.result.Error?
            && r == Run(analytics.result, [GetById(applicationIds[0])] + analytics.calls))
  {
    var first := FirstId(applicationIds);
    if !first.Value? then Run(Forward(first), [])
    else
      var get := GetById(first.value);
      var created := svc.getById(h, first.value);
      if !created.Value? then Run(Forward(created), [get])
      else
        var analytics := SendForkApplicationAnalyticsEvent(
          svc, h + [get], srcApplicationId, targetWorkspaceId, created.value, eventData);
        EngineCallsAppend([get], analytics.calls);
        Run(analytics.result, [get] + analytics.calls)
  }

  /** What the fork engine answers once the prerequisites are in hand. */
  function EngineResult(svc: Services, h: seq<Call>, srcApplicationId: string, targetWorkspaceId: string,
                        sourceEnvironmentId: string, prerequisites: (Application, Workspace, User)): Mono<seq<string>> {
    var (application, targetWorkspace, _) := prerequisites;
    svc.forkApplications(h + Lookups(srcApplicationId, targetWorkspaceId), targetWorkspace.id,
                         [application.(gitApplicationMetadata := None)], sourceEnvironmentId)
  }

  /** Stages 2 to 4 once the prerequisites are in hand; `h` ends with the
      lookups. */
  function ForkWithPrerequisites(svc: Services, h: seq<Call>, srcApplicationId: string, targetWorkspaceId: string,
                                 sourceEnvironmentId: string, prerequisites: (Application, Workspace, User))
    : (r: Run<Application>)
    ensures |EngineCalls(r.calls)| <= 1
    ensures NoGitReachesEngine(r.calls)
    ensures EngineCalls(r.calls) != [] ==> AllowFork(prerequisites.2, prerequisites.0, svc.editPermissionValue)
  {
    var (application, targetWorkspace, user) := prerequisites;
    // The event data carries the target workspace to the analytics step.
    var eventData := map[WORKSPACE := WorkspaceValue(targetWorkspace)];
    var fork := ForkIfAllowed(svc, h, application, targetWorkspace, user, sourceEnvironmentId);
    assert EngineCalls(fork.calls) == fork.calls;
    match fork.result
    case Error(e) => Run(Error(e), fork.calls)
    case Empty => Run(Empty, fork.calls)
    case Value(applicationIds) =>
      var rest := CompleteFork(svc, h + fork.calls, applicationIds, srcApplicationId, targetWorkspaceId, eventData);
      EngineCallsAppend(fork.calls, rest.calls);
      Run(rest.result, fork.calls + rest.calls)
  }

  /** `forkApplicationToWorkspaceWithEnvironment`: the workflow behind the
      sink-based wrapper. The engine is called at most once and never sees git
      metadata; the lemmas below say when and with what. */
  function ForkApplicationToWorkspaceWithEnvironment(svc: Services, h: seq<Call>, srcApplicationId: string,
                                                     targetWorkspaceId: string, sourceEnvironmentId: string)
    : (r: Run<Application>)
    // The three lookups always come first, in this order.
    ensures |r.calls| >= 3 && r.calls[..3] == Lookups(srcApplicationId, targetWorkspaceId)
    ensures |EngineCalls(r.calls)| <= 1
    ensures NoGitReachesEngine(r.calls)
    ensures var p := FetchPrerequisites(svc, h, srcApplicationId, targetWorkspaceId).result;
      EngineCalls(r.calls) != [] ==> p.Value? && AllowFork(p.value.2, p.value.0, svc.editPermissionValue)
    // A prerequisite that is not found, fails or completes empty ends the workflow as it is.
    ensures var p := FetchPrerequisites(svc, h, srcApplicationId, targetWorkspaceId);
      !p.result.Value? ==> r == Run(Forward(p.result), Lookups(srcApplicationId, targetWorkspaceId))
  {
    var prerequisites := FetchPrerequisites(svc, h, srcApplicationId, targetWorkspaceId);
    if !prerequisites.result.Value? then Run(Forward(prerequisites.result), prerequisites.calls)
    else
      var rest := ForkWithPrerequisites(svc, h + prerequisites.calls, srcApplicationId, targetWorkspaceId,
                                        sourceEnvironmentId, prerequisites.result.value);
      EngineCallsAppend(prerequisites.calls, rest.calls);
      assert (prerequisites.calls + rest.calls)[..3] == prerequisites.calls;
      Run(rest.result, prerequisites.calls + rest.calls)
  }

  /** Validation errors come in order: source application, then target
      workspace, then the fork rule; none of them reaches the engine. */
  lemma ForkValidationOrder(svc: Services, h: seq<Call>, srcApplicationId: string, targetWorkspaceId: string, sourceEnvironmentId: string)
    ensures var r := ForkApplicationToWorkspaceWithEnvironment(svc, h, srcApplicationId, targetWorkspaceId, sourceEnvironmentId);
      svc.findById(h, srcApplicationId, ApplicationRead).Empty? ==>
        r == Run(Error(NoResourceFound(APPLICATION, srcApplicationId)), Lookups(srcApplicationId, targetWorkspaceId))
    ensures var r := ForkApplicationToWorkspaceWithEnvironment(svc, h, srcApplicationId, targetWorkspaceId, sourceEnvironmentId);
      (svc.findById(h, srcApplicationId, ApplicationRead).Value? &&
       svc.findWorkspaceById(h + [FindById(srcApplicationId, ApplicationRead)], targetWorkspaceId, WorkspaceApplicationCreate).Empty?) ==>
        r == Run(Error(NoResourceFound(WORKSPACE, targetWorkspaceId)), Lookups(srcApplicationId, targetWorkspaceId))
    ensures var r := ForkApplicationToWorkspaceWithEnvironment(svc, h, srcApplicationId, targetWorkspaceId, sourceEnvironmentId);
      var p := FetchPrerequisites(svc, h, srcApplicationId, targetWorkspaceId).result;
      p.Value? && !AllowFork(p.value.2, p.value.0, svc.editPermissionValue) ==>
        r == Run(Error(ApplicationForkingNotAllowed), Lookups(srcApplicationId, targetWorkspaceId))
  {
  }

  /** Stage 2 on its own: with the rule satisfied, the engine is the first
      call and the only engine call; its errors end the workflow. */
  lemma EngineCalledWhenAllowed(svc: Services, h: seq<Call>, srcApplicationId: string, targetWorkspaceId: string,
                                sourceEnvironmentId: string, p: (Application, Workspace, User))
    requires AllowFork(p.2, p.0, svc.editPermissionValue)
    ensures var r := ForkWithPrerequisites(svc, h, srcApplicationId, targetWorkspaceId, sourceEnvironmentId, p);
      var engineCall := ForkApplications(p.1.id, [p.0.(gitApplicationMetadata := None)], sourceEnvironmentId);
      var forked := svc.forkApplications(h, p.1.id, [p.0.(gitApplicationMetadata := None)], sourceEnvironmentId);
      && EngineCalls(r.calls) == [engineCall]
      && (!forked.Value? ==> r == Run(Forward(forked), [engineCall]))
      && (forked.Value? ==>
            var rest := CompleteFork(svc, h + [engineCall], forked.value, srcApplicationId,
                                     targetWorkspaceId, map[WORKSPACE := WorkspaceValue(p.1)]);
            r == Run(rest.result, [engineCall] + rest.calls))
  {
    var r := ForkWithPrerequisites(svc, h, srcApplicationId, targetWorkspaceId, sourceEnvironmentId, p);
    var engineCall := ForkApplications(p.1.id, [p.0.(gitApplicationMetadata := None)], sourceEnvironmentId);
    assert EngineCalls([engineCall]) == [engineCall];
    var forked := svc.forkApplications(h, p.1.id, [p.0.(gitApplicationMetadata := None)], sourceEnvironmentId);
    if forked.Value? {
      var rest := CompleteFork(svc, h + [engineCall], forked.value, srcApplicationId,
                               targetWorkspaceId, map[WORKSPACE := WorkspaceValue(p.1)]);
      EngineCallsAppend([engineCall], rest.calls);
    }
  }

  /** With the prerequisites in hand, the workflow is the lookups followed by
      stages 2 to 4. */
  lemma WithEnvironmentUnfolds(svc: Services, h: seq<Call>, srcApplicationId: string, targetWorkspaceId: string, sourceEnvironmentId: string)
    requires FetchPrerequisites(svc, h, srcApplicationId, targetWorkspaceId).result.Value?
    ensures var lookups := Lookups(srcApplicationId, targetWorkspaceId);
      var stage := ForkWithPrerequisites(svc, h + lookups, srcApplicationId, targetWorkspaceId, sourceEnvironmentId,
                                         FetchPrerequisites(svc, h, srcApplicationId, targetWorkspaceId).result.value);
      ForkApplicationToWorkspaceWithEnvironment(svc, h, srcApplicationId, targetWorkspaceId, sourceEnvironmentId)
        == Run(stage.result, lookups + stage.calls)
  {
  }

  /** When the rule allows the fork, the engine is called right after the
      lookups with the target workspace's id, the git-stripped source
      application alone and the given environment. Its errors reach the caller
      unchanged; on success stages 3 and 4 follow, with WORKSPACE mapped to
      the target workspace as event data. */
  lemma ForkEngineCall(svc: Services, h: seq<Call>, srcApplicationId: string, targetWorkspaceId: string, sourceEnvironmentId: string)
    requires var p := FetchPrerequisites(svc, h, srcApplicationId, targetWorkspaceId).result;
      p.Value? && AllowFork(p.value.2, p.value.0, svc.editPermissionValue)
    ensures var r := ForkApplicationToWorkspaceWithEnvironment(svc, h, srcApplicationId, targetWorkspaceId, sourceEnvironmentId);
      var p := FetchPrerequisites(svc, h, srcApplicationId, targetWorkspaceId).result.value;
      var before := Lookups(srcApplicationId, targetWorkspaceId) + [ForkApplications(p.1.id, [p.0.(gitApplicationMetadata := None)], sourceEnvironmentId)];
      var forked := EngineResult(svc, h, srcApplicationId, targetWorkspaceId, sourceEnvironmentId, p);
      && EngineCalls(r.calls) == before[3..]
      && (!forked.Value? ==> r == Run(Forward(forked), before))
      && (forked.Value? ==>
            var rest := CompleteFork(svc, h + before, forked.value, srcApplicationId,
                                     targetWorkspaceId, map[WORKSPACE := WorkspaceValue(p.1)]);
            r == Run(rest.result, before + rest.calls))
  {
    var p := FetchPrerequisites(svc, h, srcApplicationId, targetWorkspaceId).result.value;
    var lookups := Lookups(srcApplicationId, targetWorkspaceId);
    var engineCall := ForkApplications(p.1.id, [p.0.(gitApplicationMetadata := None)], sourceEnvironmentId);
    var stage := ForkWithPrerequisites(svc, h + lookups, srcApplicationId, targetWorkspaceId, sourceEnvironmentId, p);
    WithEnvironmentUnfolds(svc, h, srcApplicationId, targetWorkspaceId, sourceEnvironmentId);
    EngineCalledWhenAllowed(svc, h + lookups, srcApplicationId, targetWorkspaceId, sourceEnvironmentId, p);
    EngineCallsAppend(lookups, stage.calls);
    assert (lookups + [engineCall])[3..] == [engineCall];
    var forked := svc.forkApplications(h + lookups, p.1.id, [p.0.(gitApplicationMetadata := None)], sourceEnvironmentId);
    if forked.Value? {
      var rest := CompleteFork(svc, h + lookups + [engineCall], forked.value,
                               srcApplicationId, targetWorkspaceId, map[WORKSPACE := WorkspaceValue(p.1)]);
      ConcatAssociates(h, lookups, [engineCall]);
      ConcatAssociates(lookups, [engineCall], rest.calls);
    }
  }

  /** An analytics failure, in the re-read of the source application or in
      sending the event, leaves the forked application as the result. */
  lemma AnalyticsFailureLeavesForkUnchanged(svc: Services, h: seq<Call>, applicationIds: seq<string>, srcApplicationId: string,
                                            targetWorkspaceId: string, eventData: map<string, EventValue>)
    requires applicationIds != [] && svc.getById(h, applicationIds[0]).Value?
    requires var h' := h + [GetById(applicationIds[0])];
      var source := svc.findById(h', srcApplicationId, ApplicationRead);
      || source.Error?
      || (source.Value? && source.value.name.None?)
      || (source.Value? && source.value.name.Some? &&
          svc.sendObjectEvent(h' + [FindById(srcApplicationId, ApplicationRead)], FORK, svc.getById(h, applicationIds[0]).value,
                              AnalyticsPayload(srcApplicationId, targetWorkspaceId, source.value, eventData).value).Error?)
    ensures CompleteFork(svc, h, applicationIds, srcApplicationId, targetWorkspaceId, eventData).result
         == Value(svc.getById(h, applicationIds[0]).value)
  {
  }

  /** An anonymous user may fork only an application that opted in: otherwise
      the answer is APPLICATION_FORKING_NOT_ALLOWED and the engine is never
      called. */
  lemma AnonymousForkNeedsOptIn(svc: Services, h: seq<Call>, srcApplicationId: string, targetWorkspaceId: string, sourceEnvironmentId: string)
    requires var p := FetchPrerequisites(svc, h, srcApplicationId, targetWorkspaceId).result;
      p.Value? && p.value.2.isAnonymous && p.value.0.forkingEnabled != Some(true)
    ensures var r := ForkApplicationToWorkspaceWithEnvironment(svc, h, srcApplicationId, targetWorkspaceId, sourceEnvironmentId);
      r.result == Error(ApplicationForkingNotAllowed) && EngineCalls(r.calls) == []
  {
    var p := FetchPrerequisites(svc, h, srcApplicationId, targetWorkspaceId).result.value;
    AllowForkCases(p.2, p.0, svc.editPermissionValue);
    ForkValidationOrder(svc, h, srcApplicationId, targetWorkspaceId, sourceEnvironmentId);
  }

  /** A git-connected application whose recorded branch is not its default
      branch: forking it must go to the default branch instead. */
  predicate OnStaleBranch(application: Application) {
    application.gitApplicationMetadata.Some?
    && application.gitApplicationMetadata.value.branchName != application.gitApplicationMetadata.value.defaultBranchName
  }

  /** The first part of `forkApplicationToWorkspace`: find the database entry
      to fork. An explicit branch is looked up as given; otherwise the
      application is read by id and, when it sits on a branch other than its
      default one, is looked up again on the default branch. */
  function ResolveSourceApplication(svc: Services, h: seq<Call>, srcApplicationId: string, branchName: string)
    : (r: Run<Application>)
    ensures EngineCalls(r.calls) == []
    ensures branchName != "" ==>
      var lookup := FindByBranchNameAndDefaultApplicationId(branchName, srcApplicationId, ApplicationRead);
      r == Run(svc.findByBranchNameAndDefaultApplicationId(h, branchName, srcApplicationId, ApplicationRead), [lookup])
    ensures branchName == "" ==>
      var fetched := svc.findById(h, srcApplicationId, ApplicationRead);
      && |r.calls| >= 1 && r.calls[0] == FindById(srcApplicationId, ApplicationRead)
      && (fetched.Empty? ==> r == Run(Error(NoResourceFound(APPLICATION, srcApplicationId)), r.calls[..1]))
      && (fetched.Error? ==> r == Run(Error(fetched.error), r.calls[..1]))
      && (fetched.Value? && !OnStaleBranch(fetched.value) ==> r == Run(fetched, r.calls[..1]))
      && (fetched.Value? && OnStaleBranch(fetched.value) ==>
            var defaultBranch := fetched.value.gitApplicationMetadata.value.defaultBranchName;
            && |r.calls| == 2
            && r.calls[1] == FindByBranchNameAndDefaultApplicationId(defaultBranch, srcApplicationId, ApplicationRead)
            && r.result == svc.findByBranchNameAndDefaultApplicationId(h + r.calls[..1], defaultBranch, srcApplicationId, ApplicationRead))
  {
    if branchName == "" then
      var lookup := FindById(srcApplicationId, ApplicationRead);
      match OrNotFound(svc.findById(h, srcApplicationId, ApplicationRead), APPLICATION, srcApplicationId)
      case Error(e) => Run(Error(e), [lookup])
      case Empty => Run(Empty, [lookup])     // OrNotFound never completes empty
      case Value(application) =>
        if OnStaleBranch(application) then
          // The default branch may have changed since the id was recorded.
          var defaultBranch := application.gitApplicationMetadata.value.defaultBranchName;
          var redirect := FindByBranchNameAndDefaultApplicationId(defaultBranch, srcApplicationId, ApplicationRead);
          assert [lookup, redirect][..1] == [lookup];
          Run(svc.findByBranchNameAndDefaultApplicationId(h + [lookup], defaultBranch, srcApplicationId, ApplicationRead),
              [lookup, redirect])
        else
          Run(Value(application), [lookup])
    else
      var lookup := FindByBranchNameAndDefaultApplicationId(branchName, srcApplicationId, ApplicationRead);
      Run(svc.findByBranchNameAndDefaultApplicationId(h, branchName, srcApplicationId, ApplicationRead), [lookup])
  }

  /** `.map(updateApplicationWithDefaultResources).flatMap(getApplicationImportDTO)`
      on the forked application. */
  function ShapeForClient(svc: Services, h: seq<Call>, forked: Mono<Application>): (r: Run<ApplicationImportDTO>)
    ensures EngineCalls(r.calls) == []
    ensures !forked.Value? ==> r == Run(Forward(forked), [])
    ensures forked.Value? ==>
      var updated := svc.updateApplicationWithDefaultResources(forked.value);
      r.calls == [GetApplicationImportDTO(updated.id, updated.workspaceId, updated)]
      && r.result == svc.getApplicationImportDTO(h, updated.id, updated.workspaceId, updated)
  {
    if !forked.Value? then Run(Forward(forked), [])
    else
      var updated := svc.updateApplicationWithDefaultResources(forked.value);
      Run(svc.getApplicationImportDTO(h, updated.id, updated.workspaceId, updated),
          [GetApplicationImportDTO(updated.id, updated.workspaceId, updated)])
  }

  /** The rest of `forkApplicationToWorkspace` once the source is resolved:
      `zipWhen(getDefaultEnvironmentId)`, then the fork workflow on the
      resolved application's id in that environment, then the client shape. */
  function ForkResolvedApplication(svc: Services, h: seq<Call>, application: Application, targetWorkspaceId: string)
    : (r: Run<ApplicationImportDTO>)
    ensures |EngineCalls(r.calls)| <= 1
    ensures NoGitReachesEngine(r.calls)
    ensures var environment := svc.getDefaultEnvironmentId(h, application.workspaceId);
      var lookup := GetDefaultEnvironmentId(application.workspaceId);
      && (!environment.Value? ==> r == Run(Forward(environment), [lookup]))
      && (environment.Value? ==>
            var fork := ForkApplicationToWorkspaceWithEnvironment(svc, h + [lookup], application.id,
                                                                  targetWorkspaceId, environment.value);
            var shaped := ShapeForClient(svc, h + [lookup] + fork.calls, fork.result);
            r == Run(shaped.result, [lookup] + fork.calls + shaped.calls))
  {
    // The fork runs in the default environment of the resolved application's workspace.
    var lookup := GetDefaultEnvironmentId(application.workspaceId);
    EngineCallsAppend([lookup], []);
    match svc.getDefaultEnvironmentId(h, application.workspaceId)
    case Error(e) => Run(Error(e), [lookup])
    case Empty => Run(Empty, [lookup])
    case Value(sourceEnvironmentId) =>
      var fork := ForkApplicationToWorkspaceWithEnvironment(svc, h + [lookup], application.id, targetWorkspaceId, sourceEnvironmentId);
      var shaped := ShapeForClient(svc, h + [lookup] + fork.calls, fork.result);
      EngineCallsAppend([lookup], fork.calls);
      EngineCallsAppend([lookup] + fork.calls, shaped.calls);
      Run(shaped.result, [lookup] + fork.calls + shaped.calls)
  }

  /** `forkApplicationToWorkspace`: resolve the source, fork it to the default
      environment of its own workspace, and shape the result for the client. */
  function ForkApplicationToWorkspace(svc: Services, h: seq<Call>, srcApplicationId: string, targetWorkspaceId: string, branchName: string)
    : (r: Run<ApplicationImportDTO>)
    ensures |EngineCalls(r.calls)| <= 1
    ensures NoGitReachesEngine(r.calls)
    ensures var resolved := ResolveSourceApplication(svc, h, srcApplicationId, branchName);
      && (!resolved.result.Value? ==> r == Run(Forward(resolved.result), resolved.calls))
      && (resolved.result.Value? ==>
            var rest := ForkResolvedApplication(svc, h + resolved.calls, resolved.result.value, targetWorkspaceId);
            r == Run(rest.result, resolved.calls + rest.calls))
  {
    var resolved := ResolveSourceApplication(svc, h, srcApplicationId, branchName);
    if !resolved.result.Value? then Run(Forward(resolved.result), resolved.calls)
    else
      var rest := ForkResolvedApplication(svc, h + resolved.calls, resolved.result.value, targetWorkspaceId);
      EngineCallsAppend(resolved.calls, rest.calls);
      Run(rest.result, resolved.calls + rest.calls)
  }

  /** Given an environment, the resolved application is what the fork
      workflow looks up first. */
  lemma ResolvedForkLooksUpResolvedId(svc: Services, h: seq<Call>, application: Application, targetWorkspaceId: string)
    requires svc.getDefaultEnvironmentId(h, application.workspaceId).Value?
    ensures var r := ForkResolvedApplication(svc, h, application, targetWorkspaceId);
      |r.calls| >= 4 && r.calls[1..4] == Lookups(application.id, targetWorkspaceId)
  {
    var lookup := GetDefaultEnvironmentId(application.workspaceId);
    var environment := svc.getDefaultEnvironmentId(h, application.workspaceId);
    var fork := ForkApplicationToWorkspaceWithEnvironment(svc, h + [lookup], application.id, targetWorkspaceId, environment.value);
    var shaped := ShapeForClient(svc, h + [lookup] + fork.calls, fork.result);
    ConcatAssociates([lookup], fork.calls, shaped.calls);
    SliceOfSuffix([lookup], fork.calls + shaped.calls, 1, 4);
    assert (fork.calls + shaped.calls)[..3] == fork.calls[..3];
  }

  /** Without an explicit branch, an application found on a branch other than
      its default one resolves to what the default-branch lookup returns. */
  lemma StaleBranchResolvesToDefaultBranch(svc: Services, h: seq<Call>, srcApplicationId: string,
                                           fetched: Application, redirected: Application)
    requires svc.findById(h, srcApplicationId, ApplicationRead) == Value(fetched) && OnStaleBranch(fetched)
    requires svc.findByBranchNameAndDefaultApplicationId(h + [FindById(srcApplicationId, ApplicationRead)],
               fetched.gitApplicationMetadata.value.defaultBranchName, srcApplicationId, ApplicationRead) == Value(redirected)
    ensures var resolved := ResolveSourceApplication(svc, h, srcApplicationId, "");
      && resolved.result == Value(redirected)
      && resolved.calls == [FindById(srcApplicationId, ApplicationRead),
                            FindByBranchNameAndDefaultApplicationId(
                              fetched.gitApplicationMetadata.value.defaultBranchName, srcApplicationId, ApplicationRead)]
  {
  }

  /** ... and the fork workflow is then started on the id of that
      default-branch application, not on the id the caller gave. */
  lemma StaleBranchForksFromDefaultBranch(svc: Services, h: seq<Call>, srcApplicationId: string, targetWorkspaceId: string,
                                          fetched: Application, redirected: Application)
    requires svc.findById(h, srcApplicationId, ApplicationRead) == Value(fetched) && OnStaleBranch(fetched)
    requires var defaultBranch := fetched.gitApplicationMetadata.value.defaultBranchName;
      svc.findByBranchNameAndDefaultApplicationId(h + [FindById(srcApplicationId, ApplicationRead)],
               defaultBranch, srcApplicationId, ApplicationRead) == Value(redirected)
      && svc.getDefaultEnvironmentId(h + [FindById(srcApplicationId, ApplicationRead),
                                          FindByBranchNameAndDefaultApplicationId(defaultBranch, srcApplicationId, ApplicationRead)],
                                     redirected.workspaceId).Value?
    ensures var r := ForkApplicationToWorkspace(svc, h, srcApplicationId, targetWorkspaceId, "");
      && |r.calls| >= 6
      && r.calls[2] == GetDefaultEnvironmentId(redirected.workspaceId)
      && r.calls[3..6] == Lookups(redirected.id, targetWorkspaceId)
  {
    StaleBranchResolvesToDefaultBranch(svc, h, srcApplicationId, fetched, redirected);
    var resolved := ResolveSourceApplication(svc, h, srcApplicationId, "");
    ResolvedForkLooksUpResolvedId(svc, h + resolved.calls, redirected, targetWorkspaceId);
    var rest := ForkResolvedApplication(svc, h + resolved.calls, redirected, targetWorkspaceId);
    var r := ForkApplicationToWorkspace(svc, h, srcApplicationId, targetWorkspaceId, "");
    assert r.calls == resolved.calls + rest.calls;
    SliceOfSuffix(resolved.calls, rest.calls, 3, 6);
  }
}
