/**
  `LinearGraphQLClient.createProjectWithIssues`: create the project; only if
  that reports success, stamp the new project's id onto every issue input and
  create them as one batch; fail if the batch reports failure (the project is
  not rolled back); otherwise return both sub-results as they came.
 */
module ProjectWithIssues {
  import opened ClientTypes
  import opened Gateway
  import opened Operations

  const ProjectFailedMessage: string := "Failed to create project"
  const IssuesFailedMessage: string := "Failed to create issues"

  /** The field the project id is written to. */
  const ProjectIdField: string := "projectId"

  /** The combined response: both sub-results, unmodified. */
  datatype ProjectWithIssuesResult = ProjectWithIssuesResult(projectCreate: ProjectCreate, issueBatchCreate: IssueBatchCreate)

  /**
    `issues.map(issue => ({ ...issue, projectId }))`: same length and order,
    each input with `projectId` set to the project id and every other field
    as it was (present or absent alike).
   */
  function StampProjectId(issues: seq<Record>, projectId: Id): (stamped: seq<Record>)
    ensures |stamped| == |issues|
    ensures forall i :: 0 <= i < |issues| ==>
              ProjectIdField in stamped[i] && stamped[i][ProjectIdField] == Str(projectId)
    ensures forall i, k :: 0 <= i < |issues| && k != ProjectIdField ==>
              (k in stamped[i] <==> k in issues[i])
    ensures forall i, k :: 0 <= i < |issues| && k != ProjectIdField && k in issues[i] ==>
              stamped[i][k] == issues[i][k]
  {
    seq(|issues|, i requires 0 <= i < |issues| => issues[i][ProjectIdField := Str(projectId)])
  }

  /** Stamping again overrides the earlier stamp: the last project id wins and nothing else changes. */
  lemma RestampLastWins(issues: seq<Record>, p: Id, q: Id)
    ensures StampProjectId(StampProjectId(issues, p), q) == StampProjectId(issues, q)
  {
    var twice, once := StampProjectId(StampProjectId(issues, p), q), StampProjectId(issues, q);
    forall i | 0 <= i < |issues|
      ensures twice[i] == once[i]
    {
      assert twice[i].Keys == once[i].Keys;
    }
  }

  /** `createProjectWithIssues(projectInput, issues)`, returning how it settles and every request it sent. */
  function CreateProjectWithIssues(
    tpl: Templates,
    projects: Oracle<ProjectCreate>,
    batches: Oracle<IssueBatchCreate>,
    projectInput: Record,
    issues: seq<Record>): (c: Call<ProjectWithIssuesResult>)
    ensures 1 <= |c.sent| <= 2
    ensures c.sent[0] == CreateProject(tpl, projects, [], projectInput).request
    ensures c.result.Returned? ==>
              |c.sent| == 2
              && c.result.value.projectCreate.success
              && c.result.value.issueBatchCreate.success
  {
    var project := CreateProject(tpl, projects, [], projectInput);
    match project.result
    case Raised(error) => Call(Raised(error), [project.request])
    case Returned(created) =>
      if !created.success then
        Call(Raised(Error(ProjectFailedMessage)), [project.request])
      else
        var batch := CreateBatchIssues(tpl, batches, [project.request], StampProjectId(issues, created.project.id));
        match batch.result
        case Raised(error) => Call(Raised(error), [project.request, batch.request])
        case Returned(batched) =>
          if !batched.success then
            Call(Raised(Error(IssuesFailedMessage)), [project.request, batch.request])
          else
            Call(Returned(ProjectWithIssuesResult(created, batched)), [project.request, batch.request])
  }

  /** The normalised answer to the project-creation request. */
  function ProjectReply(tpl: Templates, projects: Oracle<ProjectCreate>, projectInput: Record): Completion<ProjectCreate>
  {
    CreateProject(tpl, projects, [], projectInput).result
  }

  /**
    If creating the project is reported unsuccessful, the operation rejects with
    "Failed to create project" and the batch is never requested.
   */
  lemma ProjectFailureStopsEarly(
    tpl: Templates, projects: Oracle<ProjectCreate>, batches: Oracle<IssueBatchCreate>,
    projectInput: Record, issues: seq<Record>)
    requires ProjectReply(tpl, projects, projectInput).Returned?
    requires !ProjectReply(tpl, projects, projectInput).value.success
    ensures CreateProjectWithIssues(tpl, projects, batches, projectInput, issues)
         == Call(Raised(Error(ProjectFailedMessage)), [CreateProject(tpl, projects, [], projectInput).request])
  {
  }

  /** A transport failure while creating the project propagates as it is and no batch is requested. */
  lemma ProjectErrorPropagates(
    tpl: Templates, projects: Oracle<ProjectCreate>, batches: Oracle<IssueBatchCreate>,
    projectInput: Record, issues: seq<Record>)
    requires ProjectReply(tpl, projects, projectInput).Raised?
    ensures CreateProjectWithIssues(tpl, projects, batches, projectInput, issues).result
         == Raised(ProjectReply(tpl, projects, projectInput).thrown)
    ensures |CreateProjectWithIssues(tpl, projects, batches, projectInput, issues).sent| == 1
  {
  }

  /**
    Once the project is created, exactly one more request follows: the batch
    document, carrying the issue inputs in their order, each stamped with the
    new project's id.
   */
  lemma BatchCarriesProjectId(
    tpl: Templates, projects: Oracle<ProjectCreate>, batches: Oracle<IssueBatchCreate>,
    projectInput: Record, issues: seq<Record>)
    requires ProjectReply(tpl, projects, projectInput).Returned?
    requires ProjectReply(tpl, projects, projectInput).value.success
    ensures var c := CreateProjectWithIssues(tpl, projects, batches, projectInput, issues);
            var id := ProjectReply(tpl, projects, projectInput).value.project.id;
            |c.sent| == 2
            && c.sent[1].body == RequestBody(tpl.createBatchIssues)
            && BatchItems(c.sent[1].variables) == Some(StampProjectId(issues, id))
  {
  }

  /**
    If the batch is reported unsuccessful, the operation rejects with "Failed
    to create issues" after both requests, and sends nothing to undo the project.
   */
  lemma BatchFailureNoRollback(
    tpl: Templates, projects: Oracle<ProjectCreate>, batches: Oracle<IssueBatchCreate>,
    projectInput: Record, issues: seq<Record>)
    requires ProjectReply(tpl, projects, projectInput).Returned?
    requires ProjectReply(tpl, projects, projectInput).value.success
    requires var c := CreateProjectWithIssues(tpl, projects, batches, projectInput, issues);
             |c.sent| == 2
             && Normalise(batches([c.sent[0]], c.sent[1])).Returned?
             && !Normalise(batches([c.sent[0]], c.sent[1])).value.success
    ensures var c := CreateProjectWithIssues(tpl, projects, batches, projectInput, issues);
            c.result == Raised(Error(IssuesFailedMessage)) && |c.sent| == 2
  {
  }

  /**
    A transport failure while creating the batch propagates as normalised, after
    both requests: the project already exists and nothing is sent to undo it.
   */
  lemma BatchErrorPropagates(
    tpl: Templates, projects: Oracle<ProjectCreate>, batches: Oracle<IssueBatchCreate>,
    projectInput: Record, issues: seq<Record>)
    requires ProjectReply(tpl, projects, projectInput).Returned?
    requires ProjectReply(tpl, projects, projectInput).value.success
    requires var c := CreateProjectWithIssues(tpl, projects, batches, projectInput, issues);
             |c.sent| == 2 && Normalise(batches([c.sent[0]], c.sent[1])).Raised?
    ensures var c := CreateProjectWithIssues(tpl, projects, batches, projectInput, issues);
            c.result == Raised(Normalise(batches([c.sent[0]], c.sent[1])).thrown)
            && |c.sent| == 2
            && c.sent[1].body == RequestBody(tpl.createBatchIssues)
  {
  }

  /**
    The operation resolves exactly when both steps returned and reported
    success, and then it holds the two sub-results unmodified.
   */
  lemma ResolvesIffBothSucceed(
    tpl: Templates, projects: Oracle<ProjectCreate>, batches: Oracle<IssueBatchCreate>,
    projectInput: Record, issues: seq<Record>)
    ensures var c := CreateProjectWithIssues(tpl, projects, batches, projectInput, issues);
            c.result.Returned? <==>
              |c.sent| == 2
              && ProjectReply(tpl, projects, projectInput).Returned?
              && ProjectReply(tpl, projects, projectInput).value.success
              && Normalise(batches([c.sent[0]], c.sent[1])).Returned?
              && Normalise(batches([c.sent[0]], c.sent[1])).value.success
    ensures var c := CreateProjectWithIssues(tpl, projects, batches, projectInput, issues);
            c.result.Returned? ==>
              c.result.value == ProjectWithIssuesResult(
                ProjectReply(tpl, projects, projectInput).value,
                Normalise(batches([c.sent[0]], c.sent[1])).value)
  {
  }
}
