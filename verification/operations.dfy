/**
  The single-operation client methods the compound operations build on, each
  one `execute` call: which document it names and the variables record it
  builds. Decoders read the variables back, so each shape is stated as a
  round trip rather than as the literal record.
 */
module Operations {
  import opened ClientTypes
  import opened Gateway

  /** `projectCreate` in a project-creation response: only `success` and `project.id` are read. */
  datatype Project = Project(id: Id, attributes: Record)
  datatype ProjectCreate = ProjectCreate(success: bool, project: Project)

  /** `issueBatchCreate` in a batch-creation response. */
  datatype IssueBatchCreate = IssueBatchCreate(success: bool, issues: seq<Issue>)

  /** `issueUpdate` in the response to one single-issue update; `issue` is optional. */
  datatype IssueUpdate = IssueUpdate(success: bool, issue: Option<Issue>)

  /** Issue inputs as a JSON list of objects, in order. */
  function Objects(rs: seq<Record>): seq<Value>
  {
    if rs == [] then [] else [Obj(rs[0])] + Objects(rs[1..])
  }

  /** Inverse of Objects: the records of a list made only of objects. */
  function Records(vs: seq<Value>): Option<seq<Record>>
  {
    if vs == [] then Some([])
    else if !vs[0].Obj? then None
    else match Records(vs[1..])
      case None => None
      case Some(rest) => Some([vs[0].fields] + rest)
  }

  lemma {:induction false} RecordsOfObjects(rs: seq<Record>)
    ensures Records(Objects(rs)) == Some(rs)
  {
    if rs != [] {
      RecordsOfObjects(rs[1..]);
      assert [rs[0]] + rs[1..] == rs;
    }
  }

  /** `{ input }` */
  function ProjectVariables(input: Record): Record
  {
    map["input" := Obj(input)]
  }

  /** `{ input: { issues } }` */
  function BatchVariables(issues: seq<Record>): Record
  {
    map["input" := Obj(map["issues" := List(Objects(issues))])]
  }

  /** `{ id, input }`, the shape the bulk update sends for each identifier. */
  function IdVariables(id: Id, input: Record): Record
  {
    map["id" := Str(id), "input" := Obj(input)]
  }

  /** `{ ids: [id], input }`, the shape `updateIssue` sends. */
  function IdsVariables(id: Id, input: Record): Record
  {
    map["ids" := List([Str(id)]), "input" := Obj(input)]
  }

  /** The `input` object of a variables record, if it has one. */
  function InputOf(vars: Record): Option<Record>
  {
    if "input" in vars && vars["input"].Obj? then Some(vars["input"].fields) else None
  }

  /** The single `id` string of a variables record, if it has one. */
  function IdOf(vars: Record): Option<Id>
  {
    if "id" in vars && vars["id"].Str? then Some(vars["id"].s) else None
  }

  /** The `ids` list of a variables record, if it is a list of strings. */
  function IdsOf(vars: Record): Option<seq<Id>>
  {
    if "ids" in vars && vars["ids"].List? then Strings(vars["ids"].items) else None
  }

  /** The strings of a list made only of strings. */
  function Strings(vs: seq<Value>): Option<seq<string>>
  {
    if vs == [] then Some([])
    else if !vs[0].Str? then None
    else match Strings(vs[1..])
      case None => None
      case Some(rest) => Some([vs[0].s] + rest)
  }

  /** The issue inputs of a batch variables record (`input.issues`), if it has them. */
  function BatchItems(vars: Record): Option<seq<Record>>
  {
    match InputOf(vars)
    case None => None
    case Some(input) =>
      if "issues" in input && input["issues"].List? then Records(input["issues"].items) else None
  }

  /** `createProject(input)`: one request on the project document carrying the input unchanged. */
  function CreateProject(tpl: Templates, server: Oracle<ProjectCreate>, history: seq<Request>, input: Record)
    : (e: Exchange<ProjectCreate>)
    ensures e.request.body == RequestBody(tpl.createProject)
    ensures e.request.variables.Keys == {"input"} && InputOf(e.request.variables) == Some(input)
    ensures e.result == Normalise(server(history, e.request))
  {
    Execute(server, history, tpl.createProject, ProjectVariables(input))
  }

  /**
    `createBatchIssues(issues)`: one request on the batch document carrying the
    whole list, in order and unchanged; success is whatever the remote reports.
   */
  function CreateBatchIssues(tpl: Templates, server: Oracle<IssueBatchCreate>, history: seq<Request>, issues: seq<Record>)
    : (e: Exchange<IssueBatchCreate>)
    ensures e.request.body == RequestBody(tpl.createBatchIssues)
    ensures e.request.variables.Keys == {"input"} && BatchItems(e.request.variables) == Some(issues)
    ensures InputOf(e.request.variables).Some? && InputOf(e.request.variables).value.Keys == {"issues"}
    ensures e.result == Normalise(server(history, e.request))
  {
    RecordsOfObjects(issues);
    Execute(server, history, tpl.createBatchIssues, BatchVariables(issues))
  }

  /**
    `updateIssue(id, input)` as written: it sends `{ ids: [id], input }` on the
    update document, a one-element `ids` list and no single `id` variable.
   */
  function UpdateIssue<P>(tpl: Templates, server: Oracle<P>, history: seq<Request>, id: Id, input: Record)
    : (e: Exchange<P>)
    ensures e.request.body == RequestBody(tpl.updateIssues)
    ensures e.request.variables.Keys == {"ids", "input"} && IdOf(e.request.variables) == None
    ensures IdsOf(e.request.variables) == Some([id]) && InputOf(e.request.variables) == Some(input)
    ensures e.result == Normalise(server(history, e.request))
  {
    assert [Str(id)][1..] == [];
    assert Strings([Str(id)]) == Some([id] + []);
    assert [id] + [] == [id];
    Execute(server, history, tpl.updateIssues, IdsVariables(id, input))
  }

  /**
    A single-issue update in the shape the update document takes, `{ id, input }`:
    the request each step of the bulk update sends.
   */
  function UpdateIssueById(tpl: Templates, server: Oracle<IssueUpdate>, history: seq<Request>, id: Id, input: Record)
    : (e: Exchange<IssueUpdate>)
    ensures e.request.body == RequestBody(tpl.updateIssues)
    ensures e.request.variables.Keys == {"id", "input"}
    ensures IdOf(e.request.variables) == Some(id) && InputOf(e.request.variables) == Some(input)
    ensures e.result == Normalise(server(history, e.request))
  {
    Execute(server, history, tpl.updateIssues, IdVariables(id, input))
  }

  /**
    `updateIssue` and the bulk update's per-identifier call name the same
    document with different variables for every identifier and input, so at
    most one of them matches the variables the document declares.
   */
  lemma UpdateShapesDisagree(tpl: Templates, server: Oracle<IssueUpdate>, history: seq<Request>, id: Id, input: Record)
    ensures UpdateIssue(tpl, server, history, id, input).request.body
         == UpdateIssueById(tpl, server, history, id, input).request.body
    ensures UpdateIssue(tpl, server, history, id, input).request
         != UpdateIssueById(tpl, server, history, id, input).request
  {
    var written := UpdateIssue(tpl, server, history, id, input).request;
    var intended := UpdateIssueById(tpl, server, history, id, input).request;
    assert IdOf(written.variables) != IdOf(intended.variables);
  }
}
