/** The job entry point: a health ping, a dry run that checks a workflow
    without running it, and the normal flow that checks the workflow (if
    one is named) and hands the job on.

    The file system is a map from path to stored file (os.path.isfile is
    membership, json.load is the stored value), the ComfyUI readiness probe
    is the boolean comfyReady, and the workflows directory is a parameter. */
module Handler {
  import opened Runtime
  import opened JsonValues
  import opened Truthiness
  import opened Paths
  import opened Workflow

  /** WORKFLOWS_DIR when the environment does not set it. */
  const DefaultWorkflowsDir := "/workspace/comfywan/workflows"

  const MissingWorkflow := "Missing 'workflow' parameter"

  /** What an invocation ends in: a returned dict, a raised exception, or
      the hand-off to run_job with the input and the resolved path. */
  datatype Outcome =
    | Returned(response: Json)
    | Raised(error: Exception)
    | RunJob(input: map<string, Json>, workflowPath: Option<string>)

  const StatusOk: Json := JObj(map["status" := JStr("ok")])

  function ErrorResponse(msg: string): Json {
    JObj(map["error" := JStr(msg)])
  }

  function NotFoundMessage(path: string): string {
    "workflow not found: " + path
  }

  function DryRunReport(name: Json, comfyReady: bool): Json {
    JObj(map["status" := JStr("ok"), "workflow" := name, "comfy_ready" := JBool(comfyReady)])
  }

  /** An error dict is never the dry-run report. */
  lemma ErrorIsNotReport(name: Json, comfyReady: bool)
    ensures forall msg :: ErrorResponse(msg) != DryRunReport(name, comfyReady)
  {
    forall msg ensures ErrorResponse(msg) != DryRunReport(name, comfyReady) {
      assert "comfy_ready" !in ErrorResponse(msg).fields;
    }
  }

  /** (event or {}).get("input", {}), which must be a dict for the .get
      calls that follow. */
  function InputOf(event: Json): Result<map<string, Json>> {
    if !TruthValue(event) then Ok(map[])
    else if !event.JObj? then Err(AttributeError)
    else match GetOr(event.fields, "input", JObj(map[]))
      case JObj(input) => Ok(input)
      case _ => Err(AttributeError)
  }

  predicate IsHealthPing(event: Json) {
    InputOf(event).Ok? && IsTruthy(Get(InputOf(event).value, "health"))
  }

  predicate IsDryRun(event: Json) {
    InputOf(event).Ok? && !IsHealthPing(event) && IsTruthy(Get(InputOf(event).value, "dry_run"))
  }

  predicate IsNormalRun(event: Json) {
    InputOf(event).Ok? && !IsHealthPing(event) && !IsDryRun(event)
  }

  function WorkflowName(event: Json): Json
    requires InputOf(event).Ok?
  {
    Get(InputOf(event).value, "workflow")
  }

  /** A named workflow is accepted when it is a string naming a stored
      file that loads and passes validation. */
  predicate Accepted(name: Json, files: map<string, StoredFile>, root: string) {
    && name.JStr?
    && Resolve(root, name.s) in files
    && files[Resolve(root, name.s)].JsonFile?
    && Validate(files[Resolve(root, name.s)].content).Ok?
  }

  /** The outcome of checking a named workflow. */
  datatype Admission = NotFound(path: string) | Rejected(error: Exception) | Admitted(path: string)

  /** Resolve the name, check that the file exists, then run the workflow
      check on the path. */
  function Admit(name: Json, files: map<string, StoredFile>, root: string): Admission {
    if !name.JStr? then Rejected(TypeError)
    else
      var path := Resolve(root, name.s);
      if path !in files then NotFound(path)
      else match CheckSpec(JStr(path), files)
        case Err(e) => Rejected(e)
        case Ok(_) => Admitted(path)
  }

  /** The handler: guarded early returns in the order health, dry run,
      normal flow. */
  function Handle(event: Json, files: map<string, StoredFile>, comfyReady: bool, root: string): (r: Outcome)
    ensures InputOf(event).Err? ==> r == Raised(AttributeError)
    ensures IsHealthPing(event) ==> r == Returned(StatusOk)
    ensures IsDryRun(event) && !TruthValue(WorkflowName(event)) ==>
      r == Returned(ErrorResponse(MissingWorkflow))
    ensures (IsDryRun(event) || IsNormalRun(event)) && TruthValue(WorkflowName(event)) ==>
      var name := WorkflowName(event);
      && (!name.JStr? ==> r == Raised(TypeError))
      && (name.JStr? && Resolve(root, name.s) !in files ==>
            r == Returned(ErrorResponse(NotFoundMessage(Resolve(root, name.s)))))
    ensures IsDryRun(event) ==>
      (r == Returned(DryRunReport(WorkflowName(event), comfyReady)) <==>
       TruthValue(WorkflowName(event)) && Accepted(WorkflowName(event), files, root))
    ensures IsNormalRun(event) && !TruthValue(WorkflowName(event)) ==>
      r == RunJob(InputOf(event).value, None)
    ensures IsNormalRun(event) && TruthValue(WorkflowName(event)) ==>
      (r.RunJob? <==> Accepted(WorkflowName(event), files, root))
    ensures (IsDryRun(event) || IsNormalRun(event)) && TruthValue(WorkflowName(event))
            && WorkflowName(event).JStr? && Resolve(root, WorkflowName(event).s) in files
            && CheckSpec(JStr(Resolve(root, WorkflowName(event).s)), files).Err? ==>
      r == Raised(CheckSpec(JStr(Resolve(root, WorkflowName(event).s)), files).error)
    ensures IsNormalRun(event) && TruthValue(WorkflowName(event)) && Accepted(WorkflowName(event), files, root) ==>
      r == RunJob(InputOf(event).value, Some(Resolve(root, WorkflowName(event).s)))
    ensures r.RunJob? ==> r.input == InputOf(event).value
    ensures r.RunJob? && r.workflowPath.Some? ==>
      WorkflowName(event).JStr? && r.workflowPath.value == Resolve(root, WorkflowName(event).s)
  {
    match InputOf(event)
    case Err(e) => Raised(e)
    case Ok(input) =>
      var name := Get(input, "workflow");
      if IsTruthy(Get(input, "health")) then Returned(StatusOk)
      else if IsTruthy(Get(input, "dry_run")) then
        ErrorIsNotReport(name, comfyReady);
        if !TruthValue(name) then Returned(ErrorResponse(MissingWorkflow))
        else match Admit(name, files, root)
          case NotFound(path) => Returned(ErrorResponse(NotFoundMessage(path)))
          case Rejected(e) => Raised(e)
          case Admitted(_) => Returned(DryRunReport(name, comfyReady))
      else if !TruthValue(name) then RunJob(input, None)
      else match Admit(name, files, root)
        case NotFound(path) => Returned(ErrorResponse(NotFoundMessage(path)))
        case Rejected(e) => Raised(e)
        case Admitted(path) => RunJob(input, Some(path))
  }

  /** A health ping reads neither the file store, the readiness probe nor
      the workflows directory. */
  lemma HealthIgnoresEnvironment(event: Json,
                                 files1: map<string, StoredFile>, comfyReady1: bool, root1: string,
                                 files2: map<string, StoredFile>, comfyReady2: bool, root2: string)
    requires IsHealthPing(event)
    ensures Handle(event, files1, comfyReady1, root1) == Handle(event, files2, comfyReady2, root2)
  {
  }

  /** A workflow path handed on to run_job names a stored JSON workflow
      whose every node is a dict with a "type". */
  lemma HandedOnWorkflowIsValid(event: Json, files: map<string, StoredFile>, comfyReady: bool, root: string)
    requires Handle(event, files, comfyReady, root).RunJob?
    requires Handle(event, files, comfyReady, root).workflowPath.Some?
    ensures var path := Handle(event, files, comfyReady, root).workflowPath.value;
      && path in files
      && files[path].JsonFile?
      && Normalize(files[path].content).Ok?
      && var nodes := Normalize(files[path].content).value.nodes;
         forall i :: 0 <= i < |nodes| ==> NodeOk(nodes[i])
  {
  }

  /** A dry run reports "ok" only for a stored JSON workflow whose every
      node is a dict with a "type". */
  lemma DryRunOkWorkflowIsValid(event: Json, files: map<string, StoredFile>, comfyReady: bool, root: string)
    requires IsDryRun(event)
    requires Handle(event, files, comfyReady, root) == Returned(DryRunReport(WorkflowName(event), comfyReady))
    ensures WorkflowName(event).JStr?
    ensures var path := Resolve(root, WorkflowName(event).s);
      && path in files
      && files[path].JsonFile?
      && Normalize(files[path].content).Ok?
      && var nodes := Normalize(files[path].content).value.nodes;
         forall i :: 0 <= i < |nodes| ==> NodeOk(nodes[i])
  {
  }

  /** Every ValueError that escapes the handler comes from checking the
      stored workflow at the resolved path: either that file is not JSON,
      or it is and the error is its validation error. */
  lemma RaisedValueErrorIsFromCheck(event: Json, files: map<string, StoredFile>, comfyReady: bool, root: string)
    requires Handle(event, files, comfyReady, root).Raised?
    requires IsValueError(Handle(event, files, comfyReady, root).error)
    ensures !IsHealthPing(event) && TruthValue(WorkflowName(event)) && WorkflowName(event).JStr?
    ensures var path := Resolve(root, WorkflowName(event).s);
      var error := Handle(event, files, comfyReady, root).error;
      && path in files
      && (files[path].MalformedFile? ==> error == JsonDecodeError)
      && (files[path].JsonFile? ==> Validate(files[path].content) == Err(error))
  {
  }

  /** {"input": {"health": true}} answers {"status": "ok"}, whatever the
      environment. */
  lemma HealthPingExample(files: map<string, StoredFile>, comfyReady: bool, root: string)
    ensures Handle(JObj(map["input" := JObj(map["health" := JBool(true)])]), files, comfyReady, root)
         == Returned(StatusOk)
  {
    var event := JObj(map["input" := JObj(map["health" := JBool(true)])]);
    assert "input" in event.fields;
    assert InputOf(event) == Ok(map["health" := JBool(true)]);
    IsTruthyCases(JBool(true));
  }

  /** A dry run of a name with no stored file reports the resolved path. */
  lemma MissingFileExample(event: Json, files: map<string, StoredFile>, comfyReady: bool)
    requires event == JObj(map["input" := JObj(map["dry_run" := JBool(true), "workflow" := JStr("missing.json")])])
    requires DefaultWorkflowsDir + "/" + "missing.json" !in files
    ensures Handle(event, files, comfyReady, DefaultWorkflowsDir)
         == Returned(ErrorResponse(NotFoundMessage(DefaultWorkflowsDir + "/" + "missing.json")))
  {
    var input := map["dry_run" := JBool(true), "workflow" := JStr("missing.json")];
    assert IsDryRun(event) && WorkflowName(event) == JStr("missing.json") by {
      assert "input" in event.fields;
      assert InputOf(event) == Ok(input);
      IsTruthyCases(JNull);
      IsTruthyCases(JBool(true));
      assert Get(input, "health") == JNull && Get(input, "dry_run") == JBool(true);
    }
    var dir := DefaultWorkflowsDir;
    assert dir[|dir| - 1] == 's';
    assert Resolve(dir, "missing.json") == dir + "/" + "missing.json";
  }
}
