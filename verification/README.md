# Workflow intake of a RunPod/ComfyUI job handler, in Dafny

This project models the part of `rp_handler.py` that decides what happens
to an incoming job before any work is done:

- the flag test `_is_truthy` (`str(x).lower()` is one of `1`, `true`,
  `yes`, `on`);
- the workflow normaliser `_normalize_workflow`, which accepts a bare node
  list, a `{"nodes", "links"}` export, a `{"graph": {...}}` or
  `{"graph": [...]}` wrapper, or a `{"workflow": [...]}` dump, and returns
  `(nodes, links)` or raises `ValueError`;
- the workflow check `_assert_workflow_ok`, which loads a path (or takes an
  already-loaded value), normalises it and stops at the first node that is
  not a dict or has no `"type"`;
- `_resolve_workflow_path`, which keeps absolute names and joins relative
  ones onto the workflows directory with POSIX `os.path.join` rules;
- the entry point `rp_handler`: health ping, dry run (missing name, file
  not found, check, report with the ComfyUI readiness flag), and the normal
  flow that checks a named workflow and hands the job to `run_job`.

Decoded JSON is the datatype `JsonValues.Json`. A missing dict key and a
JSON `null` both read as `JNull`, as `dict.get` makes them both `None`.
The file system is a map from path to `StoredFile` (decoded JSON, or a
file `json.load` rejects); `os.path.isfile` is membership in the map. The
ComfyUI readiness probe is the boolean `comfyReady`, and `WORKFLOWS_DIR` is
the parameter `root` (its default is `Handler.DefaultWorkflowsDir`). The
handler's result is an `Outcome`: a returned dict, a raised exception, or
the hand-off to `run_job` with the input and the resolved workflow path.

Modules: `Runtime` (option, result, exceptions), `Decimal` (`str` of an
int), `JsonValues`, `Truthiness`, `Workflow`, `Paths`, `Handler`.

## What the code does not do

- It does not turn the workflow into a graph keyed by node id. It returns
  the `(nodes, links)` lists it finds, as they are.
- A named workflow that is not a file does not raise. The handler returns
  `{"error": "workflow not found: <path>"}`.
- A dry run always probes ComfyUI after a successful check and reports the
  result as `comfy_ready`.
- It has no job submission, completion monitoring, artifact collection,
  output cleanup or lifecycle notification. `run_job` is a placeholder.

## Model

| member | source | states |
|---|---|---|
| `Truthiness.IsTruthyCases` | rp_handler.py:35-36 | the flag test `Truthiness.IsTruthy` is characterised: a value passes the flag test exactly when it is `true`, the integer 1, or a string whose lower-case form is `1`, `true`, `yes` or `on`; `null`, `false`, other integers, lists and dicts never pass |
| `Truthiness.IsTruthyIgnoresCase` | rp_handler.py:35-36 | the flag test on a string gives the same answer as on its lower-cased form |
| `Decimal.NatToString` | rp_handler.py:108-110 | the index printed in a node error is one or more digits with no leading zero, and a single digit exactly for indices below 10 |
| `Decimal.ParseNatToString` | rp_handler.py:108-110 | reading back the printed index gives the index |
| `Workflow.FirstNonNull` | rp_handler.py:75-83 | the chosen candidate is `None` exactly when all candidates are; otherwise it is a candidate and every earlier candidate is `None` |
| `Workflow.Normalize` | rp_handler.py:59-93 | a list becomes the node list with no links; a value that is neither list nor dict raises "workflow must be a dict or a list"; for a dict the nodes are the first non-`None` of top-level `nodes`, `graph.nodes` (graph a dict), `graph` (a list), `workflow` (a list), accepted exactly when that is a list and otherwise raising "workflow 'nodes' must be a list"; links are `graph.links` once `graph` was a dict consulted for nodes, the top-level `links` otherwise, replaced by `[]` when not a list |
| `Workflow.FirstNonNullOfFour` | rp_handler.py:75-83 | among the four node sources a later one is used only when every earlier one is `None` |
| `Workflow.NormalizeEncode` | rp_handler.py:72-73 | a graph exported as `{"nodes": [...], "links": [...]}` normalises back to the same nodes and links |
| `Workflow.NormalizeNodesIdempotent` | rp_handler.py:68-70 | normalising the returned node list again returns that same node list with no links |
| `Workflow.LinksDoNotDecide` | rp_handler.py:87-91 | whatever a dict holds under `"links"`, acceptance and the node list are unchanged |
| `Workflow.FirstBadNode` | rp_handler.py:106-110 | no index is found exactly when every node is a dict with `"type"`; a found index is the smallest one whose node fails |
| `Workflow.NodeErrorNamesIndex` | rp_handler.py:106-110 | two node error messages are equal only for the same index and the same kind of failure, so a message identifies its node |
| `Workflow.Validate` | rp_handler.py:104-111 | validation of a loaded workflow returns True exactly when it normalises and every node is a dict with `"type"`; a normalisation error is passed on unchanged; otherwise the error is "node[i] is not a dict" or "node[i] missing 'type'" for the smallest failing index i |
| `Workflow.AssertWorkflowOk` | rp_handler.py:96-111 | the loop that scans nodes in order and stops at the first bad one gives the same result as the specification: a missing file or undecodable file fails first, then validation as above |
| `Paths.Resolve` | rp_handler.py:114-118 | with `Paths.Join` modelling POSIX `os.path.join`: an absolute name is returned unchanged; a relative name comes back as exactly the root, then one `/` when the root is non-empty and does not end in `/` (nothing otherwise), then the name; under an absolute root the result is absolute |
| `Paths.ResolveIdempotent` | rp_handler.py:114-118 | under an absolute root, resolving a resolved path changes nothing |
| `Handler.Handle` | rp_handler.py:123-158 | with `Handler.InputOf` modelling `(event or {}).get("input", {})`: a truthy non-dict event, or an `input` that is not a dict, raises AttributeError (a falsy event reads as `{}`); a truthy `health` returns exactly `{"status": "ok"}`; a dry run without a truthy `workflow` returns the missing-parameter error; in both flows a non-string name raises TypeError and a name whose resolved path is not a file returns "workflow not found: <resolved path>"; a name whose file exists but fails the workflow check raises that check's exception; a dry run returns the ok report with the name and the readiness flag exactly when the named file loads and validates; the normal flow hands on to run_job with no path when no name is given, and otherwise exactly when the workflow is accepted, in which case it hands on the resolved path; always with the original input |
| `Handler.HealthIgnoresEnvironment` | rp_handler.py:132-134 | a health ping gives the same answer for every file store, readiness and workflows directory |
| `Handler.HandedOnWorkflowIsValid` | rp_handler.py:148-158 | a workflow path handed to run_job names a stored JSON workflow that normalises and whose every node is a dict with `"type"` |
| `Handler.DryRunOkWorkflowIsValid` | rp_handler.py:136-146 | a dry run reports ok only for a string name whose resolved path is a stored JSON workflow that normalises and whose every node is a dict with `"type"` |
| `Handler.RaisedValueErrorIsFromCheck` | rp_handler.py:141-155 | every ValueError escaping the handler (including the JSON and UTF-8 decode errors, which subclass it) comes from the stored file at the resolved path of a truthy string name: a decode error when that file is not JSON, its validation error otherwise |
| `Handler.HealthPingExample` | rp_handler.py:126-134 | `{"input": {"health": true}}` returns `{"status": "ok"}` |
| `Handler.MissingFileExample` | rp_handler.py:137-143 | a dry run of `missing.json` with no such file, under the default workflows directory, returns "workflow not found: " followed by the joined path |

## Left out

- `_wait_for_comfy` (rp_handler.py:39-51): a wall-clock loop of HTTP probes and sleeps. Only its boolean result is modelled, as the parameter `comfyReady`.
- `run_job` (rp_handler.py:163-177): a placeholder that echoes the input keys and makes an HTTP call. The model stops at the hand-off (`Outcome.RunJob` with the input and the path).
- The optional Flask `/health` route (rp_handler.py:22-30): framework glue.
- Environment configuration (rp_handler.py:13-17): the ComfyUI host, port and wait timeout are not used by the modelled logic; `WORKFLOWS_DIR` is a parameter.
- File reading and JSON decoding (rp_handler.py:54-56): a stored file is already decoded, or marked undecodable. Read errors other than a missing file (permissions, a path that is a directory when opened) are not modelled.
- Floating-point JSON numbers: not in the `Json` datatype. For example `str(1.0)` is `"1.0"`, which is not truthy.
- `Truthiness.IsTruthyCases`: `str.lower()` is modelled on ASCII letters only. Non-ASCII text is left as it is.
- The message text of the TypeError from `os.path.isabs` and of `json.JSONDecodeError` is not modelled, only the kind of exception.
- Dict key order in returned dicts is not modelled, because maps are unordered.
- Exceptions are modelled for values that come from decoded JSON. An event that is not JSON, such as a Python object with its own `get`, is not modelled.
