/** Functions, requests and their validation (internal/model/function.go, internal/nats/types.go). */
module Model {
  import opened Wrappers

  const MANAGED := "managed"
  const BYOI := "byoi"
  const PYTHON := "python"
  const NODEJS := "nodejs"
  const GO := "go"
  const MAX_CODE := 1_000_000

  /** What a client asks to be created, and what the deployer deploys; strings are byte sequences. */
  datatype FunctionSpec = FunctionSpec(
    name: string, runtime: string, deployType: string, code: string, image: string, public: bool)

  datatype UpdateRequest = UpdateRequest(code: string, image: string, public: Option<bool>)

  datatype DeployRequest = DeployRequest(
    deploymentId: int, workspaceId: int, functionName: string, ns: string,
    runtime: string, deployType: string, code: string, image: string, public: bool)

  datatype DeployStatus = Queued | Building | Deploying | Running | Failed

  /** The text of a status, in the database and in published events. */
  function StatusText(s: DeployStatus): string {
    match s
    case Queued => "queued"
    case Building => "building"
    case Deploying => "deploying"
    case Running => "running"
    case Failed => "failed"
  }

  predicate IsLower(c: char) { 'a' <= c <= 'z' }

  predicate IsLowerOrDigit(c: char) { IsLower(c) || '0' <= c <= '9' }

  /** ^[a-z][a-z0-9-]{0,61}[a-z0-9]$ */
  predicate MatchesNameRegex(name: string) {
    && 2 <= |name| <= 63
    && IsLower(name[0])
    && IsLowerOrDigit(name[|name| - 1])
    && forall i | 0 <= i < |name| :: IsLowerOrDigit(name[i]) || name[i] == '-'
  }

  function ValidateManaged(r: FunctionSpec): Option<string> {
    if r.runtime != PYTHON && r.runtime != NODEJS then Some("managed runtime must be 'python' or 'nodejs'")
    else if r.code == "" then Some("code is required for managed deploy type")
    else if |r.code| > MAX_CODE then Some("code must be under 1MB")
    else None
  }

  function ValidateByoi(r: FunctionSpec): Option<string> {
    if r.runtime != PYTHON && r.runtime != NODEJS && r.runtime != GO then
      Some("runtime must be 'python', 'nodejs', or 'go'")
    else if r.image == "" then Some("image is required for byoi deploy type")
    else None
  }

  function ValidateCreate(r: FunctionSpec): Option<string> {
    if r.name == "" then Some("name is required")
    else if |r.name| > 63 then Some("name must be at most 63 characters")
    else if !MatchesNameRegex(r.name) then
      Some("name must be lowercase alphanumeric with hyphens, starting with a letter")
    else if r.deployType == MANAGED then ValidateManaged(r)
    else if r.deployType == BYOI then ValidateByoi(r)
    else Some("deploy_type must be 'managed' or 'byoi'")
  }

  function ValidateUpdate(r: UpdateRequest, existingType: string): Option<string> {
    if r.code == "" && r.image == "" && r.public.None? then Some("at least one field must be provided")
    else if existingType == MANAGED && r.image != "" then Some("cannot change image for managed function")
    else if existingType == BYOI && r.code != "" then Some("cannot set code for byoi function")
    else if r.code != "" && |r.code| > MAX_CODE then Some("code must be under 1MB")
    else None
  }

  /** A letter, up to 61 letters, digits and hyphens, and a letter or digit. */
  predicate NamePattern(name: string) {
    && 2 <= |name| <= 1 + 61 + 1
    && 'a' <= name[0] <= 'z'
    && (forall i | 0 < i < |name| - 1 :: 'a' <= name[i] <= 'z' || '0' <= name[i] <= '9' || name[i] == '-')
    && ('a' <= name[|name| - 1] <= 'z' || '0' <= name[|name| - 1] <= '9')
  }

  /** A function the platform can run: managed code in a runtime it has, or an image. */
  predicate Runnable(fn: FunctionSpec) {
    || (&& fn.deployType == "managed" && (fn.runtime == "python" || fn.runtime == "nodejs")
        && 1 <= |fn.code| <= 1_000_000)
    || (&& fn.deployType == "byoi" && (fn.runtime == "python" || fn.runtime == "nodejs" || fn.runtime == "go")
        && fn.image != "")
  }

  /** A create is accepted exactly when its name is of the pattern and its function can run. */
  lemma {:induction false} AcceptedCreateIff(r: FunctionSpec)
    ensures ValidateCreate(r).None? <==> NamePattern(r.name) && Runnable(r)
  {
  }

  /** What an update may ask for: some change, but no managed function's image and no byoi function's code. */
  predicate Changeable(r: UpdateRequest, existingType: string) {
    && (r.code != "" || r.image != "" || r.public.Some?)
    && (existingType == "managed" ==> r.image == "")
    && (existingType == "byoi" ==> r.code == "")
    && |r.code| <= 1_000_000
  }

  lemma {:induction false} AcceptedUpdateIff(r: UpdateRequest, existingType: string)
    ensures ValidateUpdate(r, existingType).None? <==> Changeable(r, existingType)
  {
  }
}
