/** The values the broker handles: instance records, plans, configuration, the
    Director's and the UAA's answers, and the replies to clients. */
module Domain {
  import opened Strings

  /** Instance.State; a state file may hold a text the code does not know. */
  datatype LifeState = Provisioning | Ready | Deprovisioning | Failed | Unrecognised(text: string)

  datatype Record = Record(
    id: string,
    planID: string,
    planName: string,
    owner: string,
    orgGUID: string,
    spaceGUID: string,
    deploymentName: string,
    gatewayToken: string,
    nodeSeed: string,
    routeHostname: string,
    appsDomain: string,
    vmType: string,
    diskType: string,
    state: LifeState,
    boshTaskID: int,
    ssoEnabled: bool,
    ssoClientID: string,
    ssoClientSecret: string,
    ssoCookieSecret: string,
    openClawVersion: string)

  type Memory = map<string, Record>

  /** What no handler may ever change in a record. */
  datatype Identity = Identity(
    id: string,
    owner: string,
    orgGUID: string,
    spaceGUID: string,
    deploymentName: string,
    gatewayToken: string,
    nodeSeed: string,
    routeHostname: string,
    appsDomain: string)

  function IdentityOf(r: Record): Identity {
    Identity(r.id, r.owner, r.orgGUID, r.spaceGUID, r.deploymentName, r.gatewayToken, r.nodeSeed,
             r.routeHostname, r.appsDomain)
  }

  datatype Plan = Plan(
    name: string,
    id: string,
    description: string,
    planDescription: string,
    vmType: string,
    diskType: string,
    azs: seq<string>,
    browser: bool)

  datatype Config = Config(
    openClawVersion: string,
    minOpenClawVersion: string,
    plans: seq<Plan>,
    appsDomain: string,
    azs: seq<string>,
    ssoEnabled: bool,
    cfUaaURL: string,
    cfUaaSecret: string,
    maxInstances: int,
    maxInstancesPerOrg: int,
    blockedCommands: string,
    stateDir: string)

  /** The manifest parameters taken from the record, its plan and the command list. */
  datatype Params = Params(
    deploymentName: string,
    id: string,
    owner: string,
    planName: string,
    gatewayToken: string,
    nodeSeed: string,
    routeHostname: string,
    appsDomain: string,
    vmType: string,
    diskType: string,
    openClawVersion: string,
    ssoEnabled: bool,
    ssoClientID: string,
    ssoClientSecret: string,
    ssoCookieSecret: string,
    azs: seq<string>,
    browserEnabled: bool,
    blockedCommands: seq<string>)

  datatype ProvisionRequest =
    ProvisionRequest(planID: string, orgGUID: string, spaceGUID: string, owner: Option<string>)

  /** The random values one handler draws. */
  datatype Secrets = Secrets(gatewayToken: string, nodeSeed: string, clientSecret: string, cookieSecret: string)

  /** The outcome of rendering a manifest and posting it to the Director. */
  datatype DeployReply = RenderError | DeployRefused | DeployTask(task: int)

  datatype DeleteReply = DeleteRefused | DeleteTask(task: int)

  /** TaskStatus: a state, or an error. */
  datatype TaskAnswer = TaskDone | TaskError | TaskCancelled | TaskOther(text: string) | TaskUnreachable

  predicate Terminal(a: TaskAnswer) {
    a.TaskDone? || a.TaskError? || a.TaskCancelled?
  }

  datatype OpReport = InProgress | Succeeded | OpFailed

  datatype Credentials = Credentials(
    routeHostname: string,
    appsDomain: string,
    gatewayToken: string,
    nodeSeed: string,
    id: string,
    owner: string,
    planName: string,
    openClawVersion: string,
    ssoEnabled: bool)

  /** One entry of the instance list that the upgrade errand reads. */
  datatype Listing = Listing(
    id: string,
    deploymentName: string,
    state: LifeState,
    openClawVersion: string,
    planName: string,
    owner: string)

  datatype Response =
    | Accepted(operation: string)
    | InvalidInstanceID
    | AsyncRequired
    | BadRequest
    | Conflict
    | QuotaExceeded
    | VersionBelowMinimum
    | UnknownPlan
    | Misconfigured
    | RenderFailed
    | DeployFailed
    | DeprovisionFailed
    | Gone
    | NotFound
    | NotReady
    | Bound(credentials: Credentials)
    | LastOperation(report: OpReport)
    | Upgrading(upgraded: nat)
    | UpgradeStatus(healthy: nat, total: nat, failed: nat, inProgress: nat)
}
