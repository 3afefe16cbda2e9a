/** The stored objects of the API group and the deployment states they report. */
module Types {
  import opened Common

  // ------------------------------------------------------------- deployment states

  const STATE_RUNNING := "running"
  const STATE_SUCCESSFUL := "successful"

  const RUNNING_STATES: set<string> := {STATE_SUCCESSFUL, STATE_RUNNING}
  const OPERATIONAL_STATES: set<string> := RUNNING_STATES + {}
  const KNOWN_STATES: set<string> := OPERATIONAL_STATES + {}

  /** The three sets coincide, so a machine in a known state is always running. */
  lemma StateSetsCoincide(status: string)
    ensures status in KNOWN_STATES <==> status in RUNNING_STATES
    ensures status in OPERATIONAL_STATES <==> status in RUNNING_STATES
    ensures status in RUNNING_STATES <==> status == "running" || status == "successful"
  {
  }

  // ----------------------------------------------------------------------- messages

  /** A character as %q prints it between its quotes. */
  function QuoteChar(c: char): string {
    var code := c as int;
    if c == '\"' || c == '\\' then ['\\', c]
    else if 7 <= code < 14 then ['\\', "abtnvfr"[code - 7]]
    else if code < 32 || code == 127 then "\\x" + ["0123456789abcdef"[code / 16], "0123456789abcdef"[code % 16]]
    else [c]
  }

  function QuoteChars(s: string): string {
    if s == [] then [] else QuoteChar(s[0]) + QuoteChars(s[1..])
  }

  /** %q: double quotes around the escaped characters. */
  function Quote(s: string): string {
    "\"" + QuoteChars(s) + "\""
  }

  /** Printable ASCII other than the quote and the backslash. */
  predicate Plain(c: char) {
    32 <= c as int < 127 && c != '"' && c != '\\'
  }

  /** A string of plain characters stands between the quotes as it is. */
  lemma {:induction false} QuotePlain(s: string)
    requires forall i :: 0 <= i < |s| ==> Plain(s[i])
    ensures QuoteChars(s) == s && Quote(s) == "\"" + s + "\""
  {
    if s != [] {
      assert Plain(s[0]);
      assert forall i :: 0 <= i < |s[1..]| ==> s[1..][i] == s[i + 1];
      QuotePlain(s[1..]);
      assert [s[0]] + s[1..] == s;
    }
  }

  /** The others are escaped. */
  lemma QuoteEscapes()
    ensures Quote("\"\\") == "\"\\\"\\\\\""
    ensures Quote("\t\n\r") == "\"\\t\\n\\r\""
    ensures QuoteChar(7 as char) == "\\a" && QuoteChar(8 as char) == "\\b"
    ensures QuoteChar(11 as char) == "\\v" && QuoteChar(12 as char) == "\\f"
    ensures QuoteChar(0 as char) == "\\x00" && QuoteChar(27 as char) == "\\x1b" && QuoteChar(127 as char) == "\\x7f"
  {
    assert QuoteChars("\\") == "\\\\" && QuoteChars("\r") == "\\r" && QuoteChars("\n\r") == "\\n\\r";
  }

  // -------------------------------------------------------------------- conditions

  datatype Condition = Unset | IsTrue | IsFalse(reason: string) | IsUnknown

  const WAITING_FOR_CLUSTER_INFRASTRUCTURE := "WaitingForClusterInfrastructure"
  const WAITING_FOR_BOOTSTRAP_DATA := "WaitingForBootstrapData"
  const MACHINE_DEPLOYING := "MachineDeploying"
  const MACHINE_DEPLOY_FAILED := "MachineDeployFailed"
  const DELETED := "Deleted"
  const DNS_ATTACH_PENDING := "DNSAttachPending"
  const WAIT_FOR_DNS_NAME := "WaitForDNSName"
  const API_SERVER_NOT_READY := "APIServerNotReady"
  const UPDATE_MACHINE_ERROR := "UpdateError"

  // ----------------------------------------------------------------------- objects

  /** A NomadMachine as the API server stores it. `finalizer` is the presence of this
      controller's finalizer, `deleting` a non-zero deletion timestamp. */
  datatype NomadMachine = NomadMachine(
    finalizer: bool,
    deleting: bool,
    providerID: Option<string>,
    ready: bool,
    deploymentStatus: Option<string>,
    statusDescription: Option<string>,
    dnsAttached: bool,
    addresses: seq<string>,
    deployed: Condition,
    dns: Condition,
    failureReason: Option<string>,
    failureMessage: Option<string>)

  const NEW_MACHINE := NomadMachine(false, false, None, false, None, None, false, [], Unset, Unset, None, None)

  datatype APIEndpoint = APIEndpoint(host: string, port: int)

  datatype NomadCluster = NomadCluster(
    finalizer: bool,
    deleting: bool,
    dnsName: string,
    endpoint: APIEndpoint,
    ready: bool,
    dnsReady: Condition,
    apiServer: Condition)

  const NEW_CLUSTER := NomadCluster(false, false, "", APIEndpoint("", 0), false, Unset, Unset)

  // ------------------------------------------------------------- remote records

  /** What DeployMachine returns: the deployment that Nomad reports. */
  datatype Deployment = Deployment(jobID: string, id: string, status: string, description: string)

  /** A Nomad job. Its content beyond these fields is fixed by the machine and its spec. */
  datatype Job = Job(id: string, datacenter: string, mac: string, userData: string)

  /** An entry of the Consul catalogue. */
  datatype Service = Service(name: string, id: string, tags: seq<string>, address: string, port: int)
}
