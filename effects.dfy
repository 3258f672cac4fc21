/** What the wrappers see of the world around them: an Amorce identity, the exceptions
    the Python code raises or lets through, and the ordered trace of outside calls
    (signing, approval requests, status polls, sleeps, tool and kickoff invocations). */
module Effects {
  import opened Json

  /** An Amorce identity: its public agent id and its Ed25519 signing primitive,
      which is taken as given. */
  datatype Identity = Identity(agentId: string, sign: string -> string)

  /** The Python exceptions the modelled code raises or lets propagate. */
  datatype Error =
    | PermissionError(message: string)
    | TimeoutError(message: string)
    | TypeError(message: string)
    | KeyError(key: string)
    | AttributeError(attribute: string)
    /** Any other exception, raised by code outside the model (a tool body, the
        approval service, the original kickoff) and passed through unchanged. */
    | Raised(description: string)

  /** A Python call that returns a value or raises. */
  datatype Result<+T> = Ok(value: T) | Err(error: Error)
  {
    predicate IsFailure() { Err? }

    function PropagateFailure<U>(): Result<U>
      requires Err?
    {
      Err(error)
    }

    function Extract(): T
      requires Ok?
    {
      value
    }
  }

  /** `v[key]`: a dict answers or raises KeyError; any other value raises TypeError. */
  function Index(v: Json, key: string): (r: Result<Json>)
    ensures r.Ok? <==> v.Obj? && key in v.fields
    ensures r.Ok? ==> r.value == v.fields[key]
    ensures v.Obj? && key !in v.fields ==> r == Err(KeyError(key))
  {
    match v
    case Obj(fields) => if key in fields then Ok(fields[key]) else Err(KeyError(key))
    case _ => Err(TypeError("object is not subscriptable"))
  }

  /** `v.get(key, default)`: only a dict has `get`. */
  function Get(v: Json, key: string, default: Json): (r: Result<Json>)
    ensures r.Ok? <==> v.Obj?
    ensures r.Ok? ==> r.value == if key in v.fields then v.fields[key] else default
  {
    match v
    case Obj(fields) => Ok(if key in fields then fields[key] else default)
    case _ => Err(AttributeError("get"))
  }

  /** What the Amorce servers answer, taken as given: `requestApproval` answers a request
      with an approval id (or raises); `checkApproval(id, k)` is the answer to the k-th
      status check (counting from 0) of the approval `id` (or raises). */
  datatype Service = Service(
    requestApproval: (string, Json, int) -> Result<Json>,
    checkApproval: (Json, nat) -> Result<Json>)

  const DirectoryUrl: string := "https://directory.amorce.io"
  const OrchestratorUrl: string := "https://api.amorce.io"

  /** An `AmorceClient`: the identity and the two URLs it was built with, and the servers
      it talks to. */
  datatype Client = Client(identity: Identity, directoryUrl: string, orchestratorUrl: string, service: Service)

  /** `AmorceClient(identity, directory_url=..., orchestrator_url=...)`, as both the crew
      decorator and `SecureAgent` build it. */
  function NewClient(identity: Identity, service: Service): (c: Client)
    ensures c.identity == identity && c.service == service
    ensures c.directoryUrl == DirectoryUrl && c.orchestratorUrl == OrchestratorUrl
  {
    Client(identity, DirectoryUrl, OrchestratorUrl, service)
  }

  /** `*args` and `**kwargs` of a Python call, restricted to JSON-able values. */
  type Args = seq<Json>
  type Kwargs = map<string, Json>

  /** An opaque Python callable: a tool's `run`, a tool's `__call__`, a crew's kickoff. */
  type Action = (Args, Kwargs) -> Result<Json>

  /** How a wrapped tool was invoked: through its `run` method or by calling it. */
  datatype Via = ViaRun | ViaCall

  /** One call to the outside world, in the order it happens. */
  datatype Event =
    | Signed(text: string)
    | ApprovalRequested(summary: string, details: Json, timeoutSeconds: int)
    | StatusChecked(approvalId: Json)
    | Slept(seconds: int)
    | ToolInvoked(via: Via, args: Args, kwargs: Kwargs)
    | KickoffInvoked(args: Args, kwargs: Kwargs)

  /** What a Python call returned or raised, with the outside calls it made on the way. */
  datatype Response<+T> = Response(result: Result<T>, trace: seq<Event>)

  /** How many events of a trace satisfy `p`. */
  function Occurrences(trace: seq<Event>, p: Event -> bool): (n: nat)
    ensures n <= |trace|
    ensures n == 0 <==> forall i | 0 <= i < |trace| :: !p(trace[i])
  {
    if trace == [] then 0
    else (if p(trace[0]) then 1 else 0) + Occurrences(trace[1..], p)
  }

  /** Counting is additive over concatenated traces. */
  lemma {:induction false} OccurrencesAppend(a: seq<Event>, b: seq<Event>, p: Event -> bool)
    ensures Occurrences(a + b, p) == Occurrences(a, p) + Occurrences(b, p)
    decreases |a|
  {
    if a != [] {
      assert (a + b)[0] == a[0] && (a + b)[1..] == a[1..] + b;
      OccurrencesAppend(a[1..], b, p);
    } else {
      assert a + b == b;
    }
  }

  predicate IsToolCall(e: Event) { e.ToolInvoked? }
  predicate IsKickoffCall(e: Event) { e.KickoffInvoked? }
  predicate IsApprovalTraffic(e: Event) { e.ApprovalRequested? || e.StatusChecked? }
}
