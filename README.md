# crewai-amorce core, modelled in Dafny

crewai-amorce adds Amorce security to CrewAI agents and crews. Every action is signed
over the sorted-key JSON text of a record that describes it. Sensitive tool calls can be
held for human approval. Results come back with the signature attached, and optionally
in an A2A (agent-to-agent) message shape. This project models the sequential logic of
that layer and proves what it promises.

Seven modules, one per concern:

- `Json` (json.dfy). JSON values, with dicts as maps, and
  `json.dumps(v, sort_keys=True)` as `Dumps`:
  - keys are written in Python's `str` order, at every level;
  - separators are `", "` and `": "`;
  - `ensure_ascii` escapes are included.

  A reference reader `ParseValue` is proved to invert `Dumps`. So, over JSON values, the
  signed text determines the signed value (`DumpsInjective`), and the order a dict was
  built in can never reach a signature.
- `Effects` (effects.dfy). Identities (an agent id and an uninterpreted `sign`), the
  Python exceptions as an `Error` datatype, a `Result` type, and the trace of outside
  calls (signing, approval requests, status checks, sleeps, tool and kickoff invocations).
  Ordering properties are stated over that trace.
- `Approval` (approval.dfy). The approval wait that both `AmorceToolWrapper.run` and
  `SecureAgent.request_human_approval_for_sale` run:
  - `Await` specifies it;
  - `Poll` is the loop, proved against `Await`;
  - `AwaitCharacterised` says, in both directions, which service answers and clock
    readings produce each outcome.
- `Tools` (tools.dfy). `AmorceToolWrapper` as a class: fallbacks at construction, then
  `run` = sign, approval stage (`Gate`), dispatch (`Execute`), result record. `run` and
  `__call__` are proved equal to the specification `Invocation`.
- `A2A` (a2a.dfy). `A2AEnvelope.to_dict` / `from_dict`, with Python's evaluation order
  for the lookups that raise.
- `Decorators` (decorators.dfy). `secure_crew`: a `Crew` class whose attributes the
  decorator sets in place, and the chain of secured kickoffs.
- `Agent` (agent.dfy). `SecureAgent`:
  - the wrapping loop at construction;
  - the signed counter-offer and receipt;
  - the sale approval.

The outside world comes in as parameters:

- an `AmorceClient` is a `Client`: the identity and the two URLs it is built with, and
  the `Service` it talks to. The service holds the answer to an approval request, and
  the answer to the k-th status check of an approval id. Both the crew decorator and
  `SecureAgent` build their client from their own identity (`NewClient`);
- the clock is a sequence of readings;
- `IdentityManager.generate()` is the identity it would return;
- `datetime.utcnow().isoformat()` is the text it would return.

The wait loop terminates only if time advances. Every member that runs it requires
`ClockOk`: the clock does not go back before the first test, and each `time.sleep(1)`
lasts at least a second. Under that assumption, no wait makes more than 300 status checks.

Points of the code's behaviour worth stating:

- a tool that can be neither run nor called raises `TypeError` only after the call has
  been signed and has passed the approval stage;
- an exception from a status check propagates at once. The wait does not retry it, and
  nothing can cancel a wait;
- an envelope that lacks a required key raises `KeyError` for the first such key that
  `from_dict` reads;
- an A2A kickoff builds its result dict directly. It imports `A2AEnvelope` but does not
  use it (the import itself is discussed under "Left out");
- the agent reaches its tools only through the wrapped list `tools`. No method looks a
  tool up by name.

## Model

| member | source | states |
|---|---|---|
| Json.Dumps | build/lib/crewai_amorce/tools.py:58 | `json.dumps(v, sort_keys=True)` with the default separators and ASCII escapes; its contract is in Json.SortedKeys, Json.ParseInvertsDumps and Json.DumpsInjective |
| Json.SortedKeys | build/lib/crewai_amorce/tools.py:58 | `sort_keys=True` lists every key of a dict exactly once, strictly ascending in Python's str order |
| Json.BelowTotal | crewai_amorce/agent.py:145 | any two distinct keys are ordered one way or the other, so the sorted order is unique |
| Json.BelowTransitive | crewai_amorce/agent.py:145 | the key order is transitive |
| Json.ParseInvertsDumps | build/lib/crewai_amorce/tools.py:58 | the canonical text reads back as the value it was made from |
| Json.DumpsInjective | build/lib/crewai_amorce/decorators.py:85 | two values have the same canonical text exactly when they are equal, whatever order their dicts were built in |
| Approval.ElapsedBound | build/lib/crewai_amorce/tools.py:77-86 | with one-second sleeps, by the k-th loop test at least k seconds have elapsed |
| Approval.StatusOf | build/lib/crewai_amorce/tools.py:78 | `status['status']` reads the key of a dict answer, raises KeyError when it is missing, and passes a raised error through |
| Approval.Await | build/lib/crewai_amorce/tools.py:72-88 | the wait makes at most 300 status checks; it times out only when 300 s have elapsed at a loop test, and otherwise stops on a check made in time |
| Approval.AwaitCharacterised | build/lib/crewai_amorce/tools.py:77-88 | the wait ends with outcome o exactly when every earlier round was in time and undecided and the last test or check saw what o says (approved; rejected or expired; time up; an error) |
| Approval.NeverDecidedTimesOut | crewai_amorce/agent.py:170-180 | a service that never answers approved, rejected or expired makes the wait time out |
| Approval.PollEventsChecks | build/lib/crewai_amorce/tools.py:77-86 | the wait alternates status checks of the id the request returned with one-second sleeps, starting with a check; it makes as many checks as its outcome records and invokes no tool |
| Approval.Poll | build/lib/crewai_amorce/tools.py:72-88 | the polling loop returns the outcome `Await` specifies and the trace `PollEvents` describes |
| Tools.ToolWrapper.constructor | build/lib/crewai_amorce/tools.py:18-39 | the wrapper's name is the tool's `name`, else its class name; its description is the tool's `description`, else "" |
| Tools.ToolWrapper.Invocation | build/lib/crewai_amorce/tools.py:41-104 | the specification of one `run` call; its contract is in Tools.SignsFirst, Tools.GateTrace, Tools.ApprovalTraffic, Tools.ToolInvokedOnce, Tools.HeldCallsFail and Tools.ResultCarriesSignature |
| Tools.ToolWrapper.Run | build/lib/crewai_amorce/tools.py:41-104 | `run` returns or raises what `Invocation` says, after making exactly the outside calls it lists, in that order |
| Tools.ToolWrapper.Call | build/lib/crewai_amorce/tools.py:106-108 | `__call__` behaves exactly as `run` |
| Tools.SignsFirst | build/lib/crewai_amorce/tools.py:50-58 | the first outside call of `run` signs the sorted-key text of `{tool, args, kwargs, agent_id}`, and nothing else is signed |
| Tools.SignedTextBindsCall | build/lib/crewai_amorce/tools.py:50-58 | two calls are signed over the same text exactly when tool name, args, kwargs and agent id all agree |
| Tools.GateTrace | build/lib/crewai_amorce/tools.py:61-88 | the approval stage invokes no tool; without HITL it does nothing; with HITL it first requests approval; it lets the call on exactly when HITL is off or the wait ends approved |
| Tools.ApprovalTraffic | build/lib/crewai_amorce/tools.py:61-70 | with HITL the second outside call is the request `("Approve <name> execution", call record, 300)`; without HITL no request or status check is made |
| Tools.ToolInvokedOnce | build/lib/crewai_amorce/tools.py:90-96 | the tool is invoked once, as the last outside call, via `run` if it has one, else called directly; exactly when the call was let through and the tool is invocable; otherwise TypeError |
| Tools.HeldCallsFail | build/lib/crewai_amorce/tools.py:77-88 | a rejected or expired approval raises PermissionError, a timeout raises TimeoutError, and in neither case is the tool invoked |
| Tools.ResultCarriesSignature | build/lib/crewai_amorce/tools.py:98-104 | `run` succeeds exactly when let through and the tool returned; the answer is `{result, tool, agent_id, signature}` with the signature made at the start |
| A2A.ToDict | crewai_amorce/a2a.py:21-38 | `to_dict`, with the timestamp text as a parameter; its contract is in A2A.ToDictLayout and A2A.RoundTrip |
| A2A.FromDict | crewai_amorce/a2a.py:44-53 | `from_dict`; its contract is in A2A.DecodeAcceptsExactly, A2A.DecodeMissingKey and A2A.RoundTrip |
| A2A.RoundTrip | crewai_amorce/a2a.py:21-53 | `from_dict(to_dict(e))` gives back all five fields of e, whatever the timestamp |
| A2A.ToDictLayout | crewai_amorce/a2a.py:21-38 | `to_dict` puts each field where it belongs, always writes algorithm "ed25519" and metadata version "1.0", and has exactly four top-level keys |
| A2A.DecodeAcceptsExactly | crewai_amorce/a2a.py:44-53 | `from_dict` succeeds exactly when the three required keys are there; a missing protocol or layer defaults to "a2a/1.0" / "amorce/3.0" |
| A2A.DecodeMissingKey | crewai_amorce/a2a.py:47-50 | a missing required key raises KeyError naming the first key looked up |
| A2A.DefaultEnvelopeEncoding | tests/test_basic.py:70-84 | an envelope built with defaults encodes protocol "a2a/1.0" and the given sender and message |
| Decorators.Truncate | build/lib/crewai_amorce/decorators.py:83 | `description[:50]` is a prefix of the description of length min(len, 50) |
| Decorators.DescriptorEntries | build/lib/crewai_amorce/decorators.py:80-84 | the kickoff descriptor holds the crew id, every agent role in order, and every task description cut to a prefix of at most 50 characters, kept whole when short enough |
| Decorators.OriginalRunsOnce | build/lib/crewai_amorce/decorators.py:70-104 | however often the crew was secured, a kickoff only signs until it runs the original kickoff exactly once, last, with the caller's arguments; it fails exactly when the original does |
| Decorators.RunKickoff | build/lib/crewai_amorce/decorators.py:70-104 | a kickoff through any number of securing layers; its contract is in Decorators.SecuredResult and Decorators.OriginalRunsOnce |
| Decorators.SecuredResult | build/lib/crewai_amorce/decorators.py:85-104 | a secured kickoff signs the descriptor first; with `a2a_compatible` it returns `{result, crew_id, signature, protocol: 'a2a/1.0', security_layer: 'amorce/3.0'}`, otherwise the raw result |
| Decorators.FreshlySecuredKickoff | build/lib/crewai_amorce/decorators.py:68-107 | a newly secured crew's kickoff signs the descriptor under the new crew id and then runs the framework kickoff once |
| Decorators.Decorate | build/lib/crewai_amorce/decorators.py:43-122 | decorating sets identity, client, `hitl_required` (default []), `a2a_compatible` and `crew_id = identity.agent_id`; wraps the old kickoff; attaches the two helpers; leaves agents and tasks alone; returns the same crew |
| Decorators.SecureCrew | build/lib/crewai_amorce/decorators.py:124-130 | with no crew it returns the decorator and changes nothing; with a crew it decorates it at once |
| Agent.WrapTool | crewai_amorce/agent.py:92-100 | a wrapper needs approval exactly when the tool's name is in `hitl_required`; a nameless tool raises AttributeError |
| Agent.NewSecureAgent | crewai_amorce/agent.py:34-90 | construction keeps role, goal and backstory; sets `agent_id` to the identity's id, builds the client from that identity, and sets `hitl_required` to [] by default; wraps the tools in order, or raises AttributeError on a nameless one |
| Agent.SignedOver | crewai_amorce/agent.py:147-150 | a signed record is the record plus a `signature` key; removing that key gives back exactly what was signed |
| Agent.SignedOverItself | crewai_amorce/agent.py:145-150 | signing a record over its own canonical JSON text gives a signature over exactly the fields other than `signature` |
| Agent.SecureAgent.CounterOffer | crewai_amorce/agent.py:125-150 | `counter_offer`; its contract is in Agent.CounterOfferSigned |
| Agent.CounterOfferSigned | crewai_amorce/agent.py:125-150 | a counter-offer echoes price, reasoning, agent id and role, and its signature covers exactly those four fields |
| Agent.SecureAgent.SignedReceipt | crewai_amorce/agent.py:182-199 | `generate_signed_receipt`, with the time text as a parameter; its contract is in Agent.ReceiptSigned |
| Agent.ReceiptSigned | crewai_amorce/agent.py:182-199 | a receipt names the agent and its role as seller and is marked verified; its signature covers exactly its other fields |
| Agent.SecureAgent.SaleApproval | crewai_amorce/agent.py:157-180 | the specification of the sale approval; its contract is in Agent.SaleApprovalOutcomes and Agent.SaleApprovalTrace |
| Agent.SecureAgent.RequestHumanApprovalForSale | crewai_amorce/agent.py:157-180 | the sale approval returns or raises what `SaleApproval` says, after the outside calls it lists |
| Agent.SaleApprovalOutcomes | crewai_amorce/agent.py:170-180 | it returns True exactly on an approval, and never False; PermissionError on rejection or expiry; TimeoutError when time runs out, e.g. when the service never decides |
| Agent.SaleApprovalTrace | crewai_amorce/agent.py:159-178 | it requests approval with "<role>: Approve sale", `{agent_id, role}` and 300, then only checks that approval's status and sleeps one second at a time |

## Left out

- The Ed25519 signature, `IdentityManager.generate()` and the `AmorceClient` network
  calls (`request_approval`, `check_approval`, `discover`, `get_agent_reputation`) are
  external:
  - `sign` is an uninterpreted function;
  - generated identities are parameters;
  - the approval servers are a given `Service`.
- The directory and orchestrator URLs are kept only as fields of the client.
- The clock is a parameter. The wait is modelled only under `ClockOk` (readings do not go
  back before the first test, and each sleep lasts at least one second). Without that,
  the source loop need not terminate.
- Floating point is left out. JSON numbers are integers only, and `calculate_margin`
  (a float product) is not modelled.
- Values passed through `*args`/`**kwargs`, tool results and messages must be
  JSON-representable. Python objects that `json.dumps` rejects are not modelled.
- Json.Dumps: writes every integer, however long. Since Python 3.10.7 and 3.11 (setup.py
  allows 3.10 and later), `json.dumps` writes an int through `int.__repr__`, which by
  default raises ValueError above 4300 digits. So `run(10**5000)` raises at
  build/lib/crewai_amorce/tools.py:58 before signing, with no approval request and no
  tool call, and `counter_offer(price=10**5000)` raises at crewai_amorce/agent.py:145. The
  model signs and carries on in both cases.
- Json.DumpsInjective / Tools.SignedTextBindsCall: both hold only over the `Json`
  datatype. `json.dumps` also accepts values the model leaves out, and on those its
  text is not injective:
  - a tuple is written like a list, so `run(x=(1, 2))` and `run(x=[1, 2])` are signed
    over the same text;
  - a dict key that is not a `str` is turned into a string, so `{1: v}` and `{"1": v}`
    collide, and so do `{True: v}` and `{"true": v}`;
  - a Python `str` can hold a lone surrogate, which a Dafny `char` cannot.
- Tool and agent names, roles and task descriptions are modelled as strings, although
  the source does not check their types.
- A tool's `run` attribute is assumed callable when present.
- The texts of Python's own TypeError and AttributeError messages are approximated. The
  model keeps the exception kind and the key or attribute name.
- Decorators.SecuredResult / Decorators.OriginalRunsOnce: the model assumes that the
  import of `A2AEnvelope` at build/lib/crewai_amorce/decorators.py:95 succeeds. That holds
  once crewai_amorce/a2a.py is fixed (see the next line). As written, that import raises
  IndentationError, so every kickoff with `a2a_compatible` (the default) raises after the
  original kickoff has run.
- `A2AEnvelope.to_json` is left out. In the source its `def` line is indented three
  spaces instead of four, so the module as written raises IndentationError on import.
  The model treats the rest of the class as intended.
- `check_buyer_reputation` (a network call), `receive_offer` and the crew's `delegate_to`
  are stubs or forwarders with no logic. Only the attachment of `delegate_to` and
  `discover_crews` to the crew is modelled.
- `verbose` logging and every `print` are left out.
- The crewai base classes are left out. `Agent.__init__` via `super()` and the framework's
  own kickoff are opaque: the kickoff is an `Action`.
- A secured kickoff is assumed to be installed on the crew it was built for. It reads
  that crew's `crew_id`, agents and tasks when it runs.
- Exceptions raised by `sign`, by the request for approval's own arguments, or by
  attribute reads on framework objects (other than the ones modelled) are not modelled.
