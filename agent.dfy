/** `SecureAgent`: an agent with an Amorce identity whose tools are wrapped at
    construction, and which signs its counter-offers and receipts and can hold a sale
    for human approval. */
module Agent {
  import opened Json
  import opened Effects
  import opened Approval
  import opened Tools

  /** `w` is the wrapper `_wrap_tool` builds for `tool`. */
  ghost predicate Wraps(w: ToolWrapper, tool: Tool, identity: Identity, client: Client, hitlRequired: seq<string>)
  {
    && tool.name.Some? && w.tool == tool && w.name == tool.name.value
    && w.identity == identity && w.client == client
    && w.requiresHitl == (tool.name.value in hitlRequired)
  }

  /** `_wrap_tool`: the approval flag is whether the tool's name is listed; a tool without
      a `name` attribute raises AttributeError. */
  method WrapTool(tool: Tool, identity: Identity, client: Client, hitlRequired: seq<string>)
    returns (r: Result<ToolWrapper>)
    ensures r.Err? <==> tool.name.None?
    ensures r.Err? ==> r.error == AttributeError("name")
    ensures r.Ok? ==> Wraps(r.value, tool, identity, client, hitlRequired)
  {
    if tool.name.None? {
      return Err(AttributeError("name"));
    }
    var w := new ToolWrapper(tool, identity, client, tool.name.value in hitlRequired);
    r := Ok(w);
  }

  class SecureAgent {
    const role: string
    const goal: string
    const backstory: string
    const identity: Identity
    const amorceClient: Client
    const hitlRequired: seq<string>
    const a2aCompatible: bool
    const agentId: string
    const tools: seq<ToolWrapper>

    constructor(role: string, goal: string, backstory: string, identity: Identity, client: Client,
                hitlRequired: seq<string>, a2aCompatible: bool, tools: seq<ToolWrapper>)
      ensures this.role == role && this.goal == goal && this.backstory == backstory
      ensures this.identity == identity && amorceClient == client && agentId == identity.agentId
      ensures this.hitlRequired == hitlRequired && this.a2aCompatible == a2aCompatible && this.tools == tools
    {
      this.role := role;
      this.goal := goal;
      this.backstory := backstory;
      this.identity := identity;
      amorceClient := client;
      this.hitlRequired := hitlRequired;
      this.a2aCompatible := a2aCompatible;
      agentId := identity.agentId;
      this.tools := tools;
    }

    /** `{agent_id, price, reasoning, role}`. */
    function Offer(price: Json, reasoning: string): Json
    {
      Obj(map["agent_id" := Str(agentId), "price" := price, "reasoning" := Str(reasoning), "role" := Str(role)])
    }

    /** `counter_offer`. */
    function CounterOffer(price: Json, reasoning: string := ""): Json
    {
      var offer := Offer(price, reasoning);
      WithSignature(offer, identity.sign(Dumps(offer)))
    }

    /** The receipt fields; `now` is the text of `datetime.utcnow().isoformat()`. */
    function Receipt(now: string): Json
    {
      Obj(map[
        "seller_id" := Str(agentId),
        "seller_role" := Str(role),
        "timestamp" := Str(now + "Z"),
        "verified_by_amorce" := Bool(true)])
    }

    /** `generate_signed_receipt`. */
    function SignedReceipt(now: string): Json
    {
      var receipt := Receipt(now);
      WithSignature(receipt, identity.sign(Dumps(receipt)))
    }

    function SaleSummary(): string
    {
      role + ": Approve sale"
    }

    function SaleDetails(): Json
    {
      Obj(map["agent_id" := Str(agentId), "role" := Str(role)])
    }

    /** What `request_human_approval_for_sale()` returns or raises, and the outside calls
        it makes. */
    function SaleApproval(clock: Clock): Response<bool>
      requires ClockOk(clock)
    {
      var asked := [ApprovalRequested(SaleSummary(), SaleDetails(), TimeoutSeconds)];
      match amorceClient.service.requestApproval(SaleSummary(), SaleDetails(), TimeoutSeconds)
      case Err(e) => Response(Err(e), asked)
      case Ok(id) =>
        var o := Await(amorceClient, id, clock, 0);
        var trace := asked + PollEvents(id, o);
        match o
        case Approved(_) => Response(Ok(true), trace)
        case Refused(_) => Response(Err(PermissionError("Sale approval denied")), trace)
        case TimedOut(_) => Response(Err(TimeoutError("Sale approval timeout")), trace)
        case Failed(e, _) => Response(Err(e), trace)
    }

    /** `request_human_approval_for_sale`. */
    method RequestHumanApprovalForSale(clock: Clock) returns (result: Result<bool>, trace: seq<Event>)
      requires ClockOk(clock)
      ensures Response(result, trace) == SaleApproval(clock)
    {
      var summary := SaleSummary();
      var details := SaleDetails();
      var requested := amorceClient.service.requestApproval(summary, details, TimeoutSeconds);
      trace := [ApprovalRequested(summary, details, TimeoutSeconds)];
      if requested.Err? {
        return Err(requested.error), trace;
      }
      var outcome, polls := Poll(amorceClient, requested.value, clock);
      trace := trace + polls;
      match outcome {
        case Approved(_) => result := Ok(true);
        case Refused(_) => result := Err(PermissionError("Sale approval denied"));
        case TimedOut(_) => result := Err(TimeoutError("Sale approval timeout"));
        case Failed(e, _) => result := Err(e);
      }
    }
  }

  /** `{**record, 'signature': signature}`. */
  function WithSignature(record: Json, signature: string): Json
    requires record.Obj?
  {
    Obj(record.fields["signature" := Str(signature)])
  }

  /** Stripping the signature from a signed record gives back the record that was signed. */
  lemma SignedOver(record: Json, signature: string)
    requires record.Obj? && "signature" !in record.fields
    ensures var s := WithSignature(record, signature);
      s.fields.Keys == record.fields.Keys + {"signature"}
      && s.fields["signature"] == Str(signature)
      && Obj(s.fields - {"signature"}) == record
  {
    var s := WithSignature(record, signature);
    assert s.fields - {"signature"} == record.fields;
  }

  /** `SecureAgent(...)`, with its defaults. `generated` is what `IdentityManager.generate()`
      returns and `service` the Amorce servers. The agent's client is built from its
      identity. Each tool is wrapped in order; a tool without a name stops construction
      with AttributeError. */
  method NewSecureAgent(generated: Identity, service: Service, role: string, goal: string, backstory: string,
                        tools: Option<seq<Tool>> := None, identity: Option<Identity> := None,
                        hitlRequired: Option<seq<string>> := None, a2aCompatible: bool := true)
    returns (r: Result<SecureAgent>)
    ensures var given := if tools.Some? then tools.value else [];
      (r.Ok? <==> forall j | 0 <= j < |given| :: given[j].name.Some?)
      && (r.Err? ==> r.error == AttributeError("name"))
      && (r.Ok? ==>
            var a := r.value;
            var id := if identity.Some? then identity.value else generated;
            var hitl := if hitlRequired.Some? then hitlRequired.value else [];
            var client := NewClient(id, service);
            && a.role == role && a.goal == goal && a.backstory == backstory
            && a.identity == id && a.agentId == id.agentId && a.amorceClient == client
            && a.hitlRequired == hitl && a.a2aCompatible == a2aCompatible
            && |a.tools| == |given|
            && forall j | 0 <= j < |given| :: Wraps(a.tools[j], given[j], id, client, hitl))
  {
    var id := if identity.Some? then identity.value else generated;
    var hitl := if hitlRequired.Some? then hitlRequired.value else [];
    var client := NewClient(id, service);
    var given := if tools.Some? then tools.value else [];
    var wrapped: seq<ToolWrapper> := [];
    var i := 0;
    while i < |given|
      invariant 0 <= i <= |given| && |wrapped| == i
      invariant forall j | 0 <= j < i :: given[j].name.Some?
      invariant forall j | 0 <= j < i :: Wraps(wrapped[j], given[j], id, client, hitl)
    {
      var w :- WrapTool(given[i], id, client, hitl);
      wrapped := wrapped + [w];
      i := i + 1;
    }
    var a := new SecureAgent(role, goal, backstory, id, client, hitl, a2aCompatible, wrapped);
    r := Ok(a);
  }

  // ---------------------------------------------------------------------------
  // What the agent's records and approval promise

  /** A counter-offer echoes the price, the reasoning, the agent id and the role, and
      carries a signature over exactly those four fields. */
  lemma CounterOfferSigned(a: SecureAgent, price: Json, reasoning: string)
    ensures var c := a.CounterOffer(price, reasoning);
      && c.Obj? && c.fields.Keys == {"agent_id", "price", "reasoning", "role", "signature"}
      && c.fields["price"] == price && c.fields["reasoning"] == Str(reasoning)
      && c.fields["agent_id"] == Str(a.agentId) && c.fields["role"] == Str(a.role)
      && c.fields["signature"] == Str(a.identity.sign(Dumps(Obj(c.fields - {"signature"}))))
  {
    SignedOverItself(a.Offer(price, reasoning), a.identity.sign);
  }

  /** A record signed over its own canonical text carries a signature over exactly its
      fields other than `signature`. */
  lemma SignedOverItself(record: Json, sign: string -> string)
    requires record.Obj? && "signature" !in record.fields
    ensures var s := WithSignature(record, sign(Dumps(record)));
      s.fields.Keys == record.fields.Keys + {"signature"}
      && s.fields["signature"] == Str(sign(Dumps(Obj(s.fields - {"signature"}))))
  {
    SignedOver(record, sign(Dumps(record)));
  }

  /** A receipt names the agent as seller, with its role, is marked verified, and carries
      a signature over exactly its other fields. */
  lemma ReceiptSigned(a: SecureAgent, now: string)
    ensures var rc := a.SignedReceipt(now);
      && rc.Obj? && rc.fields.Keys == {"seller_id", "seller_role", "timestamp", "verified_by_amorce", "signature"}
      && rc.fields["seller_id"] == Str(a.agentId) && rc.fields["seller_role"] == Str(a.role)
      && rc.fields["verified_by_amorce"] == Bool(true)
      && rc.fields["signature"] == Str(a.identity.sign(Dumps(Obj(rc.fields - {"signature"}))))
  {
    SignedOverItself(a.Receipt(now), a.identity.sign);
  }

  /** The sale approval returns True exactly when the request went through and the wait
      ended in an approval, and otherwise raises: PermissionError on a refusal,
      TimeoutError when the budget runs out; it never returns False. A service that
      never decides makes it raise TimeoutError. */
  lemma SaleApprovalOutcomes(a: SecureAgent, clock: Clock)
    requires ClockOk(clock)
    ensures var r := a.SaleApproval(clock).result;
      var asked := a.amorceClient.service.requestApproval(a.SaleSummary(), a.SaleDetails(), TimeoutSeconds);
      && (r.Ok? ==> r.value)
      && (r.Ok? <==> asked.Ok? && Await(a.amorceClient, asked.value, clock, 0).Approved?)
      && (asked.Ok? && Await(a.amorceClient, asked.value, clock, 0).Refused? ==>
            r == Err(PermissionError("Sale approval denied")))
      && (asked.Ok? && Await(a.amorceClient, asked.value, clock, 0).TimedOut? ==>
            r == Err(TimeoutError("Sale approval timeout")))
      && (asked.Ok? && (forall j: nat :: Undecided(a.amorceClient.service.checkApproval(asked.value, j))) ==>
            r == Err(TimeoutError("Sale approval timeout")))
  {
    var asked := a.amorceClient.service.requestApproval(a.SaleSummary(), a.SaleDetails(), TimeoutSeconds);
    if asked.Ok? && forall j: nat :: Undecided(a.amorceClient.service.checkApproval(asked.value, j)) {
      NeverDecidedTimesOut(a.amorceClient, asked.value, clock, 0);
    }
  }

  /** The sale asks for approval with the agent's role in the summary and its id and role
      as details, then makes only status checks of the id it got back and one-second sleeps. */
  lemma SaleApprovalTrace(a: SecureAgent, clock: Clock)
    requires ClockOk(clock)
    ensures var t := a.SaleApproval(clock).trace;
      var asked := a.amorceClient.service.requestApproval(a.SaleSummary(), a.SaleDetails(), TimeoutSeconds);
      && t != [] && t[0] == ApprovalRequested(a.role + ": Approve sale",
                                              Obj(map["agent_id" := Str(a.agentId), "role" := Str(a.role)]), 300)
      && forall i | 1 <= i < |t| :: asked.Ok? && (t[i] == StatusChecked(asked.value) || t[i] == Slept(1))
  {
    var asked := a.amorceClient.service.requestApproval(a.SaleSummary(), a.SaleDetails(), TimeoutSeconds);
    if asked.Ok? {
      var o := Await(a.amorceClient, asked.value, clock, 0);
      var t := a.SaleApproval(clock).trace;
      var request := ApprovalRequested(a.SaleSummary(), a.SaleDetails(), TimeoutSeconds);
      RequestThenPoll(request, asked.value, o);
      assert t == [request] + PollEvents(asked.value, o);
    }
  }
}
