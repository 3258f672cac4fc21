/** `AmorceToolWrapper`: a tool call that is signed first, optionally held for human
    approval, then run once, and answered with a record that carries the signature. */
module Tools {
  import opened Json
  import opened Effects
  import opened Approval

  /** A tool object as the wrapper sees it. */
  datatype Tool = Tool(
    /** its `name` attribute, if it has one */
    name: Option<string>,
    /** `tool.__class__.__name__` */
    className: string,
    /** its `description` attribute, if it has one */
    description: Option<string>,
    /** its `run` method, if it has one */
    run: Option<Action>,
    /** its `__call__`, if the object is callable */
    call: Option<Action>)

  /** The record that is signed and sent for approval: `{tool, args, kwargs, agent_id}`. */
  function CallRecord(name: string, args: Args, kwargs: Kwargs, agentId: string): Json
  {
    Obj(map["tool" := Str(name), "args" := Arr(args), "kwargs" := Obj(kwargs), "agent_id" := Str(agentId)])
  }

  /** The record a successful call returns: `{result, tool, agent_id, signature}`. */
  function ResultRecord(result: Json, name: string, agentId: string, signature: string): Json
  {
    Obj(map["result" := result, "tool" := Str(name), "agent_id" := Str(agentId), "signature" := Str(signature)])
  }

  /** The signed text names the call: two calls are signed over the same text exactly
      when they have the same tool name, arguments and agent. */
  lemma SignedTextBindsCall(n1: string, a1: Args, k1: Kwargs, i1: string, n2: string, a2: Args, k2: Kwargs, i2: string)
    ensures Dumps(CallRecord(n1, a1, k1, i1)) == Dumps(CallRecord(n2, a2, k2, i2))
        <==> n1 == n2 && a1 == a2 && k1 == k2 && i1 == i2
  {
    CallRecordInjective(n1, a1, k1, i1, n2, a2, k2, i2);
    InjectiveText(CallRecord(n1, a1, k1, i1), CallRecord(n2, a2, k2, i2));
  }

  lemma InjectiveText(r1: Json, r2: Json)
    ensures Dumps(r1) == Dumps(r2) <==> r1 == r2
  {
    DumpsInjective(r1, r2);
  }

  lemma CallRecordInjective(n1: string, a1: Args, k1: Kwargs, i1: string, n2: string, a2: Args, k2: Kwargs, i2: string)
    ensures CallRecord(n1, a1, k1, i1) == CallRecord(n2, a2, k2, i2) <==> n1 == n2 && a1 == a2 && k1 == k2 && i1 == i2
  {
    var r1, r2 := CallRecord(n1, a1, k1, i1), CallRecord(n2, a2, k2, i2);
    if r1 == r2 {
      assert r1.fields["tool"] == r2.fields["tool"] && r1.fields["args"] == r2.fields["args"];
      assert r1.fields["kwargs"] == r2.fields["kwargs"] && r1.fields["agent_id"] == r2.fields["agent_id"];
    }
  }

  class ToolWrapper {
    const tool: Tool
    const name: string
    const description: string
    const identity: Identity
    const client: Client
    const requiresHitl: bool

    /** `__init__`: the name falls back to the tool's class name, the description to "". */
    constructor(tool: Tool, identity: Identity, client: Client, requiresHitl: bool := false)
      ensures this.tool == tool && this.identity == identity && this.client == client
      ensures this.requiresHitl == requiresHitl
      ensures name == (if tool.name.Some? then tool.name.value else tool.className)
      ensures description == (if tool.description.Some? then tool.description.value else "")
    {
      this.tool := tool;
      this.name := if tool.name.Some? then tool.name.value else tool.className;
      this.description := if tool.description.Some? then tool.description.value else "";
      this.identity := identity;
      this.client := client;
      this.requiresHitl := requiresHitl;
    }

    function Summary(): string
    {
      "Approve " + name + " execution"
    }

    /** The approval stage of `run`: `Ok(())` lets the call go on. */
    function Gate(record: Json, clock: Clock): Response<()>
      requires ClockOk(clock)
    {
      if !requiresHitl then Response(Ok(()), [])
      else
        var asked := [ApprovalRequested(Summary(), record, TimeoutSeconds)];
        match client.service.requestApproval(Summary(), record, TimeoutSeconds)
        case Err(e) => Response(Err(e), asked)
        case Ok(id) =>
          var o := Await(client, id, clock, 0);
          var waited := asked + PollEvents(id, o);
          match o
          case Approved(_) => Response(Ok(()), waited)
          case Refused(_) => Response(Err(PermissionError("HITL approval denied for " + name)), waited)
          case TimedOut(_) => Response(Err(TimeoutError("HITL approval timeout for " + name)), waited)
          case Failed(e, _) => Response(Err(e), waited)
    }

    /** The dispatch stage of `run`: the tool's `run`, else the tool itself, else a TypeError. */
    function Execute(args: Args, kwargs: Kwargs): Response<Json>
    {
      if tool.run.Some? then Response(tool.run.value(args, kwargs), [ToolInvoked(ViaRun, args, kwargs)])
      else if tool.call.Some? then Response(tool.call.value(args, kwargs), [ToolInvoked(ViaCall, args, kwargs)])
      else Response(Err(TypeError("Tool " + name + " is not callable")), [])
    }

    /** What `run(*args, **kwargs)` returns or raises, and the outside calls it makes. */
    function Invocation(args: Args, kwargs: Kwargs, clock: Clock): Response<Json>
      requires ClockOk(clock)
    {
      var record := CallRecord(name, args, kwargs, identity.agentId);
      var text := Dumps(record);
      var signature := identity.sign(text);
      var gate := Gate(record, clock);
      if gate.result.Err? then Response(Err(gate.result.error), [Signed(text)] + gate.trace)
      else
        var ex := Execute(args, kwargs);
        var result := if ex.result.Ok? then Ok(ResultRecord(ex.result.value, name, identity.agentId, signature))
                      else ex.result;
        Response(result, [Signed(text)] + gate.trace + ex.trace)
    }

    /** `run`. */
    method Run(args: Args, kwargs: Kwargs, clock: Clock) returns (result: Result<Json>, trace: seq<Event>)
      requires ClockOk(clock)
      ensures Response(result, trace) == Invocation(args, kwargs, clock)
    {
      var record := CallRecord(name, args, kwargs, identity.agentId);
      var text := Dumps(record);
      var signature := identity.sign(text);
      trace := [Signed(text)];
      ghost var gate := Gate(record, clock);
      if requiresHitl {
        var summary := Summary();
        var requested := client.service.requestApproval(summary, record, TimeoutSeconds);
        trace := trace + [ApprovalRequested(summary, record, TimeoutSeconds)];
        if requested.Err? {
          return Err(requested.error), trace;
        }
        var outcome, polls := Poll(client, requested.value, clock);
        trace := trace + polls;
        assert gate.trace == [ApprovalRequested(summary, record, TimeoutSeconds)] + polls;
        assert trace == [Signed(text)] + gate.trace;
        match outcome {
          case Approved(_) =>
          case Refused(_) =>
            return Err(PermissionError("HITL approval denied for " + name)), trace;
          case TimedOut(_) =>
            return Err(TimeoutError("HITL approval timeout for " + name)), trace;
          case Failed(e, _) =>
            return Err(e), trace;
        }
      }
      assert gate.result.Ok? && trace == [Signed(text)] + gate.trace;
      var value: Result<Json>;
      if tool.run.Some? {
        trace := trace + [ToolInvoked(ViaRun, args, kwargs)];
        value := tool.run.value(args, kwargs);
      } else if tool.call.Some? {
        trace := trace + [ToolInvoked(ViaCall, args, kwargs)];
        value := tool.call.value(args, kwargs);
      } else {
        return Err(TypeError("Tool " + name + " is not callable")), trace;
      }
      if value.Err? {
        return value, trace;
      }
      result := Ok(ResultRecord(value.value, name, identity.agentId, signature));
    }

    /** `__call__` is `run`. */
    method Call(args: Args, kwargs: Kwargs, clock: Clock) returns (result: Result<Json>, trace: seq<Event>)
      requires ClockOk(clock)
      ensures Response(result, trace) == Invocation(args, kwargs, clock)
    {
      result, trace := Run(args, kwargs, clock);
    }
  }

  // ---------------------------------------------------------------------------
  // What a call promises

  /** The call record is signed before anything else happens, and only once. */
  lemma SignsFirst(w: ToolWrapper, args: Args, kwargs: Kwargs, clock: Clock)
    requires ClockOk(clock)
    ensures var r := w.Invocation(args, kwargs, clock);
      r.trace != [] && r.trace[0] == Signed(Dumps(CallRecord(w.name, args, kwargs, w.identity.agentId)))
      && forall i | 1 <= i < |r.trace| :: !r.trace[i].Signed?
  {
    var record := CallRecord(w.name, args, kwargs, w.identity.agentId);
    GateTrace(w, record, clock);
  }

  /** The request for approval `run` makes was granted. */
  predicate ApprovedCall(w: ToolWrapper, record: Json, clock: Clock)
    requires ClockOk(clock)
  {
    var asked := w.client.service.requestApproval(w.Summary(), record, TimeoutSeconds);
    asked.Ok? && Await(w.client, asked.value, clock, 0).Approved?
  }

  /** The approval stage makes no tool call and signs nothing; it asks for approval only
      when the tool requires it, with the call record as details and a 300 s timeout, and
      lets the call go on only on an approval. */
  lemma GateTrace(w: ToolWrapper, record: Json, clock: Clock)
    requires ClockOk(clock)
    ensures var g := w.Gate(record, clock);
      (forall i | 0 <= i < |g.trace| :: !g.trace[i].Signed? && !g.trace[i].ToolInvoked?)
      && (!w.requiresHitl ==> g == Response(Ok(()), []))
      && (w.requiresHitl ==> g.trace != [] && g.trace[0] == ApprovalRequested(w.Summary(), record, TimeoutSeconds))
      && (g.result.Ok? <==> !w.requiresHitl || ApprovedCall(w, record, clock))
  {
    if w.requiresHitl {
      var asked := w.client.service.requestApproval(w.Summary(), record, TimeoutSeconds);
      if asked.Ok? {
        var o := Await(w.client, asked.value, clock, 0);
        WaitedTrace(w.Summary(), record, asked.value, o);
      }
    }
  }

  /** The approval request followed by a wait signs nothing and invokes no tool. */
  lemma WaitedTrace(summary: string, record: Json, id: Json, o: Outcome)
    requires o.TimedOut? || o.polls >= 1
    ensures var t := [ApprovalRequested(summary, record, TimeoutSeconds)] + PollEvents(id, o);
      t[0] == ApprovalRequested(summary, record, TimeoutSeconds)
      && forall i | 0 <= i < |t| :: !t[i].Signed? && !t[i].ToolInvoked?
  {
    RequestThenPoll(ApprovalRequested(summary, record, TimeoutSeconds), id, o);
  }

  /** A call that needs approval asks for it before anything but the signing, with the
      call record as details and a 300 second timeout; one that does not never talks
      to the approval service. */
  lemma ApprovalTraffic(w: ToolWrapper, args: Args, kwargs: Kwargs, clock: Clock)
    requires ClockOk(clock)
    ensures var r := w.Invocation(args, kwargs, clock);
      var record := CallRecord(w.name, args, kwargs, w.identity.agentId);
      (w.requiresHitl ==> |r.trace| > 1 && r.trace[1] == ApprovalRequested("Approve " + w.name + " execution", record, 300))
      && (!w.requiresHitl ==> Occurrences(r.trace, IsApprovalTraffic) == 0)
  {
    var record := CallRecord(w.name, args, kwargs, w.identity.agentId);
    GateTrace(w, record, clock);
    var r := w.Invocation(args, kwargs, clock);
    if !w.requiresHitl {
      var ex := w.Execute(args, kwargs);
      assert r.trace == [Signed(Dumps(record))] + ex.trace;
    }
  }

  /** The tool is invoked at most once: exactly when the approval stage let the call
      through and the tool can be invoked, and then as the last outside call, through
      `run` when it has one, with the caller's arguments. A tool that can be neither run
      nor called gives a TypeError, after signing and approval. */
  lemma ToolInvokedOnce(w: ToolWrapper, args: Args, kwargs: Kwargs, clock: Clock)
    requires ClockOk(clock)
    ensures var r := w.Invocation(args, kwargs, clock);
      var cleared := !w.requiresHitl || ApprovedCall(w, CallRecord(w.name, args, kwargs, w.identity.agentId), clock);
      var invocable := w.tool.run.Some? || w.tool.call.Some?;
      Occurrences(r.trace, IsToolCall) == (if cleared && invocable then 1 else 0)
      && (cleared && invocable ==>
            r.trace[|r.trace| - 1] == ToolInvoked(if w.tool.run.Some? then ViaRun else ViaCall, args, kwargs))
      && (cleared && !invocable ==> r.result == Err(TypeError("Tool " + w.name + " is not callable")))
  {
    var record := CallRecord(w.name, args, kwargs, w.identity.agentId);
    var text := Dumps(record);
    var g := w.Gate(record, clock);
    var ex := w.Execute(args, kwargs);
    GateTrace(w, record, clock);
    assert Occurrences(g.trace, IsToolCall) == 0;
    assert Occurrences([Signed(text)], IsToolCall) == 0;
    OccurrencesAppend([Signed(text)], g.trace, IsToolCall);
    if g.result.Ok? {
      OccurrencesAppend([Signed(text)] + g.trace, ex.trace, IsToolCall);
      if ex.trace != [] {
        assert Occurrences(ex.trace, IsToolCall) == 1 by {
          assert ex.trace[1..] == [];
        }
      }
    }
  }

  /** A refused approval raises PermissionError, an exhausted wait TimeoutError, and in
      both cases the tool is never invoked. */
  lemma HeldCallsFail(w: ToolWrapper, args: Args, kwargs: Kwargs, clock: Clock)
    requires ClockOk(clock) && w.requiresHitl
    requires w.client.service.requestApproval(w.Summary(), CallRecord(w.name, args, kwargs, w.identity.agentId), TimeoutSeconds).Ok?
    ensures var record := CallRecord(w.name, args, kwargs, w.identity.agentId);
      var id := w.client.service.requestApproval(w.Summary(), record, TimeoutSeconds).value;
      var o := Await(w.client, id, clock, 0);
      var r := w.Invocation(args, kwargs, clock);
      (o.Refused? ==> r.result == Err(PermissionError("HITL approval denied for " + w.name)))
      && (o.TimedOut? ==> r.result == Err(TimeoutError("HITL approval timeout for " + w.name)))
      && (!o.Approved? ==> Occurrences(r.trace, IsToolCall) == 0)
  {
    ToolInvokedOnce(w, args, kwargs, clock);
  }

  /** A call succeeds exactly when it was let through and the tool returned a value; it
      then answers with that value, the tool name, the agent id and the signature made
      over the call record at the start. */
  lemma ResultCarriesSignature(w: ToolWrapper, args: Args, kwargs: Kwargs, clock: Clock)
    requires ClockOk(clock)
    ensures var record := CallRecord(w.name, args, kwargs, w.identity.agentId);
      var r := w.Invocation(args, kwargs, clock);
      var ex := w.Execute(args, kwargs);
      (r.result.Ok? <==> (!w.requiresHitl || ApprovedCall(w, record, clock)) && ex.result.Ok?)
      && (r.result.Ok? ==>
            r.result.value == ResultRecord(ex.result.value, w.name, w.identity.agentId, w.identity.sign(Dumps(record))))
  {
    GateTrace(w, CallRecord(w.name, args, kwargs, w.identity.agentId), clock);
  }
}
