/** `secure_crew`: stamp a crew with an Amorce identity and replace its kickoff by one
    that signs a descriptor of the crew, runs the original kickoff once, and wraps the
    result in an A2A-tagged record. */
module Decorators {
  import opened Json
  import opened Effects

  /** How much of each task description the kickoff descriptor keeps. */
  const DescriptionPrefix: nat := 50

  /** A crew's kickoff: the framework's own, or a secured kickoff wrapping the kickoff
      that was in place when the crew was decorated. A secured kickoff reads the crew it
      is installed on when it runs. */
  datatype Kickoff =
    | Original(run: Action)
    | Secured(inner: Kickoff, identity: Identity, a2aCompatible: bool)

  /** `description[:50]`. */
  function Truncate(description: string): (r: string)
    ensures |r| == if |description| < DescriptionPrefix then |description| else DescriptionPrefix
    ensures r == description[..|r|]
  {
    if |description| <= DescriptionPrefix then description else description[..DescriptionPrefix]
  }

  function Strings(ss: seq<string>): (r: seq<Json>)
    ensures |r| == |ss| && forall i | 0 <= i < |ss| :: r[i] == Str(ss[i])
  {
    seq(|ss|, i requires 0 <= i < |ss| => Str(ss[i]))
  }

  function Truncated(descriptions: seq<string>): (r: seq<string>)
    ensures |r| == |descriptions| && forall i | 0 <= i < |r| :: r[i] == Truncate(descriptions[i])
  {
    seq(|descriptions|, i requires 0 <= i < |descriptions| => Truncate(descriptions[i]))
  }

  /** `kickoff_data`: the crew id, the agents' roles and the tasks' descriptions. */
  function Descriptor(crewId: string, roles: seq<string>, descriptions: seq<string>): Json
  {
    Obj(map[
      "crew_id" := Str(crewId),
      "agents" := Arr(Strings(roles)),
      "tasks" := Arr(Strings(Truncated(descriptions)))])
  }

  /** The descriptor lists every role in order and every task description cut to its
      first 50 characters, in order; a description that is short enough is kept whole. */
  lemma DescriptorEntries(crewId: string, roles: seq<string>, descriptions: seq<string>)
    ensures var d := Descriptor(crewId, roles, descriptions);
      d.fields["crew_id"] == Str(crewId)
      && d.fields["agents"].Arr? && |d.fields["agents"].items| == |roles|
      && (forall i | 0 <= i < |roles| :: d.fields["agents"].items[i] == Str(roles[i]))
      && d.fields["tasks"].Arr? && |d.fields["tasks"].items| == |descriptions|
      && forall i | 0 <= i < |descriptions| ::
           var t := d.fields["tasks"].items[i];
           t.Str? && |t.s| <= 50 && t.s == descriptions[i][..|t.s|]
           && (|descriptions[i]| <= 50 ==> t.s == descriptions[i])
  {
  }

  /** The record an A2A-compatible kickoff returns. */
  function A2AResult(result: Json, crewId: string, signature: string): Json
  {
    Obj(map[
      "result" := result,
      "crew_id" := Str(crewId),
      "signature" := Str(signature),
      "protocol" := Str("a2a/1.0"),
      "security_layer" := Str("amorce/3.0")])
  }

  /** Calling kickoff `k` on a crew whose `crew_id` attribute, agents' roles and tasks'
      descriptions are as given. */
  function RunKickoff(k: Kickoff, crewId: Option<string>, roles: seq<string>, descriptions: seq<string>,
                      args: Args, kwargs: Kwargs): Response<Json>
    decreases k
  {
    match k
    case Original(run) => Response(run(args, kwargs), [KickoffInvoked(args, kwargs)])
    case Secured(inner, identity, a2a) =>
      if crewId.None? then Response(Err(AttributeError("crew_id")), [])
      else
        var text := Dumps(Descriptor(crewId.value, roles, descriptions));
        var signature := identity.sign(text);
        var r := RunKickoff(inner, crewId, roles, descriptions, args, kwargs);
        var trace := [Signed(text)] + r.trace;
        if r.result.Ok? && a2a then Response(Ok(A2AResult(r.result.value, crewId.value, signature)), trace)
        else Response(r.result, trace)
  }

  /** The kickoff the framework gave the crew, under every layer of securing. */
  function Innermost(k: Kickoff): Action
  {
    match k
    case Original(run) => run
    case Secured(inner, _, _) => Innermost(inner)
  }

  /** A kickoff trace that only signs, then invokes the original kickoff once, as its
      last outside call. */
  ghost predicate SignsThenRuns(t: seq<Event>, last: Event)
  {
    && t != [] && Occurrences(t, IsKickoffCall) == 1 && t[|t| - 1] == last
    && forall i | 0 <= i < |t| - 1 :: t[i].Signed?
  }

  /** A secured kickoff signs before anything else, then runs the original kickoff exactly
      once, with the caller's arguments, as its last outside call; it fails exactly when
      the original does. */
  lemma {:induction false} OriginalRunsOnce(k: Kickoff, crewId: Option<string>, roles: seq<string>,
                                            descriptions: seq<string>, args: Args, kwargs: Kwargs)
    requires k.Original? || crewId.Some?
    ensures var r := RunKickoff(k, crewId, roles, descriptions, args, kwargs);
      SignsThenRuns(r.trace, KickoffInvoked(args, kwargs))
      && (r.result.Err? <==> Innermost(k)(args, kwargs).Err?)
    decreases k
  {
    match k
    case Original(run) =>
      InvokedOnce(KickoffInvoked(args, kwargs));
      assert SignsThenRuns([KickoffInvoked(args, kwargs)], KickoffInvoked(args, kwargs));
    case Secured(inner, identity, a2a) =>
      OriginalRunsOnce(inner, crewId, roles, descriptions, args, kwargs);
      SecuredRunsOnce(inner, identity, a2a, crewId.value, roles, descriptions, args, kwargs);
  }

  /** One layer of securing over a kickoff that runs the original once, last, after only
      signing, keeps it so, and fails exactly when the layer under it does. */
  lemma SecuredRunsOnce(inner: Kickoff, identity: Identity, a2a: bool, crewId: string, roles: seq<string>,
                        descriptions: seq<string>, args: Args, kwargs: Kwargs)
    requires SignsThenRuns(RunKickoff(inner, Some(crewId), roles, descriptions, args, kwargs).trace,
                           KickoffInvoked(args, kwargs))
    ensures var r := RunKickoff(Secured(inner, identity, a2a), Some(crewId), roles, descriptions, args, kwargs);
      var ri := RunKickoff(inner, Some(crewId), roles, descriptions, args, kwargs);
      SignsThenRuns(r.trace, KickoffInvoked(args, kwargs)) && (r.result.Err? <==> ri.result.Err?)
  {
    OneLayer(inner, identity, a2a, crewId, roles, descriptions, args, kwargs);
    SignedBefore(Dumps(Descriptor(crewId, roles, descriptions)),
                 RunKickoff(inner, Some(crewId), roles, descriptions, args, kwargs).trace, KickoffInvoked(args, kwargs));
  }

  /** One layer of securing adds one signing in front and fails exactly when the layer
      under it does. */
  lemma OneLayer(inner: Kickoff, identity: Identity, a2a: bool, crewId: string, roles: seq<string>,
                 descriptions: seq<string>, args: Args, kwargs: Kwargs)
    ensures var r := RunKickoff(Secured(inner, identity, a2a), Some(crewId), roles, descriptions, args, kwargs);
      var ri := RunKickoff(inner, Some(crewId), roles, descriptions, args, kwargs);
      r.trace == [Signed(Dumps(Descriptor(crewId, roles, descriptions)))] + ri.trace
      && (r.result.Err? <==> ri.result.Err?)
  {
  }

  /** A trace of the one kickoff call alone. */
  lemma InvokedOnce(e: Event)
    requires IsKickoffCall(e)
    ensures Occurrences([e], IsKickoffCall) == 1
  {
    assert [e][1..] == [];
  }

  /** Signing before a run that invokes the kickoff once, last, after only signing, keeps
      it so. */
  lemma SignedBefore(text: string, t: seq<Event>, last: Event)
    requires SignsThenRuns(t, last)
    ensures SignsThenRuns([Signed(text)] + t, last)
  {
    var u := [Signed(text)] + t;
    OccurrencesAppend([Signed(text)], t, IsKickoffCall);
    assert Occurrences([Signed(text)], IsKickoffCall) == 0;
    forall i | 0 <= i < |u| - 1
      ensures u[i].Signed?
    {
      if i > 0 {
        assert u[i] == t[i - 1];
      }
    }
  }

  /** With `a2a_compatible` a successful kickoff answers with the A2A record of the
      original's result, the crew id and the descriptor's signature; without it, with the
      result itself. */
  lemma SecuredResult(inner: Kickoff, identity: Identity, a2a: bool, crewId: string, roles: seq<string>,
                      descriptions: seq<string>, args: Args, kwargs: Kwargs)
    ensures var r := RunKickoff(Secured(inner, identity, a2a), Some(crewId), roles, descriptions, args, kwargs);
      var ri := RunKickoff(inner, Some(crewId), roles, descriptions, args, kwargs);
      var signature := identity.sign(Dumps(Descriptor(crewId, roles, descriptions)));
      && r.trace[0] == Signed(Dumps(Descriptor(crewId, roles, descriptions)))
      && (a2a && ri.result.Ok? ==> r.result == Ok(A2AResult(ri.result.value, crewId, signature)))
      && (!a2a || ri.result.Err? ==> r.result == ri.result)
  {
  }

  /** `secure_crew`'s keyword options, with their defaults; `@secure_crew` written bare
      uses `Options()`. */
  datatype Options = Options(identity: Option<Identity> := None, hitlRequired: Option<seq<string>> := None,
                             a2aCompatible: bool := true)

  /** `identity or IdentityManager.generate()`: `generated` is what the generator returns. */
  function CrewIdentity(opts: Options, generated: Identity): Identity
  {
    if opts.identity.Some? then opts.identity.value else generated
  }

  class Crew {
    /** The roles of `crew.agents`, in order. */
    var agents: seq<string>
    /** The descriptions of `crew.tasks`, in order. */
    var tasks: seq<string>
    var kickoff: Kickoff
    var amorceIdentity: Option<Identity>
    var amorceClient: Option<Client>
    var hitlRequired: Option<seq<string>>
    var a2aCompatible: Option<bool>
    var crewId: Option<string>
    /** The attached `discover_crews` helper, which queries this client. */
    var discoverCrews: Option<Client>
    /** Whether the (no-op) `delegate_to` helper is attached. */
    var delegateTo: bool

    /** A crew fresh from the framework: no Amorce attribute yet. */
    constructor(agents: seq<string>, tasks: seq<string>, run: Action)
      ensures this.agents == agents && this.tasks == tasks && kickoff == Original(run)
      ensures amorceIdentity == None && amorceClient == None && hitlRequired == None
      ensures a2aCompatible == None && crewId == None && discoverCrews == None && !delegateTo
    {
      this.agents := agents;
      this.tasks := tasks;
      kickoff := Original(run);
      amorceIdentity, amorceClient, hitlRequired, a2aCompatible, crewId := None, None, None, None, None;
      discoverCrews, delegateTo := None, false;
    }

    /** `crew.kickoff(*args, **kwargs)`. */
    function Kickoff(args: Args, kwargs: Kwargs): Response<Json>
      reads this
    {
      RunKickoff(kickoff, crewId, agents, tasks, args, kwargs)
    }
  }

  /** What `decorator(crew)` does to the crew: set the five metadata attributes, wrap the
      kickoff, attach the two helpers, and leave the agents and tasks alone. */
  twostate predicate DecoratedWith(crew: Crew, opts: Options, generated: Identity, service: Service)
    reads crew
  {
    var identity := CrewIdentity(opts, generated);
    var client := NewClient(identity, service);
    && crew.amorceIdentity == Some(identity)
    && crew.amorceClient == Some(client)
    && crew.hitlRequired == Some(if opts.hitlRequired.Some? then opts.hitlRequired.value else [])
    && crew.a2aCompatible == Some(opts.a2aCompatible)
    && crew.crewId == Some(identity.agentId)
    && crew.kickoff == Secured(old(crew.kickoff), identity, opts.a2aCompatible)
    && crew.discoverCrews == Some(client)
    && crew.delegateTo
    && crew.agents == old(crew.agents)
    && crew.tasks == old(crew.tasks)
  }

  /** `decorator(crew)`: secures the crew in place and returns the same crew. `generated`
      is what `IdentityManager.generate()` returns and `service` the Amorce servers the
      crew's new client talks to. */
  method Decorate(crew: Crew, opts: Options, generated: Identity, service: Service) returns (secured: Crew)
    modifies crew
    ensures secured == crew
    ensures DecoratedWith(crew, opts, generated, service)
  {
    var identity := if opts.identity.Some? then opts.identity.value else generated;
    var client := NewClient(identity, service);
    crew.amorceIdentity := Some(identity);
    crew.amorceClient := Some(client);
    crew.hitlRequired := Some(if opts.hitlRequired.Some? then opts.hitlRequired.value else []);
    crew.a2aCompatible := Some(opts.a2aCompatible);
    crew.crewId := Some(identity.agentId);
    var originalKickoff := crew.kickoff;
    crew.kickoff := Secured(originalKickoff, identity, opts.a2aCompatible);
    crew.discoverCrews := Some(client);
    crew.delegateTo := true;
    secured := crew;
  }

  /** What `secure_crew(...)` returns: the decorator, or the secured crew. */
  datatype Decorated = Decorator(options: Options) | SecuredCrew(crew: Crew)

  /** `secure_crew(crew_class, **options)`: with no crew, hand back the decorator for
      these options and touch nothing; with a crew, decorate it at once. */
  method SecureCrew(crewClass: Crew?, opts: Options, generated: Identity, service: Service) returns (r: Decorated)
    modifies crewClass
    ensures crewClass == null ==> r == Decorator(opts)
    ensures crewClass != null ==> r == SecuredCrew(crewClass) && DecoratedWith(crewClass, opts, generated, service)
  {
    if crewClass == null {
      r := Decorator(opts);
    } else {
      var crew := Decorate(crewClass, opts, generated, service);
      r := SecuredCrew(crew);
    }
  }

  /** Kicking off a crew just secured from a framework crew: the descriptor of the crew
      under its new id is signed, then the framework's kickoff runs once. */
  lemma FreshlySecuredKickoff(run: Action, identity: Identity, a2a: bool, roles: seq<string>,
                              descriptions: seq<string>, args: Args, kwargs: Kwargs)
    ensures var r := RunKickoff(Secured(Original(run), identity, a2a), Some(identity.agentId), roles, descriptions, args, kwargs);
      && r.trace == [Signed(Dumps(Descriptor(identity.agentId, roles, descriptions))), KickoffInvoked(args, kwargs)]
      && (a2a && run(args, kwargs).Ok? ==>
            r.result == Ok(A2AResult(run(args, kwargs).value, identity.agentId,
                                     identity.sign(Dumps(Descriptor(identity.agentId, roles, descriptions))))))
      && (!a2a ==> r.result == run(args, kwargs))
  {
  }
}
