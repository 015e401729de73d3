/** The solutions-architect agent (models/agents/agent_architect.rs): a state
    machine that asks the model for the project scope and, when the project
    needs external data, for a list of URLs, which it then probes and filters. */
module AgentArchitect {
  import opened Wrappers
  import opened Llm
  import opened AgentBasic
  import opened AgentTraits
  import opened General

  const Objective: string := "Gathers information and design solutions for website development"
  const Position: string := "Solutions Architect"

  /** The status code of a healthy endpoint (200 OK, section 15.3.1 of RFC 9110). */
  const HttpOk: nat := 200

  // ---------------------------------------------------------------------------
  // Probing and filtering the external URLs

  /** What a liveness probe gives: the response's status code, or an error
      (connection failure, timeout) without one. */
  datatype ProbeResult = Ok(code: nat) | Err

  /** The result of the probe of the `i`-th URL; a probe with no scripted result errs. */
  function ProbeAt(probes: seq<ProbeResult>, i: nat): ProbeResult
  {
    if i < |probes| then probes[i] else Err
  }

  /** A probe that excludes its URL: it answered, with a status other than 200. */
  predicate Faulty(p: ProbeResult)
  {
    p.Ok? && p.code != HttpOk
  }

  /** The URLs collected for exclusion, in probing order (the source's `exclude_urls`). */
  function Failing(urls: seq<string>, probes: seq<ProbeResult>): (exclude: seq<string>)
    ensures |exclude| <= |urls|
    decreases |urls|
  {
    if urls == [] then []
    else
      var n := |urls| - 1;
      Failing(urls[..n], probes) + (if Faulty(ProbeAt(probes, n)) then [urls[n]] else [])
  }

  /** A URL is collected exactly when one of its probes answered with a status other than 200. */
  lemma {:induction false} FailingMembers(urls: seq<string>, probes: seq<ProbeResult>, u: string)
    ensures u in Failing(urls, probes)
            <==> exists i :: 0 <= i < |urls| && urls[i] == u && Faulty(ProbeAt(probes, i))
    decreases |urls|
  {
    if urls != [] {
      var n := |urls| - 1;
      var front := urls[..n];
      FailingMembers(front, probes, u);
      if u in Failing(urls, probes) {
        if u in Failing(front, probes) {
          var i :| 0 <= i < |front| && front[i] == u && Faulty(ProbeAt(probes, i));
          assert urls[i] == u;
        } else {
          assert urls[n] == u && Faulty(ProbeAt(probes, n));
        }
      } else {
        forall i | 0 <= i < |urls| && urls[i] == u
          ensures !Faulty(ProbeAt(probes, i))
        {
          if i < n {
            assert front[i] == u;
          }
        }
      }
    }
  }

  /** Probes that all answered 200 or erred collect nothing. */
  lemma {:induction false} HealthyProbesExcludeNothing(urls: seq<string>, probes: seq<ProbeResult>)
    requires forall i :: 0 <= i < |urls| ==> !Faulty(ProbeAt(probes, i))
    ensures Failing(urls, probes) == []
    decreases |urls|
  {
    if urls != [] {
      HealthyProbesExcludeNothing(urls[..|urls| - 1], probes);
    }
  }

  /** `urls` without every element that equals an excluded one, in the original order. */
  function Without(urls: seq<string>, exclude: seq<string>): (kept: seq<string>)
    ensures forall u :: u in kept <==> u in urls && u !in exclude
    ensures |kept| <= |urls|
    decreases |urls|
  {
    if urls == [] then []
    else (if urls[0] in exclude then [] else [urls[0]]) + Without(urls[1..], exclude)
  }

  /** `a` is `b` with some elements deleted and the rest in the same order. */
  predicate IsSubsequence(a: seq<string>, b: seq<string>)
    decreases |b|
  {
    if b == [] then a == []
    else (a != [] && a[0] == b[0] && IsSubsequence(a[1..], b[1..])) || IsSubsequence(a, b[1..])
  }

  /** The filter keeps the survivors in their relative order. */
  lemma {:induction false} WithoutKeepsOrder(urls: seq<string>, exclude: seq<string>)
    ensures IsSubsequence(Without(urls, exclude), urls)
    decreases |urls|
  {
    if urls != [] {
      WithoutKeepsOrder(urls[1..], exclude);
      var kept := Without(urls, exclude);
      if urls[0] !in exclude {
        assert kept[0] == urls[0] && kept[1..] == Without(urls[1..], exclude);
      } else {
        assert kept == Without(urls[1..], exclude);
      }
    }
  }

  /** The filter drops every copy of an excluded URL and keeps every copy of the others. */
  lemma {:induction false} WithoutCounts(urls: seq<string>, exclude: seq<string>, u: string)
    ensures multiset(Without(urls, exclude))[u] == if u in exclude then 0 else multiset(urls)[u]
    decreases |urls|
  {
    if urls != [] {
      WithoutCounts(urls[1..], exclude, u);
      assert urls == [urls[0]] + urls[1..];
    }
  }

  /** Filtering twice by the same list is filtering once. */
  lemma {:induction false} WithoutIdempotent(urls: seq<string>, exclude: seq<string>)
    ensures Without(Without(urls, exclude), exclude) == Without(urls, exclude)
    decreases |urls|
  {
    if urls != [] {
      WithoutIdempotent(urls[1..], exclude);
      var kept := Without(urls, exclude);
      if urls[0] !in exclude {
        assert kept[0] == urls[0] && kept[1..] == Without(urls[1..], exclude);
      } else {
        assert kept == Without(urls[1..], exclude);
      }
    }
  }

  /** A filter that excludes none of the URLs leaves the list exactly as it was. */
  lemma {:induction false} WithoutNothingExcluded(urls: seq<string>, exclude: seq<string>)
    requires forall i :: 0 <= i < |urls| ==> urls[i] !in exclude
    ensures Without(urls, exclude) == urls
    decreases |urls|
  {
    if urls != [] {
      WithoutNothingExcluded(urls[1..], exclude);
      assert urls == [urls[0]] + urls[1..];
    }
  }

  /** A URL survives UnitTesting exactly when none of its probes answered with a status
      other than 200: an erring probe never excludes, and one bad answer drops every copy. */
  lemma SurvivorsOfProbing(urls: seq<string>, probes: seq<ProbeResult>, u: string)
    ensures u in Without(urls, Failing(urls, probes))
            <==> u in urls && forall i :: 0 <= i < |urls| && urls[i] == u ==> !Faulty(ProbeAt(probes, i))
  {
    FailingMembers(urls, probes, u);
  }

  /** The probing loop of the UnitTesting arm: collects, in order, each URL whose
      probe answered with a status other than 200. */
  method CollectExcluded(urls: seq<string>, probes: seq<ProbeResult>) returns (excludeUrls: seq<string>)
    ensures excludeUrls == Failing(urls, probes)
  {
    excludeUrls := [];
    for i := 0 to |urls|
      invariant excludeUrls == Failing(urls[..i], probes)
    {
      assert urls[..i + 1][..i] == urls[..i];
      match ProbeAt(probes, i)
      case Ok(statusCode) =>
        if statusCode != HttpOk {
          excludeUrls := excludeUrls + [urls[i]];
        }
      case Err =>
        // the error is reported and the URL is kept
    }
    assert urls[..|urls|] == urls;
  }

  // ---------------------------------------------------------------------------
  // The state machine as a function of its inputs

  /** The prompt templates and decoders the agent's two task requests use. */
  datatype Capabilities = Capabilities(
    printProjectScope: string -> string,
    printSiteUrls: string -> string,
    decodeScope: string -> Option<ProjectScope>,
    decodeUrls: string -> Option<seq<string>>)

  /** Everything a run changes: the agent's state, the two fact-sheet fields it
      writes, and the gateway's log of calls. */
  datatype Snapshot = Snapshot(
    state: AgentState,
    scope: Option<ProjectScope>,
    urls: Option<seq<string>>,
    sent: seq<seq<Message>>)

  /** Why a run aborts: a task request failed, or UnitTesting found no URL list. */
  datatype RunError = TaskFailed(cause: TaskError) | NoUrlObject

  /** Where a step or a run stops, with the error that stopped it, if any. */
  datatype Progress = Progress(snap: Snapshot, error: Option<RunError>)

  /** The termination measure of the run loop. */
  function Rank(s: AgentState): (n: nat)
    ensures n <= 2
    ensures n == 0 <==> s == Finished
  {
    match s
    case Discovery => 2
    case UnitTesting => 1
    case Working => 1
    case Finished => 0
  }

  /** The Discovery arm: the scope request, then, if the scope needs external URLs,
      the URL request with the project description as context. */
  function DiscoveryStep(caps: Capabilities, description: string, script: seq<CallOutcome>,
                         s: Snapshot): (p: Progress)
    ensures p.error.None? ==> p.snap.state in {UnitTesting, Finished}
  {
    var at := |s.sent|;
    var asked := s.(sent := s.sent + Attempts(ExtendAiFunction(caps.printProjectScope, description),
                                              TaskCalls(script, at)));
    match DecodedReply(script, at, caps.decodeScope)
    case Failure(e) => Progress(asked, Some(TaskFailed(e)))
    case Success(scope) =>
      var scoped := asked.(scope := Some(scope), state := Finished);
      if !scope.isExternalUrlsRequired then Progress(scoped, None)
      else
        var at2 := |scoped.sent|;
        var asked2 := scoped.(sent := scoped.sent + Attempts(ExtendAiFunction(caps.printSiteUrls, description),
                                                             TaskCalls(script, at2)));
        match DecodedReply(script, at2, caps.decodeUrls)
        case Failure(e) => Progress(asked2, Some(TaskFailed(e)))
        case Success(list) => Progress(asked2.(urls := Some(list), state := UnitTesting), None)
  }

  /** The UnitTesting arm: the list is rebuilt without the collected URLs when there are
      any; a missing list aborts the run. */
  function UnitTestingStep(probes: seq<ProbeResult>, s: Snapshot): (p: Progress)
    ensures p.error.None? <==> s.urls.Some?
    ensures p.error.None? ==> p.snap.state == Finished
    ensures p.snap.sent == s.sent && p.snap.scope == s.scope
  {
    match s.urls
    case None => Progress(s, Some(NoUrlObject))
    case Some(list) =>
      var exclude := Failing(list, probes);
      Progress(s.(urls := if |exclude| > 0 then Some(Without(list, exclude)) else s.urls,
                  state := Finished), None)
  }

  /** One iteration of the run loop, from a state other than Finished; every state
      but Discovery and UnitTesting falls through to Finished. */
  function Step(caps: Capabilities, description: string, script: seq<CallOutcome>,
                probes: seq<ProbeResult>, s: Snapshot): (p: Progress)
    requires s.state != Finished
    ensures p.error.None? ==> Rank(p.snap.state) < Rank(s.state)
    ensures s.state == Working ==> p == Progress(s.(state := Finished), None)
  {
    if s.state == Discovery then DiscoveryStep(caps, description, script, s)
    else if s.state == UnitTesting then UnitTestingStep(probes, s)
    else Progress(s.(state := Finished), None)
  }

  /** The whole run loop: steps until Finished or until a step aborts. */
  function Run(caps: Capabilities, description: string, script: seq<CallOutcome>,
               probes: seq<ProbeResult>, s: Snapshot): (p: Progress)
    ensures p.error.None? ==> p.snap.state == Finished
    ensures s.state != Discovery ==> p.snap.sent == s.sent
    ensures |s.sent| <= |p.snap.sent| <= |s.sent| + 4
    decreases Rank(s.state)
  {
    if s.state == Finished then Progress(s, None)
    else
      var p := Step(caps, description, script, probes, s);
      if p.error.Some? then p else Run(caps, description, script, probes, p.snap)
  }

  // ---------------------------------------------------------------------------
  // Properties of a run

  /** A scope that needs no external URLs ends the run in Finished, with the scope
      stored and the URL list untouched. */
  lemma RunWithoutExternalUrls(caps: Capabilities, description: string, script: seq<CallOutcome>,
                               probes: seq<ProbeResult>, s: Snapshot, scope: ProjectScope)
    requires s.state == Discovery
    requires DecodedReply(script, |s.sent|, caps.decodeScope) == Success(scope)
    requires !scope.isExternalUrlsRequired
    ensures var p := Run(caps, description, script, probes, s);
            && p.error == None && p.snap.state == Finished
            && p.snap.scope == Some(scope) && p.snap.urls == s.urls
            && p.snap.sent == s.sent + Attempts(ExtendAiFunction(caps.printProjectScope, description),
                                                TaskCalls(script, |s.sent|))
  {
  }

  /** A scope that needs external URLs runs Discovery, then UnitTesting: the URL list is
      requested with the project description and stored filtered, its survivors in order. */
  lemma RunWithExternalUrls(caps: Capabilities, description: string, script: seq<CallOutcome>,
                            probes: seq<ProbeResult>, s: Snapshot, scope: ProjectScope, list: seq<string>)
    requires s.state == Discovery
    requires DecodedReply(script, |s.sent|, caps.decodeScope) == Success(scope)
    requires scope.isExternalUrlsRequired
    requires DecodedReply(script, |s.sent| + TaskCalls(script, |s.sent|), caps.decodeUrls) == Success(list)
    ensures var p := Run(caps, description, script, probes, s);
            && p.error == None && p.snap.state == Finished
            && p.snap.scope == Some(scope)
            && p.snap.urls == Some(Without(list, Failing(list, probes)))
            && IsSubsequence(p.snap.urls.value, list)
            && p.snap.sent == s.sent
                 + Attempts(ExtendAiFunction(caps.printProjectScope, description), TaskCalls(script, |s.sent|))
                 + Attempts(ExtendAiFunction(caps.printSiteUrls, description),
                            TaskCalls(script, |s.sent| + TaskCalls(script, |s.sent|)))
  {
    var discovered := DiscoveryStep(caps, description, script, s);
    assert discovered.error == None && discovered.snap.state == UnitTesting;
    assert discovered.snap.urls == Some(list);
    var exclude := Failing(list, probes);
    if |exclude| == 0 {
      WithoutNothingExcluded(list, exclude);
    }
    WithoutKeepsOrder(list, exclude);
    var tested := UnitTestingStep(probes, discovered.snap);
    assert tested.snap.urls == Some(Without(list, exclude));
    assert Run(caps, description, script, probes, discovered.snap) == tested;
  }

  /** A failed scope request aborts in Discovery and writes nothing to the fact sheet. */
  lemma RunScopeRequestFails(caps: Capabilities, description: string, script: seq<CallOutcome>,
                             probes: seq<ProbeResult>, s: Snapshot, e: TaskError)
    requires s.state == Discovery
    requires DecodedReply(script, |s.sent|, caps.decodeScope) == Failure(e)
    ensures var p := Run(caps, description, script, probes, s);
            && p.error == Some(TaskFailed(e)) && p.snap.state == Discovery
            && p.snap.scope == s.scope && p.snap.urls == s.urls
  {
  }

  /** A failed URL request aborts with the scope stored and the agent already in
      Finished, because storing the scope sets that state. */
  lemma RunUrlRequestFails(caps: Capabilities, description: string, script: seq<CallOutcome>,
                           probes: seq<ProbeResult>, s: Snapshot, scope: ProjectScope, e: TaskError)
    requires s.state == Discovery
    requires DecodedReply(script, |s.sent|, caps.decodeScope) == Success(scope)
    requires scope.isExternalUrlsRequired
    requires DecodedReply(script, |s.sent| + TaskCalls(script, |s.sent|), caps.decodeUrls) == Failure(e)
    ensures var p := Run(caps, description, script, probes, s);
            && p.error == Some(TaskFailed(e)) && p.snap.state == Finished
            && p.snap.scope == Some(scope) && p.snap.urls == s.urls
  {
  }

  /** UnitTesting over a list none of whose probes answered with a status other than 200
      leaves the list exactly as it was: re-running it on a healthy list is a no-op. */
  lemma UnitTestingHealthyIsNoOp(caps: Capabilities, description: string, script: seq<CallOutcome>,
                                 probes: seq<ProbeResult>, s: Snapshot)
    requires s.state == UnitTesting && s.urls.Some?
    requires forall i :: 0 <= i < |s.urls.value| ==> !Faulty(ProbeAt(probes, i))
    ensures Run(caps, description, script, probes, s) == Progress(s.(state := Finished), None)
  {
    HealthyProbesExcludeNothing(s.urls.value, probes);
  }

  /** Whatever UnitTesting keeps, a second filtering by the same exclusions keeps too. */
  lemma UnitTestingFilterIsIdempotent(caps: Capabilities, description: string, script: seq<CallOutcome>,
                                      probes: seq<ProbeResult>, s: Snapshot)
    requires s.state == UnitTesting && s.urls.Some?
    ensures var p := Run(caps, description, script, probes, s);
            && p.snap.urls.Some?
            && Without(p.snap.urls.value, Failing(s.urls.value, probes)) == p.snap.urls.value
  {
    var exclude := Failing(s.urls.value, probes);
    if |exclude| > 0 {
      WithoutIdempotent(s.urls.value, exclude);
    } else {
      WithoutNothingExcluded(s.urls.value, exclude);
    }
  }

  /** With probes answering 200, 404, 200, 500, 200, the first, third and fifth URL remain. */
  lemma FilterKeepsOrderExample()
    ensures var urls := ["u1", "u2", "u3", "u4", "u5"];
            var probes := [Ok(200), Ok(404), Ok(200), Ok(500), Ok(200)];
            Without(urls, Failing(urls, probes)) == ["u1", "u3", "u5"]
  {
    ExampleCollects();
    ExampleFilters();
  }

  lemma ExampleCollects()
    ensures Failing(["u1", "u2", "u3", "u4", "u5"], [Ok(200), Ok(404), Ok(200), Ok(500), Ok(200)])
            == ["u2", "u4"]
  {
    var urls := ["u1", "u2", "u3", "u4", "u5"];
    var probes := [Ok(200), Ok(404), Ok(200), Ok(500), Ok(200)];
    assert urls[..1][..0] == [];
    assert Failing(urls[..1], probes) == [];
    assert urls[..2][..1] == urls[..1];
    assert Failing(urls[..2], probes) == ["u2"];
    assert urls[..3][..2] == urls[..2];
    assert Failing(urls[..3], probes) == ["u2"];
    assert urls[..4][..3] == urls[..3];
    assert Failing(urls[..4], probes) == ["u2", "u4"];
    assert urls[..5] == urls;
  }

  lemma ExampleFilters()
    ensures Without(["u1", "u2", "u3", "u4", "u5"], ["u2", "u4"]) == ["u1", "u3", "u5"]
  {

  }

  /** A run for a project that needs no external data: one scope request, then Finished
      with that scope and no URL list. */
  lemma TodoAppScenario(caps: Capabilities, answer: string, probes: seq<ProbeResult>)
    requires caps.decodeScope(answer) == Some(ProjectScope(true, false, false))
    ensures var description := "I need a simple TODO app";
            Run(caps, description, [Completion(answer)], probes, Snapshot(Discovery, None, None, []))
            == Progress(Snapshot(Finished, Some(ProjectScope(true, false, false)), None,
                                 [[ExtendAiFunction(caps.printProjectScope, description)]]), None)
  {

  }

  /** A run for a project that needs external data: the URL whose probe answered 500 is
      dropped and the healthy one kept. */
  lemma ExternalDataScenario(caps: Capabilities, description: string, scopeAnswer: string, urlsAnswer: string)
    requires caps.decodeScope(scopeAnswer) == Some(ProjectScope(false, false, true))
    requires caps.decodeUrls(urlsAnswer)
             == Some(["https://api.binance.com/api/v3/exchangeInfo", "https://api.bad.example/x"])
    ensures var p := Run(caps, description, [Completion(scopeAnswer), Completion(urlsAnswer)],
                         [Ok(200), Ok(500)], Snapshot(Discovery, None, None, []));
            && p.error == None && p.snap.state == Finished
            && p.snap.urls == Some(["https://api.binance.com/api/v3/exchangeInfo"])
  {
    var list := ["https://api.binance.com/api/v3/exchangeInfo", "https://api.bad.example/x"];
    var script := [Completion(scopeAnswer), Completion(urlsAnswer)];
    var probes := [Ok(200), Ok(500)];
    assert TaskCalls(script, 0) == 1;
    assert DecodedReply(script, 1, caps.decodeUrls) == Success(list);
    RunWithExternalUrls(caps, description, script, probes, Snapshot(Discovery, None, None, []),
                        ProjectScope(false, false, true), list);
    HealthyThenFaulty(list[0], list[1]);
  }

  /** Two distinct URLs probed 200 then 500: only the first survives. */
  lemma HealthyThenFaulty(good: string, bad: string)
    requires good != bad
    ensures Without([good, bad], Failing([good, bad], [Ok(200), Ok(500)])) == [good]
  {

  }

  // ---------------------------------------------------------------------------
  // The agent

  class AgentSolutionArchitect {
    const attributes: BasicAgent

    /** `new`: a solutions architect in Discovery with an empty memory. */
    constructor ()
      ensures fresh(attributes)
      ensures attributes.objective == Objective && attributes.position == Position
      ensures attributes.state == Discovery && attributes.memory == []
    {
      attributes := new BasicAgent(Objective, Position);
    }

    /** `get_attributes_from_agent`. */
    function GetAttributesFromAgent(): (a: BasicAgent)
      ensures a == attributes
    {
      attributes
    }

    /** The part of the agent, the fact sheet and the gateway that a run changes. */
    function SnapshotOf(factsheet: FactSheet, gateway: Gateway): Snapshot
      reads attributes, factsheet, gateway
    {
      Snapshot(attributes.state, factsheet.projectScope, factsheet.externalUrls, gateway.sent)
    }

    /** `call_project_scope`: asks for the scope of the described project; on success it
        stores the scope and sets the state to Finished, on failure it changes nothing else. */
    method CallProjectScope(factsheet: FactSheet, gateway: Gateway, caps: Capabilities)
      returns (r: Result<ProjectScope, TaskError>)
      modifies attributes, factsheet, gateway
      ensures r == DecodedReply(gateway.script, old(gateway.Calls()), caps.decodeScope)
      ensures gateway.sent == old(gateway.sent)
                + Attempts(ExtendAiFunction(caps.printProjectScope, factsheet.projectDescription),
                           TaskCalls(gateway.script, old(gateway.Calls())))
      ensures r.Success? ==> factsheet.projectScope == Some(r.value) && attributes.state == Finished
      ensures r.Failure? ==> factsheet.projectScope == old(factsheet.projectScope)
                             && attributes.state == old(attributes.state)
      ensures factsheet.externalUrls == old(factsheet.externalUrls)
      ensures unchanged(factsheet`projectDescription, factsheet`backendCode, factsheet`apiEndpointSchema)
      ensures unchanged(attributes`objective, attributes`position, attributes`memory)
    {
      var msgContext := factsheet.projectDescription;
      r := AiTaskRequestDecoded(gateway, msgContext, caps.printProjectScope, caps.decodeScope);
      if r.Success? {
        factsheet.projectScope := Some(r.value);
        attributes.UpdateState(Finished);
      }
    }

    /** `call_determine_external_urls`: asks for the URL list with the given context; on
        success it stores the list and sets the state to UnitTesting. */
    method CallDetermineExternalUrls(factsheet: FactSheet, msgContext: string, gateway: Gateway,
                                     caps: Capabilities)
      returns (r: Result<seq<string>, TaskError>)
      modifies attributes, factsheet, gateway
      ensures r == DecodedReply(gateway.script, old(gateway.Calls()), caps.decodeUrls)
      ensures gateway.sent == old(gateway.sent)
                + Attempts(ExtendAiFunction(caps.printSiteUrls, msgContext),
                           TaskCalls(gateway.script, old(gateway.Calls())))
      ensures r.Success? ==> factsheet.externalUrls == Some(r.value) && attributes.state == UnitTesting
      ensures r.Failure? ==> factsheet.externalUrls == old(factsheet.externalUrls)
                             && attributes.state == old(attributes.state)
      ensures factsheet.projectScope == old(factsheet.projectScope)
      ensures unchanged(factsheet`projectDescription, factsheet`backendCode, factsheet`apiEndpointSchema)
      ensures unchanged(attributes`objective, attributes`position, attributes`memory)
    {
      r := AiTaskRequestDecoded(gateway, msgContext, caps.printSiteUrls, caps.decodeUrls);
      if r.Success? {
        factsheet.externalUrls := Some(r.value);
        attributes.state := UnitTesting;
      }
    }

    /** `execute`: runs the state loop until Finished. The new state of the agent, the
        fact sheet and the gateway is the one `Run` gives; the loop terminates because every
        iteration lowers `Rank`, which starts at most at 2. */
    method Execute(factsheet: FactSheet, gateway: Gateway, caps: Capabilities, probes: seq<ProbeResult>)
      returns (r: Result<(), RunError>)
      modifies attributes, factsheet, gateway
      ensures var p := Run(caps, factsheet.projectDescription, gateway.script, probes,
                           old(SnapshotOf(factsheet, gateway)));
              && SnapshotOf(factsheet, gateway) == p.snap
              && r == (if p.error.None? then Success(()) else Failure(p.error.value))
      ensures unchanged(factsheet`projectDescription, factsheet`backendCode, factsheet`apiEndpointSchema)
      ensures unchanged(attributes`objective, attributes`position, attributes`memory)
    {
      ghost var description := factsheet.projectDescription;
      ghost var goal := Run(caps, description, gateway.script, probes, SnapshotOf(factsheet, gateway));
      r := Success(());
      while attributes.state != Finished
        invariant Run(caps, description, gateway.script, probes, SnapshotOf(factsheet, gateway)) == goal
        invariant unchanged(factsheet`projectDescription, factsheet`backendCode, factsheet`apiEndpointSchema)
        invariant unchanged(attributes`objective, attributes`position, attributes`memory)
        decreases Rank(attributes.state)
      {
        ghost var before := SnapshotOf(factsheet, gateway);
        ghost var step := Step(caps, description, gateway.script, probes, before);
        if attributes.state == Discovery {
          var projectScope := CallProjectScope(factsheet, gateway, caps);
          if projectScope.Failure? {
            r := Failure(TaskFailed(projectScope.error));
            return;
          }
          if projectScope.value.isExternalUrlsRequired {
            var urls := CallDetermineExternalUrls(factsheet, factsheet.projectDescription, gateway, caps);
            if urls.Failure? {
              r := Failure(TaskFailed(urls.error));
              return;
            }
            attributes.state := UnitTesting;
          }
        } else if attributes.state == UnitTesting {
          if factsheet.externalUrls.None? {
            r := Failure(NoUrlObject);
            return;
          }
          var urls := factsheet.externalUrls.value;
          var excludeUrls := CollectExcluded(urls, probes);
          if |excludeUrls| > 0 {
            factsheet.externalUrls := Some(Without(urls, excludeUrls));
          }
          attributes.state := Finished;
        } else {
          attributes.state := Finished;
        }
      }
    }
  }
}
