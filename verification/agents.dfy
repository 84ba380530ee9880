/** The multi-agent orchestrator: a shared state, four agents (planner,
    researcher, coder, reviewer) that each turn one LLM reply into a state
    update, and a router that picks the next agent or ends the run. The LLM
    is not modelled: each step consumes one given outcome, either the reply
    text together with what `json.loads` made of it, or the exception the
    call raised. The graph library is not modelled either: the run loop
    below applies updates and follows the router directly. */
module Agents {
  import opened Wrappers

  /** A value as `json.loads` returns it; objects are dictionaries. */
  datatype Json =
    | JNull
    | JBool(b: bool)
    | JNumber(n: real)
    | JString(s: string)
    | JArray(items: seq<Json>)
    | JObject(fields: map<string, Json>)

  /** Python truthiness of a decoded value. */
  predicate Truthy(j: Json) {
    match j
    case JNull => false
    case JBool(b) => b
    case JNumber(n) => n != 0.0
    case JString(s) => s != ""
    case JArray(items) => items != []
    case JObject(fields) => fields != map[]
  }

  /** `d.get(key, default)`. */
  function Get(fields: map<string, Json>, key: string, default: Json): Json {
    if key in fields then fields[key] else default
  }

  datatype Message = Human(content: string) | Ai(content: string)

  /** `AgentState`. `current_task` and `next_agent` hold whatever the
      planner's reply put there, so they are decoded values, not only strings. */
  datatype AgentState = AgentState(
    messages: seq<Message>,
    currentTask: Json,
    completedTasks: seq<Json>,
    context: map<string, Json>,
    nextAgent: Json)

  datatype Agent = Planner | Researcher | Coder | Reviewer

  /** The node name each agent is registered under. */
  function Name(a: Agent): string {
    match a
    case Planner => "planner"
    case Researcher => "researcher"
    case Coder => "coder"
    case Reviewer => "reviewer"
  }

  /** The agent registered under `n`, if any (`n in self.agents`). */
  function AgentNamed(n: string): (r: Option<Agent>)
    ensures r.Some? ==> Name(r.value) == n
    ensures forall a: Agent :: Name(a) == n ==> r == Some(a)
  {
    if n == "planner" then Some(Planner)
    else if n == "researcher" then Some(Researcher)
    else if n == "coder" then Some(Coder)
    else if n == "reviewer" then Some(Reviewer)
    else None
  }

  /** The context key an agent writes on success. */
  function OwnKey(a: Agent): string {
    match a
    case Planner => "plan"
    case Researcher => "research"
    case Coder => "code"
    case Reviewer => "review"
  }

  /** Where an agent sends the workflow when its reply cannot be used. */
  function FallbackNext(a: Agent): string {
    match a
    case Planner => "researcher"
    case Researcher => "coder"
    case Coder => "reviewer"
    case Reviewer => "END"
  }

  /** The partial state an agent returns; keys it leaves out keep their value. */
  datatype Update = Update(
    messages: seq<Message>,
    currentTask: Option<Json>,
    completedTasks: Option<seq<Json>>,
    nextAgent: Json,
    context: map<string, Json>)

  /** Merging an update into the state, key by key. */
  function Apply(s: AgentState, u: Update): AgentState {
    AgentState(
      u.messages,
      match u.currentTask case Some(t) => t case None => s.currentTask,
      match u.completedTasks case Some(c) => c case None => s.completedTasks,
      u.context,
      u.nextAgent)
  }

  /** The body of an agent's `try` runs to the end exactly when the reply
      decodes to an object: a decoding error, or any other decoded value
      (which has no `.get`), takes the `except` branch. */
  predicate Usable(parsed: Option<Json>) {
    parsed.Some? && parsed.value.JObject?
  }

  /** One agent's logic after its LLM call returned `content`. */
  function Step(a: Agent, s: AgentState, content: string, parsed: Option<Json>): (u: Update)
    ensures u.messages == s.messages + [Ai(content)]
    ensures u.currentTask.Some? ==> a == Planner && Usable(parsed)
    ensures u.completedTasks.Some? <==> Usable(parsed) && a != Planner
    ensures Usable(parsed) && (a == Researcher || a == Coder) ==>
      u.completedTasks == Some(s.completedTasks + [s.currentTask])
    ensures Usable(parsed) && a == Reviewer ==>
      u.completedTasks == Some(s.completedTasks + [JString("review")])
    ensures !Usable(parsed) ==> u.nextAgent == JString(FallbackNext(a)) && u.context == s.context
    ensures Usable(parsed) ==>
      && u.context.Keys == s.context.Keys + {OwnKey(a)}
      && forall k :: k in s.context && k != OwnKey(a) ==> u.context[k] == s.context[k]
    ensures Usable(parsed) ==>
      u.context[OwnKey(a)] == (if a == Planner then Get(parsed.value.fields, "plan", JArray([])) else parsed.value)
    ensures Usable(parsed) && a == Planner ==>
      && u.currentTask == Some(Get(parsed.value.fields, "instructions", JString("")))
      && u.nextAgent == Get(parsed.value.fields, "next_agent", JString("researcher"))
    ensures Usable(parsed) && a == Researcher ==> u.nextAgent == Get(parsed.value.fields, "next_agent", JString("coder"))
    ensures Usable(parsed) && a == Coder ==> u.nextAgent == Get(parsed.value.fields, "next_agent", JString("reviewer"))
    ensures Usable(parsed) && a == Reviewer ==>
      u.nextAgent == if Truthy(Get(parsed.value.fields, "approved", JBool(false))) then JString("END")
                     else Get(parsed.value.fields, "next_agent", JString("planner"))
  {
    var messages := s.messages + [Ai(content)];
    if !Usable(parsed) then
      Update(messages, None, None, JString(FallbackNext(a)), s.context)
    else
      var result := parsed.value.fields;
      match a
      case Planner =>
        Update(messages, Some(Get(result, "instructions", JString(""))), None,
               Get(result, "next_agent", JString("researcher")),
               s.context["plan" := Get(result, "plan", JArray([]))])
      case Researcher =>
        Update(messages, None, Some(s.completedTasks + [s.currentTask]),
               Get(result, "next_agent", JString("coder")),
               s.context["research" := parsed.value])
      case Coder =>
        Update(messages, None, Some(s.completedTasks + [s.currentTask]),
               Get(result, "next_agent", JString("reviewer")),
               s.context["code" := parsed.value])
      case Reviewer =>
        var next := if Truthy(Get(result, "approved", JBool(false))) then JString("END")
                    else Get(result, "next_agent", JString("planner"));
        Update(messages, None, Some(s.completedTasks + [JString("review")]), next,
               s.context["review" := parsed.value])
  }

  /** The router's verdict: another agent, or the end of the run. */
  datatype Node = Go(agent: Agent) | End

  /** `route_next`. A list or dictionary in `next_agent` cannot be looked up
      among the agent names (it is unhashable), so the router raises. */
  function RouteNext(s: AgentState): (r: Result<Node, string>)
    ensures r.Failure? <==> s.nextAgent.JArray? || s.nextAgent.JObject?
    ensures (r.Success? && r.value.Go?) <==> s.nextAgent.JString? && AgentNamed(s.nextAgent.s).Some?
    ensures r.Success? && r.value.Go? ==> JString(Name(r.value.agent)) == s.nextAgent
    ensures r.Failure? ==>
      r.error == (if s.nextAgent.JArray? then "unhashable type: 'list'" else "unhashable type: 'dict'")
  {
    match s.nextAgent
    case JString(n) =>
      (match AgentNamed(n) case Some(a) => Success(Go(a)) case None => Success(End))
    case JArray(_) => Failure("unhashable type: 'list'")
    case JObject(_) => Failure("unhashable type: 'dict'")
    case _ => Success(End)
  }

  /** The agent that follows `a` when replies cannot be used: planner,
      researcher, coder, reviewer, then the end. */
  function Successor(a: Agent): Node {
    match a
    case Planner => Go(Researcher)
    case Researcher => Go(Coder)
    case Coder => Go(Reviewer)
    case Reviewer => End
  }

  /** An unusable reply moves the workflow one stage along the fixed chain. */
  lemma FallbackRoutesToSuccessor(a: Agent, s: AgentState, content: string, parsed: Option<Json>)
    requires !Usable(parsed)
    ensures RouteNext(Apply(s, Step(a, s, content, parsed))) == Success(Successor(a))
  {
  }

  /** An approving review ends the run, whatever `next_agent` the reviewer named. */
  lemma ApprovedReviewEnds(s: AgentState, content: string, fields: map<string, Json>)
    requires Truthy(Get(fields, "approved", JBool(false)))
    ensures RouteNext(Apply(s, Step(Reviewer, s, content, Some(JObject(fields))))) == Success(End)
  {
  }

  /** A usable reply that is not an approving review sends the workflow to
      the agent its `next_agent` names, and ends the run for any other name. */
  lemma UsableReplyRoutesAsNamed(a: Agent, s: AgentState, content: string, fields: map<string, Json>, n: string)
    requires a != Reviewer || !Truthy(Get(fields, "approved", JBool(false)))
    requires "next_agent" in fields && fields["next_agent"] == JString(n)
    ensures RouteNext(Apply(s, Step(a, s, content, Some(JObject(fields))))) ==
      Success(match AgentNamed(n) case Some(b) => Go(b) case None => End)
  {
  }

  /** What one LLM call gives: the reply text with its decoding, or an exception. */
  datatype LlmOutcome = Reply(content: string, parsed: Option<Json>) | LlmError(message: string)

  /** The state `run` starts from. */
  function InitialState(input: string): (s: AgentState)
    ensures s.messages == [Human(input)] && s.currentTask == JString(input)
    ensures s.completedTasks == [] && s.context == map[] && s.nextAgent == JString("planner")
  {
    AgentState([Human(input)], JString(input), [], map[], JString("planner"))
  }

  /** How the workflow loop stops: at the router's end, on an exception, or
      when the given LLM outcomes run out (the bound that stands in for the
      library's recursion limit). */
  datatype Workflow = Done(state: AgentState) | Raised(error: string) | Exhausted(state: AgentState, pending: Agent)

  /** The state of a run so far: the user's message first, then one AI
      message per step, and no more completed tasks than steps. */
  predicate Wellformed(s: AgentState, input: string) {
    && |s.messages| >= 1
    && s.messages[0] == Human(input)
    && (forall i :: 1 <= i < |s.messages| ==> s.messages[i].Ai?)
    && |s.completedTasks| <= |s.messages| - 1
  }

  /** Running agent `a` on state `s`, then following the router. */
  function RunFrom(s: AgentState, a: Agent, outcomes: seq<LlmOutcome>): Workflow
    decreases |outcomes|
  {
    if outcomes == [] then Exhausted(s, a)
    else
      match outcomes[0]
      case LlmError(e) => Raised(e)
      case Reply(content, parsed) =>
        var next := Apply(s, Step(a, s, content, parsed));
        match RouteNext(next)
        case Failure(e) => Raised(e)
        case Success(End) => Done(next)
        case Success(Go(b)) => RunFrom(next, b, outcomes[1..])
  }

  /** The AI messages the replies among `outcomes` add, in order. */
  function Replies(outcomes: seq<LlmOutcome>): (ms: seq<Message>)
    ensures |ms| <= |outcomes|
  {
    if outcomes == [] then []
    else
      (match outcomes[0] case Reply(c, _) => [Ai(c)] case LlmError(_) => [])
      + Replies(outcomes[1..])
  }

  lemma StepKeepsWellformed(a: Agent, s: AgentState, input: string, content: string, parsed: Option<Json>)
    requires Wellformed(s, input)
    ensures Wellformed(Apply(s, Step(a, s, content, parsed)), input)
  {
  }

  /** Every state the loop stops in is well formed, and it holds at least
      one more AI message than the start state and at most one per outcome
      (exactly one per outcome when they ran out). */
  lemma {:induction false} RunFromKeepsWellformed(s: AgentState, a: Agent, outcomes: seq<LlmOutcome>, input: string)
    requires Wellformed(s, input)
    ensures RunFrom(s, a, outcomes).Done? ==>
      var t := RunFrom(s, a, outcomes).state;
      Wellformed(t, input) && |s.messages| < |t.messages| <= |s.messages| + |outcomes|
    ensures RunFrom(s, a, outcomes).Exhausted? ==>
      var t := RunFrom(s, a, outcomes).state;
      Wellformed(t, input) && |t.messages| == |s.messages| + |outcomes|
    decreases |outcomes|
  {
    if outcomes != [] && outcomes[0].Reply? {
      var next := Apply(s, Step(a, s, outcomes[0].content, outcomes[0].parsed));
      StepKeepsWellformed(a, s, input, outcomes[0].content, outcomes[0].parsed);
      match RouteNext(next)
      case Failure(_) =>
      case Success(End) =>
      case Success(Go(b)) =>
        RunFromKeepsWellformed(next, b, outcomes[1..], input);
    }
  }

  /** The messages of the state the loop stops in are the start state's
      followed by one AI message per reply consumed, in order: those of some
      non-empty prefix of the outcomes when the router ended the run, of all
      of them when they ran out. */
  lemma {:induction false} RunFromMessages(s: AgentState, a: Agent, outcomes: seq<LlmOutcome>)
    ensures RunFrom(s, a, outcomes).Done? ==>
      exists k :: 1 <= k <= |outcomes| && RunFrom(s, a, outcomes).state.messages == s.messages + Replies(outcomes[..k])
    ensures RunFrom(s, a, outcomes).Exhausted? ==>
      RunFrom(s, a, outcomes).state.messages == s.messages + Replies(outcomes)
    decreases |outcomes|
  {
    if outcomes != [] && outcomes[0].Reply? {
      var c := outcomes[0].content;
      var next := Apply(s, Step(a, s, c, outcomes[0].parsed));
      assert next.messages == s.messages + [Ai(c)];
      match RouteNext(next)
      case Failure(_) =>
      case Success(End) =>
        RepliesCons(outcomes, 0);
        assert Replies(outcomes[..1]) == [Ai(c)];
      case Success(Go(b)) =>
        var w := RunFrom(next, b, outcomes[1..]);
        assert RunFrom(s, a, outcomes) == w;
        RunFromMessages(next, b, outcomes[1..]);
        if w.Exhausted? {
          assert Replies(outcomes) == [Ai(c)] + Replies(outcomes[1..]);
          AppendAssoc(s.messages, [Ai(c)], Replies(outcomes[1..]));
        } else if w.Done? {
          var k :| 1 <= k <= |outcomes[1..]| && w.state.messages == next.messages + Replies(outcomes[1..][..k]);
          RepliesCons(outcomes, k);
          AppendAssoc(s.messages, [Ai(c)], Replies(outcomes[1..][..k]));
          assert w.state.messages == s.messages + Replies(outcomes[..k + 1]);
        }
    } else if outcomes == [] {
      assert Replies(outcomes) == [];
    }
  }

  lemma AppendAssoc(a: seq<Message>, b: seq<Message>, c: seq<Message>)
    ensures (a + b) + c == a + (b + c)
  {
  }

  /** The replies of a prefix that starts with a reply: its message, then the rest's. */
  lemma RepliesCons(outcomes: seq<LlmOutcome>, k: nat)
    requires k < |outcomes| && outcomes[0].Reply?
    ensures Replies(outcomes[..k + 1]) == [Ai(outcomes[0].content)] + Replies(outcomes[1..][..k])
  {
    assert outcomes[..k + 1][0] == outcomes[0];
    assert outcomes[..k + 1][1..] == outcomes[1..][..k];
  }

  /** What `run` returns: the final state, the error dictionary, or (when the
      outcomes run out) the state reached and the agent still to run. */
  datatype RunResult =
    | Completed(state: AgentState)
    | Failed(error: string, messages: seq<Message>)
    | Unfinished(state: AgentState, pending: Agent)

  /** The Hebrew word for "error" that prefixes the message of a failed run. */
  const ErrorPrefix: string := "שגיאה: "

  /** `run`: start at the planner from the initial state and never raise. */
  function Run(input: string, outcomes: seq<LlmOutcome>): (r: RunResult)
    ensures var w := RunFrom(InitialState(input), Planner, outcomes);
      && (w.Raised? ==> r == Failed(w.error, [Ai(ErrorPrefix + w.error)]))
      && (w.Done? ==> r == Completed(w.state))
      && (w.Exhausted? ==> r == Unfinished(w.state, w.pending))
    ensures r.Failed? ==> r.messages == [Ai(ErrorPrefix + r.error)]
    ensures r.Completed? ==>
      && Wellformed(r.state, input)
      && exists k :: 1 <= k <= |outcomes| && r.state.messages == [Human(input)] + Replies(outcomes[..k])
    ensures r.Unfinished? ==> Wellformed(r.state, input) && r.state.messages == [Human(input)] + Replies(outcomes)
  {
    RunFromKeepsWellformed(InitialState(input), Planner, outcomes, input);
    RunFromMessages(InitialState(input), Planner, outcomes);
    match RunFrom(InitialState(input), Planner, outcomes)
    case Done(t) => Completed(t)
    case Raised(e) => Failed(e, [Ai(ErrorPrefix + e)])
    case Exhausted(t, a) => Unfinished(t, a)
  }

  /** Four unusable replies walk the whole chain once and end the run: five
      messages, no completed tasks, and an untouched context. */
  lemma UnusableRepliesEndAfterReview(input: string, c0: string, c1: string, c2: string, c3: string, rest: seq<LlmOutcome>)
    ensures
      var r := Run(input, [Reply(c0, None), Reply(c1, None), Reply(c2, None), Reply(c3, None)] + rest);
      && r.Completed?
      && r.state.messages == [Human(input), Ai(c0), Ai(c1), Ai(c2), Ai(c3)]
      && r.state.completedTasks == []
      && r.state.context == map[]
  {
    var outcomes := [Reply(c0, None), Reply(c1, None), Reply(c2, None), Reply(c3, None)] + rest;
    var s0 := InitialState(input);
    var s1 := Apply(s0, Step(Planner, s0, c0, None));
    var s2 := Apply(s1, Step(Researcher, s1, c1, None));
    var s3 := Apply(s2, Step(Coder, s2, c2, None));
    var s4 := Apply(s3, Step(Reviewer, s3, c3, None));
    assert outcomes[1..][1..][1..][0] == Reply(c3, None);
    assert RunFrom(s3, Reviewer, outcomes[1..][1..][1..]) == Done(s4);
    assert RunFrom(s2, Coder, outcomes[1..][1..]) == Done(s4);
    assert RunFrom(s1, Researcher, outcomes[1..]) == Done(s4);
    assert RunFrom(s0, Planner, outcomes) == Done(s4);
  }
}
