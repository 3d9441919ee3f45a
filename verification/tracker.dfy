/** `AgentTracker` of src/utils/agent_tracker.py: a dict from agent name
    to the record of its run, kept in insertion order as Python dicts are.
    Clock readings (`datetime.now().isoformat()`) and `str(tool_output)`
    are passed in; writing the report files is not modelled. */
module Tracker {
  import opened Options
  import opened JsonValues

  datatype ToolRecord = ToolRecord(toolName: string, input: Json, output: string, timestamp: string)

  datatype AgentRecord = AgentRecord(
    name: string, task: string, input: Json, toolsUsed: seq<ToolRecord>, output: Json,
    startTime: string, endTime: Option<string>, status: string)

  /** `agents` is `agents_data`; `order` lists its keys in insertion order. */
  datatype Tracker = Tracker(runId: string, agents: map<string, AgentRecord>, order: seq<string>, outputDir: string)

  /** The insertion order lists every key exactly once. */
  predicate Valid(tr: Tracker) {
    && (forall i, j :: 0 <= i < j < |tr.order| ==> tr.order[i] != tr.order[j])
    && (forall a :: a in tr.agents ==> a in tr.order)
    && (forall i :: 0 <= i < |tr.order| ==> tr.order[i] in tr.agents)
  }

  /** The longest an output may be when logged. */
  const MaxToolOutput: nat := 500

  const DefaultStatus: string := "completed"

  /** `AgentTracker(run_id)`, with `root` the repository directory. */
  function NewTracker(runId: string, root: string): (tr: Tracker)
    ensures Valid(tr) && tr.agents == map[] && tr.runId == runId
    ensures exists prefix :: tr.outputDir == prefix + "run_" + runId
  {
    var tr := Tracker(runId, map[], [], root + "/reports/" + "run_" + runId);
    assert tr.outputDir == (root + "/reports/") + "run_" + runId;
    tr
  }

  /** `start_agent`: creates or replaces the agent's record. Replacing
      keeps the agent's place in the order. */
  function StartAgent(tr: Tracker, name: string, task: string, input: Json, now: string): (r: Tracker)
    requires Valid(tr)
    ensures Valid(r)
    ensures name in r.agents
    ensures var rec := r.agents[name];
      && rec.name == name && rec.task == task && rec.status == "running"
      && rec.toolsUsed == [] && rec.output == JNull && rec.endTime == None && rec.startTime == now
      && rec.input == (if Truthy(input) then input else JObj(map[]))
    ensures forall a :: a != name ==> (a in r.agents <==> a in tr.agents) && (a in tr.agents ==> r.agents[a] == tr.agents[a])
    ensures name in tr.agents ==> r.order == tr.order
    ensures name !in tr.agents ==> r.order == tr.order + [name]
    ensures r.runId == tr.runId && r.outputDir == tr.outputDir
  {
    var rec := AgentRecord(name, task, Or(input, JObj(map[])), [], JNull, now, None, "running");
    var order := if name in tr.agents then tr.order else tr.order + [name];
    tr.(agents := tr.agents[name := rec], order := order)
  }

  /** `str(tool_output)[:500]`. */
  function Truncate(s: string): (r: string)
    ensures |r| <= MaxToolOutput && |r| <= |s|
    ensures r == s[..|r|]
    ensures |s| <= MaxToolOutput ==> r == s
    ensures |r| == if |s| <= MaxToolOutput then |s| else MaxToolOutput
  {
    if |s| <= MaxToolOutput then s else s[..MaxToolOutput]
  }

  /** `log_tool_usage`: appends one record to a known agent's tools. */
  function LogToolUsage(tr: Tracker, name: string, tool: string, input: Json, outputText: string, now: string): (r: Tracker)
    ensures name !in tr.agents ==> r == tr
    ensures name in tr.agents ==>
      && name in r.agents
      && r.agents[name] == tr.agents[name].(toolsUsed := r.agents[name].toolsUsed)
      && |r.agents[name].toolsUsed| == |tr.agents[name].toolsUsed| + 1
      && r.agents[name].toolsUsed[..|tr.agents[name].toolsUsed|] == tr.agents[name].toolsUsed
    ensures name in tr.agents ==>
      var t := r.agents[name].toolsUsed[|r.agents[name].toolsUsed| - 1];
      && t.toolName == tool && t.input == input && t.timestamp == now
      && |t.output| <= MaxToolOutput && |t.output| <= |outputText| && t.output == outputText[..|t.output|]
      && t.output == Truncate(outputText)
    ensures forall a :: a != name ==> (a in r.agents <==> a in tr.agents) && (a in tr.agents ==> r.agents[a] == tr.agents[a])
    ensures r.order == tr.order && r.runId == tr.runId && r.outputDir == tr.outputDir
    ensures Valid(tr) ==> Valid(r)
  {
    if name !in tr.agents then tr
    else
      var rec := tr.agents[name];
      var t := ToolRecord(tool, input, Truncate(outputText), now);
      tr.(agents := tr.agents[name := rec.(toolsUsed := rec.toolsUsed + [t])])
  }

  /** `end_agent`: sets a known agent's output, end time and status. */
  function EndAgent(tr: Tracker, name: string, output: Json, status: string, now: string): (r: Tracker)
    ensures name !in tr.agents ==> r == tr
    ensures name in tr.agents ==>
      && name in r.agents
      && r.agents[name].output == output && r.agents[name].status == status
      && r.agents[name].endTime == Some(now)
      && r.agents[name].task == tr.agents[name].task
      && r.agents[name].toolsUsed == tr.agents[name].toolsUsed
      && r.agents[name].input == tr.agents[name].input
      && r.agents[name].startTime == tr.agents[name].startTime
    ensures name in tr.agents ==>
      r.agents[name] == tr.agents[name].(output := output, endTime := Some(now), status := status)
    ensures forall a :: a != name ==> (a in r.agents <==> a in tr.agents) && (a in tr.agents ==> r.agents[a] == tr.agents[a])
    ensures r.order == tr.order && r.runId == tr.runId && r.outputDir == tr.outputDir
    ensures Valid(tr) ==> Valid(r)
  {
    if name !in tr.agents then tr
    else
      var rec := tr.agents[name];
      tr.(agents := tr.agents[name := rec.(output := output, endTime := Some(now), status := status)])
  }

  /** A tool logged between start and end stays in the agent's record:
      ending an agent does not drop its tool history. */
  lemma ToolsSurviveEnd(tr: Tracker, name: string, task: string, input: Json, tool: string, toolInput: Json,
                        outputText: string, output: Json, t0: string, t1: string, t2: string)
    requires Valid(tr)
    ensures var started := StartAgent(tr, name, task, input, t0);
      var logged := LogToolUsage(started, name, tool, toolInput, outputText, t1);
      var ended := EndAgent(logged, name, output, DefaultStatus, t2);
      && |ended.agents[name].toolsUsed| == 1
      && ended.agents[name].toolsUsed[0].toolName == tool
      && ended.agents[name].status == DefaultStatus
  {
  }

  /** The summary written by `save_all_reports` (the timestamp and the
      per-agent files are not modelled). */
  datatype Summary = Summary(runId: string, agents: seq<string>, totalAgents: nat, agentsData: map<string, AgentRecord>)

  function SummaryOf(tr: Tracker): (s: Summary)
    requires Valid(tr)
    ensures s.totalAgents == |s.agents|
    ensures forall a :: a in s.agents <==> a in s.agentsData
    ensures s.agentsData == tr.agents && s.runId == tr.runId
    ensures s.agents == tr.order && s.totalAgents == |tr.agents|
  {
    DistinctCardinality(tr.order);
    assert tr.agents.Keys == set a | a in tr.order;
    Summary(tr.runId, tr.order, |tr.agents|, tr.agents)
  }

  /** A sequence without repeats has as many elements as its set. */
  lemma {:induction false} DistinctCardinality(s: seq<string>)
    requires forall i, j :: 0 <= i < j < |s| ==> s[i] != s[j]
    ensures |set a | a in s| == |s|
  {
    if |s| > 0 {
      var rest := s[1..];
      DistinctCardinality(rest);
      assert forall j :: 0 <= j < |rest| ==> rest[j] != s[0] by {
        forall j | 0 <= j < |rest| ensures rest[j] != s[0] {
          assert rest[j] == s[j + 1];
        }
      }
      assert (set a | a in s) == {s[0]} + (set a | a in rest);
    }
  }
}
