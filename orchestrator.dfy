/**
 * The top-level graph: a supervisor whose two workers are team-call nodes. Each team-call node runs
 * a whole team graph (opaque here, an `Agent`) on the latest message and reports the team's last
 * message back.
 */
module Orchestrator {
  import opened Wrappers
  import opened Graphs

  const SUPERVISOR := "supervisor"

  /** `call_research_team`: hands only the latest state message to the research graph, and reports
      the graph's last message as "research_team". An empty state fails before the graph runs. */
  function CallResearchTeam(state: seq<Message>, researchGraph: Agent): (r: Result<Command, Error>)
    ensures state == [] ==> r == Failure(IndexError)
    ensures state != [] ==> Wraps(r, researchGraph([Last(state)]), "research_team", "supervisor")
  {
    if state == [] then Failure(IndexError)
    else Report("research_team", "supervisor", researchGraph([Last(state)]))
  }

  /** `call_paper_writing_team`: the same for the paper-writing graph, reported as "writing_team". */
  function CallPaperWritingTeam(state: seq<Message>, paperWritingGraph: Agent): (r: Result<Command, Error>)
    ensures state == [] ==> r == Failure(IndexError)
    ensures state != [] ==> Wraps(r, paperWritingGraph([Last(state)]), "writing_team", "supervisor")
  {
    if state == [] then Failure(IndexError)
    else Report("writing_team", "supervisor", paperWritingGraph([Last(state)]))
  }

  /** The team sees none of the history before the latest message: two states that end in the same
      message give the same command. */
  lemma {:induction false} TeamCallsSeeOnlyLatest(s1: seq<Message>, s2: seq<Message>, team: Agent)
    requires s1 != [] && s2 != [] && Last(s1) == Last(s2)
    ensures CallResearchTeam(s1, team) == CallResearchTeam(s2, team)
    ensures CallPaperWritingTeam(s1, team) == CallPaperWritingTeam(s2, team)
  {
  }

  /** Each call consults its team graph at the one input [latest message] and nowhere else: two
      team graphs that agree there give the same command. */
  lemma {:induction false} TeamCallsRunTeamOnce(state: seq<Message>, team1: Agent, team2: Agent)
    requires state != [] && team1([Last(state)]) == team2([Last(state)])
    ensures CallResearchTeam(state, team1) == CallResearchTeam(state, team2)
    ensures CallPaperWritingTeam(state, team1) == CallPaperWritingTeam(state, team2)
  {
  }

  /** The assembly of `super_graph`: a supervisor with roster [research_team, writing_team], the two
      team-call nodes, and START -> supervisor. */
  method BuildSuperGraph(researchGraph: Agent, paperWritingGraph: Agent) returns (g: Graph)
    ensures IsStar(g, SUPERVISOR)
    ensures g.nodes.Keys == {SUPERVISOR, "research_team", "writing_team"}
    ensures g.nodes[SUPERVISOR].roster == ["research_team", "writing_team"]
    ensures forall state :: g.nodes["research_team"].run(state) == CallResearchTeam(state, researchGraph)
    ensures forall state :: g.nodes["writing_team"].run(state) == CallPaperWritingTeam(state, paperWritingGraph)
  {
    var researchTeam: NodeFn := state => CallResearchTeam(state, researchGraph);
    var writingTeam: NodeFn := state => CallPaperWritingTeam(state, paperWritingGraph);
    var builder := new StateGraph();
    var ok := builder.AddNode("supervisor", Supervisor(["research_team", "writing_team"]));
    assert ok;
    ok := builder.AddNode("research_team", Worker(researchTeam));
    assert ok;
    ok := builder.AddNode("writing_team", Worker(writingTeam));
    assert ok;
    ok := builder.AddEdge(START, "supervisor");
    assert ok;
    g := builder.Compile();
    StarOfTwo(SUPERVISOR, "research_team", "writing_team", researchTeam, writingTeam);
  }
}
