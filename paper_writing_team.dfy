/** The paper-writing team: document writer, note taker and chart generator around one supervisor. */
module PaperWritingTeam {
  import opened Wrappers
  import opened Graphs

  const SUPERVISOR := "doc_writing_team_supervisor"

  /** `doc_writing_node`: reports the document-writing agent's last message as "doc_writer". */
  function DocWritingNode(state: seq<Message>, docWriterAgent: Agent): (r: Result<Command, Error>)
    ensures Wraps(r, docWriterAgent(state), "doc_writer", "doc_writing_team_supervisor")
  {
    Report("doc_writer", "doc_writing_team_supervisor", docWriterAgent(state))
  }

  /** `note_taking_node`: reports the note-taking agent's last message as "note_taker". */
  function NoteTakingNode(state: seq<Message>, noteTakingAgent: Agent): (r: Result<Command, Error>)
    ensures Wraps(r, noteTakingAgent(state), "note_taker", "doc_writing_team_supervisor")
  {
    Report("note_taker", "doc_writing_team_supervisor", noteTakingAgent(state))
  }

  /** `chart_generating_node`: reports the chart-generating agent's last message as "chart_generator". */
  function ChartGeneratingNode(state: seq<Message>, chartGeneratingAgent: Agent): (r: Result<Command, Error>)
    ensures Wraps(r, chartGeneratingAgent(state), "chart_generator", "doc_writing_team_supervisor")
  {
    Report("chart_generator", "doc_writing_team_supervisor", chartGeneratingAgent(state))
  }

  /** The assembly of `paper_writing_graph`: a supervisor with roster
      [doc_writer, note_taker, chart_generator], the three workers, and START -> supervisor. */
  method BuildPaperWritingGraph(docWriterAgent: Agent, noteTakingAgent: Agent, chartGeneratingAgent: Agent)
    returns (g: Graph)
    ensures IsStar(g, SUPERVISOR)
    ensures g.nodes.Keys == {SUPERVISOR, "doc_writer", "note_taker", "chart_generator"}
    ensures g.nodes[SUPERVISOR].roster == ["doc_writer", "note_taker", "chart_generator"]
    ensures forall state :: g.nodes["doc_writer"].run(state) == DocWritingNode(state, docWriterAgent)
    ensures forall state :: g.nodes["note_taker"].run(state) == NoteTakingNode(state, noteTakingAgent)
    ensures forall state :: g.nodes["chart_generator"].run(state) == ChartGeneratingNode(state, chartGeneratingAgent)
  {
    var docWriter: NodeFn := state => DocWritingNode(state, docWriterAgent);
    var noteTaker: NodeFn := state => NoteTakingNode(state, noteTakingAgent);
    var chartGenerator: NodeFn := state => ChartGeneratingNode(state, chartGeneratingAgent);
    var builder := new StateGraph();
    var ok := builder.AddNode("doc_writing_team_supervisor",
                              Supervisor(["doc_writer", "note_taker", "chart_generator"]));
    assert ok;
    ok := builder.AddNode("doc_writer", Worker(docWriter));
    assert ok;
    ok := builder.AddNode("note_taker", Worker(noteTaker));
    assert ok;
    ok := builder.AddNode("chart_generator", Worker(chartGenerator));
    assert ok;
    ok := builder.AddEdge(START, "doc_writing_team_supervisor");
    assert ok;
    g := builder.Compile();
    StarOfThree(SUPERVISOR, "doc_writer", "note_taker", "chart_generator", docWriter, noteTaker, chartGenerator);
  }
}
