/** The research team: a search worker and a web-scraping worker around one supervisor. */
module ResearchTeam {
  import opened Wrappers
  import opened Graphs

  const SUPERVISOR := "research_team_supervisor"

  /** `search_node`: runs the search agent on the state and reports its last message as "search". */
  function SearchNode(state: seq<Message>, searchAgent: Agent): (r: Result<Command, Error>)
    ensures Wraps(r, searchAgent(state), "search", "research_team_supervisor")
  {
    Report("search", "research_team_supervisor", searchAgent(state))
  }

  /** `web_scraper_node`: the same, for the scraping agent, reported as "web_scraper". */
  function WebScraperNode(state: seq<Message>, webScraperAgent: Agent): (r: Result<Command, Error>)
    ensures Wraps(r, webScraperAgent(state), "web_scraper", "research_team_supervisor")
  {
    Report("web_scraper", "research_team_supervisor", webScraperAgent(state))
  }

  /** The assembly of `research_graph`: a supervisor with roster [search, web_scraper], the two
      workers, and the single edge START -> supervisor. */
  method BuildResearchGraph(searchAgent: Agent, webScraperAgent: Agent) returns (g: Graph)
    ensures IsStar(g, SUPERVISOR)
    ensures g.nodes.Keys == {SUPERVISOR, "search", "web_scraper"}
    ensures g.nodes[SUPERVISOR].roster == ["search", "web_scraper"]
    ensures forall state :: g.nodes["search"].run(state) == SearchNode(state, searchAgent)
    ensures forall state :: g.nodes["web_scraper"].run(state) == WebScraperNode(state, webScraperAgent)
  {
    var search: NodeFn := state => SearchNode(state, searchAgent);
    var webScraper: NodeFn := state => WebScraperNode(state, webScraperAgent);
    var builder := new StateGraph();
    var ok := builder.AddNode("research_team_supervisor", Supervisor(["search", "web_scraper"]));
    assert ok;
    ok := builder.AddNode("search", Worker(search));
    assert ok;
    ok := builder.AddNode("web_scraper", Worker(webScraper));
    assert ok;
    ok := builder.AddEdge(START, "research_team_supervisor");
    assert ok;
    g := builder.Compile();
    StarOfTwo(SUPERVISOR, "search", "web_scraper", search, webScraper);
  }
}
