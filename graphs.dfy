/**
 * The shared vocabulary of the agent teams: messages, the `Command` a node returns, the way every
 * worker and team-call node wraps its sub-agent's answer, and team graphs as maps from node key to
 * node kind, built step by step by a `StateGraph` builder.
 */
module Graphs {
  import opened Wrappers

  /** LangGraph's reserved entry and exit node keys. */
  const START := "__start__"
  const END := "__end__"

  datatype Role = Human | AI | Tool | System

  /** A chat message. `content == None` stands for a message object that carries no content at all. */
  datatype Message = Message(role: Role, content: Option<string>, name: Option<string>)

  /** A node's result: the messages to merge into the shared state and the node to run next. */
  datatype Command = Command(update: seq<Message>, goto: string)

  /** The exceptions a node can raise: `[-1]` on an empty list, or a last message without content. */
  datatype Error = IndexError | MissingContent

  /** An agent or compiled sub-graph, seen from outside: it maps the messages it is given to the
      messages it ends with. */
  type Agent = seq<Message> -> seq<Message>

  /** A worker or team-call node function: state in, command (or exception) out. */
  type NodeFn = seq<Message> -> Result<Command, Error>

  function Last(msgs: seq<Message>): Message
    requires msgs != []
  {
    msgs[|msgs| - 1]
  }

  /** What a node that reports `output` back under `name` to `goto` must return: it fails when the
      output is empty or its last message has no content, and otherwise merges exactly one human
      message carrying the last content, attributed to `name`, and routes to `goto`. */
  predicate Wraps(r: Result<Command, Error>, output: seq<Message>, name: string, goto: string)
  {
    && (output == [] ==> r == Failure(IndexError))
    && (output != [] && Last(output).content.None? ==> r == Failure(MissingContent))
    && (output != [] && Last(output).content.Some? ==>
          r == Success(Command([Message(Human, Last(output).content, Some(name))], goto)))
  }

  /** `Command(update={"messages": [HumanMessage(content=output[-1].content, name=name)]}, goto=goto)`. */
  function Report(name: string, goto: string, output: seq<Message>): (r: Result<Command, Error>)
    ensures Wraps(r, output, name, goto)
  {
    if output == [] then Failure(IndexError)
    else
      match Last(output).content
      case None => Failure(MissingContent)
      case Some(c) => Success(Command([Message(Human, Some(c), Some(name))], goto))
  }

  /** Only the final message of the sub-agent reaches the shared state: whatever came before it
      (tool calls, intermediate reasoning) does not change the command. */
  lemma ReportUsesOnlyLast(name: string, goto: string, earlier: seq<Message>, final: Message)
    ensures Report(name, goto, earlier + [final]) == Report(name, goto, [final])
  {
  }

  /** The shape every worker's command has: one message, named after the worker, sent back to `goto`. */
  predicate ReportsTo(r: Result<Command, Error>, name: string, goto: string)
  {
    r.Success? ==>
      |r.value.update| == 1 && r.value.update[0].role == Human
      && r.value.update[0].name == Some(name) && r.value.goto == goto
  }

  /** A supervisor's routing decision: a roster member, or FINISH. */
  datatype Decision = Next(member: string) | Finish

  predicate Allowed(roster: seq<string>, d: Decision)
  {
    d.Next? ==> d.member in roster
  }

  /** What `add_node` registers under a key: a supervisor with its roster (its routing is opaque),
      or a node function. */
  datatype NodeKind = Supervisor(roster: seq<string>) | Worker(run: NodeFn)

  /** A compiled graph: its nodes by key, and its explicit edges. */
  datatype Graph = Graph(nodes: map<string, NodeKind>, edges: set<(string, string)>)

  /** A star around `sup`: the only explicit edge enters `sup`, the roster `sup` was built with is
      exactly the set of the other keys, and every other node is a worker whose command names its
      own key and returns to `sup`. */
  ghost predicate IsStar(g: Graph, sup: string)
  {
    && sup in g.nodes && g.nodes[sup].Supervisor?
    && g.edges == {(START, sup)}
    && (forall m :: m in g.nodes[sup].roster <==> m in g.nodes && m != sup)
    && (forall k :: k in g.nodes && k != sup ==> g.nodes[k].Worker?)
    && (forall k, state :: k in g.nodes && k != sup && g.nodes[k].Worker? ==>
          ReportsTo(g.nodes[k].run(state), k, sup))
  }

  /** In a star, every decision the supervisor may take names a worker of the graph, and that
      worker's command comes back to the supervisor under the name it was routed to. */
  lemma AllowedDecisionReturnsToSupervisor(g: Graph, sup: string, d: Decision, state: seq<Message>)
    requires IsStar(g, sup) && Allowed(g.nodes[sup].roster, d) && d.Next?
    ensures d.member in g.nodes && d.member != sup && g.nodes[d.member].Worker?
    ensures ReportsTo(g.nodes[d.member].run(state), d.member, sup)
  {
  }

  /** A supervisor with roster [k1, k2] and two workers that report back to it, entered from START,
      form a star. */
  lemma StarOfTwo(sup: string, k1: string, k2: string, f1: NodeFn, f2: NodeFn)
    requires sup != k1 && sup != k2 && k1 != k2
    requires forall state :: ReportsTo(f1(state), k1, sup)
    requires forall state :: ReportsTo(f2(state), k2, sup)
    ensures IsStar(Graph(map[sup := Supervisor([k1, k2]), k1 := Worker(f1), k2 := Worker(f2)],
                         {(START, sup)}), sup)
  {
  }

  /** The same for a supervisor with roster [k1, k2, k3] and three workers. */
  lemma StarOfThree(sup: string, k1: string, k2: string, k3: string, f1: NodeFn, f2: NodeFn, f3: NodeFn)
    requires sup != k1 && sup != k2 && sup != k3 && k1 != k2 && k1 != k3 && k2 != k3
    requires forall state :: ReportsTo(f1(state), k1, sup)
    requires forall state :: ReportsTo(f2(state), k2, sup)
    requires forall state :: ReportsTo(f3(state), k3, sup)
    ensures IsStar(Graph(map[sup := Supervisor([k1, k2, k3]), k1 := Worker(f1), k2 := Worker(f2),
                             k3 := Worker(f3)], {(START, sup)}), sup)
  {
  }

  /** LangGraph's `StateGraph` builder, with the checks its `add_node` and `add_edge` make. */
  class StateGraph {
    var nodes: map<string, NodeKind>
    var edges: set<(string, string)>

    constructor ()
      ensures nodes == map[] && edges == {}
    {
      nodes := map[];
      edges := {};
    }

    /** Registers `node` under `key`; refuses (the library raises) a reserved or repeated key. */
    method AddNode(key: string, node: NodeKind) returns (ok: bool)
      modifies this
      ensures ok <==> key !in old(nodes) && key != START && key != END
      ensures nodes == if ok then old(nodes)[key := node] else old(nodes)
      ensures edges == old(edges)
    {
      ok := key !in nodes && key != START && key != END;
      if ok {
        nodes := nodes[key := node];
      }
    }

    /** Adds a fixed edge; refuses (the library raises) one leaving END or entering START. */
    method AddEdge(source: string, target: string) returns (ok: bool)
      modifies this
      ensures ok <==> source != END && target != START
      ensures edges == if ok then old(edges) + {(source, target)} else old(edges)
      ensures nodes == old(nodes)
    {
      ok := source != END && target != START;
      if ok {
        edges := edges + {(source, target)};
      }
    }

    function Compile(): Graph
      reads this
    {
      Graph(nodes, edges)
    }
  }
}
