/**
 * The audio graph the uplink router wires: an arena of named nodes, the
 * source-to-sink edges between them and the selector's source priorities.
 *
 * The local receiver and transmitter belong to the application: they are
 * nodes that edges may name but never stages of the arena. Everything the
 * router creates (buffer, splitter, selector, pass-through, and the uplink
 * transmitter and receiver) is a stage. What the library stages do with the
 * audio is not modelled, only how they are connected.
 */
module AudioGraph {

  datatype Node = LocalRx | LocalTx | Fifo | Splitter | UplinkTx | UplinkRx | Selector | Passthrough

  /** A stage and the settings the router gives it. */
  datatype Stage =
    | FifoStage(capacity: nat, prebufSamples: nat)
    | SplitterStage
    | SelectorStage
    | PassthroughStage
    | TransmitterStage(txName: string)
    | ReceiverStage(rxName: string)

  /** `src` feeds its audio into `sink`. */
  datatype Edge = Edge(src: Node, sink: Node)

  datatype Graph = Graph(stages: map<Node, Stage>, edges: set<Edge>, priority: map<Node, int>)
  {
    /** Create stage `st` under the name `n`. */
    function AddStage(n: Node, st: Stage): Graph
    {
      this.(stages := stages[n := st])
    }

    /** Register `sink` as a consumer of `src`. */
    function Connect(src: Node, sink: Node): Graph
    {
      this.(edges := edges + {Edge(src, sink)})
    }

    /** Give the selector source `n` the auto-select priority `p`. */
    function SetPriority(n: Node, p: int): Graph
    {
      this.(priority := priority[n := p])
    }

    /**
     * Delete stage `n`: it leaves the arena, and, as a sink detaches from its
     * source and a source from its sinks when destroyed, every edge that
     * touches it goes too.
     */
    function RemoveStage(n: Node): (g: Graph)
      ensures g.stages.Keys == stages.Keys - {n}
      ensures forall m :: m in g.stages ==> g.stages[m] == stages[m]
      ensures forall e :: e in g.edges <==> e in edges && e.src != n && e.sink != n
      ensures g.priority.Keys == priority.Keys - {n}
      ensures forall m :: m in g.priority ==> g.priority[m] == priority[m]
    {
      Graph(stages - {n}, (set e | e in edges && e.src != n && e.sink != n), priority - {n})
    }
  }

  const EmptyGraph := Graph(map[], {}, map[])

  /** Creating a stage adds or replaces exactly that stage; edges and priorities stay. */
  lemma AddStageUpdates(g: Graph, n: Node, st: Stage)
    ensures var h := g.AddStage(n, st);
            && h.stages.Keys == g.stages.Keys + {n} && h.stages[n] == st
            && (forall m :: m in g.stages && m != n ==> h.stages[m] == g.stages[m])
            && h.edges == g.edges && h.priority == g.priority
  {
  }

  /** Registering a sink adds exactly that one edge; stages and priorities stay. */
  lemma ConnectAddsEdge(g: Graph, src: Node, sink: Node)
    ensures var h := g.Connect(src, sink);
            && (forall e :: e in h.edges <==> e in g.edges || e == Edge(src, sink))
            && h.stages == g.stages && h.priority == g.priority
  {
  }

  /** Enabling auto-select sets exactly that source's priority; the others keep theirs. */
  lemma SetPriorityUpdates(g: Graph, n: Node, p: int)
    ensures var h := g.SetPriority(n, p);
            && h.priority.Keys == g.priority.Keys + {n} && h.priority[n] == p
            && (forall m :: m in g.priority && m != n ==> h.priority[m] == g.priority[m])
            && h.stages == g.stages && h.edges == g.edges
  {
  }
}
