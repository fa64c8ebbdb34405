/**
 * TrxUplink: the remote-trx link that carries the local receiver's audio
 * out through an uplink transmitter and brings the uplink receiver's audio
 * back to the local transmitter.
 *
 * `initialize` reads the link's configuration section, hooks up the local
 * receiver, builds the audio graph step by step and creates the uplink
 * transmitter and receiver, giving up at the first step that fails. The
 * configuration lookup is a map from key to value for the link's section;
 * whether the transmitter and receiver factories deliver an object and
 * whether its `initialize()` succeeds are inputs. Calls into the
 * transceivers are recorded, in order, as a log.
 */
module RemoteTrxUplink {
  import opened Wrappers
  import opened CAtoi
  import opened AudioGraph

  /** Who drives a transmitter's PTT. */
  datatype TxCtrlMode = TxOff | TxOn | TxAuto

  /** A control call made on one of the four transceivers. */
  datatype Control =
    | Reset(target: Node)
    | Mute(target: Node, muted: bool)
    | SetTxCtrlMode(target: Node, mode: TxCtrlMode)
    | EnableCtcss(target: Node, enabled: bool)

  /** An event connection the router makes. */
  datatype Subscription =
    | OnRxSquelchOpen               // local rx squelch -> rxSquelchOpen
    | OnRxDtmfDigit                 // local rx DTMF -> rxDtmfDigitDetected
    | OnUplinkRxDtmfDigit           // uplink rx DTMF -> uplinkRxDtmfRcvd
    | UplinkTxStateMutesUplinkRx  // uplink tx state change -> uplink rx mute

  /** A `sendDtmf` call: the transmitter it went to and the digit string. */
  datatype DtmfSend = DtmfSend(target: Node, digits: string)

  /** What the transmitter and receiver factories and their `initialize()` deliver. */
  datatype Factories = Factories(txCreated: bool, txInitOk: bool, rxCreated: bool, rxInitOk: bool)

  /**
   * The router's state: the three objects it owns (the names the uplink
   * transceivers were created from, and whether the selector exists), the
   * audio graph, the event connections and the calls made so far.
   */
  datatype Router = Router(uplinkTx: Option<string>, uplinkRx: Option<string>, txAudioSel: bool,
                           graph: Graph, subscriptions: set<Subscription>,
                           controls: seq<Control>, dtmfSent: seq<DtmfSend>)

  /** The state the constructor leaves: nothing owned, nothing wired. */
  const Unwired := Router(None, None, false, EmptyGraph, {}, [], [])

  /** An optional boolean setting: false when absent, otherwise `atoi(value) != 0`. */
  predicate ConfigFlag(cfg: map<string, string>, key: string)
    ensures key !in cfg ==> !ConfigFlag(cfg, key)
  {
    key in cfg && Atoi(cfg[key]) != 0
  }

  /** The settings buffer of the fifo placed right after the local receiver. */
  const FifoCapacity := 8000
  const FifoPrebufSamples := 512

  /** Auto-select priorities of the selector's two sources. */
  const UplinkRxPriority := 10
  const LoopbackPriority := 0

  /** The local receiver's events the router listens to: squelch and DTMF. */
  const RxEvents := {OnRxSquelchOpen, OnRxDtmfDigit}

  /** The control calls `initialize` makes, step by step: on the local receiver, ... */
  const RxSetup := [Reset(LocalRx), Mute(LocalRx, false)]
  /** ... on the uplink transmitter, ... */
  const UplinkTxSetup := [SetTxCtrlMode(UplinkTx, TxAuto), EnableCtcss(UplinkTx, true)]
  /** ... on the uplink receiver, ... */
  const UplinkRxSetup := [Reset(UplinkRx), Mute(UplinkRx, false)]
  /** ... and on the local transmitter. */
  const TxSetup := [SetTxCtrlMode(LocalTx, TxAuto)]

  /** The graph once the fifo follows the local receiver and, with loop-back, the splitter follows the fifo. */
  function FrontGraph(loop: bool): (g: Graph)
  {
    var withFifo := EmptyGraph.AddStage(Fifo, FifoStage(FifoCapacity, FifoPrebufSamples)).Connect(LocalRx, Fifo);
    if loop then withFifo.AddStage(Splitter, SplitterStage).Connect(Fifo, Splitter) else withFifo
  }

  /** The stage the uplink transmitter takes its audio from. */
  function TxFeed(loop: bool): (n: Node)
  {
    if loop then Splitter else Fifo
  }

  /** The stage the local transmitter takes its audio from. */
  function LocalTxFeed(loop: bool): (n: Node)
  {
    if loop then Selector else UplinkRx
  }

  /** `FrontGraph` with the uplink transmitter created from `txName` and connected. */
  function TxGraph(loop: bool, txName: string): (g: Graph)
  {
    FrontGraph(loop).AddStage(UplinkTx, TransmitterStage(txName)).Connect(TxFeed(loop), UplinkTx)
  }

  /** The finished graph: the uplink receiver, with loop-back the selector and pass-through, and the local transmitter. */
  function FullGraph(loop: bool, txName: string, rxName: string): (g: Graph)
  {
    var withRx := TxGraph(loop, txName).AddStage(UplinkRx, ReceiverStage(rxName));
    var withSel := if !loop then withRx
                  else withRx.AddStage(Selector, SelectorStage)
                        .Connect(UplinkRx, Selector).SetPriority(UplinkRx, UplinkRxPriority)
                        .AddStage(Passthrough, PassthroughStage)
                        .Connect(Splitter, Passthrough)
                        .Connect(Passthrough, Selector).SetPriority(Passthrough, LoopbackPriority);
    withSel.Connect(LocalTxFeed(loop), LocalTx)
  }

  /**
   * What `initialize` does once both names are known: whether it succeeds
   * and the state it leaves, step by step as the code goes.
   */
  function Wire(loop: bool, mute: bool, txName: string, rxName: string, f: Factories): (r: (bool, Router))
    ensures r.0 <==> f.txCreated && f.txInitOk && f.rxCreated && f.rxInitOk
    ensures (r.1.uplinkTx.Some? <==> r.0) && (r.1.uplinkRx.Some? <==> r.0) && (r.1.txAudioSel <==> r.0 && loop)
    ensures RxEvents <= r.1.subscriptions && |r.1.controls| >= 2 && r.1.controls[..2] == RxSetup && r.1.dtmfSent == []
  {
    var front := Router(None, None, false, FrontGraph(loop), RxEvents, RxSetup, []);
    if !(f.txCreated && f.txInitOk) then (false, front)
    else if !(f.rxCreated && f.rxInitOk) then
      (false, front.(graph := TxGraph(loop, txName).RemoveStage(UplinkTx), controls := RxSetup + UplinkTxSetup))
    else
      (true, Router(Some(txName), Some(rxName), loop, FullGraph(loop, txName, rxName),
                    RxEvents + {OnUplinkRxDtmfDigit} + (if mute then {UplinkTxStateMutesUplinkRx} else {}),
                    RxSetup + UplinkTxSetup + UplinkRxSetup + TxSetup, []))
  }

  /** `initialize` on a freshly constructed router. */
  function Initialized(cfg: map<string, string>, f: Factories): (r: (bool, Router))
    ensures r.0 ==> "TX" in cfg && "RX" in cfg
    ensures (r.1.uplinkTx.Some? <==> r.0) && (r.1.uplinkRx.Some? <==> r.0)
    ensures r.1.dtmfSent == []
  {
    if "TX" !in cfg || "RX" !in cfg then (false, Unwired)
    else Wire(ConfigFlag(cfg, "LOOP_RX_TO_TX"), ConfigFlag(cfg, "MUTE_RX_ON_TX"), cfg["TX"], cfg["RX"], f)
  }

  lemma FrontGraphShape(loop: bool)
    ensures FrontGraph(loop).stages ==
              if loop then map[Fifo := FifoStage(8000, 512), Splitter := SplitterStage]
              else map[Fifo := FifoStage(8000, 512)]
    ensures FrontGraph(loop).edges ==
              if loop then {Edge(LocalRx, Fifo), Edge(Fifo, Splitter)} else {Edge(LocalRx, Fifo)}
    ensures FrontGraph(loop).priority == map[]
  {
  }

  /** Deleting the uplink transmitter again leaves exactly the front of the graph. */
  lemma RemovingUplinkTxRestoresFront(loop: bool, txName: string)
    ensures TxGraph(loop, txName).RemoveStage(UplinkTx) == FrontGraph(loop)
  {
    FrontGraphShape(loop);
    var g := TxGraph(loop, txName).RemoveStage(UplinkTx);
    assert g.stages == FrontGraph(loop).stages;
    assert g.edges == FrontGraph(loop).edges;
  }

  /** The uplink transmitter joins the front of the graph, fed by the splitter with loop-back and by the fifo without. */
  lemma TxGraphShape(loop: bool, txName: string)
    ensures var g := TxGraph(loop, txName);
            && g.stages.Keys == (if loop then {Fifo, Splitter, UplinkTx} else {Fifo, UplinkTx})
            && g.stages[UplinkTx] == TransmitterStage(txName)
            && g.edges == (if loop then {Edge(LocalRx, Fifo), Edge(Fifo, Splitter), Edge(Splitter, UplinkTx)}
                           else {Edge(LocalRx, Fifo), Edge(Fifo, UplinkTx)})
            && g.priority == map[]
  {
    FrontGraphShape(loop);
  }

  lemma FullGraphShape(loop: bool, txName: string, rxName: string)
    ensures var g := FullGraph(loop, txName, rxName);
            && g.stages.Keys == (if loop then {Fifo, Splitter, UplinkTx, UplinkRx, Selector, Passthrough}
                                 else {Fifo, UplinkTx, UplinkRx})
            && g.edges == (if loop then {Edge(LocalRx, Fifo), Edge(Fifo, Splitter), Edge(Splitter, UplinkTx),
                                         Edge(UplinkRx, Selector), Edge(Splitter, Passthrough),
                                         Edge(Passthrough, Selector), Edge(Selector, LocalTx)}
                           else {Edge(LocalRx, Fifo), Edge(Fifo, UplinkTx), Edge(UplinkRx, LocalTx)})
            && g.priority == (if loop then map[UplinkRx := 10, Passthrough := 0] else map[])
            && g.stages[Fifo] == FifoStage(8000, 512)
  {
    if loop {
      LoopFullGraphShape(txName, rxName);
    } else {
      DirectFullGraphShape(txName, rxName);
    }
  }

  /** The finished graph with loop-back. */
  lemma LoopFullGraphShape(txName: string, rxName: string)
    ensures var g := FullGraph(true, txName, rxName);
            && g.stages.Keys == {Fifo, Splitter, UplinkTx, UplinkRx, Selector, Passthrough}
            && g.edges == {Edge(LocalRx, Fifo), Edge(Fifo, Splitter), Edge(Splitter, UplinkTx),
                           Edge(UplinkRx, Selector), Edge(Splitter, Passthrough),
                           Edge(Passthrough, Selector), Edge(Selector, LocalTx)}
            && g.priority == map[UplinkRx := 10, Passthrough := 0]
            && g.stages[Fifo] == FifoStage(8000, 512)
  {
    LoopFullEdges(txName, rxName);
    LoopFullStages(txName, rxName);
  }

  /** With loop-back, the seven connections the router makes. */
  lemma LoopFullEdges(txName: string, rxName: string)
    ensures FullGraph(true, txName, rxName).edges
            == {Edge(LocalRx, Fifo), Edge(Fifo, Splitter), Edge(Splitter, UplinkTx),
                Edge(UplinkRx, Selector), Edge(Splitter, Passthrough),
                Edge(Passthrough, Selector), Edge(Selector, LocalTx)}
  {
    TxGraphShape(true, txName);
    var t := TxGraph(true, txName);
    assert FullGraph(true, txName, rxName).edges
           == t.edges + {Edge(UplinkRx, Selector)} + {Edge(Splitter, Passthrough)}
              + {Edge(Passthrough, Selector)} + {Edge(Selector, LocalTx)};
  }

  /** With loop-back, the six stages the router creates and the selector priorities it sets. */
  lemma LoopFullStages(txName: string, rxName: string)
    ensures var g := FullGraph(true, txName, rxName);
            && g.stages.Keys == {Fifo, Splitter, UplinkTx, UplinkRx, Selector, Passthrough}
            && g.priority == map[UplinkRx := 10, Passthrough := 0]
            && g.stages[Fifo] == FifoStage(8000, 512)
  {
    TxGraphShape(true, txName);
    var t := TxGraph(true, txName);
    var g := FullGraph(true, txName, rxName);
    assert g.stages == t.stages[UplinkRx := ReceiverStage(rxName)][Selector := SelectorStage][Passthrough := PassthroughStage];
    assert g.priority == t.priority[UplinkRx := 10][Passthrough := 0];
    assert g.stages.Keys == t.stages.Keys + {UplinkRx, Selector, Passthrough};
  }

  /** The finished graph without loop-back. */
  lemma DirectFullGraphShape(txName: string, rxName: string)
    ensures var g := FullGraph(false, txName, rxName);
            && g.stages.Keys == {Fifo, UplinkTx, UplinkRx}
            && g.edges == {Edge(LocalRx, Fifo), Edge(Fifo, UplinkTx), Edge(UplinkRx, LocalTx)}
            && g.priority == map[]
            && g.stages[Fifo] == FifoStage(8000, 512)
  {
    TxGraphShape(false, txName);
    var t := TxGraph(false, txName);
    var g := FullGraph(false, txName, rxName);
    assert g.edges == t.edges + {Edge(UplinkRx, LocalTx)};
    assert g.stages.Keys == t.stages.Keys + {UplinkRx};
  }

  /** A missing TX or RX key fails before anything is subscribed, created or wired. */
  lemma MissingKeyFailsUntouched(cfg: map<string, string>, f: Factories)
    requires "TX" !in cfg || "RX" !in cfg
    ensures Initialized(cfg, f) == (false, Unwired)
  {
  }

  /** The optional flags: false when absent, true when the number the value starts with is not zero. */
  lemma ConfigFlagIff(cfg: map<string, string>, key: string)
    ensures ConfigFlag(cfg, key) <==> key in cfg && !AllZeros(NumberDigits(cfg[key]))
  {
  }

  /** Success needs both keys and both uplink transceivers created and initialized. */
  lemma InitializeSucceedsIff(cfg: map<string, string>, f: Factories)
    ensures Initialized(cfg, f).0 <==>
              "TX" in cfg && "RX" in cfg && f.txCreated && f.txInitOk && f.rxCreated && f.rxInitOk
  {
  }

  /** The fifo (8000 samples, 512 prebuffered) exists and is the local receiver's only sink. */
  predicate FifoAfterRx(g: Graph)
  {
    && Fifo in g.stages && g.stages[Fifo] == FifoStage(8000, 512)
    && Edge(LocalRx, Fifo) in g.edges
    && forall e :: e in g.edges && e.src == LocalRx ==> e.sink == Fifo
  }

  lemma FrontHasFifoAfterRx(loop: bool)
    ensures FifoAfterRx(FrontGraph(loop))
  {
    FrontGraphShape(loop);
  }

  lemma FullHasFifoAfterRx(loop: bool, txName: string, rxName: string)
    ensures FifoAfterRx(FullGraph(loop, txName, rxName))
  {
    var g := FullGraph(loop, txName, rxName);
    if loop {
      LoopFullGraphShape(txName, rxName);
      forall e | e in g.edges && e.src == LocalRx
        ensures e.sink == Fifo
      {
        assert e in {Edge(LocalRx, Fifo), Edge(Fifo, Splitter), Edge(Splitter, UplinkTx),
                     Edge(UplinkRx, Selector), Edge(Splitter, Passthrough),
                     Edge(Passthrough, Selector), Edge(Selector, LocalTx)};
      }
    } else {
      DirectFullGraphShape(txName, rxName);
      forall e | e in g.edges && e.src == LocalRx
        ensures e.sink == Fifo
      {
        assert e in {Edge(LocalRx, Fifo), Edge(Fifo, UplinkTx), Edge(UplinkRx, LocalTx)};
      }
    }
  }

  lemma WireKeepsFifoAfterRx(loop: bool, mute: bool, txName: string, rxName: string, f: Factories)
    ensures FifoAfterRx(Wire(loop, mute, txName, rxName, f).1.graph)
  {
    if f.txCreated && f.txInitOk && f.rxCreated && f.rxInitOk {
      FullHasFifoAfterRx(loop, txName, rxName);
    } else {
      FrontHasFifoAfterRx(loop);
      if f.txCreated && f.txInitOk {
        RemovingUplinkTxRestoresFront(loop, txName);
      }
    }
  }

  /**
   * Once both keys are present, on every outcome, the fifo (8000 samples,
   * 512 prebuffered) exists and is the local receiver's only sink.
   */
  lemma FifoFollowsRx(cfg: map<string, string>, f: Factories)
    requires "TX" in cfg && "RX" in cfg
    ensures FifoAfterRx(Initialized(cfg, f).1.graph)
  {
    var loop := ConfigFlag(cfg, "LOOP_RX_TO_TX");
    WireKeepsFifoAfterRx(loop, ConfigFlag(cfg, "MUTE_RX_ON_TX"), cfg["TX"], cfg["RX"], f);
  }

  /**
   * Without loop-back: no splitter, selector or pass-through, no selector
   * pointer, and the graph is rx -> fifo -> uplink tx and uplink rx -> tx.
   */
  lemma LoopDisabledWiring(cfg: map<string, string>, f: Factories)
    requires Initialized(cfg, f).0 && !ConfigFlag(cfg, "LOOP_RX_TO_TX")
    ensures var r := Initialized(cfg, f).1;
            && !r.txAudioSel
            && r.graph.stages.Keys == {Fifo, UplinkTx, UplinkRx}
            && r.graph.edges == {Edge(LocalRx, Fifo), Edge(Fifo, UplinkTx), Edge(UplinkRx, LocalTx)}
            && r.graph.priority == map[]
  {
    FullGraphShape(false, cfg["TX"], cfg["RX"]);
  }

  /**
   * With loop-back: the fifo feeds a splitter, the splitter feeds the uplink
   * transmitter and a pass-through, the selector takes the uplink receiver
   * (priority 10) and the pass-through (priority 0), and the selector is the
   * local transmitter's only source.
   */
  lemma LoopEnabledWiring(cfg: map<string, string>, f: Factories)
    requires Initialized(cfg, f).0 && ConfigFlag(cfg, "LOOP_RX_TO_TX")
    ensures var r := Initialized(cfg, f).1;
            && r.txAudioSel
            && r.graph.stages.Keys == {Fifo, Splitter, UplinkTx, UplinkRx, Selector, Passthrough}
            && r.graph.edges == {Edge(LocalRx, Fifo), Edge(Fifo, Splitter), Edge(Splitter, UplinkTx),
                                 Edge(UplinkRx, Selector), Edge(Splitter, Passthrough),
                                 Edge(Passthrough, Selector), Edge(Selector, LocalTx)}
            && r.graph.priority == map[UplinkRx := 10, Passthrough := 0]
  {
    FullGraphShape(true, cfg["TX"], cfg["RX"]);
  }

  /**
   * The uplink transmitter fails: it is released and the call fails; the
   * local receiver's connections, the fifo and the splitter stay.
   */
  lemma TxFailureCleanup(cfg: map<string, string>, f: Factories)
    requires "TX" in cfg && "RX" in cfg && !(f.txCreated && f.txInitOk)
    ensures var (ok, r) := Initialized(cfg, f);
            && !ok && r.uplinkTx.None? && r.uplinkRx.None? && !r.txAudioSel
            && r.graph == FrontGraph(ConfigFlag(cfg, "LOOP_RX_TO_TX"))
            && r.subscriptions == {OnRxSquelchOpen, OnRxDtmfDigit}
  {
  }

  /**
   * The uplink receiver fails: both uplink transceivers are released (the
   * transmitter's edge goes with it) and the call fails; the local
   * receiver's connections, the fifo and the splitter stay.
   */
  lemma RxFailureCleanup(cfg: map<string, string>, f: Factories)
    requires "TX" in cfg && "RX" in cfg && f.txCreated && f.txInitOk && !(f.rxCreated && f.rxInitOk)
    ensures var (ok, r) := Initialized(cfg, f);
            && !ok && r.uplinkTx.None? && r.uplinkRx.None? && !r.txAudioSel
            && r.graph == FrontGraph(ConfigFlag(cfg, "LOOP_RX_TO_TX"))
            && r.subscriptions == {OnRxSquelchOpen, OnRxDtmfDigit}
  {
    RemovingUplinkTxRestoresFront(ConfigFlag(cfg, "LOOP_RX_TO_TX"), cfg["TX"]);
  }

  /**
   * After a failed `initialize` that got past the key checks, the local
   * receiver's DTMF handler stays connected while no uplink transmitter is
   * owned: a digit detected then reaches `rxDtmfDigitDetected` with nothing
   * to forward it to.
   */
  lemma FailedInitializeLeavesDtmfHandlerWithoutTx(cfg: map<string, string>, f: Factories)
    requires "TX" in cfg && "RX" in cfg && !Initialized(cfg, f).0
    ensures var r := Initialized(cfg, f).1;
            OnRxDtmfDigit in r.subscriptions && r.uplinkTx.None?
  {
  }

  /**
   * On success: both transmitters are set to automatic PTT, CTCSS is on on
   * the uplink transmitter, both receivers are reset and unmuted, and the
   * uplink transmitter's state drives the uplink receiver's mute exactly
   * when MUTE_RX_ON_TX is set.
   */
  lemma SuccessControls(cfg: map<string, string>, f: Factories)
    requires Initialized(cfg, f).0
    ensures var r := Initialized(cfg, f).1;
            && r.controls == [Reset(LocalRx), Mute(LocalRx, false),
                              SetTxCtrlMode(UplinkTx, TxAuto), EnableCtcss(UplinkTx, true),
                              Reset(UplinkRx), Mute(UplinkRx, false),
                              SetTxCtrlMode(LocalTx, TxAuto)]
            && r.uplinkTx == Some(cfg["TX"]) && r.uplinkRx == Some(cfg["RX"])
            && (UplinkTxStateMutesUplinkRx in r.subscriptions <==> ConfigFlag(cfg, "MUTE_RX_ON_TX"))
            && {OnRxSquelchOpen, OnRxDtmfDigit, OnUplinkRxDtmfDigit} <= r.subscriptions
            && r.dtmfSent == []
  {
  }

  /** The digit string `{digit, 0}` as a C string: the digit alone (empty for a NUL digit). */
  function DigitString(digit: char): (s: string)
    ensures digit != '\0' ==> s == [digit]
    ensures digit == '\0' ==> s == []
  {
    if digit == '\0' then [] else [digit]
  }

  class TrxUplink {
    /**
     * The name of this link's configuration section. `Initialize` is handed
     * that section's keys directly, so the name is kept only as the record
     * of which section the link belongs to.
     */
    const name: string
    var uplinkTx: Option<string>
    var uplinkRx: Option<string>
    var txAudioSel: bool
    var graph: Graph
    var subscriptions: set<Subscription>
    var controls: seq<Control>
    var dtmfSent: seq<DtmfSend>

    function State(): Router
      reads this
    {
      Router(uplinkTx, uplinkRx, txAudioSel, graph, subscriptions, controls, dtmfSent)
    }

    constructor (section: string)
      ensures name == section && State() == Unwired
    {
      name := section;
      uplinkTx, uplinkRx, txAudioSel := None, None, false;
      graph := EmptyGraph;
      subscriptions, controls, dtmfSent := {}, [], [];
    }

    /** An optional flag from the configuration: false unless present, then `atoi(value) != 0`. */
    static method ReadFlag(cfg: map<string, string>, key: string) returns (b: bool)
      ensures b == ConfigFlag(cfg, key)
    {
      b := false;
      if key in cfg {
        b := Atoi(cfg[key]) != 0;
      }
    }

    /** The first steps of `initialize`: the local receiver's events, reset and unmute, the fifo and, with loop-back, the splitter. */
    static method WireLocalRx(loop: bool) returns (subs: set<Subscription>, ctrls: seq<Control>, g: Graph)
      ensures subs == RxEvents && ctrls == RxSetup && g == FrontGraph(loop)
    {
      subs := {OnRxSquelchOpen};
      subs := subs + {OnRxDtmfDigit};
      ctrls := [Reset(LocalRx)];
      ctrls := ctrls + [Mute(LocalRx, false)];
      var prevSrc := LocalRx;
      g := EmptyGraph.AddStage(Fifo, FifoStage(FifoCapacity, FifoPrebufSamples));
      g := g.Connect(prevSrc, Fifo);
      prevSrc := Fifo;
      if loop {
        g := g.AddStage(Splitter, SplitterStage);
        g := g.Connect(prevSrc, Splitter);
      }
    }

    /** The uplink transmitter, once created: automatic PTT, CTCSS on, fed by the splitter or the fifo. */
    static method WireUplinkTx(loop: bool, txName: string, ctrls: seq<Control>, g: Graph)
      returns (ctrls': seq<Control>, g': Graph)
      requires g == FrontGraph(loop)
      ensures ctrls' == ctrls + UplinkTxSetup && g' == TxGraph(loop, txName)
    {
      g' := g.AddStage(UplinkTx, TransmitterStage(txName));
      ctrls' := ctrls + [SetTxCtrlMode(UplinkTx, TxAuto)];
      ctrls' := ctrls' + [EnableCtcss(UplinkTx, true)];
      if loop {
        g' := g'.Connect(Splitter, UplinkTx);
      } else {
        g' := g'.Connect(Fifo, UplinkTx);
      }
    }

    /**
     * The uplink receiver, once created: its DTMF event, reset and unmute,
     * the optional mute-on-transmit link, with loop-back the selector and
     * pass-through, and last the local transmitter.
     */
    static method WireUplinkRx(loop: bool, mute: bool, ghost txName: string, rxName: string,
                               subs: set<Subscription>, ctrls: seq<Control>, g: Graph)
      returns (subs': set<Subscription>, ctrls': seq<Control>, g': Graph)
      requires g == TxGraph(loop, txName)
      ensures subs' == subs + {OnUplinkRxDtmfDigit} + (if mute then {UplinkTxStateMutesUplinkRx} else {})
      ensures ctrls' == ctrls + UplinkRxSetup + TxSetup
      ensures g' == FullGraph(loop, txName, rxName)
    {
      g' := g.AddStage(UplinkRx, ReceiverStage(rxName));
      subs' := subs + {OnUplinkRxDtmfDigit};
      ctrls' := ctrls + [Reset(UplinkRx)];
      ctrls' := ctrls' + [Mute(UplinkRx, false)];
      if mute {
        subs' := subs' + {UplinkTxStateMutesUplinkRx};
      }
      var prevSrc := UplinkRx;
      if loop {
        g' := g'.AddStage(Selector, SelectorStage);
        g' := g'.Connect(prevSrc, Selector);
        g' := g'.SetPriority(prevSrc, UplinkRxPriority);
        g' := g'.AddStage(Passthrough, PassthroughStage);
        g' := g'.Connect(Splitter, Passthrough);
        g' := g'.Connect(Passthrough, Selector);
        g' := g'.SetPriority(Passthrough, LoopbackPriority);
        prevSrc := Selector;
      }
      ctrls' := ctrls' + [SetTxCtrlMode(LocalTx, TxAuto)];
      g' := g'.Connect(prevSrc, LocalTx);
    }

    /** `initialize`, called once on a freshly constructed router. */
    method Initialize(cfg: map<string, string>, f: Factories) returns (ok: bool)
      requires State() == Unwired
      modifies this
      ensures (ok, State()) == Initialized(cfg, f)
    {
      if "TX" !in cfg {
        return false;
      }
      var uplinkTxName := cfg["TX"];
      if "RX" !in cfg {
        return false;
      }
      var uplinkRxName := cfg["RX"];
      var muteRxOnTx := ReadFlag(cfg, "MUTE_RX_ON_TX");
      var loopRxToTx := ReadFlag(cfg, "LOOP_RX_TO_TX");
      ok := WireLink(loopRxToTx, muteRxOnTx, uplinkTxName, uplinkRxName, f);
    }

    /** The rest of `initialize`, once both names and both flags are read. */
    method WireLink(loopRxToTx: bool, muteRxOnTx: bool, uplinkTxName: string, uplinkRxName: string, f: Factories)
        returns (ok: bool)
      requires State() == Unwired
      modifies this
      ensures (ok, State()) == Wire(loopRxToTx, muteRxOnTx, uplinkTxName, uplinkRxName, f)
    {
      ghost var w := Wire(loopRxToTx, muteRxOnTx, uplinkTxName, uplinkRxName, f);
      var subs, ctrls, g := WireLocalRx(loopRxToTx);
      subscriptions, controls, graph := subs, ctrls, g;
      if !f.txCreated || !f.txInitOk {
        // The transmitter that failed to initialize is deleted again; it was never wired.
        assert State() == w.1;
        return false;
      }
      ctrls, g := WireUplinkTx(loopRxToTx, uplinkTxName, ctrls, g);
      if !f.rxCreated || !f.rxInitOk {
        controls, graph := ctrls, g.RemoveStage(UplinkTx);
        assert State() == w.1;
        return false;
      }
      subs, ctrls, g := WireUplinkRx(loopRxToTx, muteRxOnTx, uplinkTxName, uplinkRxName, subs, ctrls, g);
      uplinkTx, uplinkRx, txAudioSel := Some(uplinkTxName), Some(uplinkRxName), loopRxToTx;
      subscriptions, controls, graph := subs, ctrls, g;
      assert State() == w.1;
      return true;
    }

    /** `rxDtmfDigitDetected`: a digit from the local receiver goes to the uplink transmitter; the duration is dropped. */
    method RxDtmfDigitDetected(digit: char, duration: int)
      requires uplinkTx.Some?
      modifies this`dtmfSent
      ensures dtmfSent == old(dtmfSent) + [DtmfSend(UplinkTx, DigitString(digit))]
    {
      dtmfSent := dtmfSent + [DtmfSend(UplinkTx, DigitString(digit))];
    }

    /** `uplinkRxDtmfRcvd`: a digit from the uplink receiver goes to the local transmitter; the duration is dropped. */
    method UplinkRxDtmfRcvd(digit: char, duration: int)
      modifies this`dtmfSent
      ensures dtmfSent == old(dtmfSent) + [DtmfSend(LocalTx, DigitString(digit))]
    {
      dtmfSent := dtmfSent + [DtmfSend(LocalTx, DigitString(digit))];
    }

    /** `rxSquelchOpen`: does nothing. */
    method RxSquelchOpen(isOpen: bool)
      ensures State() == old(State())
    {
    }

    /**
     * The destructor: the uplink transmitter, the selector and the uplink
     * receiver are deleted (with their edges and the connections to their
     * events, and the auto-select priorities die with the selector); the fifo, splitter and pass-through are not the router's to delete.
     */
    method Destroy()
      modifies this
      ensures uplinkTx.None? && uplinkRx.None? && !txAudioSel
      ensures graph == old(graph).RemoveStage(UplinkTx).RemoveStage(Selector).(priority := map[]).RemoveStage(UplinkRx)
      ensures subscriptions == old(subscriptions) - {OnUplinkRxDtmfDigit, UplinkTxStateMutesUplinkRx}
      ensures controls == old(controls) && dtmfSent == old(dtmfSent)
    {
      uplinkTx := None;
      graph := graph.RemoveStage(UplinkTx);
      subscriptions := subscriptions - {UplinkTxStateMutesUplinkRx};
      txAudioSel := false;
      graph := graph.RemoveStage(Selector).(priority := map[]);
      uplinkRx := None;
      graph := graph.RemoveStage(UplinkRx);
      subscriptions := subscriptions - {OnUplinkRxDtmfDigit};
    }
  }
}
