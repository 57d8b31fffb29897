/**
  * The `TaskPipelinePlayer` component: its playback fields and the
  * transitions that update them in place, the timer scheduling, the scale
  * update and the render loops.
  *
  * Timers are not real time. The host's table of live intervals is the field
  * `live` (handle to period); `setInterval` adds a fresh handle to it,
  * `clearInterval` removes one, and a tick is a call of `Tick` that the host
  * makes only for a live handle.
  */
module Player {
  import opened JsValues
  import opened PipelineData
  import opened Geometry
  import opened Playback
  import opened RenderPass
  import StepText

  type TimerHandle = nat

  /** The keys the component's keyboard handler reacts to, and all others. */
  datatype Key = Space | ArrowRight | ArrowLeft | OtherKey

  /** The default tick period in milliseconds. */
  const DefaultSpeed: real := 1600.0

  /** Play state on connection: a missing `autoplay` attribute means playing. */
  function AutoplayOnConnect(attr: Option<string>): bool {
    attr == None || attr == Some("true")
  }

  /** Play state after the `autoplay` attribute changes: only "true" means playing. */
  function AutoplayOnChange(newVal: Option<string>): bool {
    newVal == Some("true")
  }

  /**
    * The two readings of `autoplay` agree on every present value and differ
    * only on a missing attribute: absent at connection means playing, while
    * removing the attribute later pauses.
    */
  lemma AutoplayReadings(v: string)
    ensures AutoplayOnConnect(Some(v)) == AutoplayOnChange(Some(v)) == (v == "true")
    ensures AutoplayOnConnect(None) && !AutoplayOnChange(None)
  {
  }

  class TaskPipelinePlayer {
    /** NODES, EDGES and STEPS, fixed when the component is created. */
    const graph: Graph

    var step: nat
    var isPlaying: bool
    /** `_timer`: the handle of the last interval started, `null` before the first. */
    var timer: Option<TimerHandle>
    var speed: real
    var scale: real
    /** The pixel height given to the canvas element by the last scale update. */
    var canvasHeight: real
    /** Whether `connectedCallback` has run and `disconnectedCallback` has not run since. */
    var connected: bool
    /** How many keydown listeners are registered on the shadow root. */
    var keyListeners: nat

    /** The host's live intervals, handle to period, among those this component started. */
    var live: map<TimerHandle, real>
    /** The handle the host's next `setInterval` returns. */
    var nextHandle: TimerHandle

    function StepCount(): nat {
      |graph.steps|
    }

    /** Every live interval is the one `_timer` names (so at most one is live), and handles are fresh. */
    ghost predicate TimersWellFormed()
      reads this
    {
      && (forall h :: h in live ==> timer == Some(h))
      && (timer.Some? ==> timer.value < nextHandle)
    }

    /** A timer ticks exactly while playing, with the current speed as its period. */
    ghost predicate TimerMatchesPlayState()
      reads this
    {
      if isPlaying then timer.Some? && live == map[timer.value := speed] else live == map[]
    }

    ghost predicate Valid()
      reads this
    {
      && ValidGraph(graph)
      && step < |graph.steps|
      && TimersWellFormed()
      && (connected ==> TimerMatchesPlayState())
    }

    /** At most one interval is live at any time. */
    lemma AtMostOneLiveTimer()
      requires TimersWellFormed()
      ensures |live| <= 1
    {
      if timer.Some? && timer.value in live {
        assert live == map[timer.value := live[timer.value]];
      } else {
        assert live == map[];
      }
    }

    constructor ()
      ensures Valid() && StepCount() == 7 && |graph.nodes| == 7 && |graph.edges| == 7
      ensures step == 0 && isPlaying && timer == None && speed == DefaultSpeed && scale == 1.0
      ensures !connected && keyListeners == 0 && live == map[]
    {
      graph := Pipeline;
      step := 0;
      isPlaying := true;
      timer := None;
      speed := DefaultSpeed;
      scale := 1.0;
      canvasHeight := BG_H;
      connected := false;
      keyListeners := 0;
      live := map[];
      nextHandle := 1;
      PipelineIsValid();
    }

    /** The host's `clearInterval(h)`; `clearInterval(null)` does nothing. */
    method ClearInterval(h: Option<TimerHandle>)
      modifies this`live
      ensures live == if h.Some? then old(live) - {h.value} else old(live)
    {
      if h.Some? {
        live := live - {h.value};
      }
    }

    /** The host's `setInterval`: a fresh handle, live with the given period. */
    method SetInterval(period: real) returns (h: TimerHandle)
      modifies this`live, this`nextHandle
      ensures h == old(nextHandle) && nextHandle == h + 1
      ensures live == old(live)[h := period]
    {
      h := nextHandle;
      nextHandle := nextHandle + 1;
      live := live[h := period];
    }

    /**
      * `_schedule`: cancel the interval `_timer` names, then start a new one
      * with the current speed if playing. When paused, `_timer` keeps the
      * cancelled handle.
      */
    method Schedule()
      requires TimersWellFormed()
      modifies this`timer, this`live, this`nextHandle
      ensures TimersWellFormed() && TimerMatchesPlayState()
      ensures old(timer).Some? ==> old(timer).value !in live
      ensures timer == if isPlaying then Some(old(nextHandle)) else old(timer)
      ensures live == if isPlaying then map[old(nextHandle) := speed] else map[]
    {
      ClearInterval(timer);
      if !isPlaying {
        return;
      }
      var h := SetInterval(speed);
      timer := Some(h);
    }

    /** `_setScale`, given the three widths it consults. */
    method SetScale(clientWidth: real, offsetWidth: real, rectWidth: real)
      modifies this`scale, this`canvasHeight
      ensures scale == ScaleFor(MeasuredWidth(clientWidth, offsetWidth, rectWidth))
      ensures canvasHeight == BG_H * scale
    {
      var w := MeasuredWidth(clientWidth, offsetWidth, rectWidth);
      scale := Min(w / BG_W, 1.0);
      canvasHeight := BG_H * scale;
    }

    /**
      * `connectedCallback`: read `speed` and `autoplay`, lay out, start the
      * timer. `speedNumber` is `Number(getAttribute('speed'))`. The step index
      * is kept, and exactly one keydown listener is left registered.
      */
    method Connect(speedNumber: JsNumber, autoplayAttr: Option<string>,
                   clientWidth: real, offsetWidth: real, rectWidth: real)
      requires Valid() && !connected
      modifies this`speed, this`isPlaying, this`scale, this`canvasHeight, this`connected,
               this`keyListeners, this`timer, this`live, this`nextHandle
      ensures Valid() && connected && keyListeners == 1
      ensures speed == OrElse(speedNumber, old(speed))
      ensures isPlaying == AutoplayOnConnect(autoplayAttr)
      ensures scale == ScaleFor(MeasuredWidth(clientWidth, offsetWidth, rectWidth)) && canvasHeight == BG_H * scale
      ensures step == old(step)
      ensures old(timer).Some? ==> old(timer).value !in live
      ensures live == if isPlaying then map[old(nextHandle) := speed] else map[]
    {
      connected := true;
      speed := OrElse(speedNumber, speed);
      isPlaying := AutoplayOnConnect(autoplayAttr);
      keyListeners := 1;
      SetScale(clientWidth, offsetWidth, rectWidth);
      Schedule();
    }

    /**
      * `connectedCallback` as written: like `Connect`, except that it adds one
      * more keydown listener to the shadow root on every connection.
      */
    method ConnectAsWritten(speedNumber: JsNumber, autoplayAttr: Option<string>,
                            clientWidth: real, offsetWidth: real, rectWidth: real)
      requires Valid() && !connected
      modifies this`speed, this`isPlaying, this`scale, this`canvasHeight, this`connected,
               this`keyListeners, this`timer, this`live, this`nextHandle
      ensures Valid() && connected && keyListeners == old(keyListeners) + 1
      ensures speed == OrElse(speedNumber, old(speed))
      ensures isPlaying == AutoplayOnConnect(autoplayAttr)
      ensures scale == ScaleFor(MeasuredWidth(clientWidth, offsetWidth, rectWidth)) && canvasHeight == BG_H * scale
      ensures step == old(step)
      ensures old(timer).Some? ==> old(timer).value !in live
      ensures live == if isPlaying then map[old(nextHandle) := speed] else map[]
    {
      connected := true;
      speed := OrElse(speedNumber, speed);
      isPlaying := AutoplayOnConnect(autoplayAttr);
      keyListeners := keyListeners + 1;
      SetScale(clientWidth, offsetWidth, rectWidth);
      Schedule();
    }

    /** `disconnectedCallback`: cancel the timer. The play flag and `_timer` are left as they are. */
    method Disconnect()
      requires Valid() && connected
      modifies this`live, this`connected
      ensures Valid() && !connected && live == map[]
    {
      ClearInterval(timer);
      connected := false;
    }

    /** The play button: flip the play state and reschedule. */
    method TogglePlay()
      requires Valid()
      modifies this`isPlaying, this`timer, this`live, this`nextHandle
      ensures Valid() && TimerMatchesPlayState()
      ensures isPlaying == !old(isPlaying)
      ensures old(timer).Some? ==> old(timer).value !in live
    {
      isPlaying := !isPlaying;
      Schedule();
    }

    /** The forward button: next step, wrapping; the timer is left alone. */
    method StepForward()
      requires Valid()
      modifies this`step
      ensures Valid() && step == Forward(old(step), StepCount())
    {
      step := (step + 1) % |graph.steps|;
    }

    /** The back button: previous step, wrapping; the timer is left alone. */
    method StepBack()
      requires Valid()
      modifies this`step
      ensures Valid() && step == Back(old(step), StepCount())
    {
      step := (step - 1 + |graph.steps|) % |graph.steps|;
    }

    /** The reset button: back to the first step; the play state and timer are left alone. */
    method Reset()
      requires Valid()
      modifies this`step
      ensures Valid() && step == 0
    {
      step := 0;
    }

    /** The callback of the live interval: advance one step, wrapping. */
    method Tick()
      requires Valid() && timer.Some? && timer.value in live
      modifies this`step
      ensures Valid() && step == Forward(old(step), StepCount())
    {
      step := (step + 1) % |graph.steps|;
    }

    /** The speed slider's input event: the new period replaces the old one at once. */
    method SpeedInput(value: real)
      requires Valid()
      modifies this`speed, this`timer, this`live, this`nextHandle
      ensures Valid() && TimerMatchesPlayState() && speed == value
      ensures isPlaying ==> live == map[old(nextHandle) := value]
      ensures old(timer).Some? ==> old(timer).value !in live
    {
      speed := value;
      Schedule();
    }

    /**
      * A change of the `speed` attribute, where `newNumber` is `Number(newVal)`:
      * ignored while disconnected; 0 and NaN keep the current speed; the timer
      * is rescheduled either way.
      */
    method SpeedAttributeChanged(newNumber: JsNumber)
      requires Valid()
      modifies this`speed, this`timer, this`live, this`nextHandle
      ensures Valid()
      ensures !old(connected) ==> speed == old(speed) && timer == old(timer) && live == old(live)
      ensures old(connected) ==> speed == OrElse(newNumber, old(speed)) && TimerMatchesPlayState()
      ensures old(connected) && old(timer).Some? ==> old(timer).value !in live
    {
      if !connected {
        return;
      }
      speed := OrElse(newNumber, speed);
      Schedule();
    }

    /**
      * A change of the `autoplay` attribute: ignored while disconnected;
      * otherwise playing exactly when the new value is "true" (so removing
      * the attribute pauses), and rescheduled.
      */
    method AutoplayAttributeChanged(newVal: Option<string>)
      requires Valid()
      modifies this`isPlaying, this`timer, this`live, this`nextHandle
      ensures Valid()
      ensures !old(connected) ==> isPlaying == old(isPlaying) && timer == old(timer) && live == old(live)
      ensures old(connected) ==> isPlaying == AutoplayOnChange(newVal) && TimerMatchesPlayState()
      ensures old(connected) && old(timer).Some? ==> old(timer).value !in live
    {
      if !connected {
        return;
      }
      isPlaying := AutoplayOnChange(newVal);
      Schedule();
    }

    /** A change of the `width` attribute: ignored while disconnected, otherwise a scale update. */
    method WidthAttributeChanged(clientWidth: real, offsetWidth: real, rectWidth: real)
      requires Valid()
      modifies this`scale, this`canvasHeight
      ensures Valid()
      ensures !old(connected) ==> scale == old(scale) && canvasHeight == old(canvasHeight)
      ensures old(connected) ==> scale == ScaleFor(MeasuredWidth(clientWidth, offsetWidth, rectWidth))
      ensures old(connected) ==> canvasHeight == BG_H * scale
    {
      if !connected {
        return;
      }
      SetScale(clientWidth, offsetWidth, rectWidth);
    }

    /**
      * A keydown event on the shadow root: every registered listener runs in
      * turn, and each one clicks the play, forward or back button.
      */
    method KeyDown(key: Key)
      requires Valid()
      modifies this`step, this`isPlaying, this`timer, this`live, this`nextHandle
      ensures Valid()
      ensures key == Space ==> step == old(step) && isPlaying == (old(isPlaying) != (keyListeners % 2 == 1))
      ensures key == ArrowRight ==> isPlaying == old(isPlaying) && step == Advance(old(step), keyListeners, StepCount())
      ensures key == ArrowLeft ==> isPlaying == old(isPlaying) && step == Rewind(old(step), keyListeners, StepCount())
      ensures key != Space ==> timer == old(timer) && live == old(live)
      ensures key == OtherKey ==> step == old(step) && isPlaying == old(isPlaying)
    {
      var i := 0;
      while i < keyListeners
        invariant 0 <= i <= keyListeners
        invariant Valid()
        invariant key == Space ==> step == old(step) && isPlaying == (old(isPlaying) != (i % 2 == 1))
        invariant key == ArrowRight ==> isPlaying == old(isPlaying) && step == Advance(old(step), i, StepCount())
        invariant key == ArrowLeft ==> isPlaying == old(isPlaying) && step == Rewind(old(step), i, StepCount())
        invariant key != Space ==> timer == old(timer) && live == old(live)
        invariant key == OtherKey ==> step == old(step) && isPlaying == old(isPlaying)
      {
        match key {
          case Space => TogglePlay();
          case ArrowRight => StepForward();
          case ArrowLeft => StepBack();
          case OtherKey =>
        }
        i := i + 1;
      }
    }

    /** The body of the edge loop: look up both endpoints, compute the curve and the arrowhead. */
    method DrawEdge(e: Edge, st: Step) returns (v: EdgeView)
      requires Valid() && e in graph.edges
      ensures v == EdgeViewOf(graph.nodes, e, st, scale)
    {
      var g, s := graph, scale;
      var a := g.nodes[FindNode(g.nodes, e.from).value];
      var b := g.nodes[FindNode(g.nodes, e.to).value];
      var x1 := (a.x + a.w) * s;
      var y1 := (a.y + a.h / 2.0) * s;
      var x2 := b.x * s;
      var y2 := (b.y + b.h / 2.0) * s;
      var midX := (x1 + x2) / 2.0;
      var isActive := e.from in st.highlight || e.to in st.highlight;
      var curve := Connector(Point(x1, y1), Point(midX, y1), Point(midX, y2), Point(x2, y2));
      var arrow := Arrowhead(Point(x2, y2), Point(x2 - 10.0, y2 - 6.0), Point(x2 - 10.0, y2 + 6.0));
      assert curve == EdgeConnector(a, b, s);
      v := EdgeView(e.from, e.to, curve, arrow, isActive);
    }

    /** The edge loop of `_render`: one connector and arrowhead per edge, in order. */
    method DrawEdges(st: Step) returns (edges: seq<EdgeView>)
      requires Valid()
      ensures edges == EdgeViews(graph, st, scale)
    {
      var g, s := graph, scale;
      edges := [];
      var i := 0;
      while i < |g.edges|
        invariant 0 <= i <= |g.edges|
        invariant |edges| == i
        invariant forall j :: 0 <= j < i ==> edges[j] == EdgeViewOf(g.nodes, g.edges[j], st, s)
      {
        var v := DrawEdge(g.edges[i], st);
        edges := edges + [v];
        i := i + 1;
      }
    }

    /** The node loop of `_render`: one scaled box per node, in order. */
    method DrawNodes(st: Step) returns (nodes: seq<NodeView>)
      requires Valid()
      ensures nodes == NodeViews(graph, st, scale)
    {
      var g, s := graph, scale;
      nodes := [];
      var k := 0;
      while k < |g.nodes|
        invariant 0 <= k <= |g.nodes|
        invariant |nodes| == k
        invariant forall j :: 0 <= j < k ==> nodes[j] == NodeViewOf(g.nodes[j], st, s)
      {
        var n := g.nodes[k];
        nodes := nodes + [NodeView(n.id, Box(n.x * s, n.y * s, n.w * s, n.h * s), n.id in st.highlight, n.dashed, n.color)];
        k := k + 1;
      }
    }

    /**
      * `_render`: the edges, then the nodes, then the narration and the legend.
      * The frame it draws is the render-pass view of the current step and scale.
      */
    method Render() returns (f: Frame)
      requires Valid()
      ensures f == View(graph, step, scale)
    {
      var st := graph.steps[step];
      var edges := DrawEdges(st);
      var nodes := DrawNodes(st);
      f := Frame(BG_W * scale, BG_H * scale, edges, nodes, st.text, StepText.Legend(step, |graph.steps|));
    }
  }

  /**
    * Seven steps at the default speed, started playing at index 0: after three
    * ticks the index is 3 and the legend reads "Step 4 / 7".
    */
  method ThreeTicksScenario() returns (step: nat, legend: string)
    ensures step == 3 && legend == "Step 4 / 7"
  {
    var p := new TaskPipelinePlayer();
    p.Connect(Num(0.0), None, 0.0, 0.0, 0.0);
    assert p.isPlaying && p.timer.Some? && p.timer.value in p.live;
    p.Tick();
    p.Tick();
    p.Tick();
    var f := p.Render();
    StepText.LegendOfFourthOfSeven();
    step, legend := p.step, f.legend;
  }

  /** Clicking the play button twice restores the play state, with a single live interval while playing. */
  method ToggleTwice(p: TaskPipelinePlayer)
    requires p.Valid()
    modifies p
    ensures p.Valid() && p.TimerMatchesPlayState()
    ensures p.isPlaying == old(p.isPlaying) && p.step == old(p.step) && p.speed == old(p.speed)
  {
    p.TogglePlay();
    p.TogglePlay();
  }

  /**
    * Pausing while playing cancels the interval: no handle is live afterwards,
    * so no tick can follow until the next toggle.
    */
  method PauseStopsTicks() returns (liveAfterPause: nat)
    ensures liveAfterPause == 0
  {
    var p := new TaskPipelinePlayer();
    p.Connect(Num(0.0), Some("true"), 1200.0, 0.0, 0.0);
    p.TogglePlay();
    liveAfterPause := |p.live|;
  }

  /**
    * As written: after the element is removed and inserted again, two
    * keydown listeners are registered, so Space toggles twice and the play
    * state does not change.
    */
  method SpaceAfterReconnectAsWritten() returns (before: bool, after: bool)
    ensures before == after
  {
    var p := new TaskPipelinePlayer();
    p.ConnectAsWritten(Num(0.0), None, 0.0, 0.0, 0.0);
    p.Disconnect();
    p.ConnectAsWritten(Num(0.0), None, 0.0, 0.0, 0.0);
    assert p.keyListeners == 2;
    before := p.isPlaying;
    p.KeyDown(Space);
    after := p.isPlaying;
  }

  /** With one listener per shadow root, Space after a reconnection toggles the play state. */
  method SpaceAfterReconnect() returns (before: bool, after: bool)
    ensures after == !before
  {
    var p := new TaskPipelinePlayer();
    p.Connect(Num(0.0), None, 0.0, 0.0, 0.0);
    p.Disconnect();
    p.Connect(Num(0.0), None, 0.0, 0.0, 0.0);
    assert p.keyListeners == 1;
    before := p.isPlaying;
    p.KeyDown(Space);
    after := p.isPlaying;
  }
}
