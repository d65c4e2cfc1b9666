/** The live chart component (`LiveChart` in src/App.jsx) as one state
    machine: a sample window and a connection status, driven one at a time
    by the event stream's open, error and message events. */
module LiveChart {
  import opened Common
  import opened SampleWindow
  import opened ConnectionStatus
  import opened Sparkline

  datatype Event = Opened | Failed | Received(m: Message)

  datatype Chart = Chart(window: Window, status: Status)

  const Init: Chart := Chart([], Initial)

  /** One event: the open and error handlers set the status, the message
      handler updates the window; neither touches the other's state. */
  function Step(ch: Chart, e: Event): (r: Chart)
    ensures e.Opened? ==> r.status == Live
    ensures e.Failed? ==> r.status == Disconnected
    ensures e.Received? ==> r.window == OnMessage(ch.window, e.m)
    ensures e.Received? ==> r.status == ch.status
    ensures !e.Received? ==> r.window == ch.window
  {
    match e
    case Opened => ch.(status := OnSignal(ch.status, Open))
    case Failed => ch.(status := OnSignal(ch.status, Error))
    case Received(m) => ch.(window := OnMessage(ch.window, m))
  }

  function Run(es: seq<Event>): Chart {
    Fold(Step, Init, es)
  }

  /** The transport signals among the events, in order. */
  function Signals(es: seq<Event>): seq<Signal>
    decreases |es|
  {
    if |es| == 0 then []
    else
      var last := es[|es| - 1];
      Signals(es[..|es| - 1]) + (match last
                                 case Opened => [Open]
                                 case Failed => [Error]
                                 case Received(_) => [])
  }

  /** The messages among the events, in order. */
  function Messages(es: seq<Event>): seq<Message>
    decreases |es|
  {
    if |es| == 0 then []
    else
      var last := es[|es| - 1];
      Messages(es[..|es| - 1]) + (if last.Received? then [last.m] else [])
  }

  /** Interleaving does not matter: the window depends only on the messages
      and the status only on the transport signals. */
  lemma {:induction false} RunSeparates(es: seq<Event>)
    ensures Run(es) == Chart(WindowAfter(Messages(es)), StatusAfter(Signals(es)))
    decreases |es|
  {
    if |es| > 0 {
      var init, e := es[..|es| - 1], es[|es| - 1];
      assert es == init + [e];
      FoldSnoc(Step, Init, init, e);
      RunSeparates(init);
      match e
      case Opened =>
        assert Messages(es) == Messages(init) && Signals(es) == Signals(init) + [Open];
        FoldSnoc(OnSignal, Initial, Signals(init), Open);
      case Failed =>
        assert Messages(es) == Messages(init) && Signals(es) == Signals(init) + [Error];
        FoldSnoc(OnSignal, Initial, Signals(init), Error);
      case Received(m) =>
        assert Messages(es) == Messages(init) + [m] && Signals(es) == Signals(init);
        FoldSnoc(OnMessage, [], Messages(init), m);
    }
  }

  /** Over any run: the status is the one named by the latest transport
      signal (`connecting…` before any), and the window holds the latest at
      most 121 samples the messages carried, in arrival order. */
  lemma RunState(es: seq<Event>)
    ensures Run(es).status == Latest(Signals(es))
    ensures Run(es).window == LastN(Samples(Messages(es)), Cap)
    ensures |Run(es).window| <= Cap
  {
    RunSeparates(es);
    StatusIsLatestSignal(Signals(es));
    WindowHoldsLatestSamples(Messages(es));
  }

  /** Start, open, error: `connecting…`, then `live`, then `disconnected`;
      the indicator is green only while live. */
  lemma StatusScenario()
    ensures Run([]).status == Connecting
    ensures Run([Opened]).status == Live && Indicator(Run([Opened]).status) == Green
    ensures Run([Opened, Failed]).status == Disconnected
    ensures Indicator(Run([Opened, Failed]).status) == Amber
  {
    assert [Opened, Failed][1..] == [Failed];
  }

  /** A disconnect keeps the last trace on screen: the window, and so the
      drawn path, stay as they were. */
  lemma DisconnectKeepsTrace(ch: Chart)
    ensures Step(ch, Failed).window == ch.window
    ensures Project(Step(ch, Failed).window) == Project(ch.window)
    ensures Step(ch, Failed).status == Disconnected
  {
  }

  /** A malformed message injected anywhere leaves the chart, and therefore
      its path, exactly as the run without it. */
  lemma MalformedMessageChangesNothing(pre: seq<Event>, m: Message, post: seq<Event>)
    requires !m.BarMsg?
    ensures Run(pre + [Received(m)] + post) == Run(pre + post)
    ensures Project(Run(pre + [Received(m)] + post).window) == Project(Run(pre + post).window)
  {
    FoldAppend(Step, Init, pre + [Received(m)], post);
    FoldAppend(Step, Init, pre, post);
    FoldSnoc(Step, Init, pre, Received(m));
  }
}
