/** The connection status of the live chart: `connecting…` until the event
    stream reports, then whatever its latest open or error signal says. */
module ConnectionStatus {
  import opened Common

  datatype Status = Connecting | Live | Disconnected

  /** The two transport signals of the event stream. */
  datatype Signal = Open | Error

  const Initial: Status := Connecting

  /** The open and error handlers each set the status unconditionally. */
  function OnSignal(s: Status, sig: Signal): Status {
    match sig
    case Open => Live
    case Error => Disconnected
  }

  function StatusAfter(sigs: seq<Signal>): Status {
    Fold(OnSignal, Initial, sigs)
  }

  /** The status the most recent signal stands for, with no signal meaning
      the initial status. */
  function Latest(sigs: seq<Signal>): Status {
    if |sigs| == 0 then Initial
    else if sigs[|sigs| - 1] == Open then Live
    else Disconnected
  }

  /** Whatever came before, the status is the one named by the last signal. */
  lemma {:induction false} StatusIsLatestSignal(sigs: seq<Signal>)
    ensures StatusAfter(sigs) == Latest(sigs)
  {
    if |sigs| > 0 {
      var init := sigs[..|sigs| - 1];
      assert sigs == init + [sigs[|sigs| - 1]];
      FoldSnoc(OnSignal, Initial, init, sigs[|sigs| - 1]);
    }
  }

  /** The text the indicator shows; the component stores these strings. */
  function Label(s: Status): string {
    match s
    case Connecting => "connecting\U{2026}"
    case Live => "live"
    case Disconnected => "disconnected"
  }

  /** The three labels are distinct, so the stored string determines the status. */
  lemma LabelsDistinct(a: Status, b: Status)
    ensures Label(a) == Label(b) <==> a == b
  {
  }

  datatype Colour = Green | Amber

  /** The indicator colour, chosen by comparing the stored label with "live". */
  function Indicator(s: Status): (c: Colour)
    ensures c == Green <==> s == Live
  {
    if Label(s) == "live" then Green else Amber
  }
}
