/** The decision part of `handleGenieEvent`: which of its branches a reply
    from the panel takes. Each branch other than the two resets prints one
    diagnostic line; the outcome names that line. */
module Events {
  import opened Genie

  /** Button 2 resets the minimum, button 6 the maximum. */
  const ResetMinButton: int := 2
  const ResetMaxButton: int := 6

  datatype EventOutcome =
    | InvalidCommand(cmd: Command)                  // "Invalid event from the display"
    | ResetMin
    | ResetMax
    | UnknownButton(index: int)                     // "Unknown button"
    | UnhandledEvent(obj: WidgetClass, index: int, data: int)  // "Unhandled Event"

  function Classify(e: Reply): (r: EventOutcome)
    ensures r == ResetMin <==> e.cmd == ReportEvent && e.obj == WinButton && e.index == ResetMinButton
    ensures r == ResetMax <==> e.cmd == ReportEvent && e.obj == WinButton && e.index == ResetMaxButton
    ensures r.InvalidCommand? <==> e.cmd != ReportEvent
    ensures r.UnknownButton? <==>
      e.cmd == ReportEvent && e.obj == WinButton && e.index != ResetMinButton && e.index != ResetMaxButton
    ensures r.UnhandledEvent? <==> e.cmd == ReportEvent && e.obj != WinButton
    ensures r.InvalidCommand? ==> r.cmd == e.cmd
    ensures r.UnknownButton? ==> r.index == e.index
    ensures r.UnhandledEvent? ==> r == UnhandledEvent(e.obj, e.index, e.data)
  {
    if e.cmd != ReportEvent then InvalidCommand(e.cmd)
    else if e.obj == WinButton then
      if e.index == ResetMinButton then ResetMin
      else if e.index == ResetMaxButton then ResetMax
      else UnknownButton(e.index)
    else UnhandledEvent(e.obj, e.index, e.data)
  }

  /** The outcomes of replies handled in arrival order. */
  function ClassifyAll(es: seq<Reply>): (r: seq<EventOutcome>)
    ensures |r| == |es|
    decreases |es|
  {
    if es == [] then [] else ClassifyAll(es[..|es| - 1]) + [Classify(es[|es| - 1])]
  }

  /** Each outcome is the classification of the reply at the same position. */
  lemma {:induction false} ClassifyAllAt(es: seq<Reply>, i: nat)
    requires i < |es|
    ensures ClassifyAll(es)[i] == Classify(es[i])
    decreases |es|
  {
    if i < |es| - 1 {
      ClassifyAllAt(es[..|es| - 1], i);
    }
  }

  /** Whether a reply changes any state. */
  predicate IsReset(o: EventOutcome) {
    o == ResetMin || o == ResetMax
  }
}
