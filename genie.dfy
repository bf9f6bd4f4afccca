/** The display-link adapter: the widget classes, commands and event records
    exchanged with the 4D Systems panel, and the panel itself seen as the log
    of widget writes it has received. The serial transport behind it is not
    part of this model. */
module Genie {

  /** The widget classes the program names. The library's numeric codes are
      not part of this model; any other class an event may report is `OtherObject`. */
  datatype WidgetClass =
    | Form
    | Gauge
    | CoolGauge
    | Thermometer
    | WinButton
    | OtherObject(code: int)

  /** The command kind of a reply frame: a report event, or anything else. */
  datatype Command = ReportEvent | OtherCommand(code: int)

  /** A decoded reply from the panel (cmd, object, index, data). */
  datatype Reply = Reply(cmd: Command, obj: WidgetClass, index: int, data: int)

  /** One call of `genieWriteObj (object, index, value)`. */
  datatype WidgetWrite = WriteObj(obj: WidgetClass, index: int, value: int)

  /** Appending two batches of writes one after the other is appending
      their concatenation. */
  lemma AppendAssoc(a: seq<WidgetWrite>, b: seq<WidgetWrite>, c: seq<WidgetWrite>)
    ensures (a + b) + c == a + (b + c)
  {
  }

  /** The panel, seen as the ordered log of every write sent to it. */
  class Display {
    var log: seq<WidgetWrite>

    constructor ()
      ensures log == []
    {
      log := [];
    }

    /** Fire-and-forget push of one value: the write is appended and nothing
        is reported back. */
    method WriteObj(obj: WidgetClass, index: int, value: int)
      modifies this
      ensures log == old(log) + [WidgetWrite.WriteObj(obj, index, value)]
    {
      log := log + [WidgetWrite.WriteObj(obj, index, value)];
    }
  }
}
