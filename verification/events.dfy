/** The change-event log that field and variable mutations report to. */
module Events {

  /** One entry of the log.  `group` is the ambient group tag when the event was made
      ("" when no group is open). */
  datatype Event =
    | BlockChange(blockId: string, element: string, name: string,
                  oldValue: string, newValue: string, group: string)
    | VarCreate(varId: string, varName: string, varType: string,
                isLocal: bool, isCloud: bool, group: string)

  /** The event bus, passed explicitly to the operations that report to it:
      a global enable switch, the current group tag and the append-only log. */
  class EventBus {
    var enabled: bool
    var group: string
    var log: seq<Event>

    constructor ()
      ensures enabled && group == "" && log == []
    {
      enabled := true;
      group := "";
      log := [];
    }

    function IsEnabled(): bool
      reads this
    {
      enabled
    }

    /** Appends `e` when the bus is enabled; drops it otherwise. */
    method Fire(e: Event)
      modifies this`log
      ensures log == if enabled then old(log) + [e] else old(log)
    {
      if enabled {
        log := log + [e];
      }
    }

    /** Sets the ambient group tag; "" closes the current group. */
    method SetGroup(g: string)
      modifies this`group
      ensures group == g
    {
      group := g;
    }
  }
}
