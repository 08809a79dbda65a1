/** The output record the callback fills: the command lines handed to the
    simulator and the messages to be logged, each kept in call order. */
module Outboard {

  /** One line of the outboard data file, in the host keyword system. */
  datatype Command =
    | Alter(well: string)     // ALTER '<well>'
    | Value(target: real)     // the value line that follows an ALTER
    | ShutIn(well: string)    // SHUTIN '<well>'

  /** One logged message: the event and the simulation time it reports. */
  datatype Event =
    | ChokingBack(time: real)   // choking back the well to control GOR
    | ShuttingIn(time: real)    // shutting in the well due to low oil rate

  /** The record built by one call of the callback. */
  class ObData {
    var lines: seq<Command>
    var messages: seq<Event>

    /** A fresh record holds no lines and no messages. */
    constructor ()
      ensures lines == [] && messages == []
    {
      lines := [];
      messages := [];
    }

    /** Each call writes the given data on one line of its own, after the
        lines already written; the messages are untouched. */
    method InfoToSim(data: Command)
      modifies this
      ensures lines == old(lines) + [data]
      ensures messages == old(messages)
    {
      lines := lines + [data];
    }

    /** Appends one message after those already set; the lines are untouched. */
    method Message(msg: Event)
      modifies this
      ensures messages == old(messages) + [msg]
      ensures lines == old(lines)
    {
      messages := messages + [msg];
    }
  }
}
