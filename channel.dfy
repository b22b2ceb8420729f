/** The pipe that carries commands from the GUI callback to the sensor loop.
    Its lock-free, cross-thread implementation lives in a library outside this
    model; here it is the FIFO sequence of commands written and not yet read. */
module Channel {
  import opened Commands

  class Pipe {
    /** Commands written and not yet read, oldest first. */
    var queue: seq<Command>

    constructor ()
      ensures queue == []
    {
      queue := [];
    }

    /** The writer's side: append one command. */
    method WriteNonRt(cmd: Command)
      modifies this
      ensures queue == old(queue) + [cmd]
    {
      queue := queue + [cmd];
    }

    /** The reader's side: take the oldest command, or report that there is
        none; `cmd` is then unspecified and the queue is left as it was. */
    method ReadRt() returns (got: bool, cmd: Command)
      modifies this
      ensures got <==> old(queue) != []
      ensures got ==> cmd == old(queue)[0] && queue == old(queue)[1..]
      ensures !got ==> queue == old(queue)
    {
      if queue == [] {
        got, cmd := false, Command(Prescaler, 0.0);
      } else {
        got, cmd := true, queue[0];
        queue := queue[1..];
      }
    }
  }
}
