/**
 * Routing of inbound game-coordinator packets (`OnGCMessage`): a fixed table from
 * message type to handler, with every type not in the table dropped.
 */
module Dispatch {

  import opened Wrappers
  import opened Messages

  /** The two handlers the client registers. */
  datatype Handler = HandleClientWelcome | HandleDevPlaytestStatus

  /** The table `OnGCMessage` builds on each call. */
  function MessageMap(): map<GCMsgType, Handler> {
    map[ClientWelcome := HandleClientWelcome, DevPlaytestStatus := HandleDevPlaytestStatus]
  }

  /** The handler registered for `emsg`, if any (`TryGetValue`). */
  function Route(emsg: GCMsgType): (h: Option<Handler>)
    ensures h == Some(HandleClientWelcome) <==> emsg == ClientWelcome
    ensures h == Some(HandleDevPlaytestStatus) <==> emsg == DevPlaytestStatus
    ensures h == None <==> emsg.OtherType?
  {
    var table := MessageMap();
    if emsg in table then Some(table[emsg]) else None
  }
}
