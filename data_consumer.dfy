/** The local half of a relayed data channel and its close protocol with the
    media node: a local close notifies the node once, a remote close does not. */
module DataConsumers {
  import opened Messages

  const CloseDataConsumerMethod: string := "closeDataConsumer"

  /** The notification a local close sends to the media node. */
  function CloseNotification(routerId: string, dataConsumerId: string): Message
  {
    Message(CloseDataConsumerMethod, map["routerId" := FromString(routerId), "dataConsumerId" := FromString(dataConsumerId)])
  }

  /** What a data consumer's life is made of: its closed flag, whether its
      one-shot listener on the connection's `close` is still registered, every
      notification sent on that connection so far, and how often `close` was emitted. */
  datatype Lifecycle = Lifecycle(closed: bool, listening: bool, sent: seq<Message>, closeEvents: nat)

  /** The inputs that drive it: `close(remoteClose)`, and the connection closing. */
  datatype Trigger = CloseCall(remoteClose: bool) | ConnectionClosed

  /** `close(remoteClose)`, guarded by the closed check. */
  function CloseStep(s: Lifecycle, remoteClose: bool, routerId: string, id: string): (r: Lifecycle)
    ensures r.closed && r.listening == s.listening
    ensures s.closed ==> r == s
    ensures !s.closed && remoteClose ==> r.sent == s.sent && r.closeEvents == s.closeEvents + 1
    ensures !s.closed && !remoteClose ==>
              r.sent == s.sent + [CloseNotification(routerId, id)] && r.closeEvents == s.closeEvents + 1
  {
    if s.closed then s
    else s.(closed := true,
            sent := s.sent + (if remoteClose then [] else [CloseNotification(routerId, id)]),
            closeEvents := s.closeEvents + 1)
  }

  /** The `once('close')` listener: runs `close(true)` the first time only. */
  function ConnectionCloseStep(s: Lifecycle, routerId: string, id: string): (r: Lifecycle)
    ensures !r.listening && r.sent == s.sent
    ensures s.listening ==> r.closed
    ensures !s.listening ==> r == s
  {
    if s.listening then CloseStep(s.(listening := false), true, routerId, id) else s
  }

  function Step(s: Lifecycle, t: Trigger, routerId: string, id: string): Lifecycle
  {
    match t
    case CloseCall(remoteClose) => CloseStep(s, remoteClose, routerId, id)
    case ConnectionClosed => ConnectionCloseStep(s, routerId, id)
  }

  function Run(s: Lifecycle, ts: seq<Trigger>, routerId: string, id: string): Lifecycle
    decreases |ts|
  {
    if ts == [] then s else Run(Step(s, ts[0], routerId, id), ts[1..], routerId, id)
  }

  /** The lifetime invariant, relative to the notifications `sent0` the connection
      carried before: `close` has been emitted once if closed and never otherwise,
      and at most one `closeDataConsumer` notification was added, only once closed. */
  predicate Consistent(s: Lifecycle, sent0: seq<Message>, routerId: string, id: string)
  {
    && s.closeEvents == (if s.closed then 1 else 0)
    && (s.sent == sent0 || (s.closed && s.sent == sent0 + [CloseNotification(routerId, id)]))
  }

  /** Whatever calls and connection closes happen, `close` is emitted at most
      once, only after `closed` is set, and at most one close notification goes out. */
  lemma {:induction false} LifetimeConsistent(s: Lifecycle, ts: seq<Trigger>, sent0: seq<Message>,
                                               routerId: string, id: string)
    requires Consistent(s, sent0, routerId, id)
    ensures Consistent(Run(s, ts, routerId, id), sent0, routerId, id)
    ensures Run(s, ts, routerId, id).closeEvents <= 1
    decreases |ts|
  {
    if ts != [] {
      var next := Step(s, ts[0], routerId, id);
      assert Consistent(next, sent0, routerId, id);
      LifetimeConsistent(next, ts[1..], sent0, routerId, id);
    }
  }

  /** Closed is terminal: nothing that happens afterwards sends a notification or
      emits `close` again. */
  lemma {:induction false} ClosedIsTerminal(s: Lifecycle, ts: seq<Trigger>, routerId: string, id: string)
    requires s.closed
    ensures var r := Run(s, ts, routerId, id); r.closed && r.sent == s.sent && r.closeEvents == s.closeEvents
    decreases |ts|
  {
    if ts != [] {
      ClosedIsTerminal(Step(s, ts[0], routerId, id), ts[1..], routerId, id);
    }
  }

  /** No close loop: once the consumer has closed because the remote side asked
      (`close(true)` or the connection closing), no notification is ever sent back. */
  lemma NoCloseLoop(s: Lifecycle, first: Trigger, ts: seq<Trigger>, routerId: string, id: string)
    requires !s.closed
    requires first == CloseCall(true) || (first == ConnectionClosed && s.listening)
    ensures Run(s, [first] + ts, routerId, id).sent == s.sent
    ensures Run(s, [first] + ts, routerId, id).closeEvents == s.closeEvents + 1
  {
    var next := Step(s, first, routerId, id);
    assert ([first] + ts)[1..] == ts;
    ClosedIsTerminal(next, ts, routerId, id);
  }

  /** A local close on an open consumer is the only way the notification is
      sent, and it is sent exactly once however the life goes on. */
  lemma LocalCloseNotifiesOnce(s: Lifecycle, ts: seq<Trigger>, routerId: string, id: string)
    requires !s.closed
    ensures Run(s, [CloseCall(false)] + ts, routerId, id).sent == s.sent + [CloseNotification(routerId, id)]
  {
    var next := Step(s, CloseCall(false), routerId, id);
    assert ([CloseCall(false)] + ts)[1..] == ts;
    ClosedIsTerminal(next, ts, routerId, id);
  }

  // ------------------------------------------------------------- objects

  /** The control connection to the media node, as far as the consumer uses it:
      the notifications sent on it. */
  class MediaNodeConnection {
    var notifications: seq<Message>

    constructor ()
      ensures notifications == []
    {
      notifications := [];
    }
  }

  /** `label` is spelled `channelLabel` here, `label` being a keyword. */
  class DataConsumer {
    var closed: bool
    const routerId: string
    const connection: MediaNodeConnection
    const id: string
    const dataProducerId: string
    const sctpStreamParameters: Data
    const channelLabel: Option<string>
    const protocol: Option<string>
    const appData: Data
    var listening: bool
    var closeEvents: nat

    function Status(): Lifecycle
      reads this, connection
    {
      Lifecycle(closed, listening, connection.notifications, closeEvents)
    }

    /** A new consumer is open, holds what it was given (`appData` defaulting to
        `{}`) and listens once for its connection's `close`. */
    constructor (routerId: string, connection: MediaNodeConnection, id: string, dataProducerId: string,
                 sctpStreamParameters: Data, channelLabel: Option<string>, protocol: Option<string>,
                 appData: Option<Data>)
      ensures !closed && listening && closeEvents == 0
      ensures this.routerId == routerId && this.connection == connection && this.id == id
      ensures this.dataProducerId == dataProducerId && this.sctpStreamParameters == sctpStreamParameters
      ensures this.channelLabel == channelLabel && this.protocol == protocol
      ensures this.appData == (if appData.Some? then appData.value else map[])
      ensures Consistent(Status(), connection.notifications, routerId, id)
    {
      this.routerId := routerId;
      this.connection := connection;
      this.id := id;
      this.dataProducerId := dataProducerId;
      this.sctpStreamParameters := sctpStreamParameters;
      this.channelLabel := channelLabel;
      this.protocol := protocol;
      this.appData := if appData.Some? then appData.value else map[];
      closed := false;
      listening := false;
      closeEvents := 0;
      new;
      HandleConnection();
    }

    /** `handleConnection()`: registers the one-shot `close` listener, unless closed. */
    method HandleConnection()
      modifies this`listening
      ensures listening == (old(listening) || !closed)
    {
      if closed {
        return;
      }
      listening := true;
    }

    /** `close(remoteClose)`. */
    method Close(remoteClose: bool)
      modifies this`closed, this`closeEvents, connection`notifications
      ensures Status() == CloseStep(old(Status()), remoteClose, routerId, id)
    {
      if closed {
        return;
      }
      closed := true;
      if !remoteClose {
        connection.notifications := connection.notifications + [CloseNotification(routerId, id)];
      }
      closeEvents := closeEvents + 1;
    }

    /** The connection emitted `close`: the listener registered by
        `handleConnection` runs `close(true)`, once. */
    method OnConnectionClose()
      modifies this`closed, this`closeEvents, this`listening, connection`notifications
      ensures Status() == ConnectionCloseStep(old(Status()), routerId, id)
    {
      if listening {
        listening := false;
        Close(true);
      }
    }
  }
}
