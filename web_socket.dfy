/**
 * NativeSocket (WebSocket.swift): the adapter over URLSessionWebSocketTask.
 * The task itself is abstract: the adapter's calls on it are logged, and the
 * task's callbacks (a frame or an error for a pending `receive`, the end of a
 * `send`, the session's open and close events) are methods the environment
 * calls one at a time.
 */
module WebSocket {
  import opened Wrappers
  import opened Json
  import opened SocketProvider

  /** The calls the adapter makes on its URLSessionWebSocketTask. */
  datatype TaskCall = Resume | Receive | Send(message: Dict) | Cancel

  /** What a pending `receive` hands back: a text frame with what JSONSerialization made of it, a binary frame, or an error. */
  datatype Received = Text(parsed: Option<Dict>) | Binary | Failure

  class NativeSocket {
    const url: string
    /** Whether `URL(string:)` accepted `url`, so that the optional task exists. */
    const hasTask: bool
    var state: SocketState

    /** `receive` handlers registered on the task and not yet called back. */
    ghost var pendingReceives: nat
    /** For each `send` written to the task and not yet finished, the caller's completion. */
    ghost var pendingSends: seq<nat>
    ghost var taskCalls: seq<TaskCall>
    /** What the delegate received through `socketDidChange`. */
    ghost var notified: seq<SocketState>
    /** What the delegate received through `socketDidRecieve`. */
    ghost var delivered: seq<Dict>
    /** The completions called so far, in order. */
    ghost var completed: seq<nat>

    ghost predicate Valid()
      reads this
    {
      && ChangeLog(SocketState.None, notified, state)
      && (!hasTask ==> pendingReceives == 0 && pendingSends == [] && taskCalls == [])
    }

    /** `init(url:)`: without a parseable URL no task is created. */
    constructor (urlString: string, urlParses: bool)
      ensures Valid()
      ensures url == urlString && hasTask == urlParses && state == SocketState.None
      ensures pendingReceives == 0 && pendingSends == [] && taskCalls == []
      ensures notified == [] && delivered == [] && completed == []
    {
      url, hasTask, state := urlString, urlParses, SocketState.None;
      pendingReceives, pendingSends, taskCalls := 0, [], [];
      notified, delivered, completed := [], [], [];
    }

    /** `state = next`, with the `didSet` observer that tells the delegate of a change. */
    method SetState(next: SocketState)
      requires Valid()
      modifies this`state, this`notified
      ensures Valid()
      ensures state == next
      ensures notified == old(notified) + DidSet(old(state), next)
    {
      DidSetKeepsChangeLog(SocketState.None, notified, state, next);
      notified := notified + DidSet(state, next);
      state := next;
    }

    /** `connect()`: resume the task and start listening; a no-op without a task. */
    method Connect()
      requires Valid()
      modifies this`taskCalls, this`pendingReceives
      ensures Valid()
      ensures taskCalls == old(taskCalls) + (if hasTask then [Resume, Receive] else [])
      ensures pendingReceives == old(pendingReceives) + (if hasTask then 1 else 0)
    {
      if hasTask {
        taskCalls := taskCalls + [Resume];
      }
      Listen();
    }

    /** `listen()`: register one `receive` handler on the task, if there is one. */
    method Listen()
      requires Valid()
      modifies this`taskCalls, this`pendingReceives
      ensures Valid()
      ensures taskCalls == old(taskCalls) + (if hasTask then [Receive] else [])
      ensures pendingReceives == old(pendingReceives) + (if hasTask then 1 else 0)
    {
      if hasTask {
        taskCalls := taskCalls + [Receive];
        pendingReceives := pendingReceives + 1;
      }
    }

    /**
     * `send(_:completion:)`: data that JSONSerialization cannot serialise is
     * dropped and its completion is never called; otherwise the text is
     * written to the task, and the completion waits for the write to finish.
     */
    method Send(data: Dict, serialisable: bool, completion: nat)
      requires Valid()
      modifies this`taskCalls, this`pendingSends
      ensures Valid()
      ensures taskCalls == old(taskCalls) + (if serialisable && hasTask then [TaskCall.Send(data)] else [])
      ensures pendingSends == old(pendingSends) + (if serialisable && hasTask then [completion] else [])
    {
      if !serialisable {
        return;
      }
      if hasTask {
        taskCalls := taskCalls + [TaskCall.Send(data)];
        pendingSends := pendingSends + [completion];
      }
    }

    /** The task finishes the write `i` (with or without an error): its completion is called, once. */
    method SendFinished(i: nat, failed: bool)
      requires Valid()
      requires i < |pendingSends|
      modifies this`pendingSends, this`completed
      ensures Valid()
      ensures pendingSends == old(pendingSends[..i] + pendingSends[i + 1..])
      ensures completed == old(completed) + [old(pendingSends[i])]
    {
      completed := completed + [pendingSends[i]];
      pendingSends := pendingSends[..i] + pendingSends[i + 1..];
    }

    /**
     * The task calls back a pending `receive`. A text frame that parses to a
     * dictionary is delivered and listening re-arms; a binary frame re-arms
     * without delivery; text that does not parse is dropped and listening
     * stops; an error disconnects and listening stops.
     */
    method OnReceive(message: Received)
      requires Valid()
      requires pendingReceives > 0
      modifies this`state, this`notified, this`taskCalls, this`pendingReceives, this`delivered
      ensures Valid()
      ensures delivered == old(delivered) + (if message.Text? && message.parsed.Some? then [message.parsed.value] else [])
      ensures message.Failure? ==> taskCalls == old(taskCalls) + [Cancel]
      ensures message == Text(Option.None) ==> taskCalls == old(taskCalls)
      ensures (message.Binary? || (message.Text? && message.parsed.Some?)) ==> taskCalls == old(taskCalls) + [Receive]
      ensures pendingReceives == old(pendingReceives) - (if message.Binary? || (message.Text? && message.parsed.Some?) then 0 else 1)
      ensures message.Failure? ==> state == Disconnected && notified == old(notified) + DidSet(old(state), Disconnected)
      ensures !message.Failure? ==> state == old(state) && notified == old(notified)
    {
      pendingReceives := pendingReceives - 1;
      match message
      case Text(parsed) =>
        if parsed.None? {
          return;
        }
        delivered := delivered + [parsed.value];
        Listen();
      case Binary =>
        Listen();
      case Failure =>
        Disconnect();
    }

    /** `disconnect()`: cancel the task, if any, and move to Disconnected, telling the delegate only of a change. */
    method Disconnect()
      requires Valid()
      modifies this`taskCalls, this`state, this`notified
      ensures Valid()
      ensures taskCalls == old(taskCalls) + (if hasTask then [Cancel] else [])
      ensures state == Disconnected
      ensures notified == old(notified) + (if old(state) == Disconnected then [] else [Disconnected])
    {
      if hasTask {
        taskCalls := taskCalls + [Cancel];
      }
      SetState(Disconnected);
    }

    /** The session reports that the handshake finished: the socket is Connected. */
    method DidOpen()
      requires Valid()
      modifies this`state, this`notified
      ensures Valid()
      ensures state == Connected
      ensures notified == old(notified) + (if old(state) == Connected then [] else [Connected])
    {
      SetState(Connected);
    }

    /** The session reports that the socket closed: the adapter disconnects itself. */
    method DidClose()
      requires Valid()
      modifies this`taskCalls, this`state, this`notified
      ensures Valid()
      ensures taskCalls == old(taskCalls) + (if hasTask then [Cancel] else [])
      ensures state == Disconnected
      ensures notified == old(notified) + (if old(state) == Disconnected then [] else [Disconnected])
    {
      Disconnect();
    }
  }
}
