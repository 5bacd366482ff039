/**
 * StarscreamSocket (StarScream.swift): the adapter over the Starscream
 * library's WebSocket. The library is abstract: the adapter's calls on it are
 * logged, and its delegate callbacks are methods the environment calls one at
 * a time.
 */
module StarScream {
  import opened Wrappers
  import opened Json
  import opened SocketProvider

  /** The calls the adapter makes on the library's WebSocket. */
  datatype LibraryCall = Connect | Disconnect | Write(message: Dict)

  class StarscreamSocket {
    const url: string
    var state: SocketState

    /** For each write handed to the library and not yet finished, the caller's completion. */
    ghost var pendingWrites: seq<nat>
    ghost var libraryCalls: seq<LibraryCall>
    /** What the delegate received through `socketDidChange`. */
    ghost var notified: seq<SocketState>
    /** What the delegate received through `socketDidRecieve`. */
    ghost var delivered: seq<Dict>
    /** The completions called so far, in order. */
    ghost var completed: seq<nat>

    ghost predicate Valid()
      reads this
    {
      ChangeLog(SocketState.None, notified, state)
    }

    /** `init(url:)`: builds the library socket and becomes its delegate. */
    constructor (urlString: string)
      ensures Valid()
      ensures url == urlString && state == SocketState.None
      ensures pendingWrites == [] && libraryCalls == [] && notified == [] && delivered == [] && completed == []
    {
      url, state := urlString, SocketState.None;
      pendingWrites, libraryCalls := [], [];
      notified, delivered, completed := [], [], [];
    }

    /** `state = next`, with the `didSet` observer that tells the delegate of a change. */
    method SetState(next: SocketState)
      requires Valid()
      modifies this`state, this`notified
      ensures Valid()
      ensures state == next
      ensures notified == old(notified) + DidSet(old(state), next)
    {
      DidSetKeepsChangeLog(SocketState.None, notified, state, next);
      notified := notified + DidSet(state, next);
      state := next;
    }

    /** `connect()`: asks the library to connect. */
    method Connect()
      modifies this`libraryCalls
      ensures libraryCalls == old(libraryCalls) + [LibraryCall.Connect]
    {
      libraryCalls := libraryCalls + [LibraryCall.Connect];
    }

    /** `disconnect()`: asks the library to disconnect; `state` changes only when the library calls back. */
    method Disconnect()
      modifies this`libraryCalls
      ensures libraryCalls == old(libraryCalls) + [LibraryCall.Disconnect]
      ensures state == old(state) && notified == old(notified)
    {
      libraryCalls := libraryCalls + [LibraryCall.Disconnect];
    }

    /**
     * `send(_:completion:)`: data that JSONSerialization cannot serialise is
     * dropped and its completion is never called; otherwise the text is
     * written, and the completion waits for the write to finish.
     */
    method Send(data: Dict, serialisable: bool, completion: nat)
      modifies this`libraryCalls, this`pendingWrites
      ensures libraryCalls == old(libraryCalls) + (if serialisable then [Write(data)] else [])
      ensures pendingWrites == old(pendingWrites) + (if serialisable then [completion] else [])
    {
      if !serialisable {
        return;
      }
      libraryCalls := libraryCalls + [Write(data)];
      pendingWrites := pendingWrites + [completion];
    }

    /** The library finishes write `i`: its completion is called, once. */
    method WriteFinished(i: nat)
      requires i < |pendingWrites|
      modifies this`pendingWrites, this`completed
      ensures pendingWrites == old(pendingWrites[..i] + pendingWrites[i + 1..])
      ensures completed == old(completed) + [old(pendingWrites[i])]
    {
      completed := completed + [pendingWrites[i]];
      pendingWrites := pendingWrites[..i] + pendingWrites[i + 1..];
    }

    /** `websocketDidConnect`: the socket is Connected. */
    method DidConnect()
      requires Valid()
      modifies this`state, this`notified
      ensures Valid()
      ensures state == Connected
      ensures notified == old(notified) + (if old(state) == Connected then [] else [Connected])
    {
      SetState(Connected);
    }

    /** `websocketDidDisconnect`: the socket is Disconnected, whether or not the library reports an error. */
    method DidDisconnect(error: Option<string>)
      requires Valid()
      modifies this`state, this`notified
      ensures Valid()
      ensures state == Disconnected
      ensures notified == old(notified) + (if old(state) == Disconnected then [] else [Disconnected])
    {
      SetState(Disconnected);
    }

    /** `websocketDidReceiveMessage`: text that parses to a dictionary is delivered once; other text is dropped. */
    method DidReceiveMessage(parsed: Option<Dict>)
      modifies this`delivered
      ensures delivered == old(delivered) + (if parsed.Some? then [parsed.value] else [])
    {
      if parsed.Some? {
        delivered := delivered + [parsed.value];
      }
    }

    /** `websocketDidReceiveData`: binary frames are ignored. */
    method DidReceiveData(data: seq<bv8>)
      ensures state == old(state) && delivered == old(delivered) && notified == old(notified)
    {
    }
  }
}
