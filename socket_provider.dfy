/**
 * What the two socket adapters share (SocketProvider.swift): the connection
 * state they report, and the `didSet` rule by which both tell their delegate
 * about a change of that state.
 */
module SocketProvider {

  datatype SocketState = None | Connected | Disconnected

  /**
   * The `didSet` observer on `state`: the notifications the delegate receives
   * when `state`, holding `current`, is assigned `next`.
   */
  function DidSet(current: SocketState, next: SocketState): (notified: seq<SocketState>)
    ensures notified == [] <==> next == current
    ensures |notified| <= 1
    ensures forall i :: 0 <= i < |notified| ==> notified[i] == next
  {
    if next == current then [] else [next]
  }

  /**
   * `log` is what a delegate has been told since the adapter held `start`, and
   * the adapter now holds `state`: every entry differs from the one before it,
   * the first differs from `start`, and the last is the current state.
   */
  ghost predicate ChangeLog(start: SocketState, log: seq<SocketState>, state: SocketState) {
    && (log == [] ==> state == start)
    && (log != [] ==> log[0] != start && log[|log| - 1] == state)
    && forall i :: 0 < i < |log| ==> log[i] != log[i - 1]
  }

  /** One assignment through `didSet` keeps the delegate's log a change log. */
  lemma DidSetKeepsChangeLog(start: SocketState, log: seq<SocketState>, state: SocketState, next: SocketState)
    requires ChangeLog(start, log, state)
    ensures ChangeLog(start, log + DidSet(state, next), next)
  {
  }

  /** The notifications produced by assigning each of `values`, in order, starting from `current`. */
  function Notifications(current: SocketState, values: seq<SocketState>): seq<SocketState>
    decreases |values|
  {
    if values == [] then [] else DidSet(current, values[0]) + Notifications(values[0], values[1..])
  }

  function LastOr(s: seq<SocketState>, default: SocketState): SocketState {
    if s == [] then default else s[|s| - 1]
  }

  /**
   * Whatever sequence of assignments an adapter makes, its delegate sees each
   * change exactly once: no value twice in a row, never the starting value
   * first, ending with the final state, and only values that were assigned.
   */
  lemma {:induction false} NotificationsAreChanges(current: SocketState, values: seq<SocketState>)
    ensures ChangeLog(current, Notifications(current, values), LastOr(values, current))
    ensures |Notifications(current, values)| <= |values|
    ensures forall x :: x in Notifications(current, values) ==> x in values
    decreases |values|
  {
    if values != [] {
      var rest := values[1..];
      NotificationsAreChanges(values[0], rest);
      assert LastOr(rest, values[0]) == LastOr(values, current);
      assert forall x :: x in rest ==> x in values;
    }
  }
}
