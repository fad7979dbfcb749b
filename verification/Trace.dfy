/** Journal vocabulary and user actions. */
module Trace {
  import opened Wrappers

  datatype ActionKind = EntryAction | ExitAction | HandlerAction

  datatype Reason = Event(event: nat) | Timer(state: nat, timer: nat) | Internal

  datatype TraceEvent =
    | Started(hash: nat)
    | EnterBegan(state: nat)
    | Entered(state: nat)
    | ExitBegan(state: nat)
    | Exited(state: nat)
    | ActionInvoked(state: nat, action: nat, kind: ActionKind)
    | DuringStarted(state: nat, during: nat)
    | DuringCancelled(state: nat, during: nat)
    | TransitionFired(from: Option<nat>, to: nat, reason: Reason)
    | TransitionComplete(from: Option<nat>, to: nat)
    | EventReceived(event: nat)
    | EventDelivered(handler: nat, event: nat)
    | EventDropped(event: nat)
    | EmitQueued(event: nat)
    | EmitFailed(event: nat)
    | TerminateRequested(event: nat)
    | TimerArmed(state: nat, timer: nat, ns: nat)
    | TimerCancelled(state: nat, timer: nat)
    | TimerFired(state: nat, timer: nat)
    | Terminated

  /** One invocation of a user action: a finite sequence of `emit` calls, each of which may
      steer what follows by its result, ending with the new context. */
  datatype Act<C, E> =
    | Done(ctx: C)
    | Emit(event: E, onOk: Act<C, E>, onFull: Act<C, E>)
}
