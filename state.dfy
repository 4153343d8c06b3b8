/**
 * What a state's event handler hands back to the interpreter.  Python's
 * `Push | Pop | Rebase | None` union is closed here, so the interpreter's
 * `TypeError` branch for any other value cannot arise.
 */
module State {

  datatype StateResult<S> =
    | Push(state: S)      // put a new state on top of the stack
    | Pop                 // remove the current state
    | Rebase(state: S)    // replace the whole stack with one state
    | NoResult            // Python's None: leave the stack alone

  /**
   * The outcome of handling one event: a transition, or `Exit` where the
   * source raises SystemExit to end the program.
   */
  datatype Reply<S> = Return(result: StateResult<S>) | Exit
}
