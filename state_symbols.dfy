/** `add_unicode_symbol_to_state`: a container or service state prefixed with
    the symbol of its group and a space. */
module StateSymbols {
  import opened Common

  const Play: char := '\U{25B6}'
  const Square: char := '\U{25FC}'
  const Gear: char := '\U{2699}'
  const Bang: char := '!'
  const Cross: char := '\U{2718}'

  predicate IsSymbol(c: char) { c == Play || c == Square || c == Gear || c == Bang || c == Cross }

  /** The states the table knows. */
  const TableStates: set<string> := {
    "Running", "Partly running", "Init", "Stopped", "Starting", "Stopping",
    "Scaling", "Terminating", "Start failed", "Stopped with errors", "Terminated"}

  /** The fixed table of states and their symbols: exactly the states above
      have a symbol, one of the five, and none is the separating space. */
  function Symbol(state: string): (r: Option<char>)
    ensures r.Some? <==> state in TableStates
    ensures r.Some? ==> IsSymbol(r.value) && r.value != ' '
  {
    if state == "Running" || state == "Partly running" then Some(Play)
    else if state == "Init" || state == "Stopped" then Some(Square)
    else if state == "Starting" || state == "Stopping" || state == "Scaling" || state == "Terminating" then Some(Gear)
    else if state == "Start failed" || state == "Stopped with errors" then Some(Bang)
    else if state == "Terminated" then Some(Cross)
    else None
  }

  /** A state outside the table is shown as it is. */
  function AddUnicodeSymbol(state: string): (r: string)
    ensures Symbol(state).Some? ==> r == [Symbol(state).value, ' '] + state
    ensures Symbol(state).Some? ==> |r| == |state| + 2 && IsSymbol(r[0]) && r[1] == ' ' && r[2..] == state
    ensures Symbol(state).None? ==> r == state
  {
    match Symbol(state)
    case Some(c) => [c, ' '] + state
    case None => state
  }

  /** Takes the decoration off again. */
  function StripSymbol(r: string): string {
    if |r| >= 2 && IsSymbol(r[0]) && r[1] == ' ' then r[2..] else r
  }

  /** Stripping undoes decorating, for every state of the table. */
  lemma StripAddSymbol(state: string)
    requires Symbol(state).Some?
    ensures StripSymbol(AddUnicodeSymbol(state)) == state
  {
  }

  // The five groups the state test checks, each shown as symbol, space,
  // state. The state is a parameter fixed by `requires`, so that the
  // verifier does not unfold the table on a literal.

  lemma ShownRunning(state: string)
    requires state == "Running" || state == "Partly running"
    ensures AddUnicodeSymbol(state) == [Play, ' '] + state
  {
  }

  lemma ShownStopped(state: string)
    requires state == "Init" || state == "Stopped"
    ensures AddUnicodeSymbol(state) == [Square, ' '] + state
  {
  }

  lemma ShownInTransition(state: string)
    requires state == "Starting" || state == "Stopping" || state == "Scaling" || state == "Terminating"
    ensures AddUnicodeSymbol(state) == [Gear, ' '] + state
  {
  }

  lemma ShownFailed(state: string)
    requires state == "Start failed" || state == "Stopped with errors"
    ensures AddUnicodeSymbol(state) == [Bang, ' '] + state
  {
  }

  lemma ShownTerminated(state: string)
    requires state == "Terminated"
    ensures AddUnicodeSymbol(state) == [Cross, ' '] + state
  {
  }
}
