/** Enumerations shared by the engine and the GUI control panel. */
module Enums {

  /** The engine's session state; the terminal states are Completed, Aborted and Error. */
  datatype ExperimentState =
    | Idle
    | Running
    | Paused
    | WaitingConfirm
    | Completed
    | Aborted
    | Error
  {
    predicate IsTerminal() {
      Completed? || Aborted? || Error?
    }
  }
}
