/** Value types of the confession component: its stages, the "No" buttons,
    confetti pieces and the timeouts the component schedules. */
module Types {

  datatype Option<T> = None | Some(value: T)

  /** The seven stages of the interaction ('initial' ... 'happy-ending'). */
  datatype GameState =
    | Initial
    | Chase
    | FirstClick
    | SecondClick
    | ThirdClick
    | FinalTakeover
    | HappyEnding

  /** A point produced by the position oracle. Coordinates are opaque values:
      nothing bounds or clamps them. */
  datatype Position = Position(x: real, y: real)

  /** One rendered "No" button. `size` is a scale in percent (100 nominal,
      50 shrunk); only a button with `isReal` advances the stage. */
  datatype NoButton = NoButton(id: string, x: real, y: real, size: int, text: string, isReal: bool)

  /** A confetti piece, reduced to its key; its position, delay and emoji
      are random and not modelled. */
  datatype ConfettiPiece = ConfettiPiece(id: nat)

  /** What a pending timeout clears when it fires. */
  datatype Clear = ClearGlitch | ClearWink | ClearConfetti | ClearFlash

  /** A timeout that has been scheduled and has not fired yet. */
  datatype Timeout = Timeout(clear: Clear, delayMs: nat)
}
