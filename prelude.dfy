/** Small value types shared by both programs. */
module Prelude {

  /** Rust's `Option<T>`. */
  datatype Option<T> = None | Some(value: T)

  /** The key codes the two programs tell apart (crossterm's `KeyCode`); every other code is `Other`. */
  datatype KeyCode =
    | Char(c: char)
    | Up
    | Down
    | Left
    | Right
    | Enter
    | Tab
    | Backspace
    | Esc
    | Other
}
