/** What every module uses. */
module Basics {
  datatype Option<T> = None | Some(value: T)

  function Least(a: int, b: int): int {
    if a < b then a else b
  }

  /** A large fact is stated for every k that is Unlocked, so that a proof gets it only
      where it says assert Unlocked(0). */
  ghost predicate Unlocked(k: int) {
    true
  }
}
