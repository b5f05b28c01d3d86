/** Values shared by the three quiz screens. */
module Common {

  datatype Option<+T> = None | Some(value: T)

  /** The feedback banner every screen keeps in its state: whether it is
      shown and whether the last answer was right. */
  datatype Feedback = Feedback(visible: bool, correct: bool)

  /** The banner as every screen resets it, `{ visible: false, correct: false }`. */
  const Hidden: Feedback := Feedback(false, false)

  /** One point for a correct answer, none otherwise. */
  function Point(correct: bool): nat
  {
    if correct then 1 else 0
  }
}
