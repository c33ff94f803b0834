/** The six states of a fiber (src/fiber/fiber.h:22-29). */
module FiberStates {
  datatype State = INIT | HOLD | EXEC | TERM | READY | EXCEPT {
    /** The fiber's function has returned or thrown. */
    predicate Dead() { TERM? || EXCEPT? }

    /** What `reset` and the destructor assert: the stack is not in use. */
    predicate Resettable() { Dead() || INIT? }
  }
}
