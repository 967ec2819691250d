// template.go: a template's identity, its one-slot dirty channel and its rendered content.
// A template's text is modelled by the strategy it follows while executing: from the
// answers its recalls got so far, it decides the next recall, or to finish, or to fail.

module Templates {
  import opened Storing

  type Content = string

  datatype Step =
    | Done(content: Content)
    | Fail
    | Ask(dep: Id)

  /** `step` sees the answers so far, `None` standing for a cache miss. */
  datatype Program = Program(step: seq<Option<Value>> -> Step, bound: nat) {
    /** No execution recalls more than `bound` times. */
    ghost predicate Finite() {
      forall h: seq<Option<Value>> :: |h| >= bound ==> !step(h).Ask?
    }
  }

  class Template {
    const id: Id
    const program: Program
    // the one-slot `dirty` channel: full or empty
    var dirty: bool
    // the content of the last successful render
    var content: Content

    /** A new template is primed to run once. */
    constructor (id: Id, program: Program)
      ensures this.id == id && this.program == program
      ensures dirty && content == ""
    {
      this.id, this.program := id, program;
      dirty, content := false, "";
      new;
      var _ := Notify();
    }

    method Notify() returns (accepted: bool)
      modifies this`dirty
      ensures dirty && accepted
    {
      if !dirty {
        dirty := true;
      }
      accepted := true;
    }

    /** Checks and clears the dirty flag. */
    method IsDirty() returns (was: bool)
      modifies this`dirty
      ensures was == old(dirty) && !dirty
    {
      was := dirty;
      if was {
        dirty := false;
      }
    }
  }
}
