/**
 * `CLI`: the command-line flags as five class-level booleans (`-v`, `-V`,
 * `-q`, `-Q`, `hello`), overwritten together by one setter. The setter
 * stores any combination; excluding `-v` with `-q` is left to the usage
 * text of the argument parser.
 */
module CliInputArgs {

  class Cli {
    var v: bool
    var V: bool
    var q: bool
    var Q: bool
    var hello: bool

    /** The class body: every flag starts False. */
    constructor ()
      ensures !v && !V && !q && !Q && !hello
    {
      v, V, q, Q, hello := false, false, false, false, false;
    }

    /**
     * `set_cli_input_args`: each flag becomes its argument, whatever it was
     * before; called without arguments it resets every flag to False.
     */
    method SetCliInputArgs(v: bool := false, V: bool := false, q: bool := false, Q: bool := false, hello: bool := false)
      modifies this
      ensures this.v == v && this.V == V && this.q == q && this.Q == Q && this.hello == hello
    {
      this.v := v;
      this.V := V;
      this.q := q;
      this.Q := Q;
      this.hello := hello;
    }
  }
}
