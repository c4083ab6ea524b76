/**
 * The dictionary docopt returns: every option, flag, command and positional
 * argument named in a usage text maps to a value of one of four shapes.
 */
module DocoptArgs {
  import opened Wrappers
  import PyStr

  /** A flag or command (`bool`), an option or positional (`None` or `str`),
      a repeated positional (`list`), or a counted flag (`int`). */
  datatype ArgValue = Flag(on: bool) | Value(text: Option<string>) | Values(items: seq<string>) | Count(times: nat)

  /** Python truthiness of a docopt value. */
  predicate Truthy(v: ArgValue) {
    match v
    case Flag(b) => b
    case Value(t) => PyStr.Truthy(t)
    case Values(xs) => xs != []
    case Count(n) => n != 0
  }

  predicate IsValue(args: map<string, ArgValue>, key: string) {
    key in args && args[key].Value?
  }

  predicate IsValues(args: map<string, ArgValue>, key: string) {
    key in args && args[key].Values?
  }
}
