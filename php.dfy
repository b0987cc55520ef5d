/** The PHP runtime behaviour the tools rely on: null-coalescing and `?:`
    defaults, `empty()`, `min`/`max`, `strtolower`, the two ways the tools read
    the process environment, and `sprintf`'s numeric conversions, which are
    left abstract. */
module Php {

  datatype Option<+T> = None | Some(value: T)

  /** A tool's outcome when it fails by throwing rather than returning text. */
  datatype Result<+T> = Ok(value: T) | Err(message: string)

  /** `$v ?? $default`: absent and null both give the default. */
  function OrElse<T>(v: Option<T>, default: T): T
  {
    match v
    case Some(x) => x
    case None => default
  }

  /** The strings PHP treats as false: `""` and `"0"`. */
  predicate Falsy(s: string)
  {
    s == "" || s == "0"
  }

  /** `empty($v)` for a value that is a string or null. */
  predicate Empty(v: Option<string>)
  {
    v.None? || Falsy(v.value)
  }

  /** `!empty($v) ? $v : $placeholder`. */
  function NonEmptyOr(v: Option<string>, placeholder: string): (r: string)
    ensures Empty(v) ==> r == placeholder
    ensures !Empty(v) ==> r == v.value && !Falsy(r)
  {
    if Empty(v) then placeholder else v.value
  }

  function Max(a: int, b: int): (r: int)
    ensures r >= a && r >= b && (r == a || r == b)
  {
    if a >= b then a else b
  }

  function Min(a: int, b: int): (r: int)
    ensures r <= a && r <= b && (r == a || r == b)
  {
    if a <= b then a else b
  }

  /** `strtolower` on one character: only ASCII letters change. */
  function LowerChar(c: char): (r: char)
    ensures 'A' <= c <= 'Z' ==> r as int == c as int + 32
    ensures !('A' <= c <= 'Z') ==> r == c
    ensures !('A' <= r <= 'Z')
  {
    if 'A' <= c <= 'Z' then (c as int + 32) as char else c
  }

  /** `strtolower`. */
  function Lower(s: string): (r: string)
    ensures |r| == |s|
    ensures forall i :: 0 <= i < |s| ==> r[i] == LowerChar(s[i])
  {
    seq(|s|, i requires 0 <= i < |s| => LowerChar(s[i]))
  }

  predicate NoUpper(s: string)
  {
    forall i :: 0 <= i < |s| ==> !('A' <= s[i] <= 'Z')
  }

  /** A string without upper-case ASCII letters is its own lower case, and
      lower-casing leaves no upper-case letter behind. */
  lemma LowerFixesLowercase(s: string)
    ensures NoUpper(Lower(s))
    ensures NoUpper(s) ==> Lower(s) == s
  {
  }

  lemma LowerIdempotent(s: string)
    ensures Lower(Lower(s)) == Lower(s)
  {
    LowerFixesLowercase(s);
    LowerFixesLowercase(Lower(s));
  }

  /** What a tool sees of the process environment: the variables `getenv`
      returns, and the `$_ENV` superglobal, which PHP fills separately. */
  datatype Env = Env(process: map<string, string>, superglobal: map<string, string>)

  /** `getenv($name) ?: ''`: unset, `""` and `"0"` all give `""`. */
  function Getenv(env: Env, name: string): (r: string)
    ensures r == "" || (name in env.process && r == env.process[name] && !Falsy(r))
    ensures name in env.process && !Falsy(env.process[name]) ==> r == env.process[name]
  {
    if name in env.process && !Falsy(env.process[name]) then env.process[name] else ""
  }

  /** `$_ENV[$name] ?? ''`. */
  function EnvVar(env: Env, name: string): (r: string)
    ensures name in env.superglobal ==> r == env.superglobal[name]
    ensures name !in env.superglobal ==> r == ""
  {
    if name in env.superglobal then env.superglobal[name] else ""
  }

  /** The conversions of `sprintf` that depend on PHP's float formatting:
      `%.Nf` of a float, `%.Nf` of a string PHP first converts to a float, and
      `%s` of a float. They are parameters of the model, not defined in it. */
  datatype Printf = Printf(
    fixed: (real, nat) -> string,
    fixedText: (string, nat) -> string,
    show: real -> string)

  /** `%.Nf` of a database field read with `?? 0`. */
  function FixedOrZero(fmt: Printf, v: Option<string>, decimals: nat): string
  {
    match v
    case Some(s) => fmt.fixedText(s, decimals)
    case None => fmt.fixed(0.0, decimals)
  }
}
