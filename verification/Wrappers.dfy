/** Option, Result, string joining and the few sequence facts used throughout the model. */
module Wrappers {

  datatype Option<+T> = None | Some(value: T)

  datatype Result<+T, +E> = Ok(value: T) | Err(error: E)

  /** The update, or what was there if it sets nothing. */
  function Newer<T>(update: Option<T>, current: Option<T>): Option<T> {
    if update.Some? then update else current
  }

  /** `strings.Join(parts, "")`. */
  function Join(parts: seq<string>): string {
    if parts == [] then "" else Join(parts[..|parts| - 1]) + parts[|parts| - 1]
  }

  lemma JoinSnoc(parts: seq<string>, part: string)
    ensures Join(parts + [part]) == Join(parts) + part
  {
  }

  // Facts about sequences, kept apart so that proofs need not rediscover them.

  lemma Associate<T>(a: seq<T>, b: seq<T>, c: seq<T>)
    ensures (a + b) + c == a + (b + c)
  {
  }

  lemma LastOf<T>(s: seq<T>)
    requires s != []
    ensures s[..|s| - 1] + [s[|s| - 1]] == s
  {
  }

  lemma Unit<T>(s: seq<T>)
    ensures s + [] == s && [] + s == s
  {
  }
}
