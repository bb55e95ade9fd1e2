/** Option and Result, the two failure-carrying shapes the Rust code uses
    (`Option<T>` and `Result<T, E>`), and one fact about sequence prefixes. */
module Basics {

  datatype Option<+T> = None | Some(value: T)

  datatype Result<+T, +E> = Ok(value: T) | Err(error: E)

  /** A common head keeps one sequence a prefix of another. */
  lemma PrefixConcat<T>(a: seq<T>, b: seq<T>, c: seq<T>)
    requires b <= c
    ensures a + b <= a + c
  {
    assert (a + c)[..|a + b|] == a + b;
  }
}
