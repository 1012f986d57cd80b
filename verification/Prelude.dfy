/** Small shared vocabulary: optional values, results, bytes and ids. */
module Prelude {

  datatype Option<+T> = None | Some(value: T) {

    function GetOr(default: T): T {
      if Some? then value else default
    }
  }

  /** The outcome of a fallible conversion; the message is what a failed stream is answered with. */
  datatype Result<+T> = Ok(value: T) | Err(msg: string) {

    function GetOr(default: T): T {
      if Ok? then value else default
    }
  }

  newtype byte = x: int | 0 <= x < 256

  type Bytes = seq<byte>

  type Id = string

  ghost predicate Distinct<T(!new)>(s: seq<T>) {
    forall i, j :: 0 <= i < j < |s| ==> s[i] != s[j]
  }

  /** Places among n, each after the one before. */
  ghost predicate Ascending(at: seq<nat>, n: nat) {
    && (forall j :: 0 <= j < |at| ==> at[j] < n)
    && (forall j, k :: 0 <= j < k < |at| ==> at[j] < at[k])
  }
}
