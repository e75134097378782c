/** A byte stream as its reader sees it: what is still to come before the stream ends. */
module Streams {
  import opened Wrappers

  datatype ReadError = Eof | UnexpectedEof

  /** The outcome of a read of exactly n elements, and what it leaves. A short stream is consumed
      whole, and an end before the first element is told from an end in the middle. */
  function Full<T>(s: seq<T>, n: nat): (r: (Result<seq<T>, ReadError>, seq<T>))
    ensures r.0.Ok? ==> |r.0.value| == n
  {
    if |s| >= n then (Ok(s[..n]), s[n..]) else (Err(if |s| == 0 then Eof else UnexpectedEof), [])
  }

  /** A read of a part that was written first: all of it and what follows, or a short read. */
  lemma FullReadsBack<T>(part: seq<T>, rest: seq<T>, k: nat)
    requires k <= |part| + |rest|
    ensures var s := (part + rest)[..k];
      if k >= |part| then Full(s, |part|) == (Ok(part), rest[..k - |part|])
      else Full(s, |part|) == (Err(if k == 0 then Eof else UnexpectedEof), [])
  {
    var s := (part + rest)[..k];
    if k >= |part| {
      assert s[..|part|] == part && s[|part|..] == rest[..k - |part|];
    }
  }

  class Reader<T> {
    var rest: seq<T>

    constructor (elements: seq<T>)
      ensures rest == elements
    {
      rest := elements;
    }

    method ReadFull(n: nat) returns (r: Result<seq<T>, ReadError>)
      modifies this
      ensures (r, rest) == Full(old(rest), n)
    {
      if |rest| >= n {
        r := Ok(rest[..n]);
        rest := rest[n..];
      } else {
        r := Err(if |rest| == 0 then Eof else UnexpectedEof);
        rest := [];
      }
    }
  }
}
