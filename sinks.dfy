/**
 * The file objects the terminal library writes to (`sys.stdout`, `sys.stderr`, or any
 * object with `write` and `flush`). Only what the library can observe is kept: the text
 * written so far and how many times the stream was flushed.
 */
module Sinks {

  /** What a stream has received: its text, and the number of flushes. */
  datatype SinkState = SinkState(text: string, flushes: nat)

  /** The state after `write(s)`: `s` is appended, nothing else changes. */
  function Written(st: SinkState, s: string): (r: SinkState)
    ensures |r.text| == |st.text| + |s|
    ensures r.text[..|st.text|] == st.text && r.text[|st.text|..] == s
    ensures r.flushes == st.flushes
  {
    st.(text := st.text + s)
  }

  /** The state after `flush()`: one more flush, the text as it was. */
  function Flushed(st: SinkState): (r: SinkState)
    ensures r.text == st.text && r.flushes == st.flushes + 1
  {
    st.(flushes := st.flushes + 1)
  }

  /** Writing twice is writing the concatenation. */
  lemma WrittenTwice(st: SinkState, a: string, b: string)
    ensures Written(Written(st, a), b) == Written(st, a + b)
  {
    assert st.text + a + b == st.text + (a + b);
  }

  class Sink {
    var text: string
    var flushes: nat

    function State(): SinkState
      reads this
    {
      SinkState(text, flushes)
    }

    /** A fresh stream that has received nothing. */
    constructor()
      ensures State() == SinkState([], 0)
    {
      text := [];
      flushes := 0;
    }

    method Write(s: string)
      modifies this
      ensures State() == Written(old(State()), s)
    {
      text := text + s;
    }

    method Flush()
      modifies this
      ensures State() == Flushed(old(State()))
    {
      flushes := flushes + 1;
    }
  }
}
