/**
 * The browser's live log panel: every server-sent message is appended to a
 * buffer that keeps only the newest 50 lines.
 */
module LogStream {
  import opened Wrappers

  const Capacity := 50

  /** The last `n` elements of `s` (all of `s` when it is shorter), like `s.slice(-n)`. */
  function Last(s: seq<string>, n: nat): (r: seq<string>)
    ensures |r| == Min(|s|, n)
    ensures r == s[|s| - |r|..]
  {
    s[Max(|s| - n, 0)..]
  }

  /** The `onmessage` update `[...prevLogs.slice(-49), event.data]`. */
  function AppendLog(prev: seq<string>, message: string): (r: seq<string>)
    ensures |r| == Min(|prev| + 1, Capacity)
    ensures r[|r| - 1] == message
    ensures r[..|r| - 1] == prev[|prev| - (|r| - 1)..]
  {
    Last(prev, Capacity - 1) + [message]
  }

  /** The buffer after a series of messages, oldest first. */
  function Receive(prev: seq<string>, messages: seq<string>): seq<string>
    decreases |messages|
  {
    if |messages| == 0 then prev
    else AppendLog(Receive(prev, messages[..|messages| - 1]), messages[|messages| - 1])
  }

  /** A buffer that starts within 50 entries never exceeds 50. */
  lemma {:induction false} BufferStaysBounded(prev: seq<string>, messages: seq<string>)
    requires |prev| <= Capacity
    ensures |Receive(prev, messages)| <= Capacity
    decreases |messages|
  {
    if |messages| > 0 {
      BufferStaysBounded(prev, messages[..|messages| - 1]);
    }
  }

  /**
   * After at least one message the buffer is exactly the newest 50 lines of
   * everything seen, whatever it held before.
   */
  lemma {:induction false} BufferIsNewestFifty(prev: seq<string>, messages: seq<string>)
    requires |messages| > 0
    ensures Receive(prev, messages) == Last(prev + messages, Capacity)
    decreases |messages|
  {
    var init := messages[..|messages| - 1];
    var m := messages[|messages| - 1];
    var all := prev + messages;
    assert all == (prev + init) + [m];
    if |init| == 0 {
      assert Receive(prev, init) == prev;
      LastOfAppend(prev, m);
    } else {
      BufferIsNewestFifty(prev, init);
      var b := Last(prev + init, Capacity);
      assert Last(b, Capacity - 1) == Last(prev + init, Capacity - 1);
      LastOfAppend(prev + init, m);
    }
  }

  /** Appending to the newest 49 gives the newest 50 of the extended log. */
  lemma LastOfAppend(s: seq<string>, m: string)
    ensures Last(s, Capacity - 1) + [m] == Last(s + [m], Capacity)
  {
    var t := s + [m];
    assert t[Max(|t| - Capacity, 0)..] == s[Max(|s| - (Capacity - 1), 0)..] + [m];
  }
}
