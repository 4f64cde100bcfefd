/**
 * The service's rolling log of service.py: a `deque(maxlen=50)` shared with
 * the logging handler that appends every formatted line to it
 * (`ListHandler`, which also pops from the left past its own limit of 100).
 */
module LogBuffer {

  /** The newest `n` elements of `s`: what a deque bounded by `n` keeps. */
  function LastN<T>(s: seq<T>, n: nat): (r: seq<T>)
    ensures |r| <= n && |r| <= |s|
    ensures r == s[|s| - |r|..]
    ensures |s| <= n ==> r == s
    ensures |s| > n ==> |r| == n
  {
    if |s| <= n then s else s[|s| - n..]
  }

  /** Appending to a bounded deque and then trimming equals trimming the whole history once. */
  lemma LastNAppend<T>(s: seq<T>, x: T, n: nat)
    ensures LastN(LastN(s, n) + [x], n) == LastN(s + [x], n)
  {
    var t := LastN(s, n);
    if |s| > n && n > 0 {
      assert (t + [x])[1..] == s[|s| - n + 1..] + [x];
      assert (s + [x])[|s| + 1 - n..] == s[|s| - n + 1..] + [x];
    }
  }

  /** The newest line is always last, and a non-empty history keeps at least it. */
  lemma LastNNewest<T>(s: seq<T>, x: T, n: nat)
    requires n > 0
    ensures |LastN(s + [x], n)| > 0 && LastN(s + [x], n)[|LastN(s + [x], n)| - 1] == x
  {
  }

  /** `collections.deque` with a `maxlen`. */
  class LogDeque {
    var items: seq<string>
    const maxLen: nat

    constructor (maxLen: nat)
      ensures this.maxLen == maxLen && items == []
    {
      this.maxLen := maxLen;
      items := [];
    }

    /** `append`: a full deque drops its oldest element first. */
    method Append(x: string)
      modifies this
      ensures items == LastN(old(items) + [x], maxLen)
    {
      items := LastN(items + [x], maxLen);
    }

    /** `popleft` on a non-empty deque. */
    method PopLeft() returns (x: string)
      requires items != []
      modifies this
      ensures x == old(items)[0] && items == old(items)[1..]
    {
      x := items[0];
      items := items[1..];
    }
  }

  function Min(a: nat, b: nat): nat {
    if a <= b then a else b
  }

  /** `ListHandler`: appends each formatted line to the shared deque. */
  class ListHandler {
    const logList: LogDeque
    const maxLen: nat
    /** Every line emitted so far, oldest first. */
    ghost var emitted: seq<string>

    /** The deque holds the newest lines emitted, as many as the smaller of the two bounds allows. */
    ghost predicate Valid()
      reads this, logList
    {
      logList.items == LastN(emitted, Min(logList.maxLen, maxLen))
    }

    constructor (logList: LogDeque, maxLen: nat := 100)
      requires logList.items == []
      ensures this.logList == logList && this.maxLen == maxLen && emitted == []
      ensures Valid()
    {
      this.logList := logList;
      this.maxLen := maxLen;
      emitted := [];
    }

    /**
     * `emit`: append, then pop from the left past the handler's limit. When
     * the deque's own bound is the smaller one, the pop never happens.
     */
    method Emit(msg: string)
      requires Valid()
      modifies this, logList
      ensures Valid()
      ensures emitted == old(emitted) + [msg]
      ensures logList.maxLen <= maxLen ==> logList.items == LastN(old(logList.items) + [msg], logList.maxLen)
    {
      ghost var bound := Min(logList.maxLen, maxLen);
      logList.Append(msg);
      LastNAppend(emitted, msg, bound);
      emitted := emitted + [msg];
      if |logList.items| > maxLen {
        var _ := logList.PopLeft();
      }
    }
  }
}
