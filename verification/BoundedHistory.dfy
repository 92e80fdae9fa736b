/** The bounded history kept by both the debug probe and the key generator: append, then
    re-slice to the last MAX_HISTORY entries. */
module BoundedHistory {

  const MAX_HISTORY: nat := 20

  /** The last `n` elements of an unbounded log, or all of it while it is shorter. */
  function LastN<T>(n: nat, log: seq<T>): (window: seq<T>)
    ensures |window| == if |log| < n then |log| else n
    ensures window == log[|log| - |window|..]
  {
    if |log| <= n then log else log[|log| - n..]
  }

  /** What the source does to its slice: append one entry, keep the tail if it grew too long. */
  function AppendAndTrim<T>(n: nat, history: seq<T>, entry: T): seq<T> {
    var grown := history + [entry];
    if |grown| > n then grown[|grown| - n..] else grown
  }

  /** Trimming after every append never loses anything a window over the whole log would keep. */
  lemma AppendKeepsWindow<T>(n: nat, log: seq<T>, entry: T)
    ensures AppendAndTrim(n, LastN(n, log), entry) == LastN(n, log + [entry])
  {
    var window := LastN(n, log);
    if |window| + 1 > n {
      assert |(window + [entry])| - n == 0 || |window| == n;
      assert (log + [entry])[|log| + 1 - n..] == AppendAndTrim(n, window, entry);
    } else {
      assert window == log;
    }
  }
}
