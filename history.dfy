/** The session's research history: records of successful reports and their display order. */
module History {

  /** One saved report, as `save_report_to_history` builds it. */
  datatype HistoryEntry = HistoryEntry(topic: string, report: string, timestamp: string)

  /** `reversed(history)`: the order in which the history is displayed, most recent first. */
  function NewestFirst<T>(h: seq<T>): (v: seq<T>)
    ensures |v| == |h|
    ensures forall i :: 0 <= i < |h| ==> v[i] == h[|h| - 1 - i]
  {
    if |h| == 0 then [] else [h[|h| - 1]] + NewestFirst(h[..|h| - 1])
  }

  /** The entry saved last is displayed first, ahead of everything displayed before. */
  lemma NewestFirstAppend<T>(h: seq<T>, e: T)
    ensures NewestFirst(h + [e]) == [e] + NewestFirst(h)
  {
  }

  /** Displaying the display order again gives back insertion order. */
  lemma NewestFirstInvolutive<T>(h: seq<T>)
    ensures NewestFirst(NewestFirst(h)) == h
  {
  }

  /** Entries appended in order A, B, C are displayed as C, B, A. */
  lemma NewestFirstThree<T>(a: T, b: T, c: T)
    ensures NewestFirst([a, b, c]) == [c, b, a]
  {
  }
}
