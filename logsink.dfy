/** The event log the dashboard shows: newest entry first. Some writers cap it
    at 50 entries (`[newLog, ...prev].slice(0, 50)`), others prepend without a cap. */
module LogSink {
  import opened Types
  import opened Seqs

  const LogCap: nat := 50

  /** `[e, ...logs].slice(0, 50)`. */
  function Push(logs: seq<LogEntry>, e: LogEntry): (r: seq<LogEntry>)
    ensures |r| == if |logs| < LogCap then |logs| + 1 else LogCap
    ensures r[0] == e
    ensures r[1..] == logs[..|r| - 1]
  {
    Take([e] + logs, LogCap)
  }

  /** `[e, ...logs]`: the uncapped prepend. */
  function Prepend(logs: seq<LogEntry>, e: LogEntry): (r: seq<LogEntry>)
    ensures |r| == |logs| + 1 && r[0] == e && r[1..] == logs
  {
    [e] + logs
  }

  /** Pushing several entries one after the other. */
  function PushAll(logs: seq<LogEntry>, es: seq<LogEntry>): (r: seq<LogEntry>)
    ensures |es| == 0 ==> r == logs
    // After a push the log is capped and shows the last entry pushed first.
    ensures |es| > 0 ==> 1 <= |r| <= LogCap && r[0] == es[|es| - 1]
    decreases |es|
  {
    if |es| == 0 then logs else PushAll(Push(logs, es[0]), es[1..])
  }

  function Reversed(es: seq<LogEntry>): (r: seq<LogEntry>)
    ensures |r| == |es|
  {
    if |es| == 0 then [] else Reversed(es[1..]) + [es[0]]
  }

  /** Truncating after every push is the same as truncating once at the end:
      after at least one push the log holds the 50 newest entries, newest first. */
  lemma {:induction false} PushAllTruncatesOnce(logs: seq<LogEntry>, es: seq<LogEntry>)
    requires |es| > 0
    ensures PushAll(logs, es) == Take(Reversed(es) + logs, LogCap)
    ensures |PushAll(logs, es)| <= LogCap
    decreases |es|
  {
    if |es| > 1 {
      PushAllTruncatesOnce(Push(logs, es[0]), es[1..]);
      var rest := Reversed(es[1..]);
      assert Reversed(es) == rest + [es[0]];
      var a := Take(rest + Push(logs, es[0]), LogCap);
      var b := Take(Reversed(es) + logs, LogCap);
      assert |a| == |b|;
      forall i | 0 <= i < |a| ensures a[i] == b[i] {
        if i >= |rest| {
          assert a[i] == Push(logs, es[0])[i - |rest|];
          if i > |rest| {
            assert Push(logs, es[0])[i - |rest|] == Push(logs, es[0])[1..][i - |rest| - 1];
          }
        }
      }
    } else {
      assert Reversed(es) == [es[0]];
    }
  }

  /** At capacity, the entry at the oldest retained position (index 49) is dropped. */
  lemma PushAtCapacity(logs: seq<LogEntry>, e: LogEntry)
    requires |logs| >= LogCap
    ensures Push(logs, e) == [e] + logs[..LogCap - 1]
    ensures |Push(logs, e)| == LogCap
  {
    var r := Push(logs, e);
    assert r == [r[0]] + r[1..];
  }

  /** The notification dropdown: every entry whose severity is not `info`. */
  function Notifications(logs: seq<LogEntry>): (r: seq<LogEntry>)
    ensures forall e :: e in r <==> e in logs && e.severity != Info
    ensures IsSubsequence(r, logs)
    // Each such entry appears as often as in the log.
    ensures forall e :: multiset(r)[e] == if e.severity != Info then multiset(logs)[e] else 0
  {
    var p := (e: LogEntry) => e.severity != Info;
    FilterMultiset(logs, p);
    forall e ensures e in Filter(logs, p) <==> e in logs && p(e) {
      FilterMembership(logs, p, e);
    }
    FilterIsSubsequence(logs, p);
    Filter(logs, p)
  }
}
