/**
 * The profiler's accumulator (ProfilingState): for every profiled method, the
 * total time spent in it and, per calling thread, the number of calls; and the
 * text report written from them.
 *
 * A java.time.Duration is a whole number of nanoseconds, so durations are nat
 * nanoseconds here; no floating point is involved. The report is the text the
 * writer receives, with the line separator fixed as "\n".
 */
module Profiler {
  import opened Wrappers
  import opened JavaStrings
  import opened Sequences

  const NanosPerMilli: nat := 1_000_000
  const NanosPerSecond: nat := 1_000_000_000

  // ---------------------------------------------------------------------------
  // Formatting helpers

  /** formatMethodCall: the key "className#methodName" of a profiled method. */
  function FormatMethodCall(className: string, methodName: string): (key: string)
    ensures |key| == |className| + 1 + |methodName|
    ensures key[..|className|] == className && key[|className|] == '#'
    ensures key[|className| + 1..] == methodName
  {
    className + "#" + methodName
  }

  /** In a key whose class name holds no '#', the first '#' is right after the class name. */
  lemma FirstHashEndsClassName(className: string, methodName: string)
    requires '#' !in className
    ensures forall k :: 0 <= k < |className| ==> FormatMethodCall(className, methodName)[k] != '#'
  {
    var key := FormatMethodCall(className, methodName);
    forall k | 0 <= k < |className| ensures key[k] != '#' {
      assert key[k] == key[..|className|][k] == className[k];
    }
  }

  /** Java class names hold no '#', so two methods share a key only if they have the same class and name. */
  lemma FormatMethodCallInjective(c1: string, m1: string, c2: string, m2: string)
    requires '#' !in c1 && '#' !in c2
    requires FormatMethodCall(c1, m1) == FormatMethodCall(c2, m2)
    ensures c1 == c2 && m1 == m2
  {
    FirstHashEndsClassName(c1, m1);
    FirstHashEndsClassName(c2, m2);
    assert |c1| == |c2|;
  }

  /** Duration.toMinutes, toSecondsPart and toMillisPart. */
  datatype DurationParts = DurationParts(minutes: nat, seconds: nat, millis: nat)

  /** The display fields of a duration: whole minutes, then the seconds and millis within them. */
  function Parts(nanos: nat): (p: DurationParts)
    ensures p.seconds < 60 && p.millis < 1000
    ensures (p.minutes * 60 + p.seconds) * 1000 + p.millis == nanos / NanosPerMilli
  {
    var totalSeconds := nanos / NanosPerSecond;
    var p := DurationParts(totalSeconds / 60, totalSeconds % 60, (nanos % NanosPerSecond) / NanosPerMilli);
    PartsSum(nanos, totalSeconds, p);
    p
  }

  lemma PartsSum(nanos: nat, totalSeconds: nat, p: DurationParts)
    requires totalSeconds == nanos / NanosPerSecond
    requires p == DurationParts(totalSeconds / 60, totalSeconds % 60, (nanos % NanosPerSecond) / NanosPerMilli)
    ensures (p.minutes * 60 + p.seconds) * 1000 + p.millis == nanos / NanosPerMilli
  {
    var rest := nanos % NanosPerSecond;
    assert nanos == totalSeconds * NanosPerSecond + rest;
    assert p.minutes * 60 + p.seconds == totalSeconds;
    assert rest == (rest / NanosPerMilli) * NanosPerMilli + rest % NanosPerMilli;
    assert nanos == (totalSeconds * 1000 + rest / NanosPerMilli) * NanosPerMilli + rest % NanosPerMilli;
    DivByMilli(totalSeconds * 1000 + rest / NanosPerMilli, rest % NanosPerMilli);
  }

  lemma DivByMilli(q: nat, r: nat)
    requires r < NanosPerMilli
    ensures (q * NanosPerMilli + r) / NanosPerMilli == q
  {
  }

  /** formatDuration: "<minutes>m <seconds>s <millis>ms". */
  function FormatDuration(nanos: nat): string {
    var p := Parts(nanos);
    NatToString(p.minutes) + "m " + NatToString(p.seconds) + "s " + NatToString(p.millis) + "ms"
  }

  /** Duration.dividedBy with a zero count replaced by 1: truncating division of the nanoseconds. */
  function Average(total: nat, calls: nat): (avg: nat)
    ensures var d := if calls == 0 then 1 else calls; avg * d <= total < (avg + 1) * d
  {
    total / (if calls == 0 then 1 else calls)
  }

  // ---------------------------------------------------------------------------
  // The table of recorded data

  /** methodDurations and threadCallCounts, as values. */
  datatype Table = Table(durations: map<string, nat>, threadCounts: map<string, map<int, nat>>)

  const EmptyTable := Table(map[], map[])

  /** The thread counters of a key: threadCallCounts.getOrDefault(key, Map.of()). */
  function ThreadsOf(t: Table, key: string): map<int, nat> {
    if key in t.threadCounts then t.threadCounts[key] else map[]
  }

  /** A key's total duration, 0 before its first record. */
  function TotalOf(t: Table, key: string): nat {
    if key in t.durations then t.durations[key] else 0
  }

  /** The calls a thread made to a key, 0 before its first record. */
  function CallsOf(t: Table, key: string, threadId: int): nat {
    var threads := ThreadsOf(t, key);
    if threadId in threads then threads[threadId] else 0
  }

  /**
   * A thread map that is not empty has a thread. It and HasKey are stated once
   * per type because a generic version, over boxed values, does not give the
   * solver a witness for the `:|` choices that use them.
   */
  lemma HasThread(m: map<int, nat>)
    requires m != map[]
    ensures exists k :: k in m
  {
    if forall k :: k !in m {
      assert false;
    }
  }

  /** A set of keys that is not empty has a key; see HasThread for why it is not generic. */
  lemma HasKey(s: set<string>)
    requires s != {}
    ensures exists k :: k in s
  {
    if forall k :: k !in s {
      assert false;
    }
  }

  /** The sum of the counters of a thread map. */
  ghost function MapSum(m: map<int, nat>): nat
    decreases |m|
  {
    if m == map[] then 0
    else
      HasThread(m);
      var k :| k in m;
      assert |m - {k}| < |m| by { assert (m - {k}).Keys == m.Keys - {k}; }
      m[k] + MapSum(m - {k})
  }

  /** The sum may be split at any key. */
  lemma {:induction false} MapSumRemove(m: map<int, nat>, k: int)
    requires k in m
    ensures MapSum(m) == m[k] + MapSum(m - {k})
    decreases |m|
  {
    var j :| j in m && MapSum(m) == m[j] + MapSum(m - {j});
    if j != k {
      assert (m - {j}).Keys == m.Keys - {j};
      assert (m - {k}).Keys == m.Keys - {k};
      MapSumRemove(m - {j}, k);
      MapSumRemove(m - {k}, j);
      assert (m - {j}) - {k} == (m - {k}) - {j};
    }
  }

  /** Incrementing one counter adds exactly one to the sum. */
  lemma MapSumIncrement(m: map<int, nat>, k: int)
    ensures MapSum(m[k := (if k in m then m[k] else 0) + 1]) == MapSum(m) + 1
  {
    var m' := m[k := (if k in m then m[k] else 0) + 1];
    MapSumRemove(m', k);
    if k in m {
      MapSumRemove(m, k);
      assert m' - {k} == m - {k};
    } else {
      assert m' - {k} == m;
    }
  }

  /** The number of calls recorded for a key: the sum of its thread counters. */
  ghost function TotalCalls(t: Table, key: string): nat {
    MapSum(ThreadsOf(t, key))
  }

  /** The IllegalArgumentException record throws. */
  datatype IllegalArgument = IllegalArgument(message: string)

  const NegativeElapsed := IllegalArgument("negative elapsed time")

  /**
   * record, as a function of the table: a negative duration is refused and
   * changes nothing; otherwise the key's total grows by the duration and the
   * (key, thread) counter by one, and nothing else changes.
   */
  function Recorded(t: Table, key: string, elapsed: int, threadId: int): (r: Result<Table, IllegalArgument>)
    ensures r.Failure? <==> elapsed < 0
    ensures r.Failure? ==> r.error == NegativeElapsed
    ensures r.Success? ==>
      && r.value.durations.Keys == t.durations.Keys + {key}
      && r.value.threadCounts.Keys == t.threadCounts.Keys + {key}
      && (forall k :: TotalOf(r.value, k) == TotalOf(t, k) + (if k == key then elapsed else 0))
      && (forall k, th :: CallsOf(r.value, k, th) == CallsOf(t, k, th) + (if k == key && th == threadId then 1 else 0))
      && ThreadsOf(r.value, key).Keys == ThreadsOf(t, key).Keys + {threadId}
      && (forall k :: k != key ==> ThreadsOf(r.value, k) == ThreadsOf(t, k))
  {
    if elapsed < 0 then Failure(NegativeElapsed)
    else
      var threads := ThreadsOf(t, key);
      var calls := if threadId in threads then threads[threadId] else 0;
      Success(Table(t.durations[key := TotalOf(t, key) + elapsed],
                    t.threadCounts[key := threads[threadId := calls + 1]]))
  }

  /** A successful record adds exactly one call to its key's total and none to any other key's. */
  lemma RecordedCountsOneCall(t: Table, key: string, elapsed: int, threadId: int)
    requires elapsed >= 0
    ensures TotalCalls(Recorded(t, key, elapsed, threadId).value, key) == TotalCalls(t, key) + 1
    ensures forall k :: k != key ==> TotalCalls(Recorded(t, key, elapsed, threadId).value, k) == TotalCalls(t, k)
  {
    MapSumIncrement(ThreadsOf(t, key), threadId);
  }

  /** One call to record. */
  datatype Call = Call(className: string, methodName: string, elapsed: int, threadId: int)

  function KeyOf(c: Call): string {
    FormatMethodCall(c.className, c.methodName)
  }

  /** The table after a series of record calls; a refused call leaves it as it was. */
  function RecordAll(t: Table, calls: seq<Call>): Table
    decreases |calls|
  {
    if calls == [] then t
    else
      var c := calls[0];
      var next := match Recorded(t, KeyOf(c), c.elapsed, c.threadId)
        case Success(t') => t'
        case Failure(_) => t;
      RecordAll(next, calls[1..])
  }

  /** The time of the accepted calls to a key. */
  function ElapsedFor(calls: seq<Call>, key: string): nat {
    if calls == [] then 0
    else (if KeyOf(calls[0]) == key && calls[0].elapsed >= 0 then calls[0].elapsed else 0) + ElapsedFor(calls[1..], key)
  }

  /** The number of accepted calls to a key. */
  function CountFor(calls: seq<Call>, key: string): nat {
    if calls == [] then 0
    else (if KeyOf(calls[0]) == key && calls[0].elapsed >= 0 then 1 else 0) + CountFor(calls[1..], key)
  }

  /**
   * After a series of records, a key's total is its old total plus the time of
   * its accepted calls, and its thread counters sum to its old count plus the
   * number of those calls.
   */
  lemma {:induction false} RecordAllTotals(t: Table, calls: seq<Call>, key: string)
    ensures TotalOf(RecordAll(t, calls), key) == TotalOf(t, key) + ElapsedFor(calls, key)
    ensures TotalCalls(RecordAll(t, calls), key) == TotalCalls(t, key) + CountFor(calls, key)
    decreases |calls|
  {
    if calls != [] {
      var c := calls[0];
      var r := Recorded(t, KeyOf(c), c.elapsed, c.threadId);
      if r.Success? {
        RecordedCountsOneCall(t, KeyOf(c), c.elapsed, c.threadId);
        RecordAllTotals(r.value, calls[1..], key);
      } else {
        RecordAllTotals(t, calls[1..], key);
      }
    }
  }

  /** Record the same method three times for one second each: the total is three seconds over three calls. */
  lemma ThreeOneSecondCalls(className: string, methodName: string, threadId: int)
    ensures var c := Call(className, methodName, NanosPerSecond, threadId);
      var t := RecordAll(EmptyTable, [c, c, c]);
      var key := FormatMethodCall(className, methodName);
      && TotalOf(t, key) == 3 * NanosPerSecond
      && FormatDuration(TotalOf(t, key)) == "0m 3s 0ms"
      && TotalCalls(t, key) == 3
  {
    var c := Call(className, methodName, NanosPerSecond, threadId);
    var key := FormatMethodCall(className, methodName);
    RecordAllTotals(EmptyTable, [c, c, c], key);
    assert [c, c, c][1..] == [c, c];
    assert [c, c][1..] == [c];
    assert [c][1..] == [];
    assert KeyOf(c) == key;
    assert ElapsedFor([c], key) == NanosPerSecond && CountFor([c], key) == 1;
    assert ElapsedFor([c, c], key) == 2 * NanosPerSecond && CountFor([c, c], key) == 2;
    assert ElapsedFor([c, c, c], key) == 3 * NanosPerSecond && CountFor([c, c, c], key) == 3;
    assert TotalCalls(EmptyTable, key) == MapSum(map[]) == 0;
    assert Parts(3 * NanosPerSecond) == DurationParts(0, 3, 0);
    assert NatToString(0) == "0" && NatToString(3) == "3";
  }

  /** Every key has both a total and thread counters, and at least one recorded call. */
  ghost predicate Consistent(t: Table) {
    && t.durations.Keys == t.threadCounts.Keys
    && forall k :: k in t.threadCounts ==> TotalCalls(t, k) > 0
  }

  lemma RecordedKeepsConsistent(t: Table, key: string, elapsed: int, threadId: int)
    requires Consistent(t) && elapsed >= 0
    ensures Consistent(Recorded(t, key, elapsed, threadId).value)
  {
    RecordedCountsOneCall(t, key, elapsed, threadId);
  }

  /** Every table a series of records produces is consistent. */
  lemma {:induction false} RecordAllConsistent(t: Table, calls: seq<Call>)
    requires Consistent(t)
    ensures Consistent(RecordAll(t, calls))
    decreases |calls|
  {
    if calls != [] {
      var c := calls[0];
      var r := Recorded(t, KeyOf(c), c.elapsed, c.threadId);
      if r.Success? {
        RecordedKeepsConsistent(t, KeyOf(c), c.elapsed, c.threadId);
        RecordAllConsistent(r.value, calls[1..]);
      } else {
        RecordAllConsistent(t, calls[1..]);
      }
    }
  }

  // ---------------------------------------------------------------------------
  // The report

  /** The first line of a key's block; the call count appears only when it is positive. */
  function Header(key: string, total: nat, calls: nat): string {
    key + " took " + FormatDuration(total)
    + (if calls > 0 then " (called " + NatToString(calls) + " times)" else "")
    + "\n"
  }

  /** One thread's line; its average is the key's total over this thread's calls. */
  function ThreadLine(total: nat, threadId: int, calls: nat): string {
    "[Thread ID: " + IntToString(threadId) + " (called " + NatToString(calls) + " times)]"
    + " - Average duration: " + FormatDuration(Average(total, calls))
    + "\n"
  }

  function ThreadLines(total: nat, threads: map<int, nat>, order: seq<int>): string
    requires forall i :: 0 <= i < |order| ==> order[i] in threads
  {
    if order == [] then ""
    else
      var last := order[|order| - 1];
      ThreadLines(total, threads, order[..|order| - 1]) + ThreadLine(total, last, threads[last])
  }

  /** A key of the report and the order in which its threads were written. */
  datatype Section = Section(key: string, threads: seq<int>)

  /** The section is of a recorded key and lists each of its threads once. */
  ghost predicate Fits(t: Table, s: Section) {
    s.key in t.durations && Enumerates(s.threads, ThreadsOf(t, s.key).Keys)
  }

  function KeysOf(sections: seq<Section>): (keys: seq<string>)
    ensures |keys| == |sections| && forall i :: 0 <= i < |sections| ==> keys[i] == sections[i].key
  {
    seq(|sections|, i requires 0 <= i < |sections| => sections[i].key)
  }

  /** The sections list every recorded key once, each with every one of its threads once. */
  ghost predicate Covers(t: Table, sections: seq<Section>) {
    && Enumerates(KeysOf(sections), t.durations.Keys)
    && forall i :: 0 <= i < |sections| ==> Fits(t, sections[i])
  }

  /** The block written for one key: header, one line per thread, blank line. */
  ghost function KeyBlock(t: Table, s: Section): string
    requires Fits(t, s)
  {
    var total := t.durations[s.key];
    Header(s.key, total, TotalCalls(t, s.key)) + ThreadLines(total, ThreadsOf(t, s.key), s.threads) + "\n"
  }

  /** The whole text write produces, for the given iteration order. */
  ghost function Report(t: Table, sections: seq<Section>): string
    requires forall i :: 0 <= i < |sections| ==> Fits(t, sections[i])
  {
    if sections == [] then ""
    else Report(t, sections[..|sections| - 1]) + KeyBlock(t, sections[|sections| - 1])
  }

  /** In a table built by record calls, every key's header reports its call count. */
  lemma HeaderReportsCalls(t: Table, key: string)
    requires Consistent(t) && key in t.durations
    ensures Header(key, t.durations[key], TotalCalls(t, key)) ==
      key + " took " + FormatDuration(t.durations[key])
      + " (called " + NatToString(TotalCalls(t, key)) + " times)" + "\n"
  {
  }

  /** Totals the thread counters of a key, as the stream sum in write does. */
  method SumCalls(threads: map<int, nat>) returns (total: nat)
    ensures total == MapSum(threads)
  {
    total := 0;
    var rest := threads;
    while rest != map[]
      invariant total + MapSum(rest) == MapSum(threads)
      decreases |rest|
    {
      HasThread(rest);
      var threadId :| threadId in rest;
      MapSumRemove(rest, threadId);
      total := total + rest[threadId];
      assert (rest - {threadId}).Keys == rest.Keys - {threadId};
      rest := rest - {threadId};
    }
  }

  /**
   * Part way through the thread lines of one key: the threads still pending are
   * exactly those not yet written, and the lines are those of the threads written.
   */
  ghost predicate LinesProgress(total: nat, threads: map<int, nat>, rest: map<int, nat>,
                                order: seq<int>, lines: string) {
    && (forall k :: k in rest ==> k in threads && rest[k] == threads[k])
    && (forall k :: k in threads ==> (k in rest <==> k !in order))
    && NoDup(order)
    && (forall i :: 0 <= i < |order| ==> order[i] in threads)
    && lines == ThreadLines(total, threads, order)
  }

  lemma LinesStep(total: nat, threads: map<int, nat>, rest: map<int, nat>,
                  order: seq<int>, lines: string, threadId: int)
    requires LinesProgress(total, threads, rest, order, lines)
    requires threadId in rest
    ensures LinesProgress(total, threads, rest - {threadId}, order + [threadId],
                          lines + ThreadLine(total, threadId, rest[threadId]))
  {
    var order' := order + [threadId];
    assert order'[..|order|] == order;
    assert threadId !in order;
    NoDupConcat(order, [threadId]);
    forall k | k in threads ensures k in rest - {threadId} <==> k !in order' {
      assert k in order' <==> k in order || k == threadId;
    }
  }

  lemma LinesDone(total: nat, threads: map<int, nat>, order: seq<int>, lines: string)
    requires LinesProgress(total, threads, map[], order, lines)
    ensures Enumerates(order, threads.Keys)
  {
  }

  /** Writes one line per thread, in the map's iteration order, which it also returns. */
  method WriteThreadLines(total: nat, threads: map<int, nat>) returns (lines: string, ghost order: seq<int>)
    ensures Enumerates(order, threads.Keys)
    ensures forall i :: 0 <= i < |order| ==> order[i] in threads
    ensures lines == ThreadLines(total, threads, order)
  {
    lines, order := "", [];
    var rest := threads;
    while rest != map[]
      invariant LinesProgress(total, threads, rest, order, lines)
      decreases |rest|
    {
      HasThread(rest);
      var threadId :| threadId in rest;
      LinesStep(total, threads, rest, order, lines, threadId);
      lines := lines + ThreadLine(total, threadId, rest[threadId]);
      order := order + [threadId];
      assert (rest - {threadId}).Keys == rest.Keys - {threadId};
      rest := rest - {threadId};
    }
    LinesDone(total, threads, order, lines);
  }

  /** Appending a section appends its block to the report. */
  lemma ReportAppend(t: Table, sections: seq<Section>, s: Section)
    requires forall i :: 0 <= i < |sections| ==> Fits(t, sections[i])
    requires Fits(t, s)
    ensures forall i :: 0 <= i < |sections + [s]| ==> Fits(t, (sections + [s])[i])
    ensures Report(t, sections + [s]) == Report(t, sections) + KeyBlock(t, s)
  {
    assert (sections + [s])[..|sections|] == sections;
  }

  /**
   * Part way through write: the keys still pending are exactly those without a
   * section, and the text is the report of the sections written so far.
   */
  ghost predicate WriteProgress(t: Table, pending: set<string>, sections: seq<Section>, text: string) {
    && pending <= t.durations.Keys
    && (forall i :: 0 <= i < |sections| ==> Fits(t, sections[i]))
    && NoDup(KeysOf(sections))
    && (forall k :: k in t.durations ==> (k in pending <==> k !in KeysOf(sections)))
    && (forall k :: k in KeysOf(sections) ==> k in t.durations)
    && text == Report(t, sections)
  }

  lemma WriteStep(t: Table, pending: set<string>, sections: seq<Section>, text: string,
                  key: string, section: Section, block: string)
    requires WriteProgress(t, pending, sections, text)
    requires key in pending && section.key == key && Fits(t, section)
    requires block == KeyBlock(t, section)
    ensures WriteProgress(t, pending - {key}, sections + [section], text + block)
  {
    var sections', pending' := sections + [section], pending - {key};
    var keys, keys' := KeysOf(sections), KeysOf(sections');
    assert keys' == keys + [key];
    assert key !in keys;
    NoDupConcat(keys, [key]);
    forall k | k in t.durations ensures k in pending' <==> k !in keys' {
      assert k in keys' <==> k in keys || k == key;
    }
    ReportAppend(t, sections, section);
  }

  lemma WriteDone(t: Table, sections: seq<Section>, text: string)
    requires WriteProgress(t, {}, sections, text)
    ensures Covers(t, sections) && text == Report(t, sections)
  {
  }

  /** Writes the block of one recorded key: header, thread lines, blank line. */
  method WriteSection(t: Table, key: string) returns (block: string, ghost section: Section)
    requires key in t.durations
    ensures section.key == key && Fits(t, section)
    ensures block == KeyBlock(t, section)
  {
    var total := t.durations[key];
    var threads := if key in t.threadCounts then t.threadCounts[key] else map[];
    var totalCalls := SumCalls(threads);
    var lines, order := WriteThreadLines(total, threads);
    block := Header(key, total, totalCalls) + lines + "\n";
    section := Section(key, order);
  }

  // ---------------------------------------------------------------------------
  // The accumulator as an object

  class ProfilingState {
    var methodDurations: map<string, nat>
    var threadCallCounts: map<string, map<int, nat>>

    function Snapshot(): Table
      reads this
    {
      Table(methodDurations, threadCallCounts)
    }

    constructor ()
      ensures Snapshot() == EmptyTable
    {
      methodDurations, threadCallCounts := map[], map[];
    }

    /**
     * record: refuses a negative duration without changing anything; otherwise
     * adds it to the key's total and counts the call for the thread.
     */
    method Record(className: string, methodName: string, elapsed: int, threadId: int)
      returns (outcome: Outcome<IllegalArgument>)
      modifies this
      ensures match Recorded(old(Snapshot()), FormatMethodCall(className, methodName), elapsed, threadId)
        case Failure(e) => outcome == Fail(e) && Snapshot() == old(Snapshot())
        case Success(t) => outcome == Pass && Snapshot() == t
    {
      if elapsed < 0 {
        return Fail(NegativeElapsed);
      }
      var key := FormatMethodCall(className, methodName);
      methodDurations := methodDurations[key := if key in methodDurations then methodDurations[key] + elapsed else elapsed];
      var threads := if key in threadCallCounts then threadCallCounts[key] else map[];
      var counter := if threadId in threads then threads[threadId] else 0;
      threadCallCounts := threadCallCounts[key := threads[threadId := counter + 1]];
      return Pass;
    }

    /**
     * write: for every key, in the map's iteration order, its header, then one
     * line per thread, then a blank line. The order chosen is returned.
     */
    method Write() returns (text: string, ghost sections: seq<Section>)
      ensures Covers(Snapshot(), sections)
      ensures text == Report(Snapshot(), sections)
    {
      var t := Table(methodDurations, threadCallCounts);
      text, sections := "", [];
      var pending := t.durations.Keys;
      while pending != {}
        invariant WriteProgress(t, pending, sections, text)
        decreases pending
      {
        HasKey(pending);
        var key :| key in pending;
        var block, section := WriteSection(t, key);
        WriteStep(t, pending, sections, text, key, section, block);
        text, sections := text + block, sections + [section];
        pending := pending - {key};
      }
      WriteDone(t, sections, text);
    }
  }
}
