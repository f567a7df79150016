/** The process-wide session store: the interface language, the channel list
    and the bounded, newest-first log buffer that every view writes to. */
module Session {
  import opened Types

  /** The log buffer keeps at most this many entries. */
  const MaxLogs: nat := 100

  function Min(a: int, b: int): int
  {
    if a <= b then a else b
  }

  /** The other of the two languages. */
  function Toggled(l: Language): (r: Language)
    ensures r != l
  {
    if l == En then ZhTW else En
  }

  /** Toggling is a two-value cycle: twice gives back the starting language. */
  lemma ToggleTwice(l: Language)
    ensures Toggled(Toggled(l)) == l
    ensures Toggled(En) == ZhTW && Toggled(ZhTW) == En
  {
  }

  /** The buffer after `e` is added: `e` first, then the previous entries in
      their order, at most MaxLogs in all. */
  function Prepend(logs: seq<LogEntry>, e: LogEntry): (r: seq<LogEntry>)
    ensures |r| == Min(|logs| + 1, MaxLogs)
    ensures r[0] == e
    ensures r[1..] == logs[..|r| - 1]
  {
    ([e] + logs)[..Min(|logs| + 1, MaxLogs)]
  }

  /** Below capacity nothing is evicted; at or above it only the oldest
      entries beyond the first MaxLogs - 1 go. */
  lemma PrependEviction(logs: seq<LogEntry>, e: LogEntry)
    ensures |logs| < MaxLogs ==> Prepend(logs, e) == [e] + logs
    ensures |logs| >= MaxLogs ==> Prepend(logs, e) == [e] + logs[..MaxLogs - 1]
    ensures |logs| == MaxLogs ==> Prepend(logs, e) + [logs[MaxLogs - 1]] == [e] + logs
  {
  }

  /** The newest min(n, MaxLogs) of the `n` entries of `history` (oldest
      first), newest first: what the buffer should hold. */
  function Window(history: seq<LogEntry>): (w: seq<LogEntry>)
    ensures |w| == Min(|history|, MaxLogs)
  {
    seq(Min(|history|, MaxLogs), i requires 0 <= i < Min(|history|, MaxLogs) => history[|history| - 1 - i])
  }

  /** Adding one entry to a buffer that holds the window of a history gives
      the window of the history extended by that entry. */
  lemma WindowSnoc(history: seq<LogEntry>, e: LogEntry)
    ensures Prepend(Window(history), e) == Window(history + [e])
  {
  }

  /** The buffer left by adding the entries of `history` one by one, oldest
      first, to an empty buffer. */
  function Replay(history: seq<LogEntry>): seq<LogEntry>
  {
    if history == [] then [] else Prepend(Replay(history[..|history| - 1]), history[|history| - 1])
  }

  /** Replaying any history of `addLog` calls leaves exactly its window. */
  lemma {:induction false} ReplayIsWindow(history: seq<LogEntry>)
    ensures Replay(history) == Window(history)
  {
    if history != [] {
      var front := history[..|history| - 1];
      ReplayIsWindow(front);
      WindowSnoc(front, history[|history| - 1]);
      assert front + [history[|history| - 1]] == history;
    }
  }

  /** Once more than MaxLogs entries were added, the oldest one no longer
      matters: the buffer is what the later entries alone would leave. */
  lemma OldestEvicted(history: seq<LogEntry>)
    requires |history| > MaxLogs
    ensures Window(history) == Window(history[1..])
  {
  }

  /** The id and display time a log entry receives when it is added. */
  datatype Stamp = Stamp(id: string, timestamp: string)

  /** What a producer passes to `addLog`. */
  datatype LogRecord = LogRecord(level: LogLevel, message: string)

  /** The `n`-th entry ever added, carrying exactly the record's level and message. */
  function Entry(clock: nat -> Stamp, n: nat, rec: LogRecord): LogEntry
  {
    LogEntry(clock(n).id, clock(n).timestamp, rec.level, rec.message, None)
  }

  /** The entries that adding `recs` in order produces, starting with the `start`-th entry. */
  function Entries(clock: nat -> Stamp, start: nat, recs: seq<LogRecord>): (es: seq<LogEntry>)
    ensures |es| == |recs|
  {
    seq(|recs|, i requires 0 <= i < |recs| => Entry(clock, start + i, recs[i]))
  }

  /** Each entry carries exactly its record's level and message, and no channel. */
  lemma EntriesCarryRecords(clock: nat -> Stamp, start: nat, recs: seq<LogRecord>)
    ensures forall i :: 0 <= i < |recs| ==>
      var e := Entries(clock, start, recs)[i];
      e.level == recs[i].level && e.message == recs[i].message && e.channelId == None
  {
  }

  lemma EntriesSnoc(clock: nat -> Stamp, start: nat, recs: seq<LogRecord>, rec: LogRecord)
    ensures Entries(clock, start, recs + [rec]) == Entries(clock, start, recs) + [Entry(clock, start + |recs|, rec)]
  {
  }

  class Store {
    var language: Language
    /** Seeded once; nothing in the application ever replaces it. */
    const channels: seq<Channel>
    var logs: seq<LogEntry>
    /** Where entry ids and display times come from (random ids, wall-clock time). */
    const clock: nat -> Stamp
    /** How many entries were ever added. */
    var issued: nat
    /** Every entry ever added, oldest first. */
    ghost var history: seq<LogEntry>

    ghost predicate Valid()
      reads this
    {
      issued == |history| && logs == Window(history)
    }

    /** The store at start-up: English, the seed channels, no logs. */
    constructor (seed: seq<Channel>, clock: nat -> Stamp)
      ensures Valid()
      ensures language == En && channels == seed && logs == [] && history == []
      ensures this.clock == clock
    {
      language := En;
      channels := seed;
      logs := [];
      this.clock := clock;
      issued := 0;
      history := [];
    }

    method ToggleLanguage()
      requires Valid()
      modifies this
      ensures Valid()
      ensures language == Toggled(old(language))
      ensures logs == old(logs) && history == old(history) && issued == old(issued)
    {
      language := if language == En then ZhTW else En;
    }

    method AddLog(level: LogLevel, message: string)
      requires Valid()
      modifies this
      ensures Valid()
      ensures history == old(history) + [Entry(clock, old(issued), LogRecord(level, message))]
      ensures logs == Prepend(old(logs), history[|history| - 1])
      ensures issued == old(issued) + 1 && language == old(language)
    {
      var stamp := clock(issued);
      var entry := LogEntry(stamp.id, stamp.timestamp, level, message, None);
      logs := ([entry] + logs)[..Min(|logs| + 1, MaxLogs)];
      WindowSnoc(history, entry);
      history := history + [entry];
      issued := issued + 1;
    }
  }
}
