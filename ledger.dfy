/**
 * The two append-only ledgers of the backup agent.
 *
 * keys.log holds one line `<escaped key>:<enqueue time in ns>` per enqueued key;
 * history.log holds one line `<task id> <etag> <mod time> <downloaded> <full size>`
 * per finished download. Both are read back by splitting the whole file on
 * newlines and folding the lines, in order, into a map: a later line for the
 * same key overwrites an earlier one, and lines that do not have the expected
 * shape are skipped.
 */
module Ledger {
  import opened Wrappers
  import opened Text
  import opened Numbers

  datatype Entry = Entry(key: string, value: string)

  datatype Kind = KeyLedger | HistoryLedger

  /**
   * How one line is read. The key ledger keeps a non-empty line that splits on
   * `:` into exactly two parts; the history ledger keeps a line that has a
   * space, split at the first space into the task id and the detail.
   */
  function ParseLine(kind: Kind, line: string): (e: Option<Entry>)
    ensures kind == KeyLedger ==> (e.Some? <==> Count(line, ':') == 1)
    ensures kind == KeyLedger && e.Some? ==>
      line == e.value.key + ":" + e.value.value && ':' !in e.value.key && ':' !in e.value.value
    ensures kind == HistoryLedger ==> (e.Some? <==> ' ' in line)
    ensures kind == HistoryLedger && e.Some? ==>
      line == e.value.key + " " + e.value.value && ' ' !in e.value.key
  {
    if line == "" then None
    else match kind
      case KeyLedger =>
        var parts := Split(line, ':');
        if |parts| == 2 then
          JoinSplit(line, ':');
          assert Join(parts, ':') == parts[0] + [':'] + parts[1];
          Some(Entry(parts[0], parts[1]))
        else None
      case HistoryLedger =>
        var parts := SplitFirst(line, ' ');
        if |parts| == 2 then Some(Entry(parts[0], parts[1])) else None
  }

  /** The map after one more line has been read. */
  function Apply(m: map<string, string>, e: Option<Entry>): map<string, string>
  {
    match e
    case Some(entry) => m[entry.key := entry.value]
    case None => m
  }

  /** The map built by applying `entries` in order. */
  function Fold(entries: seq<Option<Entry>>): map<string, string>
  {
    if entries == [] then map[]
    else Apply(Fold(entries[..|entries| - 1]), entries[|entries| - 1])
  }

  /** Each line read on its own. */
  function Parse(kind: Kind, lines: seq<string>): (entries: seq<Option<Entry>>)
    ensures |entries| == |lines|
    ensures forall i :: 0 <= i < |lines| ==> entries[i] == ParseLine(kind, lines[i])
  {
    seq(|lines|, i requires 0 <= i < |lines| => ParseLine(kind, lines[i]))
  }

  /** The map that reading `lines` in order builds. */
  function Index(kind: Kind, lines: seq<string>): map<string, string>
  {
    Fold(Parse(kind, lines))
  }

  /** The map read from a whole ledger file. */
  function LedgerIndex(kind: Kind, log: string): map<string, string>
  {
    Index(kind, Split(log, '\n'))
  }

  predicate Mentions(e: Option<Entry>, k: string)
  {
    e.Some? && e.value.key == k
  }

  /** Entry `i` sets `k` to `v`, and no later entry mentions `k`. */
  predicate SetsLast(entries: seq<Option<Entry>>, i: int, k: string, v: string)
    requires 0 <= i < |entries|
  {
    && entries[i] == Some(Entry(k, v))
    && forall j :: i < j < |entries| ==> !Mentions(entries[j], k)
  }

  /** The last entry for a key decides its value; keys without one are absent. */
  lemma {:induction false} FoldLastWins(entries: seq<Option<Entry>>, k: string, v: string)
    ensures (k in Fold(entries) && Fold(entries)[k] == v) <==>
            exists i :: 0 <= i < |entries| && SetsLast(entries, i, k, v)
  {
    if entries != [] {
      var n := |entries|;
      var init := entries[..n - 1];
      FoldLastWins(init, k, v);
      if Mentions(entries[n - 1], k) {
        if k in Fold(entries) && Fold(entries)[k] == v {
          assert SetsLast(entries, n - 1, k, v);
        }
        if i :| 0 <= i < n && SetsLast(entries, i, k, v) {
          assert i == n - 1;
        }
      } else {
        if k in Fold(entries) && Fold(entries)[k] == v {
          var i :| 0 <= i < |init| && SetsLast(init, i, k, v);
          assert SetsLast(entries, i, k, v);
        }
        if i :| 0 <= i < n && SetsLast(entries, i, k, v) {
          assert i < n - 1;
          assert SetsLast(init, i, k, v);
        }
      }
    }
  }

  /** Line `i` sets `k` to `v`, and no later line is read as a line for `k`. */
  predicate LastDefinition(kind: Kind, lines: seq<string>, i: int, k: string, v: string)
    requires 0 <= i < |lines|
  {
    && ParseLine(kind, lines[i]) == Some(Entry(k, v))
    && forall j :: i < j < |lines| ==> !Mentions(ParseLine(kind, lines[j]), k)
  }

  /**
   * Reading a ledger maps `k` to `v` exactly when some line is read as `k -> v`
   * and no later line is read as a line for `k`: the last line wins, and
   * skipped lines change nothing.
   */
  lemma IndexLastWins(kind: Kind, lines: seq<string>, k: string, v: string)
    ensures (k in Index(kind, lines) && Index(kind, lines)[k] == v) <==>
            exists i :: 0 <= i < |lines| && LastDefinition(kind, lines, i, k, v)
  {
    var entries := Parse(kind, lines);
    FoldLastWins(entries, k, v);
    if i :| 0 <= i < |lines| && LastDefinition(kind, lines, i, k, v) {
      assert SetsLast(entries, i, k, v);
    }
    if i :| 0 <= i < |entries| && SetsLast(entries, i, k, v) {
      assert LastDefinition(kind, lines, i, k, v);
    }
  }

  /** Reading one more line. */
  lemma IndexSnoc(kind: Kind, lines: seq<string>, line: string)
    ensures Index(kind, lines + [line]) == Apply(Index(kind, lines), ParseLine(kind, line))
  {
    var entries := Parse(kind, lines + [line]);
    assert entries[..|lines|] == Parse(kind, lines);
  }

  /** An empty ledger or one whose last line is complete. */
  predicate Terminated(log: string)
  {
    log == [] || log[|log| - 1] == '\n'
  }

  /**
   * Appending one complete line to a terminated ledger changes its map exactly
   * as reading that line does.
   */
  lemma AppendLine(kind: Kind, log: string, line: string)
    requires Terminated(log) && '\n' !in line
    ensures Terminated(log + line + "\n")
    ensures LedgerIndex(kind, log + line + "\n") == Apply(LedgerIndex(kind, log), ParseLine(kind, line))
  {
    SplitNoSeparator(line, '\n');
    SplitAround(line, '\n', "");
    assert line + "\n" == line + ['\n'] + "";
    var tail := Split(line + "\n", '\n');
    assert tail == [line, ""];
    if log == [] {
      assert log + line + "\n" == line + "\n";
      IndexSnoc(kind, [line], "");
      IndexSnoc(kind, [], line);
    } else {
      var body := log[..|log| - 1];
      assert log == body + ['\n'] + "";
      assert log + line + "\n" == body + ['\n'] + (line + "\n");
      SplitAround(body, '\n', "");
      SplitAround(body, '\n', line + "\n");
      var p := Split(body, '\n');
      assert Split(log + line + "\n", '\n') == p + [line] + [""];
      IndexSnoc(kind, p + [line], "");
      IndexSnoc(kind, p, line);
      IndexSnoc(kind, p, "");
    }
  }

  /** `fmt.Sprintf("%s:%d", escapedKey, nanos)`, written to keys.log with a newline. */
  function KeyLine(escapedKey: string, nanos: int): (l: string)
    ensures Split(l, ':') == Split(escapedKey, ':') + [FormatInt(nanos)]
    ensures '\n' !in escapedKey ==> '\n' !in l
  {
    NumberHasNoSeparator(nanos);
    SplitNoSeparator(FormatInt(nanos), ':');
    SplitAround(escapedKey, ':', FormatInt(nanos));
    escapedKey + ":" + FormatInt(nanos)
  }

  /** The fields of one history.log line. */
  datatype HistoryRecord = HistoryRecord(
    taskId: string, etag: string, modTime: int, downloaded: int, fullSize: int)

  /** What history.log keeps for a task id: `etag modTime downloaded fullSize`. */
  function Detail(r: HistoryRecord): (d: string)
    ensures '\n' !in r.etag ==> '\n' !in d
  {
    NumberHasNoSeparator(r.modTime);
    NumberHasNoSeparator(r.downloaded);
    NumberHasNoSeparator(r.fullSize);
    r.etag + " " + FormatInt(r.modTime) + " " + FormatInt(r.downloaded) + " " + FormatInt(r.fullSize)
  }

  /** `fmt.Sprintf("%s %s %d %d %d", ...)`, written to history.log with a newline. */
  function HistoryLine(r: HistoryRecord): (l: string)
    ensures '\n' !in r.taskId && '\n' !in r.etag ==> '\n' !in l
  {
    r.taskId + " " + Detail(r)
  }

  /** A history line whose task id has no space reads back as that task id and its detail. */
  lemma HistoryLineReads(r: HistoryRecord)
    requires ' ' !in r.taskId
    ensures ParseLine(HistoryLedger, HistoryLine(r)) == Some(Entry(r.taskId, Detail(r)))
  {
    var line := HistoryLine(r);
    assert line == r.taskId + [' '] + Detail(r);
    var e := ParseLine(HistoryLedger, line);
    assert e.Some?;
    FirstSeparatorUnique(e.value.key, e.value.value, r.taskId, Detail(r), ' ');
  }

  /** The text appended to history.log by writing `recs` in order. */
  function Render(recs: seq<HistoryRecord>): string
  {
    if recs == [] then ""
    else Render(recs[..|recs| - 1]) + HistoryLine(recs[|recs| - 1]) + "\n"
  }

  lemma NumberHasNoSeparator(n: int)
    ensures ':' !in FormatInt(n) && ' ' !in FormatInt(n) && '\n' !in FormatInt(n)
  {
    var s := FormatInt(n);
    forall i | 0 <= i < |s| ensures s[i] != ':' && s[i] != ' ' && s[i] != '\n' {
    }
  }

  /** When two texts agree up to their first separator, they agree around it. */
  lemma FirstSeparatorUnique(a: string, b: string, c: string, d: string, sep: char)
    requires sep !in a && sep !in c
    requires a + [sep] + b == c + [sep] + d
    ensures a == c && b == d
  {
    var s := a + [sep] + b;
    assert forall i :: 0 <= i < |a| ==> s[i] != sep;
    assert forall i :: 0 <= i < |c| ==> s[i] != sep;
    assert s[|a|] == sep && s[|c|] == sep;
    assert a == s[..|a|] && c == s[..|c|];
    assert b == s[|a| + 1..] && d == s[|c| + 1..];
  }

  /**
   * A key line written by the enqueue operation reads back as its key and
   * timestamp: the key ledger then maps the escaped key to the new time.
   */
  lemma PutKeyReadBack(log: string, escapedKey: string, nanos: int)
    requires Terminated(log)
    requires ':' !in escapedKey && '\n' !in escapedKey
    ensures Terminated(log + KeyLine(escapedKey, nanos) + "\n")
    ensures LedgerIndex(KeyLedger, log + KeyLine(escapedKey, nanos) + "\n")
         == LedgerIndex(KeyLedger, log)[escapedKey := FormatInt(nanos)]
  {
    var line := KeyLine(escapedKey, nanos);
    SplitNoSeparator(escapedKey, ':');
    assert Split(line, ':') == [escapedKey, FormatInt(nanos)];
    assert ParseLine(KeyLedger, line) == Some(Entry(escapedKey, FormatInt(nanos)));
    AppendLine(KeyLedger, log, line);
  }

  /**
   * A history line reads back as its task id and detail, when the task id has
   * no space and neither it nor the etag has a newline.
   */
  lemma PutHistoryReadBack(log: string, r: HistoryRecord)
    requires Terminated(log)
    requires ' ' !in r.taskId && '\n' !in r.taskId && '\n' !in r.etag
    ensures Terminated(log + HistoryLine(r) + "\n")
    ensures LedgerIndex(HistoryLedger, log + HistoryLine(r) + "\n")
         == LedgerIndex(HistoryLedger, log)[r.taskId := Detail(r)]
  {
    HistoryLineReads(r);
    AppendLine(HistoryLedger, log, HistoryLine(r));
  }

  lemma RenderSnoc(recs: seq<HistoryRecord>, r: HistoryRecord)
    ensures Render(recs + [r]) == Render(recs) + HistoryLine(r) + "\n"
  {
    assert (recs + [r])[..|recs|] == recs;
  }

  lemma RenderOne(r: HistoryRecord)
    ensures Render([r]) == HistoryLine(r) + "\n"
  {
    assert [r][..0] == [];
  }

  /** Rendering more records appends their lines. */
  lemma {:induction false} RenderAppend(recs: seq<HistoryRecord>, more: seq<HistoryRecord>)
    ensures Render(recs + more) == Render(recs) + Render(more)
  {
    if more == [] {
      AppendEmpty(recs);
      AppendEmpty(Render(recs));
    } else {
      var init, last := more[..|more| - 1], more[|more| - 1];
      RenderAppend(recs, init);
      RenderAppendStep(recs, init, last);
      SnocSplit(more);
    }
  }

  /** The inductive step of `RenderAppend`: one more record at the end. */
  lemma RenderAppendStep(recs: seq<HistoryRecord>, init: seq<HistoryRecord>, last: HistoryRecord)
    requires Render(recs + init) == Render(recs) + Render(init)
    ensures Render(recs + (init + [last])) == Render(recs) + Render(init + [last])
  {
    var line := HistoryLine(last) + "\n";
    calc {
      Render(recs + (init + [last]));
      { SeqAssoc(recs, init, [last]); }
      Render((recs + init) + [last]);
      { RenderSnoc(recs + init, last); SeqAssoc(Render(recs + init), HistoryLine(last), "\n"); }
      Render(recs + init) + line;
      { SeqAssoc(Render(recs), Render(init), line); }
      Render(recs) + (Render(init) + line);
      { RenderSnoc(init, last); SeqAssoc(Render(init), HistoryLine(last), "\n"); }
      Render(recs) + Render(init + [last]);
    }
  }

  /** Appending the rendering of more records extends a rendered log. */
  lemma ExtendRendered(log: string, mid: string, next: string, recs: seq<HistoryRecord>,
                       more: seq<HistoryRecord>)
    requires mid == log + Render(recs)
    requires next == mid + Render(more)
    ensures next == log + Render(recs + more)
  {
    RenderAppend(recs, more);
    SeqAssoc(log, Render(recs), Render(more));
  }

  lemma AppendRendered(log: string, recs: seq<HistoryRecord>, r: HistoryRecord)
    ensures log + Render(recs + [r]) == (log + Render(recs)) + HistoryLine(r) + "\n"
  {
    RenderSnoc(recs, r);
    SeqAssoc(log, Render(recs) + HistoryLine(r), "\n");
    SeqAssoc(log, Render(recs), HistoryLine(r));
  }

  lemma RenderTerminated(log: string, recs: seq<HistoryRecord>)
    requires Terminated(log)
    ensures Terminated(log + Render(recs))
  {
    if recs != [] {
      var s := log + Render(recs);
      assert s[|s| - 1] == '\n';
    }
  }
}
