/**
 * Reconciling the two ledgers into work: every task id of the key ledger
 * without a history line is a new task; one whose history detail has four
 * fields with integer downloaded and full sizes, downloaded below full size,
 * is redone from the downloaded offset; every other one is left alone.
 */
module Planner {
  import opened Wrappers
  import opened Text
  import opened Numbers
  import opened Ledger

  /** `fmt.Sprintf("%s:%s", key, ts)`: the id of one enqueued backup. */
  function TaskId(key: string, ts: string): string
  {
    key + ":" + ts
  }

  /**
   * A task id has one more `:` than its key and timestamp together, so it
   * splits into exactly two parts when both are colon-free, and into more
   * otherwise.
   */
  lemma TaskIdColons(key: string, ts: string)
    ensures Count(TaskId(key, ts), ':') == Count(key, ':') + Count(ts, ':') + 1
  {
    CountAppend(key, ":", ':');
    CountAppend(key + ":", ts, ':');
  }

  /** What the planner makes of a history detail. */
  datatype Verdict = Resume(offset: int) | Complete | Dropped

  /**
   * The detail must split on single spaces into exactly four fields, the third
   * and fourth `strconv.Atoi` integers; then downloaded below full size means
   * resume at the downloaded offset.
   */
  function Classify(detail: string): (c: Verdict)
    ensures c.Resume? ==> IsInt64(c.offset)
  {
    var fields := Split(detail, ' ');
    if |fields| != 4 then Dropped
    else match (Atoi(fields[2]), Atoi(fields[3]))
      case (Some(downloaded), Some(fullSize)) =>
        if downloaded < fullSize then Resume(downloaded) else Complete
      case _ => Dropped
  }

  /** The task ids of the key ledger's map. */
  function TaskIds(keys: map<string, string>): set<string>
  {
    set k | k in keys :: TaskId(k, keys[k])
  }

  /** Task ids with no history line. */
  function NewTasks(keys: map<string, string>, history: map<string, string>): set<string>
  {
    set t | t in TaskIds(keys) && t !in history
  }

  /** Task ids whose history says to resume, with their offsets. */
  function RedoTasks(keys: map<string, string>, history: map<string, string>): map<string, int>
  {
    map t | t in TaskIds(keys) && t in history && Classify(history[t]).Resume? :: Classify(history[t]).offset
  }

  predicate ColonFree(keys: map<string, string>)
  {
    forall k :: k in keys ==> ':' !in k && ':' !in keys[k]
  }

  /** Every key and timestamp the key ledger yields is free of `:`. */
  lemma KeyIndexColonFree(log: string)
    ensures ColonFree(LedgerIndex(KeyLedger, log))
  {
    var lines := Split(log, '\n');
    var keys := LedgerIndex(KeyLedger, log);
    forall k | k in keys ensures ':' !in k && ':' !in keys[k] {
      IndexLastWins(KeyLedger, lines, k, keys[k]);
      var i :| 0 <= i < |lines| && LastDefinition(KeyLedger, lines, i, k, keys[k]);
    }
  }

  /** A task id built from a colon-free key and timestamp splits back into them. */
  lemma TaskIdSplits(key: string, ts: string)
    requires ':' !in key && ':' !in ts
    ensures Split(TaskId(key, ts), ':') == [key, ts]
  {
    SplitNoSeparator(key, ':');
    SplitNoSeparator(ts, ':');
    SplitAround(key, ':', ts);
  }

  /** Different colon-free keys give different task ids. */
  lemma TaskIdInjective(k1: string, t1: string, k2: string, t2: string)
    requires ':' !in k1 && ':' !in t1 && ':' !in k2 && ':' !in t2
    requires TaskId(k1, t1) == TaskId(k2, t2)
    ensures k1 == k2 && t1 == t2
  {
    TaskIdSplits(k1, t1);
    TaskIdSplits(k2, t2);
  }

  /**
   * Every task the planner produces from the key ledger splits on `:` into
   * exactly a key and a timestamp.
   */
  lemma PlannedTaskIdsSplit(keys: map<string, string>, t: string)
    requires ColonFree(keys)
    requires t in TaskIds(keys)
    ensures |Split(t, ':')| == 2
  {
    var k :| k in keys && t == TaskId(k, keys[k]);
    TaskIdSplits(k, keys[k]);
  }

  /**
   * A key just enqueued is planned under its new timestamp: as a new task
   * unless that task id already has history, and only its last timestamp
   * counts, whatever timestamps were enqueued for it before.
   */
  lemma EnqueuedKeyPlanned(keysLog: string, history: map<string, string>, escapedKey: string, nanos: int)
    requires Terminated(keysLog)
    requires ':' !in escapedKey && '\n' !in escapedKey
    ensures var keys := LedgerIndex(KeyLedger, keysLog + KeyLine(escapedKey, nanos) + "\n");
      && escapedKey in keys && keys[escapedKey] == FormatInt(nanos)
      && TaskId(escapedKey, FormatInt(nanos)) in TaskIds(keys)
      && (TaskId(escapedKey, FormatInt(nanos)) !in history ==>
            TaskId(escapedKey, FormatInt(nanos)) in NewTasks(keys, history))
  {
    PutKeyReadBack(keysLog, escapedKey, nanos);
    var keys := LedgerIndex(KeyLedger, keysLog + KeyLine(escapedKey, nanos) + "\n");
    assert TaskId(escapedKey, keys[escapedKey]) in TaskIds(keys);
  }

  /**
   * The three classes do not overlap: a new task has no history and so is
   * never redone, and a redone task has a history detail that says to resume.
   */
  lemma NewAndRedoDisjoint(keys: map<string, string>, history: map<string, string>)
    ensures NewTasks(keys, history) !! RedoTasks(keys, history).Keys
    ensures forall t :: t in RedoTasks(keys, history) ==>
      t in history && Classify(history[t]) == Resume(RedoTasks(keys, history)[t])
  {
  }

  /** Adding one more key to the map planned so far. */
  lemma TaskIdsInsert(keys: map<string, string>, k: string, v: string)
    requires k !in keys
    ensures TaskIds(keys[k := v]) == TaskIds(keys) + {TaskId(k, v)}
  {
    var m := keys[k := v];
    forall t | t in TaskIds(m) ensures t in TaskIds(keys) + {TaskId(k, v)} {
      var k' :| k' in m && t == TaskId(k', m[k']);
      if k' != k {
        assert t == TaskId(k', keys[k']);
      }
    }
    forall t | t in TaskIds(keys) ensures t in TaskIds(m) {
      var k' :| k' in keys && t == TaskId(k', keys[k']);
      assert m[k'] == keys[k'];
    }
    assert TaskId(k, v) == TaskId(k, m[k]);
  }

  /** A key already planned cannot give the task id of a new, different key. */
  lemma FreshTaskId(keys: map<string, string>, k: string, v: string)
    requires k !in keys && ColonFree(keys[k := v])
    ensures TaskId(k, v) !in TaskIds(keys)
  {
    if TaskId(k, v) in TaskIds(keys) {
      var k' :| k' in keys && TaskId(k, v) == TaskId(k', keys[k']);
      assert k' in keys[k := v] && keys[k := v][k'] == keys[k'];
      assert k in keys[k := v] && keys[k := v][k] == v;
      TaskIdInjective(k, v, k', keys[k']);
    }
  }

  /**
   * Planning one more key: its task id joins the new tasks when it has no
   * history, and the redo tasks when its history says to resume.
   */
  lemma PlanInsert(keys: map<string, string>, history: map<string, string>, k: string, v: string)
    requires k !in keys
    ensures NewTasks(keys[k := v], history)
         == NewTasks(keys, history) + (if TaskId(k, v) in history then {} else {TaskId(k, v)})
    ensures RedoTasks(keys[k := v], history)
         == if TaskId(k, v) in history && Classify(history[TaskId(k, v)]).Resume?
            then RedoTasks(keys, history)[TaskId(k, v) := Classify(history[TaskId(k, v)]).offset]
            else RedoTasks(keys, history)
  {
    TaskIdsInsert(keys, k, v);
  }

  /**
   * The classification of a history detail as written by the history ledger:
   * resuming is only ever decided from a record with downloaded below full
   * size, at its downloaded offset; and a well-formed record (etag without
   * spaces, sizes within int64) is classified by its sizes alone.
   */
  lemma DetailVerdict(r: HistoryRecord)
    ensures Classify(Detail(r)).Resume? ==>
      r.downloaded < r.fullSize && Classify(Detail(r)).offset == r.downloaded
    ensures ' ' !in r.etag && IsInt64(r.downloaded) && IsInt64(r.fullSize) ==>
      Classify(Detail(r)) == if r.downloaded < r.fullSize then Resume(r.downloaded) else Complete
  {
    var fields := Split(Detail(r), ' ');
    assert |fields| == 4 ==> fields[2] == FormatInt(r.downloaded) && fields[3] == FormatInt(r.fullSize)
    by {
      DetailFields(r);
    }
    assert ' ' !in r.etag ==> |fields| == 4
    by {
      DetailFields(r);
      if ' ' !in r.etag {
        SplitNoSeparator(r.etag, ' ');
      }
    }
    AtoiFormatInt(r.downloaded);
    AtoiFormatInt(r.fullSize);
  }

  /** The fields of a detail: those of the etag, then the three numbers. */
  lemma DetailFields(r: HistoryRecord)
    ensures Split(Detail(r), ' ')
         == Split(r.etag, ' ') + [FormatInt(r.modTime), FormatInt(r.downloaded), FormatInt(r.fullSize)]
  {
    NumberHasNoSeparator(r.modTime);
    NumberHasNoSeparator(r.downloaded);
    NumberHasNoSeparator(r.fullSize);
    LastThreeFields(r.etag, FormatInt(r.modTime), FormatInt(r.downloaded), FormatInt(r.fullSize));
  }

  lemma LastThreeFields(a: string, b: string, c: string, d: string)
    requires ' ' !in b && ' ' !in c && ' ' !in d
    ensures Split(a + " " + b + " " + c + " " + d, ' ') == Split(a, ' ') + [b, c, d]
  {
    ThreeFields(b, c, d);
    SplitAround(a, ' ', b + [' '] + (c + [' '] + d));
    SpacedConcat(a, b, c, d);
  }

  lemma ThreeFields(b: string, c: string, d: string)
    requires ' ' !in b && ' ' !in c && ' ' !in d
    ensures Split(b + [' '] + (c + [' '] + d), ' ') == [b, c, d]
  {
    SplitNoSeparator(d, ' ');
    SplitNoSeparator(c, ' ');
    SplitAround(c, ' ', d);
    SplitNoSeparator(b, ' ');
    SplitAround(b, ' ', c + [' '] + d);
  }

  lemma SpacedConcat(a: string, b: string, c: string, d: string)
    ensures a + " " + b + " " + c + " " + d == a + [' '] + (b + [' '] + (c + [' '] + d))
  {
  }

  /** A record that reached its full size and whose line reads back as written. */
  predicate FinishedRecord(r: HistoryRecord)
  {
    ' ' !in r.taskId && '\n' !in r.taskId && '\n' !in r.etag && r.downloaded >= r.fullSize
  }

  /** Every record's task id has a history detail that does not say to resume. */
  predicate NoneResumed(history: map<string, string>, recs: seq<HistoryRecord>)
  {
    forall r :: r in recs ==> r.taskId in history && !Classify(history[r.taskId]).Resume?
  }

  /**
   * After records that all reached their full size are appended to history,
   * the planner never again offers any of their task ids as new or as redo,
   * whatever lines the history held before.
   */
  lemma CompletedTasksNotReplanned(keys: map<string, string>, log: string, recs: seq<HistoryRecord>)
    requires Terminated(log)
    requires forall r :: r in recs ==> FinishedRecord(r)
    ensures forall r :: r in recs ==>
      var history := LedgerIndex(HistoryLedger, log + Render(recs));
      r.taskId !in NewTasks(keys, history) && r.taskId !in RedoTasks(keys, history)
  {
    CompletedStayDone(log, recs);
  }

  lemma {:induction false} CompletedStayDone(log: string, recs: seq<HistoryRecord>)
    requires Terminated(log)
    requires forall r :: r in recs ==> FinishedRecord(r)
    ensures NoneResumed(LedgerIndex(HistoryLedger, log + Render(recs)), recs)
  {
    if recs != [] {
      var w, last := recs[..|recs| - 1], recs[|recs| - 1];
      assert recs == w + [last];
      assert forall r :: r in w ==> r in recs;
      CompletedStayDone(log, w);
      AppendRecord(log, w, last);
      DetailVerdict(last);
      NoneResumedStep(LedgerIndex(HistoryLedger, log + Render(w)), w, last);
    }
  }

  lemma AppendRecord(log: string, w: seq<HistoryRecord>, last: HistoryRecord)
    requires Terminated(log) && FinishedRecord(last)
    ensures LedgerIndex(HistoryLedger, log + Render(w + [last]))
         == LedgerIndex(HistoryLedger, log + Render(w))[last.taskId := Detail(last)]
  {
    AppendRendered(log, w, last);
    RenderTerminated(log, w);
    PutHistoryReadBack(log + Render(w), last);
  }

  lemma NoneResumedStep(before: map<string, string>, w: seq<HistoryRecord>, last: HistoryRecord)
    requires NoneResumed(before, w)
    requires !Classify(Detail(last)).Resume?
    ensures NoneResumed(before[last.taskId := Detail(last)], w + [last])
  {
  }
}
