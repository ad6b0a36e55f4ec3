/**
 * The backup agent's edit log: the two ledgers on disk, planning, the
 * resumable download of one task, and a backup run over all planned tasks.
 *
 * The files of the agent are fields of `EditLog`: the text of keys.log and
 * history.log, and the data directory as a map from file path to content.
 * The network, the clock and the foreign url package are parameters.
 */
module Backup {
  import opened Wrappers
  import opened Text
  import opened Numbers
  import opened Escaping
  import opened Ledger
  import opened Planner

  newtype byte = b: int | 0 <= b < 256

  datatype Config = Config(
    bucket: string, domain: string, baseDir: string,
    accessKey: string, secretKey: string, ips: seq<string>)

  /** How `io.Copy` of a response body ended: no error, `io.ErrUnexpectedEOF`, or another error. */
  datatype StreamEnd = Clean | UnexpectedEof | Broken

  /**
   * The parts of an HTTP response the agent looks at. `contentLength` is the
   * header's text, empty when the header is missing; `body` is what the body
   * delivered before it ended as `end` says.
   */
  datatype Response = Response(
    status: int, contentLength: string, etag: string, body: seq<byte>, end: StreamEnd)

  /** A header value never holds a line break. */
  type HttpResponse = r: Response | '\n' !in r.etag
    witness Response(200, "0", "", [], Clean)

  /** A GET request: signed URL, `Accept-Encoding` and `Range` headers. */
  datatype Request = Request(url: string, acceptEncoding: string, range: string)

  /** The network: a response for a request, or none when no response came back. */
  type Network = Request -> Option<HttpResponse>

  datatype DownloadError =
    | RequestFailed        // client.Do failed
    | BadStatus(code: int) // "Code: <code>"
    | NoContentLength      // "No Content-Length in response header"
    | ShortBody            // io.ErrUnexpectedEOF: fewer bytes on disk than the full size
    | WriteFailed          // the content file could not be opened or written

  datatype TaskError = BadTaskId | DownloadFailed(cause: DownloadError)

  /** `bytes=<start>-`: the range of every download request, even from offset 0. */
  function RangeHeader(start: int): (r: string)
    ensures |r| >= 8 && r[..6] == "bytes=" && r[|r| - 1] == '-'
  {
    "bytes=" + FormatInt(start) + "-"
  }

  /** The offset read back from the range header is the start offset, for every int64. */
  lemma RangeHeaderReadsBack(start: int)
    ensures var r := RangeHeader(start); Atoi(r[6..|r| - 1]) == if IsInt64(start) then Some(start) else None
  {
    var r := RangeHeader(start);
    assert r[6..|r| - 1] == FormatInt(start);
    AtoiFormatInt(start);
  }

  /** `http://<domain>/<escaped key>` */
  function MakeBaseUrl(domain: string, escapedKey: string): (u: string)
    ensures |u| == 8 + |domain| + |escapedKey|
    ensures u[..7] == "http://" && u[7..7 + |domain|] == domain
    ensures u[7 + |domain|] == '/' && u[8 + |domain|..] == escapedKey
  {
    "http://" + domain + "/" + escapedKey
  }

  /** Within one domain, distinct escaped keys give distinct URLs. */
  lemma BaseUrlInjective(domain: string, k1: string, k2: string)
    ensures MakeBaseUrl(domain, k1) == MakeBaseUrl(domain, k2) <==> k1 == k2
  {
    if MakeBaseUrl(domain, k1) == MakeBaseUrl(domain, k2) {
      assert k1 == MakeBaseUrl(domain, k1)[8 + |domain|..];
    }
  }

  /**
   * The request for `key` from `start`, with the URL signed by the foreign
   * signer: no transfer encoding, so that the body length is the
   * Content-Length, and a range that starts at `start`.
   */
  function MakeRequest(url: UrlPackage, domain: string, key: string, start: int): (r: Request)
    ensures r.url == url.sign(MakeBaseUrl(domain, Escape(url, key)))
    ensures r.acceptEncoding == "identity"
  {
    Request(url.sign(MakeBaseUrl(domain, Escape(url, key))), "identity", RangeHeader(start))
  }

  /** Every request asks for the object from its start offset on. */
  lemma RequestRange(url: UrlPackage, domain: string, key: string, start: int)
    ensures var r := MakeRequest(url, domain, key, start).range;
      && |r| >= 8 && r[..6] == "bytes=" && r[|r| - 1] == '-'
      && Atoi(r[6..|r| - 1]) == if IsInt64(start) then Some(start) else None
  {
    RangeHeaderReadsBack(start);
  }

  /**
   * The decision taken on a response before its body is stored: a status
   * outside 2xx and a Content-Length that is not an integer are errors;
   * otherwise the full size is the length still to come plus the offset, as
   * an int64 sum.
   */
  function Admit(status: int, contentLength: string, start: int): (r: Result<int, DownloadError>)
    ensures r.Success? <==> 200 <= status <= 299 && Atoi(contentLength).Some?
    ensures !(200 <= status <= 299) ==> r == Failure(BadStatus(status))
    ensures 200 <= status <= 299 && Atoi(contentLength).None? ==> r == Failure(NoContentLength)
    ensures r.Success? ==> IsInt64(r.value)
    ensures r.Success? && IsInt64(Atoi(contentLength).value + start) ==>
      r.value == Atoi(contentLength).value + start
    ensures r.Success? ==> (Atoi(contentLength).value + start - r.value) % 0x1_0000_0000_0000_0000 == 0
  {
    if Quot(status, 100) != 2 then Failure(BadStatus(status))
    else match Atoi(contentLength)
      case None => Failure(NoContentLength)
      case Some(size) => Success(Wrap64(size + start))
  }

  /** The content file of a key; the empty key is stored as `_empty`. */
  function DataPath(key: string): (p: string)
    ensures p != ""
    ensures key == "" ==> p == "_empty"
    ensures key != "" ==> p == key
  {
    if key == "" then "_empty" else key
  }

  /** The data directory after storing `body` for `key`: truncate at offset 0, append after it. */
  function Stored(files: map<string, seq<byte>>, key: string, start: int, body: seq<byte>)
    : (after: map<string, seq<byte>>)
    ensures OnlyTouches(files, after, DataPath(key))
    ensures start <= 0 ==> DataPath(key) in after && after[DataPath(key)] == body
    ensures start > 0 ==> (DataPath(key) in after <==> DataPath(key) in files)
    ensures start > 0 && DataPath(key) in files ==> after[DataPath(key)] == files[DataPath(key)] + body
  {
    var p := DataPath(key);
    if start > 0 then
      (if p in files then files[p := files[p] + body] else files)
    else files[p := body]
  }

  /** `after` differs from `before` at most at path `p`. */
  ghost predicate OnlyTouches(before: map<string, seq<byte>>, after: map<string, seq<byte>>, p: string)
  {
    forall q :: q != p ==> (q in after <==> q in before) && (q in after ==> after[q] == before[q])
  }

  /** Whether storing succeeds: the stream did not break, and an appended file exists. */
  predicate StoreSucceeds(files: map<string, seq<byte>>, key: string, start: int, end: StreamEnd)
  {
    end != Broken && (start > 0 ==> DataPath(key) in files)
  }

  /** `checkIp`: whether `ip` is one of the allowed addresses. */
  function CheckIp(ip: string, ipList: seq<string>): (allowed: bool)
    ensures allowed <==> ip in ipList
  {
    if ipList == [] then false
    else ipList[0] == ip || CheckIp(ip, ipList[1..])
  }

  /** The key and timestamp of a task id, when it splits on `:` into exactly two parts. */
  function TaskKey(taskId: string): (key: Option<string>)
    ensures key.Some? <==> Count(taskId, ':') == 1
    ensures key.Some? ==> ':' !in key.value && key.value <= taskId
    ensures key.Some? ==> |key.value| < |taskId| && taskId[|key.value|] == ':'
  {
    var parts := Split(taskId, ':');
    if |parts| == 2 then
      JoinSplit(taskId, ':');
      assert taskId == parts[0] + [':'] + parts[1];
      Some(parts[0])
    else None
  }

  /** The key `doTask` splits off a task id is the key `makeTasks` built it from. */
  lemma TaskKeyOfTaskId(k: string, ts: string)
    requires ':' !in k && ':' !in ts
    ensures TaskKey(TaskId(k, ts)) == Some(k)
  {
    TaskIdSplits(k, ts);
  }

  /** Task ids that fit in one history line: no space, no line break. */
  predicate LineSafe(tasks: seq<string>, redos: map<string, int>)
  {
    && (forall t :: t in tasks ==> ' ' !in t && '\n' !in t)
    && (forall t :: t in redos ==> ' ' !in t && '\n' !in t)
  }

  /** Everything `download` yields: its six results and the data directory it leaves. */
  datatype Outcome = Outcome(
    code: int, downloaded: int, fullSize: int, modTime: int, etag: string,
    files: map<string, seq<byte>>, err: Option<DownloadError>)

  /**
   * `download` as a function of the data directory before it, the network
   * and the clock. No response, a bad status or a bad Content-Length leave
   * the files alone with nothing downloaded (-1); otherwise the body is
   * stored, and fewer bytes on disk than the full size is an error.
   */
  function Fetch(url: UrlPackage, domain: string, files: map<string, seq<byte>>, key: string,
                 start: int, network: Network, now: int): (o: Outcome)
    ensures o.err.None? ==> o.downloaded >= o.fullSize
    ensures '\n' !in o.etag
    ensures OnlyTouches(files, o.files, DataPath(key))
    ensures network(MakeRequest(url, domain, key, start)).None? ==>
      o == Outcome(0, -1, 0, 0, "", files, Some(RequestFailed))
    ensures network(MakeRequest(url, domain, key, start)).Some? ==>
      var resp := network(MakeRequest(url, domain, key, start)).value;
      var admitted := Admit(resp.status, resp.contentLength, start);
      && o.code == resp.status
      && (admitted.Failure? ==>
            o.downloaded == -1 && o.fullSize == 0 && o.files == files && o.err == Some(admitted.error))
      && (admitted.Success? ==>
            && o.fullSize == admitted.value && o.etag == resp.etag
            && o.files == Stored(files, key, start, resp.body)
            && o.downloaded == (if StoreSucceeds(files, key, start, resp.end)
                                then |o.files[DataPath(key)]| else 0)
            && o.modTime == (if StoreSucceeds(files, key, start, resp.end) then now else 0)
            && o.err == (if o.downloaded < o.fullSize then Some(ShortBody)
                         else if !StoreSucceeds(files, key, start, resp.end) then Some(WriteFailed)
                         else None))
    ensures o.err.None? ==>
      && DataPath(key) in o.files && o.downloaded == |o.files[DataPath(key)]| && o.modTime == now
      && var body := network(MakeRequest(url, domain, key, start)).value.body;
         o.files[DataPath(key)] == (if start > 0 then files[DataPath(key)] + body else body)
  {
    var resp := network(MakeRequest(url, domain, key, start));
    if resp.None? then Outcome(0, -1, 0, 0, "", files, Some(RequestFailed))
    else
      var admitted := Admit(resp.value.status, resp.value.contentLength, start);
      if admitted.Failure? then Outcome(resp.value.status, -1, 0, 0, "", files, Some(admitted.error))
      else
        var stored := Stored(files, key, start, resp.value.body);
        var ok := StoreSucceeds(files, key, start, resp.value.end);
        var downloaded := if ok then |stored[DataPath(key)]| else 0;
        var err := if downloaded < admitted.value then Some(ShortBody)
                   else if !ok then Some(WriteFailed) else None;
        Outcome(resp.value.status, downloaded, admitted.value, if ok then now else 0,
                resp.value.etag, stored, err)
  }

  /** What `doTask` does for one task id: the files after it, its error, and the history record it writes. */
  datatype TaskOutcome = TaskOutcome(files: map<string, seq<byte>>, err: Option<TaskError>, record: HistoryRecord)

  /**
   * `doTask` as a function: a task id that does not split fails with the
   * files untouched; otherwise the unescaped key is downloaded from `start`,
   * and only a download without error gives a history record, built from
   * the task id and the download's etag, mod time and sizes.
   */
  function RunTask(url: UrlPackage, domain: string, files: map<string, seq<byte>>, keyWithTime: string,
                   start: int, network: Network, now: int): (t: TaskOutcome)
    ensures TaskKey(keyWithTime).None? ==> t.err == Some(BadTaskId) && t.files == files
    ensures t.err.None? ==>
      t.record.taskId == keyWithTime && t.record.downloaded >= t.record.fullSize
      && '\n' !in t.record.etag && t.record.modTime == now
  {
    match TaskKey(keyWithTime)
    case None => TaskOutcome(files, Some(BadTaskId), HistoryRecord(keyWithTime, "", 0, 0, 0))
    case Some(escaped) =>
      var o := Fetch(url, domain, files, url.unescape(escaped).text, start, network, now);
      var record := HistoryRecord(keyWithTime, o.etag, o.modTime, o.downloaded, o.fullSize);
      if o.err.Some? then TaskOutcome(o.files, Some(DownloadFailed(o.err.value)), record)
      else TaskOutcome(o.files, None, record)
  }

  /**
   * A task id that splits is downloaded under its unescaped key: the files
   * are the download's, only that key's file changes, the task fails exactly
   * when the download does, and a success records the download's etag, mod
   * time and sizes.
   */
  lemma RunTaskDownloads(url: UrlPackage, domain: string, files: map<string, seq<byte>>, keyWithTime: string,
                         start: int, network: Network, now: int)
    requires TaskKey(keyWithTime).Some?
    ensures var t := RunTask(url, domain, files, keyWithTime, start, network, now);
      var key := url.unescape(TaskKey(keyWithTime).value).text;
      var o := Fetch(url, domain, files, key, start, network, now);
      && t.files == o.files
      && OnlyTouches(files, t.files, DataPath(key))
      && (t.err.None? <==> o.err.None?)
      && (o.err.Some? ==> t.err == Some(DownloadFailed(o.err.value)))
      && (t.err.None? ==> t.record == HistoryRecord(keyWithTime, o.etag, o.modTime, o.downloaded, o.fullSize))
  {
  }

  /** One task of a backup run: a task id and the offset it is downloaded from. */
  datatype Attempt = Attempt(taskId: string, start: int)

  /** The files after a run, whether each attempt succeeded, and the history records written, in order. */
  datatype RunResult = RunResult(files: map<string, seq<byte>>, succeeded: seq<bool>, written: seq<HistoryRecord>)

  function CountTrue(s: seq<bool>): nat
  {
    if s == [] then 0 else CountTrue(s[..|s| - 1]) + (if s[|s| - 1] then 1 else 0)
  }

  lemma CountTrueSnoc(s: seq<bool>, b: bool)
    ensures CountTrue(s + [b]) == CountTrue(s) + (if b then 1 else 0)
  {
    assert (s + [b])[..|s|] == s;
  }

  /** The first `i` attempts: the first `i` new tasks, each from offset 0. */
  predicate NewSoFar(tasks: seq<string>, i: int, attempts: seq<Attempt>)
  {
    && |attempts| == i <= |tasks|
    && forall k :: 0 <= k < i ==> attempts[k] == Attempt(tasks[k], 0)
  }

  lemma NewStep(tasks: seq<string>, i: int, attempts: seq<Attempt>)
    requires 0 <= i < |tasks| && NewSoFar(tasks, i, attempts)
    ensures NewSoFar(tasks, i + 1, attempts + [Attempt(tasks[i], 0)])
  {
  }

  /**
   * The redo attempts: each for a redo task, from its recorded offset, no task
   * twice, and every redo task tried.
   */
  predicate RedoShape(redos: map<string, int>, redoAttempts: seq<Attempt>)
  {
    && (forall j :: 0 <= j < |redoAttempts| ==>
          redoAttempts[j].taskId in redos && redoAttempts[j].start == redos[redoAttempts[j].taskId])
    && (forall j, j' :: 0 <= j < j' < |redoAttempts| ==> redoAttempts[j].taskId != redoAttempts[j'].taskId)
    && (forall t :: t in redos ==> Tried(redoAttempts, t))
  }

  /**
   * The order `doBackup` ranges over the redo map in: every key exactly once.
   * Go leaves that order unspecified, so any order is allowed here.
   */
  method KeyOrder(keys: set<string>) returns (order: seq<string>)
    ensures |order| == |keys|
    ensures forall j :: 0 <= j < |order| ==> order[j] in keys
    ensures forall j, j' :: 0 <= j < j' < |order| ==> order[j] != order[j']
    ensures forall t :: t in keys ==> t in order
  {
    order := [];
    var pending := keys;
    while pending != {}
      invariant pending <= keys
      invariant |order| + |pending| == |keys|
      invariant forall j :: 0 <= j < |order| ==> order[j] in keys && order[j] !in pending
      invariant forall j, j' :: 0 <= j < j' < |order| ==> order[j] != order[j']
      invariant forall t :: t in keys && t !in pending ==> t in order
      decreases pending
    {
      var k :| k in pending;
      assert pending - {k} + {k} == pending;
      pending := pending - {k};
      order := order + [k];
    }
  }

  /** The first `i` redo attempts follow `order`, each from its recorded offset. */
  predicate RedoSoFar(redos: map<string, int>, order: seq<string>, i: int, attempts: seq<Attempt>)
  {
    && |attempts| == i <= |order|
    && forall j :: 0 <= j < i ==> order[j] in redos && attempts[j] == Attempt(order[j], redos[order[j]])
  }

  lemma RedoStep(redos: map<string, int>, order: seq<string>, i: int, attempts: seq<Attempt>)
    requires 0 <= i < |order| && order[i] in redos && RedoSoFar(redos, order, i, attempts)
    ensures RedoSoFar(redos, order, i + 1, attempts + [Attempt(order[i], redos[order[i]])])
  {
  }

  /** Following an order that lists every redo task once gives the redo attempts' shape. */
  lemma OrderedRedos(redos: map<string, int>, order: seq<string>, attempts: seq<Attempt>)
    requires forall j :: 0 <= j < |order| ==> order[j] in redos
    requires forall j, j' :: 0 <= j < j' < |order| ==> order[j] != order[j']
    requires forall t :: t in redos ==> t in order
    requires RedoSoFar(redos, order, |order|, attempts)
    ensures RedoShape(redos, attempts)
  {
    forall t | t in redos
      ensures Tried(attempts, t)
    {
      var j :| 0 <= j < |order| && order[j] == t;
      assert attempts[j].taskId == t;
    }
  }

  /** The attempts of a backup run: the new tasks from offset 0, then the redo tasks. */
  lemma BackupShape(tasks: seq<string>, redos: map<string, int>, newAttempts: seq<Attempt>,
                    redoAttempts: seq<Attempt>)
    requires NewSoFar(tasks, |tasks|, newAttempts)
    requires RedoShape(redos, redoAttempts)
    ensures var attempts := newAttempts + redoAttempts;
      && (forall i :: 0 <= i < |tasks| ==> attempts[i] == Attempt(tasks[i], 0))
      && (forall j :: |tasks| <= j < |attempts| ==>
            attempts[j].taskId in redos && attempts[j].start == redos[attempts[j].taskId])
      && (forall j, j' :: |tasks| <= j < j' < |attempts| ==> attempts[j].taskId != attempts[j'].taskId)
      && (forall j :: 0 <= j < |attempts| ==> attempts[j].taskId in tasks || attempts[j].taskId in redos)
      && (forall t :: t in redos ==> Tried(attempts[|tasks|..], t))
  {
    var attempts := newAttempts + redoAttempts;
    forall j | |tasks| <= j < |attempts|
      ensures attempts[j] == redoAttempts[j - |tasks|]
    {
    }
    forall j | 0 <= j < |tasks|
      ensures attempts[j].taskId == tasks[j]
    {
    }
    assert attempts[|tasks|..] == redoAttempts;
  }

  lemma {:induction false} CountTrueAppend(s: seq<bool>, t: seq<bool>)
    ensures CountTrue(s + t) == CountTrue(s) + CountTrue(t)
  {
    if t != [] {
      CountTrueAppend(s, t[..|t| - 1]);
      assert (s + t)[..|s + t| - 1] == s + t[..|t| - 1];
    } else {
      assert s + t == s;
    }
  }

  /** Some attempt is for task id `t`. */
  predicate Tried(attempts: seq<Attempt>, t: string)
  {
    exists j :: 0 <= j < |attempts| && attempts[j].taskId == t
  }

  /** A step of a backup run: the outcome of one attempt on the files so far. */
  type TaskStep = (map<string, seq<byte>>, Attempt) -> TaskOutcome

  /** `doTask` as a step. */
  function Step(url: UrlPackage, domain: string, network: Network, now: int): TaskStep
  {
    (files: map<string, seq<byte>>, a: Attempt) => RunTask(url, domain, files, a.taskId, a.start, network, now)
  }

  /**
   * A sequence of tasks run one after the other, each on the files the
   * previous one left: one success flag per attempt, and exactly one history
   * record per success.
   */
  function Run(step: TaskStep, files: map<string, seq<byte>>, attempts: seq<Attempt>): (r: RunResult)
    ensures |r.succeeded| == |attempts|
    ensures |r.written| == CountTrue(r.succeeded)
  {
    if attempts == [] then RunResult(files, [], [])
    else
      var init, last := attempts[..|attempts| - 1], attempts[|attempts| - 1];
      var r := Run(step, files, init);
      var t := step(r.files, last);
      assert (r.succeeded + [t.err.None?])[..|attempts| - 1] == r.succeeded;
      RunResult(t.files, r.succeeded + [t.err.None?], r.written + (if t.err.None? then [t.record] else []))
  }

  /**
   * Running `a` and then `b` is running `a + b`: the second part starts on the
   * files the first left, and flags and records line up in order.
   */
  lemma {:induction false} RunAppend(step: TaskStep, files: map<string, seq<byte>>, a: seq<Attempt>, b: seq<Attempt>)
    ensures var r1 := Run(step, files, a);
      var r2 := Run(step, r1.files, b);
      Run(step, files, a + b) == RunResult(r2.files, r1.succeeded + r2.succeeded, r1.written + r2.written)
  {
    var r1 := Run(step, files, a);
    if b == [] {
      AppendEmpty(a);
      AppendEmpty(r1.succeeded);
      AppendEmpty(r1.written);
    } else {
      var init, last := b[..|b| - 1], b[|b| - 1];
      RunAppend(step, files, a, init);
      SnocSplit(b);
      SeqAssoc(a, init, [last]);
      RunSnoc(step, files, a + init, last);
      RunSnoc(step, r1.files, init, last);
      var r2 := Run(step, r1.files, init);
      var t := step(r2.files, last);
      SeqAssoc(r1.succeeded, r2.succeeded, [t.err.None?]);
      SeqAssoc(r1.written, r2.written, if t.err.None? then [t.record] else []);
    }
  }

  /** Every history record of a backup run is a full download of an attempted task. */
  lemma {:induction false} RunWritten(url: UrlPackage, domain: string, network: Network, now: int,
                                      files: map<string, seq<byte>>, attempts: seq<Attempt>)
    ensures forall rec :: rec in Run(Step(url, domain, network, now), files, attempts).written ==>
      rec.downloaded >= rec.fullSize && '\n' !in rec.etag && Tried(attempts, rec.taskId)
  {
    if attempts != [] {
      var step := Step(url, domain, network, now);
      var init, last := attempts[..|attempts| - 1], attempts[|attempts| - 1];
      RunWritten(url, domain, network, now, files, init);
      SnocSplit(attempts);
      RunSnoc(step, files, init, last);
      var r := Run(step, files, init);
      var t := RunTask(url, domain, r.files, last.taskId, last.start, network, now);
      assert step(r.files, last) == t;
      forall rec | rec in Run(step, files, attempts).written
        ensures rec.downloaded >= rec.fullSize && '\n' !in rec.etag && Tried(attempts, rec.taskId)
      {
        if rec in r.written {
          var j :| 0 <= j < |init| && init[j].taskId == rec.taskId;
          assert attempts[j] == init[j];
        } else {
          assert rec == t.record && t.err.None?;
          assert attempts[|attempts| - 1].taskId == rec.taskId;
        }
      }
    }
  }

  /** Once a backup has appended its records to a well-formed history, no task it
      completed is planned again, neither as new nor as a redo. */
  lemma BackupNotReplanned(keysLog: string, log: string, newLog: string, tasks: seq<string>,
                           redos: map<string, int>, written: seq<HistoryRecord>)
    requires newLog == log + Render(written)
    requires forall r :: r in written ==>
      r.downloaded >= r.fullSize && '\n' !in r.etag && (r.taskId in tasks || r.taskId in redos)
    ensures Terminated(log) && LineSafe(tasks, redos) ==>
      var keys, history := LedgerIndex(KeyLedger, keysLog), LedgerIndex(HistoryLedger, newLog);
      forall r :: r in written ==> r.taskId !in NewTasks(keys, history) && r.taskId !in RedoTasks(keys, history)
  {
    if Terminated(log) && LineSafe(tasks, redos) {
      assert forall r :: r in written ==> FinishedRecord(r);
      CompletedTasksNotReplanned(LedgerIndex(KeyLedger, keysLog), log, written);
    }
  }

  /** Two runs one after the other are one run over both attempt lists: the files,
      the history text and the number of successes compose. */
  lemma ChainRuns(step: TaskStep, files: map<string, seq<byte>>, log: string,
                  a: seq<Attempt>, b: seq<Attempt>,
                  midFiles: map<string, seq<byte>>, midLog: string,
                  endFiles: map<string, seq<byte>>, endLog: string, n1: nat, n2: nat)
    requires midFiles == Run(step, files, a).files
    requires midLog == log + Render(Run(step, files, a).written)
    requires n1 == CountTrue(Run(step, files, a).succeeded)
    requires endFiles == Run(step, midFiles, b).files
    requires endLog == midLog + Render(Run(step, midFiles, b).written)
    requires n2 == CountTrue(Run(step, midFiles, b).succeeded)
    ensures endFiles == Run(step, files, a + b).files
    ensures endLog == log + Render(Run(step, files, a + b).written)
    ensures n1 + n2 == CountTrue(Run(step, files, a + b).succeeded)
  {
    var r1, r2 := Run(step, files, a), Run(step, midFiles, b);
    RunAppend(step, files, a, b);
    RenderAppend(r1.written, r2.written);
    CountTrueAppend(r1.succeeded, r2.succeeded);
    SeqAssoc(log, Render(r1.written), Render(r2.written));
  }

  /** Running one more attempt. */
  lemma RunSnoc(step: TaskStep, files: map<string, seq<byte>>, attempts: seq<Attempt>, a: Attempt)
    ensures var r := Run(step, files, attempts);
      var t := step(r.files, a);
      Run(step, files, attempts + [a])
        == RunResult(t.files, r.succeeded + [t.err.None?], r.written + (if t.err.None? then [t.record] else []))
  {
    assert (attempts + [a])[..|attempts|] == attempts;
  }


  class EditLog {
    const config: Config
    const url: UrlPackage
    var keysLog: string
    var historyLog: string
    var data: map<string, seq<byte>>

    /** The agent over ledgers and data that are already on disk (empty when just created). */
    constructor (config: Config, url: UrlPackage, keysLog: string, historyLog: string,
                 data: map<string, seq<byte>>)
      ensures this.config == config && this.url == url
      ensures this.keysLog == keysLog && this.historyLog == historyLog && this.data == data
    {
      this.config := config;
      this.url := url;
      this.keysLog := keysLog;
      this.historyLog := historyLog;
      this.data := data;
    }

    /** `putKey`: append `<escaped key>:<now>` to the key ledger. */
    method PutKey(key: string, now: int)
      modifies this`keysLog
      ensures keysLog == old(keysLog) + KeyLine(Escape(url, key), now) + "\n"
      ensures Terminated(old(keysLog)) && '\n' !in Escape(url, key) ==>
        && Terminated(keysLog)
        && LedgerIndex(KeyLedger, keysLog)
           == LedgerIndex(KeyLedger, old(keysLog))[Escape(url, key) := FormatInt(now)]
    {
      var item := Escape(url, key) + ":" + FormatInt(now) + "\n";
      if Terminated(keysLog) && '\n' !in Escape(url, key) {
        PutKeyReadBack(keysLog, Escape(url, key), now);
      }
      keysLog := keysLog + item;
    }

    /** `getKeys`: the key ledger read line by line. */
    method GetKeys() returns (keysMap: map<string, string>)
      ensures keysMap == LedgerIndex(KeyLedger, keysLog)
    {
      var keysList := Split(keysLog, '\n');
      keysMap := map[];
      for i := 0 to |keysList|
        invariant keysMap == Index(KeyLedger, keysList[..i])
      {
        var item := keysList[i];
        IndexSnoc(KeyLedger, keysList[..i], item);
        assert keysList[..i + 1] == keysList[..i] + [item];
        if item == "" {
          continue;
        }
        var splitedItem := Split(item, ':');
        if |splitedItem| == 2 {
          keysMap := keysMap[splitedItem[0] := splitedItem[1]];
        }
      }
      assert keysList[..|keysList|] == keysList;
    }

    /** `putHistory`: append `<task id> <etag> <mod time> <downloaded> <full size>` to the history ledger. */
    method PutHistory(keyWithTime: string, etag: string, modTime: int, downloaded: int, fullSize: int)
      modifies this`historyLog
      ensures historyLog == old(historyLog)
        + HistoryLine(HistoryRecord(keyWithTime, etag, modTime, downloaded, fullSize)) + "\n"
      ensures Terminated(old(historyLog)) && ' ' !in keyWithTime && '\n' !in keyWithTime
              && '\n' !in etag ==>
        && Terminated(historyLog)
        && LedgerIndex(HistoryLedger, historyLog)
           == LedgerIndex(HistoryLedger, old(historyLog))[keyWithTime :=
                Detail(HistoryRecord(keyWithTime, etag, modTime, downloaded, fullSize))]
    {
      var r := HistoryRecord(keyWithTime, etag, modTime, downloaded, fullSize);
      if Terminated(historyLog) && ' ' !in keyWithTime && '\n' !in keyWithTime && '\n' !in etag {
        PutHistoryReadBack(historyLog, r);
      }
      historyLog := historyLog + HistoryLine(r) + "\n";
    }

    /** `getHistory`: the history ledger read line by line. */
    method GetHistory() returns (historyMap: map<string, string>)
      ensures historyMap == LedgerIndex(HistoryLedger, historyLog)
    {
      var historyList := Split(historyLog, '\n');
      historyMap := map[];
      for i := 0 to |historyList|
        invariant historyMap == Index(HistoryLedger, historyList[..i])
      {
        var item := historyList[i];
        IndexSnoc(HistoryLedger, historyList[..i], item);
        assert historyList[..i + 1] == historyList[..i] + [item];
        if item == "" {
          continue;
        }
        var splitedItem := SplitFirst(item, ' ');
        if |splitedItem| == 2 {
          historyMap := historyMap[splitedItem[0] := splitedItem[1]];
        }
      }
      assert historyList[..|historyList|] == historyList;
    }

    /**
     * `makeTasks`: every task id of the key ledger without history is a new
     * task, each once; one whose history says to resume is redone from its
     * offset; all of them split back into key and timestamp.
     */
    method MakeTasks() returns (taskList: seq<string>, redoMap: map<string, int>)
      ensures forall t :: t in taskList <==>
        t in NewTasks(LedgerIndex(KeyLedger, keysLog), LedgerIndex(HistoryLedger, historyLog))
      ensures forall i, j :: 0 <= i < j < |taskList| ==> taskList[i] != taskList[j]
      ensures redoMap == RedoTasks(LedgerIndex(KeyLedger, keysLog), LedgerIndex(HistoryLedger, historyLog))
      ensures forall t :: t in taskList ==> |Split(t, ':')| == 2
      ensures forall t :: t in redoMap ==> |Split(t, ':')| == 2
    {
      var keysMap := GetKeys();
      var historyMap := GetHistory();
      KeyIndexColonFree(keysLog);
      taskList, redoMap := [], map[];
      var remaining := keysMap.Keys;
      ghost var seen: map<string, string> := map[];
      while remaining != {}
        invariant remaining <= keysMap.Keys
        invariant forall k :: k in seen <==> k in keysMap && k !in remaining
        invariant forall k :: k in seen ==> seen[k] == keysMap[k]
        invariant forall t :: t in taskList <==> t in NewTasks(seen, historyMap)
        invariant forall i, j :: 0 <= i < j < |taskList| ==> taskList[i] != taskList[j]
        invariant redoMap == RedoTasks(seen, historyMap)
        decreases remaining
      {
        var key :| key in remaining;
        var ts := keysMap[key];
        remaining := remaining - {key};
        var keyWithTime := key + ":" + ts;
        assert ColonFree(seen[key := ts]);
        FreshTaskId(seen, key, ts);
        PlanInsert(seen, historyMap, key, ts);
        seen := seen[key := ts];
        if keyWithTime !in historyMap {
          taskList := taskList + [keyWithTime];
        } else {
          var detail := historyMap[keyWithTime];
          var splitedDetail := Split(detail, ' ');
          if |splitedDetail| != 4 {
            continue;
          }
          var downloaded, fullSize := Atoi(splitedDetail[2]), Atoi(splitedDetail[3]);
          if downloaded.None? || fullSize.None? {
            continue;
          }
          if downloaded.value < fullSize.value {
            redoMap := redoMap[keyWithTime := downloaded.value];
          }
        }
      }
      assert seen == keysMap;
      forall t | t in taskList ensures |Split(t, ':')| == 2 {
        PlannedTaskIdsSplit(keysMap, t);
      }
      forall t | t in redoMap ensures |Split(t, ':')| == 2 {
        PlannedTaskIdsSplit(keysMap, t);
      }
    }

    /** `save`: create or truncate the content file and write the body into it. */
    method Save(key: string, body: seq<byte>, end: StreamEnd, now: int)
      returns (downloaded: int, modTime: int, err: bool)
      modifies this`data
      ensures data == old(data)[DataPath(key) := body]
      ensures err <==> end == Broken
      ensures err ==> downloaded == 0 && modTime == 0
      ensures !err ==> downloaded == |data[DataPath(key)]| == |body| && modTime == now
    {
      var fPath := DataPath(key);
      data := data[fPath := body];
      if end == Broken {
        return 0, 0, true;
      }
      downloaded, modTime, err := |data[fPath]|, now, false;
    }

    /** `append`: open the existing content file and write the body after its content. */
    method Append(key: string, body: seq<byte>, end: StreamEnd, now: int)
      returns (downloaded: int, modTime: int, err: bool)
      modifies this`data
      ensures DataPath(key) !in old(data) ==> data == old(data) && err
      ensures DataPath(key) in old(data) ==>
        data == old(data)[DataPath(key) := old(data)[DataPath(key)] + body]
      ensures err <==> DataPath(key) !in old(data) || end == Broken
      ensures err ==> downloaded == 0 && modTime == 0
      ensures !err ==> downloaded == |old(data)[DataPath(key)]| + |body| && modTime == now
    {
      var fPath := DataPath(key);
      if fPath !in data {
        return 0, 0, true;
      }
      data := data[fPath := data[fPath] + body];
      if end == Broken {
        return 0, 0, true;
      }
      downloaded, modTime, err := |data[fPath]|, now, false;
    }

    /**
     * `download`: fetch `key` from offset `start` and store what arrives. A
     * missing response, a non-2xx status and a bad Content-Length leave the
     * data untouched with nothing downloaded (-1); otherwise the body is
     * stored, and fewer bytes on disk than the full size is an error.
     */
    method Download(key: string, start: int, network: Network, now: int)
      returns (code: int, downloaded: int, fullSize: int, modTime: int, etag: string,
               err: Option<DownloadError>)
      modifies this`data
      ensures Outcome(code, downloaded, fullSize, modTime, etag, data, err)
           == Fetch(url, config.domain, old(data), key, start, network, now)
    {
      code, downloaded, fullSize, modTime, etag := 0, -1, 0, 0, "";
      var req := MakeRequest(url, config.domain, key, start);
      var resp := network(req);
      if resp.None? {
        err := Some(RequestFailed);
        return;
      }
      code := resp.value.status;
      var admitted := Admit(code, resp.value.contentLength, start);
      if admitted.Failure? {
        err := Some(admitted.error);
        return;
      }
      fullSize := admitted.value;
      etag := resp.value.etag;
      var failed;
      if start > 0 {
        downloaded, modTime, failed := Append(key, resp.value.body, resp.value.end, now);
      } else {
        downloaded, modTime, failed := Save(key, resp.value.body, resp.value.end, now);
      }
      err := if failed then Some(WriteFailed) else None;
      if downloaded < fullSize {
        err := Some(ShortBody);
      }
    }

    /**
     * `doTask`: download one task and, only when the download succeeded,
     * append its history line. A task id that does not split into key and
     * timestamp fails without touching anything.
     */
    method DoTask(keyWithTime: string, start: int, network: Network, now: int)
      returns (err: Option<TaskError>, ghost written: seq<HistoryRecord>)
      modifies this`data, this`historyLog
      ensures var t := RunTask(url, config.domain, old(data), keyWithTime, start, network, now);
        && data == t.files && err == t.err
        && written == (if t.err.None? then [t.record] else [])
      ensures TaskKey(keyWithTime).None? ==> err == Some(BadTaskId) && data == old(data)
      ensures TaskKey(keyWithTime).Some? ==> err != Some(BadTaskId)
      ensures TaskKey(keyWithTime).Some? ==>
        OnlyTouches(old(data), data, DataPath(url.unescape(TaskKey(keyWithTime).value).text))
      ensures historyLog == old(historyLog) + Render(written)
      ensures |written| == if err.None? then 1 else 0
      ensures forall r :: r in written ==>
        r.taskId == keyWithTime && r.downloaded >= r.fullSize && '\n' !in r.etag
    {
      written := [];
      var splited := Split(keyWithTime, ':');
      if |splited| != 2 {
        err := Some(BadTaskId);
        return;
      }
      var key := splited[0];
      var unescaped := url.unescape(key);
      var code, downloaded, fullSize, modTime, etag, derr := Download(unescaped.text, start, network, now);
      if derr.Some? {
        err := Some(DownloadFailed(derr.value));
        return;
      }
      PutHistory(keyWithTime, etag, modTime, downloaded, fullSize);
      var record := HistoryRecord(keyWithTime, etag, modTime, downloaded, fullSize);
      RenderOne(record);
      written := [record];
      err := None;
    }

    /**
     * The data directory, the history text and the success count `n` are those
     * of running `attempts` from `files` after a history text `log`.
     */
    ghost predicate Ran(step: TaskStep, files: map<string, seq<byte>>, log: string,
                        attempts: seq<Attempt>, n: int)
      reads this
    {
      var r := Run(step, files, attempts);
      data == r.files && historyLog == log + Render(r.written) && n == CountTrue(r.succeeded)
    }

    /**
     * One turn of `doBackup`'s loops: run the task of `a` on the files that
     * the earlier `attempts` left, and tell whether it succeeded.
     */
    method RunOneTask(a: Attempt, network: Network, now: int, ghost files: map<string, seq<byte>>,
                    ghost log: string, ghost attempts: seq<Attempt>, ghost n: int)
      returns (succeeded: bool)
      modifies this`data, this`historyLog
      requires Ran(Step(url, config.domain, network, now), files, log, attempts, n)
      ensures Ran(Step(url, config.domain, network, now), files, log, attempts + [a],
                  n + if succeeded then 1 else 0)
    {
      ghost var mid := historyLog;
      ghost var r := Run(Step(url, config.domain, network, now), files, attempts);
      RunSnoc(Step(url, config.domain, network, now), files, attempts, a);
      assert Step(url, config.domain, network, now)(r.files, a)
          == RunTask(url, config.domain, r.files, a.taskId, a.start, network, now);
      var err, w := DoTask(a.taskId, a.start, network, now);
      ExtendRendered(log, mid, historyLog, r.written, w);
      CountTrueSnoc(r.succeeded, err.None?);
      succeeded := err.None?;
    }

    /** The first loop of `doBackup`: every new task in order, from offset 0. */
    method RunNewTasks(tasks: seq<string>, network: Network, now: int)
      returns (succeeded: nat, failed: nat, ghost attempts: seq<Attempt>)
      modifies this`data, this`historyLog
      ensures NewSoFar(tasks, |tasks|, attempts)
      ensures data == Run(Step(url, config.domain, network, now), old(data), attempts).files
      ensures historyLog == old(historyLog) + Render(Run(Step(url, config.domain, network, now), old(data), attempts).written)
      ensures succeeded == CountTrue(Run(Step(url, config.domain, network, now), old(data), attempts).succeeded)
      ensures succeeded + failed == |tasks|
    {
      ghost var step := Step(url, config.domain, network, now);
      ghost var files, log := data, historyLog;
      succeeded, failed := 0, 0;
      attempts := [];
      for i := 0 to |tasks|
        invariant succeeded + failed == i
        invariant NewSoFar(tasks, i, attempts)
        invariant Ran(step, files, log, attempts, succeeded)
      {
        NewStep(tasks, i, attempts);
        var ok := RunOneTask(Attempt(tasks[i], 0), network, now, files, log, attempts, succeeded);
        attempts := attempts + [Attempt(tasks[i], 0)];
        if ok {
          succeeded := succeeded + 1;
        } else {
          failed := failed + 1;
        }
      }
    }

    /** The second loop of `doBackup`: every redo task once, in some order, from its recorded offset. */
    method RunRedoTasks(redos: map<string, int>, network: Network, now: int)
      returns (succeeded: nat, failed: nat, ghost attempts: seq<Attempt>)
      modifies this`data, this`historyLog
      ensures RedoShape(redos, attempts) && |attempts| == |redos|
      ensures data == Run(Step(url, config.domain, network, now), old(data), attempts).files
      ensures historyLog == old(historyLog) + Render(Run(Step(url, config.domain, network, now), old(data), attempts).written)
      ensures succeeded == CountTrue(Run(Step(url, config.domain, network, now), old(data), attempts).succeeded)
      ensures succeeded + failed == |redos|
    {
      ghost var step := Step(url, config.domain, network, now);
      ghost var files, log := data, historyLog;
      succeeded, failed := 0, 0;
      attempts := [];
      var order := KeyOrder(redos.Keys);
      for i := 0 to |order|
        invariant succeeded + failed == i
        invariant RedoSoFar(redos, order, i, attempts)
        invariant Ran(step, files, log, attempts, succeeded)
      {
        var a := Attempt(order[i], redos[order[i]]);
        RedoStep(redos, order, i, attempts);
        var ok := RunOneTask(a, network, now, files, log, attempts, succeeded);
        attempts := attempts + [a];
        if ok {
          succeeded := succeeded + 1;
        } else {
          failed := failed + 1;
        }
      }
      OrderedRedos(redos, order, attempts);
    }

    /**
     * `doBackup`: every new task from offset 0, then every redo task once
     * from its recorded offset, in some order, counting successes and
     * failures. `attempts` is the order the tasks ran in; the files, the
     * counts and the history lines written are those of running them one
     * after the other.
     */
    method DoBackup(tasks: seq<string>, redos: map<string, int>, network: Network, now: int)
      returns (newSucceeded: nat, newFailed: nat, redoSucceeded: nat, redoFailed: nat,
               ghost written: seq<HistoryRecord>, ghost attempts: seq<Attempt>)
      modifies this`data, this`historyLog
      ensures |attempts| == |tasks| + |redos|
      ensures forall i :: 0 <= i < |tasks| ==> attempts[i] == Attempt(tasks[i], 0)
      ensures forall j :: |tasks| <= j < |attempts| ==>
        attempts[j].taskId in redos && attempts[j].start == redos[attempts[j].taskId]
      ensures forall j, j' :: |tasks| <= j < j' < |attempts| ==> attempts[j].taskId != attempts[j'].taskId
      ensures forall t :: t in redos ==> Tried(attempts[|tasks|..], t)
      ensures data == Run(Step(url, config.domain, network, now), old(data), attempts).files
      ensures written == Run(Step(url, config.domain, network, now), old(data), attempts).written
      ensures newSucceeded == CountTrue(Run(Step(url, config.domain, network, now), old(data), attempts[..|tasks|]).succeeded)
      ensures newSucceeded + redoSucceeded == CountTrue(Run(Step(url, config.domain, network, now), old(data), attempts).succeeded)
      ensures newSucceeded + newFailed == |tasks|
      ensures redoSucceeded + redoFailed == |redos|
      ensures historyLog == old(historyLog) + Render(written)
      ensures |written| == newSucceeded + redoSucceeded
      ensures forall r :: r in written ==>
        r.downloaded >= r.fullSize && '\n' !in r.etag && (r.taskId in tasks || r.taskId in redos)
      ensures Terminated(old(historyLog)) && LineSafe(tasks, redos) ==>
        var keys, history := LedgerIndex(KeyLedger, keysLog), LedgerIndex(HistoryLedger, historyLog);
        forall r :: r in written ==> r.taskId !in NewTasks(keys, history) && r.taskId !in RedoTasks(keys, history)
    {
      ghost var step := Step(url, config.domain, network, now);
      ghost var files, log := data, historyLog;
      ghost var newAttempts, redoAttempts;
      newSucceeded, newFailed, newAttempts := RunNewTasks(tasks, network, now);
      ghost var midFiles, midLog := data, historyLog;
      redoSucceeded, redoFailed, redoAttempts := RunRedoTasks(redos, network, now);
      attempts := newAttempts + redoAttempts;
      ChainRuns(step, files, log, newAttempts, redoAttempts, midFiles, midLog, data, historyLog,
                newSucceeded, redoSucceeded);
      PrefixOfAppend(newAttempts, redoAttempts);
      written := Run(step, files, attempts).written;
      BackupShape(tasks, redos, newAttempts, redoAttempts);
      assert forall r :: r in written ==>
        r.downloaded >= r.fullSize && '\n' !in r.etag && (r.taskId in tasks || r.taskId in redos)
      by {
        RunWritten(url, config.domain, network, now, files, attempts);
        forall r | r in written
          ensures r.taskId in tasks || r.taskId in redos
        {
          var j :| 0 <= j < |attempts| && attempts[j].taskId == r.taskId;
        }
      }
      BackupNotReplanned(keysLog, old(historyLog), historyLog, tasks, redos, written);
    }
  }

  /**
   * `NewEditLog`: refuse a configuration without bucket, domain, base
   * directory, access key or secret key; otherwise set up the agent.
   */
  method NewEditLog(config: Config, url: UrlPackage, keysLog: string, historyLog: string,
                    data: map<string, seq<byte>>)
    returns (e: EditLog?)
    ensures e == null <==>
      config.bucket == "" || config.domain == "" || config.baseDir == ""
      || config.accessKey == "" || config.secretKey == ""
    ensures e != null ==> (fresh(e) && e.config == config && e.url == url
      && e.keysLog == keysLog && e.historyLog == historyLog && e.data == data)
  {
    if config.bucket == "" || config.domain == "" || config.baseDir == ""
       || config.accessKey == "" || config.secretKey == "" {
      return null;
    }
    e := new EditLog(config, url, keysLog, historyLog, data);
  }
}
