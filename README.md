# qLocalBackup edit log, modelled in Dafny

qLocalBackup is a small agent that backs up the files of a Qiniu storage
bucket to local disk. Its core, `editLog.go`, keeps two append-only text
ledgers:

- **keys.log** has one line `<escaped key>:<enqueue time in ns>` for every key
  someone asks to back up.
- **history.log** has one line
  `<task id> <etag> <mod time> <downloaded> <full size>` for every finished
  download.

A backup run does three things:

1. It reads both ledgers into maps. A later line for the same key wins.
2. It reconciles the two maps into a plan. A task id (`key:timestamp`) with no
   history is a *new* task. A task id whose history says the download is short
   is a *redo* task, resumed from its offset. Every other task id is left alone.
3. It downloads each planned task with an HTTP range request, then writes or
   appends the body to the key's content file. Only a download that reached the
   full size gets a history line.

The project has these modules:

- `text.dfy`: the Go string helpers the agent uses: `strings.Split`,
  `strings.SplitN(…, 2)` and `strings.Replace`, all over a single-character
  separator. The agent never joins strings. `Text.Join` exists only to state
  that splitting loses nothing (`JoinSplit`, `SplitJoin`).
- `numbers.dfy`: Go's 64-bit integers. It covers `%d` formatting,
  `strconv.Atoi` on a 64-bit platform, int64 wrap-around on addition, and
  Go's truncating integer division.
- `escaping.dfy`: the agent's `escape`. The foreign `url` package and the
  request signer are passed in as plain functions (`UrlPackage`).
- `ledger.dfy`: the two line formats and reading a ledger back into a map. It
  proves that the last line wins, that skipped lines change nothing, and that
  a line appended by the writers reads back as the key and value it was
  written from.
- `planner.dfy`: the reconciliation (`makeTasks`) as a specification over the
  two maps. It proves:
  - the planned task ids split back into key and timestamp;
  - new tasks and redo tasks are disjoint;
  - history lines written by a backup run stop those tasks from being planned
    again.
- `backup.dfy`: class `EditLog`, whose fields stand for the agent's files:
  - the text of keys.log;
  - the text of history.log;
  - the data directory, as a map from path to content.

  Its methods are the ledger readers and writers, the planner loop, `save`,
  `append`, `download`, `doTask` and the `doBackup` loops. The loops carry
  invariants that tie them to the specifications above. `download`, `doTask`
  and `doBackup` are each proved equal to a pure function: `Fetch` for one
  download, `RunTask` for one task, and `Run`, a left fold of `RunTask` over the
  attempts in the order they ran, for a whole backup.

The network is a parameter of type `Request -> Option<HttpResponse>`. `None`
means no response came back. A response gives:

- the status;
- the `Content-Length` and `Etag` header texts;
- the body bytes;
- how the body stream ended.

The clock (`time.Now().UnixNano()` and the file modification time) is the
`now` parameter.

Behaviour worth knowing, which the model follows from the code:

- `doTask` returns before `putHistory` on every download error, including a
  short body (`editLog.go:235-238`). So the agent never writes a history line
  with `downloaded < fullSize` itself. The redo path is only fed by history
  lines that something else wrote.
- The key ledger is keyed by the escaped key alone. A key enqueued twice is
  planned only under its last timestamp.
- The readers split the whole file on `\n`. A ledger whose last line has no
  newline gets its next appended line glued onto that tail. The read-back
  lemmas therefore require a ledger that is empty or ends in a newline
  (`Terminated`), and every writer keeps a ledger that way.
- `doBackup` only logs its four counters. The model returns them.
- `doTask` ignores an error from `url.Unescape` and downloads the text it
  returned.

## Model

| member | source | states |
|---|---|---|
| Text.Split | editLog.go:97 | `strings.Split` on one separator gives one more piece than there are separators, and no piece holds the separator |
| Text.JoinSplit | editLog.go:97 | joining the pieces with the separator gives the original text back, so splitting loses nothing |
| Text.SplitJoin | editLog.go:102 | splitting the join of a non-empty list of separator-free pieces gives the pieces back |
| Text.SplitAround | editLog.go:97 | the pieces of `x + sep + y` are the pieces of `x` followed by those of `y` |
| Text.SplitNoSeparator | editLog.go:102-103 | a text without the separator is a single piece |
| Text.SplitFirst | editLog.go:132-133 | `SplitN(s, " ", 2)` has one part exactly when there is no separator, and otherwise a separator-free head and a tail that rebuild the text |
| Text.ReplaceAll | editLog.go:370 | replacing every `c` with a text that lacks `c` leaves no `c` |
| Text.ReplaceAllLength | editLog.go:370 | each replaced character changes the length by the length of the replacement less one |
| Text.ReplaceAllAbsent | editLog.go:370 | text without `c` comes out unchanged |
| Numbers.Wrap64 | editLog.go:283 | the int64 sum is in the int64 range, equals the true sum when that fits, and is congruent to it modulo 2^64 |
| Numbers.Quot | editLog.go:272 | Go's `/` truncates toward zero: bounds of the quotient for non-negative and negative dividends |
| Numbers.NatDigits | editLog.go:86 | `%d` of a natural number is a non-empty run of digits whose value is the number, without a leading zero |
| Numbers.FormatInt | editLog.go:116 | `%d` is non-empty and made of digits, after an optional leading minus |
| Numbers.Atoi | editLog.go:203-204 | `strconv.Atoi` succeeds only on a sign or digit first and only with an int64 value |
| Numbers.AtoiFormatInt | editLog.go:203-204 | reading back what `%d` wrote gives the number exactly when it is an int64, and an error otherwise |
| Numbers.AtoiRejectsNonDigit | editLog.go:277 | any character that is not a digit, other than a leading sign, makes `Atoi` fail |
| Escaping.Escape | editLog.go:369-372 | the escaped key never contains `:` |
| Ledger.ParseLine | editLog.go:99-105 | a key line is kept exactly when it has one `:`, as colon-free key and value around it; a history line (editLog.go:129-134) is kept exactly when it has a space, as the space-free text before the first space and the rest |
| Ledger.FoldLastWins | editLog.go:98-106 | folding read lines into a map: `k` maps to `v` exactly when some entry sets `k` to `v` and no later entry mentions `k` |
| Ledger.IndexLastWins | editLog.go:97-106 | the ledger map holds `k -> v` exactly when some line reads as `k -> v` and no later line reads as a line for `k`; skipped lines change nothing |
| Ledger.IndexSnoc | editLog.go:128-135 | reading one more line changes the map exactly as that line says |
| Ledger.AppendLine | editLog.go:87 | appending a complete line to a terminated ledger keeps it terminated and changes its map exactly as reading that line does |
| Ledger.NumberHasNoSeparator | editLog.go:116 | a formatted number holds no `:`, space or newline |
| Ledger.FirstSeparatorUnique | editLog.go:132-134 | two texts that agree around their first separator agree on both sides |
| Ledger.PutKeyReadBack | editLog.go:86-104 | the line `putKey` writes reads back through `getKeys` as the escaped key mapped to the new timestamp, overwriting any earlier one |
| Ledger.PutHistoryReadBack | editLog.go:116-134 | the line `putHistory` writes reads back through `getHistory` as the task id mapped to its detail, when the task id has no space or newline and the etag no newline |
| Ledger.KeyLine | editLog.go:86 | a key line splits on `:` into the escaped key's pieces followed by the time, and holds no newline when the key holds none |
| Ledger.Detail | editLog.go:116 | a history detail holds no newline when the etag holds none |
| Ledger.HistoryLine | editLog.go:116 | a history line holds no newline when the task id and the etag hold none |
| Ledger.HistoryLineReads | editLog.go:116-134 | a history line whose task id has no space reads back, at its first space, as that task id and its detail |
| Ledger.RenderAppend | editLog.go:116-117 | the history text written for two lists of records one after the other is the text for the first followed by the text for the second, for any number of records |
| Ledger.RenderTerminated | editLog.go:116 | appending whole history lines keeps history.log terminated |
| Planner.Classify | editLog.go:197-212 | a history detail only ever says to resume at an int64 offset |
| Planner.DetailVerdict | editLog.go:197-212 | the planner resumes only from a detail with downloaded below full size, at the downloaded offset; a detail written with a space-free etag (an empty etag included) and int64 sizes is classified by its sizes alone |
| Planner.DetailFields | editLog.go:197 | a written detail splits on spaces into the etag's pieces and then the three numbers |
| Planner.KeyIndexColonFree | editLog.go:102-104 | every key and timestamp that `getKeys` yields is free of `:` |
| Planner.TaskIdColons | editLog.go:193 | a task id has one more `:` than key and timestamp together, so `doTask`'s split accepts it exactly when both are colon-free |
| Planner.TaskIdSplits | editLog.go:193 | a task id built from a colon-free key and timestamp splits back into exactly them |
| Planner.TaskIdInjective | editLog.go:193 | different pairs of colon-free key and colon-free timestamp give different task ids |
| Planner.PlannedTaskIdsSplit | editLog.go:219-225 | every planned task id splits on `:` into two parts, so `doTask`'s split error never fires for a planned task |
| Planner.EnqueuedKeyPlanned | editLog.go:192-195 | a key just enqueued is planned under its newest timestamp, as a new task unless that task id has history |
| Planner.NewAndRedoDisjoint | editLog.go:194-212 | new and redo tasks are disjoint, and each redo task's history detail says to resume at exactly its offset |
| Planner.TaskIdsInsert | editLog.go:192-193 | planning one more key adds exactly its task id |
| Planner.FreshTaskId | editLog.go:192-195 | when every key and timestamp is colon-free, a key not yet planned cannot produce a task id that is already planned |
| Planner.PlanInsert | editLog.go:192-213 | planning one more key adds its task id to the new tasks when it has no history, and to the redo tasks when its history says to resume |
| Planner.CompletedTasksNotReplanned | editLog.go:235-240 | after history lines of full downloads are appended to a history.log that is empty or ends in a newline, none of their task ids that holds no space or newline is planned again, as new or as redo |
| Planner.CompletedStayDone | editLog.go:240 | when history.log was empty or ended in a newline, each task id without space or newline of the appended full-download lines has a history detail that does not say to resume |
| Backup.RangeHeader | editLog.go:256 | every request carries a `bytes=<start>-` range, even from offset 0 |
| Backup.RangeHeaderReadsBack | editLog.go:256 | the offset in the range header reads back as the start offset for every int64, and as an error for any other number |
| Backup.MakeBaseUrl | editLog.go:359-361 | the URL is `http://`, then the domain, then `/`, then the escaped key, each at a fixed position |
| Backup.BaseUrlInjective | editLog.go:359-361 | within one domain, two escaped keys give the same URL exactly when they are equal |
| Backup.MakeRequest | editLog.go:250-258 | the request goes to the signed URL of the escaped key and asks for `identity` encoding |
| Backup.RequestRange | editLog.go:256 | every request's range is `bytes=<start>-`, and its offset reads back as `start` for every int64 |
| Backup.Stored | editLog.go:297-357 | only the key's own file changes; from offset 0 or below it becomes the body; from a positive offset the body is appended to an existing file and no file is created |
| Backup.Admit | editLog.go:272-283 | a status outside 2xx is `BadStatus`; a non-integer Content-Length is `NoContentLength`; otherwise the full size is the int64 sum of the length and the offset |
| Backup.DataPath | editLog.go:298-300 | the empty key is stored as `_empty`, and every other key under its own name |
| Backup.TaskKey | editLog.go:219-226 | a task id yields a key exactly when it has one `:`, and the key is the colon-free text before that `:` |
| Backup.TaskKeyOfTaskId | editLog.go:219-226 | the key `doTask` splits off a task id that `makeTasks` built (`key:ts`) from a colon-free key and a colon-free timestamp is that key |
| Backup.CheckIp | editLog.go:466-473 | an address is allowed exactly when it is in the list |
| Backup.Fetch | editLog.go:248-295 | one download, outcome by outcome: no response leaves the files alone with `downloaded = -1`; a refused status or length leaves them alone with that error; otherwise the body is stored, `downloaded` is the file's length if storing worked, and fewer bytes than the full size is `ShortBody`; on success the key's file is the old content plus the body (positive offset) or the body (offset 0 or below), and nothing else changes |
| Backup.RunTask | editLog.go:218-246 | a task id that does not split fails with the files unchanged; a successful task yields a record for that task id, stamped `now`, with a newline-free etag and `downloaded >= fullSize` |
| Backup.RunTaskDownloads | editLog.go:226-240 | a task that splits downloads the unescaped key: its files are the download's, it succeeds exactly when the download does, a download error is wrapped, and the record holds the download's etag, time and sizes |
| Backup.Run | editLog.go:157-177 | running a list of attempts gives one success flag per attempt and one history record per success |
| Backup.RunAppend | editLog.go:157-177 | running two lists of attempts one after the other is running their concatenation: the files of the second run, and the flags and records of both in order |
| Backup.RunWritten | editLog.go:235-240 | every record a run writes is a full download with a newline-free etag, for a task id that was attempted |
| Backup.BackupShape | editLog.go:157-171 | the attempts are the new tasks in order from offset 0, then every redo task exactly once from its recorded offset |
| Backup.ChainRuns | editLog.go:151-180 | the files, the history text and the success count after both loops are those of one run over all attempts |
| Backup.BackupNotReplanned | editLog.go:235-240 | after a backup appends its full-download records to a history.log that was empty or ended in a newline, and no task id holds a space or newline, none of those tasks is planned again |
| Backup.EditLog.constructor | editLog.go:403-406 | the agent starts from the given configuration, ledgers and data |
| Backup.EditLog.PutKey | editLog.go:80-89 | keys.log grows by the escaped key and the time; a terminated ledger stays terminated and its map then sends the escaped key to the new time |
| Backup.EditLog.GetKeys | editLog.go:91-108 | the map built line by line equals the key ledger's specification map |
| Backup.EditLog.PutHistory | editLog.go:110-119 | history.log grows by one formatted line; for a safe task id and etag its map then sends the task id to the new detail |
| Backup.EditLog.GetHistory | editLog.go:121-138 | the map built line by line equals the history ledger's specification map |
| Backup.EditLog.MakeTasks | editLog.go:182-216 | the task list holds exactly the new tasks, each once; the redo map is exactly the redo tasks with their offsets; every planned task id splits into two parts |
| Backup.EditLog.Save | editLog.go:297-326 | the content file becomes the body; `downloaded` is its length unless the stream broke |
| Backup.EditLog.Append | editLog.go:328-357 | the body is appended to an existing content file and `downloaded` is old length plus body length; a missing file is an error and changes nothing |
| Backup.EditLog.Download | editLog.go:248-295 | its six results and the data directory it leaves are exactly `Fetch`'s outcome for the old data |
| Backup.EditLog.DoTask | editLog.go:218-246 | the data and the error are exactly `RunTask`'s; a task id that does not split fails untouched; history grows by the task's record exactly when it succeeds, and by nothing otherwise |
| Backup.EditLog.RunOneTask | editLog.go:158-163 | one more task run extends the data, the history and the success count exactly as one more attempt extends `Run` |
| Backup.KeyOrder | editLog.go:170 | the keys of the redo map listed once each: every listed key is in the map, no key twice, every key listed, as many entries as keys |
| Backup.OrderedRedos | editLog.go:170-171 | attempting the redo tasks in such an order, each from its recorded offset, tries every redo task exactly once |
| Backup.EditLog.RunNewTasks | editLog.go:156-164 | the new tasks run in order from offset 0: the data, the history and the success count are those of `Run` over those attempts, and successes plus failures are the number of tasks |
| Backup.EditLog.RunRedoTasks | editLog.go:169-177 | every redo task runs exactly once from its recorded offset, in some order: the data, the history and the success count are those of `Run` over those attempts |
| Backup.EditLog.DoBackup | editLog.go:151-180 | the attempts are the new tasks from offset 0, then every redo task once from its offset; the data and the records written are those of `Run` over them; the new-task counter counts the successes of the first part and both counters together those of all; history grows by exactly the records written, each a full download; when history.log was empty or ended in a newline and no task id holds a space or newline, none of those tasks is planned again afterwards |
| Backup.NewEditLog | editLog.go:396-407 | no agent exists exactly when bucket, domain, base directory, access key or secret key is empty |

## Left out

- HTTP transport: `client.Do`, the headers other than Range, Accept-Encoding, Content-Length and Etag, and `X-Reqid` logging. The network is a function parameter.
- URL signing (`makeFullUrl` with `rs.GetPolicy` and `digest.Mac`) and the internals of `url.Escape` and `url.Unescape`. These are foreign code, passed in as functions of `UrlPackage`. With no axioms, no escape/unescape round trip is stated. Only the `:` to `%3A` post-processing is proved.
- File system failures other than a missing file for `append`: `MkdirAll`, `Create`, `OpenFile` and `Stat` errors. `path.Join` cleaning of the data path is not modelled either. The data directory is a map keyed by the key itself.
- Ledger I/O errors in `putKey`, `putHistory`, `getKeys` and `getHistory`. The ledgers are in-memory strings, so `makeTasks`'s error returns cannot happen.
- `init` and `initLog`, JSON config decoding, flags, `main` and logging. These are plumbing.
- `sync.Mutex` and the `go e.doBackup(...)` goroutine in `startBackup`. The model is sequential.
- The HTTP handlers `PutKeyHandler` and `BackupHandler`. These are control-plane wrappers. Only `checkIp` is modelled.
- Backup.EditLog.DoBackup: completed tasks stay unplanned only when history.log was empty or ended in a newline and no task id holds a space or newline. A history.log cut after a crash, without its final newline, glues the next full-download line onto the cut line. That task is then planned again, and so is a task id with a space, which reads back under a different key.
- Backup.Stored, Backup.Fetch: a negative resume offset read from a history line truncates the file, exactly like offset 0.
- Backup.EditLog.DoBackup: one `network` function and one `now` serve a whole run. So every record of a run carries the same modification time, and identical requests in one run get identical responses. In Go each task has its own file mtime and its own network result.
- Request construction failure: when `http.NewRequest` fails (`editLog.go:253`), the following header assignment (`editLog.go:257`) dereferences a nil request and the backup goroutine panics. The model always builds the request.
- Backup.EditLog.DoBackup: Go visits the redo map in random order. `KeyOrder` picks the keys with `:|`, so the contract holds for every order but names no particular one.
- Backup.EditLog.PutKey: the read-back part holds only for a ledger that is empty or ends in a newline, and an escaped key without a newline. The agent's own writes keep the ledger that way.
- Backup.EditLog.PutHistory: the read-back part holds only for a terminated ledger, a task id without space or newline, and an etag without newline.
- Backup.EditLog.Download: a header value is assumed never to hold a newline (the `HttpResponse` subset type), and the modification time is the `now` parameter.
- Backup.Admit: when the sum of Content-Length and offset overflows, the contract states only that the result is an int64 congruent to the sum modulo 2^64. This is Go's wrap-around.
