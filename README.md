# Job-application tracker backend: a Dafny model

This project models the stateful core of a small Flask backend. The backend
watches a Gmail inbox through Pub/Sub notifications and keeps, per user, a
list of job-application records keyed by company. The model covers three
source files:

- `backend_api/data_handling.py`: `application_exists`. It is a first-match
  search by company that returns -1 when no record matches. It is modelled by
  the function `DataHandling.FirstMatch` and the loop method
  `DataHandling.ApplicationExists`.
- `backend_api/api.py`: the `/jobstatuses` merge-or-insert endpoint, the live
  connection set and the `/emails` batch replacement. These become the class
  `Api.Server`, whose fields are the `users` object of the store, the
  `active_connections` set and `email_list`. The validation step is the
  function `Api.ParseJobStatus`. The merge is the function `Api.Upsert`, with
  lemmas about it.
- `backend_api/watch_gmail.py`: the `seen_emails` gate, subject, sender and
  body extraction, `get_new_emails`, `fetch_latest_email`, and one iteration
  of the `listen_for_emails` loop. The module-level state becomes the class
  `WatchGmail.Poller`. Each of its methods is proved equal to a specification
  function over a `State` value: `Visit`, `VisitIds`, `FetchLatest`,
  `NewEmails`, `ScanItems` and `Cycle`.
  - The Gmail service is input data (`Service`): the history listing per
    start id, the inbox listing, the message payloads, and the base64/UTF-8
    decoder as an opaque function.
  - A Python exception that leaves a function is modelled as an `Outcome`
    whose `ok` is false.
  - Since `fetch_email_by_id` only prints, the poller records each ID passed
    to it, in call order, in a ghost trace `fetched`. It also counts the calls
    to `fetch_latest_email` in a ghost counter `latestCalls`.

The poller's invariant is `Consistent`: no ID is fetched twice, and every
fetched ID is in `seen_emails`. Lemmas about each specification function
prove `Advances(st, st')` for its step: `VisitFacts`, `VisitIdsAdvances`,
`FetchLatestFacts`, `NewEmailsAdvances`, `ScanItemsFacts` and
`CycleKeepsConsistent`. `Advances` says four things:

- fetches are only appended;
- each new fetch is of an ID that was not seen before, and is made once;
- `seen_emails` grows by exactly the newly fetched IDs;
- fallback calls are only added.

The model follows the code as written:

- Merging a record for an existing company overwrites only its `status`
  (`backend_api/api.py:57`). The date and company e-mail stay as they were,
  although the comment above that line speaks of updating the e-mail link too.
- An undecodable Pub/Sub payload ends the cycle without the manual fallback
  (`backend_api/watch_gmail.py:161-162`). This happens whether the whole pull
  output is undecodable or only an item's `data`.
- The poller never calls the classifier or the reconciler.
- The store is a map held in memory rather than a file read and rewritten on
  each request.

## Model

| member | source | states |
|---|---|---|
| DataHandling.FirstMatch | backend_api/data_handling.py:2-10 | The result is -1 exactly when no record has the company. Otherwise it is an index in range whose record has the company, and no earlier record has it. |
| DataHandling.ApplicationExists | backend_api/data_handling.py:2-10 | The index loop with its early return gives exactly `FirstMatch`: the first matching index, or -1. The list is a value, so the search leaves it unchanged. |
| Api.ParseJobStatus | backend_api/api.py:30-43 | The request is accepted exactly when it is a JSON object with non-empty `company`, `date`, `status` and `user_email`. The entry takes its fields from those keys, with `user_email` becoming the company e-mail. A non-JSON request gets 400 "Request must be JSON". A missing field gets 400 "Missing required parameters". An unparsable body gets Flask's 400. A body that is not an object gets 500. |
| Api.Upsert | backend_api/api.py:54-62 | If the company is present, the list keeps its length, the first record for the company gets the new status with its other fields unchanged, and every other record is unchanged. Otherwise the old list is followed by exactly one new record {date, company, company_email, status}. |
| Api.UpsertRecordsStatus | backend_api/api.py:54-62 | After the merge, a record for the company exists, and the first one carries the request's status. |
| Api.UpsertKeepsUnique | backend_api/api.py:54-62 | A list with at most one record per company still has at most one record per company after the merge. |
| Api.UpsertTwice | backend_api/api.py:54-62 | Two merges for the same company on a unique list: the second adds no record, the list stays unique, and the company's record holds the second status. |
| Api.Server.constructor | backend_api/api.py:73-75 | Starts from the stored users, with no connections and an empty `email_list`. |
| Api.Server.JobstatusManual | backend_api/api.py:28-70 | A rejected request returns the rejection and leaves the store unchanged. An accepted one sets the fixed user's list to `Upsert` of the old list, or of the empty list when the user was absent, and replies 200 with that list. Every other user's list is identical and no other user is added. Uniqueness of the fixed user's list is preserved. |
| Api.Server.HandleConnect | backend_api/api.py:77-80 | The session id is added to the connection set. |
| Api.Server.HandleDisconnect | backend_api/api.py:82-85 | The session id is removed. `found` is false exactly when it was absent, which is the case where `set.remove` raises. |
| Api.Server.AddEmails | backend_api/api.py:89-102 | A parsed body replaces `email_list` wholesale and the reply is 200. When `get_json()` raises, the reply is 400 and `email_list` is unchanged. |
| WatchGmail.HeaderValue | backend_api/watch_gmail.py:99-101 | Gives the value of the first header with the given name, or the default ("No Subject", "Unknown Sender") when no header has that name. |
| WatchGmail.BodyOfFirstPlain | backend_api/watch_gmail.py:103-109 | When part i is the first `text/plain` part that has data, the body is the decoding of that part's data, or an error when that decoding raises. |
| WatchGmail.BodyOfNoPlain | backend_api/watch_gmail.py:103-106 | When there are no parts, or no `text/plain` part has data, the body is "No Body Available". |
| WatchGmail.ExtractBody | backend_api/watch_gmail.py:103-109 | The part loop with its `break` computes exactly `BodyOf`. |
| WatchGmail.FetchEmailById | backend_api/watch_gmail.py:94-114 | Returns the subject, sender and body of the message. It fails when the message cannot be retrieved or its body cannot be decoded. |
| WatchGmail.AdvancesKeepsConsistent | backend_api/watch_gmail.py:83-86 | Every step keeps the invariant that no ID is fetched twice and every fetched ID is in `seen_emails`. |
| WatchGmail.VisitFacts | backend_api/watch_gmail.py:83-86 | The gate fetches an ID, appending it to `fetched`, exactly when the ID was not in `seen_emails`. The ID is in `seen_emails` afterwards. The call raises only if that fetch raises. |
| WatchGmail.VisitTwice | backend_api/watch_gmail.py:83-88 | Passing the same ID through the gate a second time changes nothing and fetches nothing. |
| WatchGmail.VisitIdsAdvances | backend_api/watch_gmail.py:79-88 | The history loop only advances the state and never calls `fetch_latest_email`. |
| WatchGmail.VisitIdsConcat | backend_api/watch_gmail.py:79-82 | Visiting the IDs of two records in turn is the same as visiting their concatenation. The second part is visited only if the first returned normally. |
| WatchGmail.DedupKeepsFirstSightings | backend_api/watch_gmail.py:79-88 | The IDs the gate lets through are the listing's IDs in listing order. An ID is kept exactly when it is neither already seen nor earlier in the listing. |
| WatchGmail.DedupFacts | backend_api/watch_gmail.py:79-88 | The IDs let through have no repeats. They are exactly the listed IDs that were not already seen. |
| WatchGmail.VisitIdsFetchesDedup | backend_api/watch_gmail.py:79-88 | The history loop fetches a prefix of the deduplicated listing. It returns normally exactly when none of those fetches raises, and then it has fetched all of them. |
| WatchGmail.HistoryIdsMembers | backend_api/watch_gmail.py:79-82 | An ID is visited exactly when some record with a "messages" key lists it. Records without "messages" contribute nothing. |
| WatchGmail.FetchLatestFacts | backend_api/watch_gmail.py:116-131 | Counts one fallback call, only advances the state, and considers only the first inbox message. It fetches that message exactly when it is unseen. An empty inbox fetches nothing and returns normally. A failed inbox listing raises. |
| WatchGmail.NewEmailsAdvances | backend_api/watch_gmail.py:67-92 | get_new_emails, including its fallbacks, only advances the state. |
| WatchGmail.NewEmailsFallbacks | backend_api/watch_gmail.py:67-92 | A failed history listing falls back once. An empty listing falls back once, or twice when that first fallback raises inside the `try`. A non-empty listing that processes without an exception runs no fallback. One that raises falls back exactly once. |
| WatchGmail.NewEmailsFetchesHistory | backend_api/watch_gmail.py:67-92 | For a non-empty listing whose fetches succeed, the call fetches exactly the deduplicated listing, in order, with no fallback. Otherwise it falls back exactly once. |
| WatchGmail.ScanItemsFacts | backend_api/watch_gmail.py:147-157 | The item loop only advances the state. `data_found` becomes true only if some item carries a truthy `historyId`. |
| WatchGmail.CycleKeepsConsistent | backend_api/watch_gmail.py:144-165 | One poll cycle only advances the state, so from a consistent state it reaches a consistent state: no ID is ever fetched twice. |
| WatchGmail.CycleUnparsed | backend_api/watch_gmail.py:144-165 | Blank output runs exactly one fallback. Output that is not JSON skips the cycle and changes nothing. |
| WatchGmail.ScanRunsMarkers | backend_api/watch_gmail.py:147-157 | When every item's data decodes, the item loop runs `get_new_emails` once per truthy `historyId`, in item order, stopping at an exception. `data_found` then says whether there was any such item. |
| WatchGmail.CycleRunsMarkers | backend_api/watch_gmail.py:144-160 | When every item's data decodes, the cycle runs `get_new_emails` for the markers in order. With no marker, it falls back exactly once. |
| WatchGmail.CycleStopsAtDecodeError | backend_api/watch_gmail.py:145-162 | A JSON decode error in item k's data ends the cycle. Only the markers before item k are processed, and there is no fallback. |
| WatchGmail.Poller.constructor | backend_api/watch_gmail.py:21-22 | `seen_emails` starts empty: nothing seen, nothing fetched, no fallback calls. |
| WatchGmail.Poller.FetchIfUnseen | backend_api/watch_gmail.py:83-86 | The gate as a state change: the new state and return are exactly `Visit` of the old state. |
| WatchGmail.Poller.FetchLatestEmail | backend_api/watch_gmail.py:116-131 | The new state and return are exactly `FetchLatest` of the old state, and the invariant (no ID fetched twice, every fetched ID in `seen_emails`) is kept. |
| WatchGmail.Poller.VisitMessages | backend_api/watch_gmail.py:81-88 | The inner loop over one record's messages gives exactly `VisitIds` over those IDs, stopping at the first fetch that raises. |
| WatchGmail.Poller.VisitHistory | backend_api/watch_gmail.py:79-88 | The nested record/message loops give exactly `VisitIds` over the flattened listing. |
| WatchGmail.Poller.GetNewEmails | backend_api/watch_gmail.py:67-92 | The new state and return are exactly `NewEmails` of the old state, and the invariant (no ID fetched twice, every fetched ID in `seen_emails`) is kept. |
| WatchGmail.Poller.ListenCycle | backend_api/watch_gmail.py:144-165 | The loop over pulled items with its `data_found` flag gives exactly `Cycle` of the old state, and the invariant is kept across cycles. |

## Left out

- OAuth and credentials (`get_credentials`, the pickle token file): I/O and a foreign library.
- `watch_gmail` registration and the remote calls themselves: their answers are the `Service` input.
- The `Service` answers every call with the same arguments identically within a cycle. The source makes a separate remote call each time, so the inbox seen by the two `fetch_latest_email` calls of an empty-listing `get_new_emails` (`backend_api/watch_gmail.py:76` and `:92`) could differ there. In the model, when the first inbox listing fails the second fails too.
- The `gcloud` subprocess, `time.sleep` and the endless `while True`: one cycle is modelled by `ListenCycle` and `Cycle`.
- The internals of `json.loads` and `base64.urlsafe_b64decode`: their results are data in the model. The pull output and item data are given decoded or undecodable. Body decoding is the opaque `Service.decode`.
- All `print` output, including the 500-character body preview.
- `backend_api/ML_Model.py` (OpenAI classifier wrappers): it is never called by the modelled code, and its output is nondeterministic text from a remote service.
- Flask, SocketIO and CORS wiring, the `/users` dummy endpoint, the `socketio.emit` broadcast, and reading and writing `data.json`: I/O and framework calls. The store is an in-memory map.
- Concurrent access to the connection set and the store: the source has no synchronisation to model.
- Api.ParseJobStatus: a field holding a truthy non-string JSON value (a number, `true`, a list) is accepted by the source and stored as is. The model keeps record fields as strings and treats such a field as missing. A JSON `null` or absent key is missing in both.
- Records already in the store are assumed to have a `company` field. A stored record without one makes the source raise KeyError, which is not modelled.
- Python's cross-type equality (`True == 1`) does not arise, since companies are compared as strings.
- A pulled-items value that is not a list of objects is not modelled; the model assumes a list of objects. In the source, `for msg in messages` (`backend_api/watch_gmail.py:148`) then iterates a dict's keys or a string's characters without raising. For such a string item, `"data" in msg` (line 150) is a substring test, so usually nothing matches, `data_found` stays false and the cycle falls back (lines 158-160). Only an item string containing "data" raises `TypeError` at line 152.
- Item data that decodes to a JSON value other than an object raises `AttributeError` at `data.get` (line 153) in the source; this is not modelled either.
- A `historyId` is modelled as an integer whose truthiness is "non-zero"; a string `historyId` is not modelled.
- Exceptions escaping `listen_for_emails` end the process. The model reports them as `ok == false` and does not model what happens after.
