/**
 * Model of backend_api/watch_gmail.py: the `seen_emails` gate, header and
 * body extraction of a fetched message, and one cycle of the Pub/Sub poll
 * loop with its manual fallback to the newest inbox message.
 *
 * The Gmail service is input data (`Service`). A Python exception that
 * leaves a function is modelled by `ok == false` in its outcome.
 */
module WatchGmail {
  import opened Wrappers

  type MsgId = string
  type HistoryId = int

  const NoSubject: string := "No Subject"
  const UnknownSender: string := "Unknown Sender"
  const NoBody: string := "No Body Available"

  datatype Header = Header(name: string, value: string)

  /** A message part: its mimeType and the `data` of its body, when present and still encoded. */
  datatype Part = Part(mimeType: string, data: Option<string>)

  /** A message payload; a missing "headers" or "parts" key is the empty sequence. */
  datatype Payload = Payload(headers: seq<Header>, parts: seq<Part>)

  /** One record of a history listing; `messages` is None when it has no "messages" key. */
  datatype HistoryRecord = HistoryRecord(messages: Option<seq<MsgId>>)

  /** What the Gmail API answers, and the body decoder. */
  datatype Service = Service(
    history: map<HistoryId, seq<HistoryRecord>>, // history().list(startHistoryId); a missing key raises
    inbox: Option<seq<MsgId>>,                   // messages().list(INBOX, maxResults=1); None raises
    messages: map<MsgId, Payload>,               // messages().get(id); a missing id raises
    decode: string -> Option<string>)            // urlsafe_b64decode then UTF-8; None when either raises

  datatype Email = Email(subject: string, sender: string, body: string)

  datatype FetchError = GetFailed | BodyUndecodable

  // ---------------------------------------------------------------------------
  // fetch_email_by_id

  /** Header `i` is the first one named `name`. */
  predicate FirstNamed(headers: seq<Header>, name: string, i: int)
  {
    0 <= i < |headers| && headers[i].name == name && forall j :: 0 <= j < i ==> headers[j].name != name
  }

  /** The value of the first header named `name`, or `default` when none is. */
  function HeaderValue(headers: seq<Header>, name: string, default: string): (r: string)
    ensures (forall i :: 0 <= i < |headers| ==> headers[i].name != name) ==> r == default
    ensures forall i :: FirstNamed(headers, name, i) ==> r == headers[i].value
    decreases |headers|
  {
    if |headers| == 0 then default
    else if headers[0].name == name then headers[0].value
    else HeaderValue(headers[1..], name, default)
  }

  /** A part the body loop takes: plain text whose body has `data`. */
  predicate IsPlainText(p: Part)
  {
    p.mimeType == "text/plain" && p.data.Some?
  }

  function DecodeData(svc: Service, data: string): Result<string, FetchError>
  {
    match svc.decode(data)
    case Some(text) => Ok(text)
    case None => Err(BodyUndecodable)
  }

  /** Part `i` is the first plain-text part with data. */
  predicate FirstPlain(parts: seq<Part>, i: int)
  {
    0 <= i < |parts| && IsPlainText(parts[i]) && forall j :: 0 <= j < i ==> !IsPlainText(parts[j])
  }

  /** The body that fetch_email_by_id settles on, scanning the parts from the front. */
  function BodyOf(svc: Service, parts: seq<Part>): Result<string, FetchError>
    decreases |parts|
  {
    if |parts| == 0 then Ok(NoBody)
    else if IsPlainText(parts[0]) then DecodeData(svc, parts[0].data.value)
    else BodyOf(svc, parts[1..])
  }

  /** No part is plain text with data. */
  predicate NoPlain(parts: seq<Part>)
  {
    forall i :: 0 <= i < |parts| ==> !IsPlainText(parts[i])
  }

  /** Without a plain-text part with data, the body is the "no body" default. */
  lemma {:induction false} BodyOfNoPlain(svc: Service, parts: seq<Part>)
    requires NoPlain(parts)
    ensures BodyOf(svc, parts) == Ok(NoBody)
    decreases |parts|
  {
    if |parts| > 0 {
      assert !IsPlainText(parts[0]);
      assert NoPlain(parts[1..]) by {
        assert forall i :: 0 <= i < |parts[1..]| ==> parts[1..][i] == parts[i + 1];
      }
      BodyOfNoPlain(svc, parts[1..]);
    }
  }

  /** The body is the decoded data of the first plain-text part with data. */
  lemma {:induction false} BodyOfFirstPlain(svc: Service, parts: seq<Part>, i: int)
    requires FirstPlain(parts, i)
    ensures BodyOf(svc, parts) == DecodeData(svc, parts[i].data.value)
    decreases i
  {
    if i > 0 {
      assert !IsPlainText(parts[0]);
      assert FirstPlain(parts[1..], i - 1) by {
        assert forall j :: 0 <= j < i - 1 ==> parts[1..][j] == parts[j + 1];
      }
      BodyOfFirstPlain(svc, parts[1..], i - 1);
    }
  }

  /** The body loop: scan the parts and stop at the first plain-text part with data. */
  method ExtractBody(svc: Service, parts: seq<Part>) returns (body: Result<string, FetchError>)
    ensures body == BodyOf(svc, parts)
  {
    var i := 0;
    while i < |parts|
      invariant 0 <= i <= |parts|
      invariant forall j :: 0 <= j < i ==> !IsPlainText(parts[j])
    {
      if IsPlainText(parts[i]) {
        BodyOfFirstPlain(svc, parts, i);
        return DecodeData(svc, parts[i].data.value);
      }
      i := i + 1;
    }
    BodyOfNoPlain(svc, parts);
    return Ok(NoBody);
  }

  /** `fetch_email_by_id` returns normally: the message exists and its body decodes. */
  predicate Fetches(svc: Service, id: MsgId)
  {
    id in svc.messages && BodyOf(svc, svc.messages[id].parts).Ok?
  }

  /** What `fetch_email_by_id` reads from a message, or the error it raises. */
  function FetchResult(svc: Service, id: MsgId): (r: Result<Email, FetchError>)
    ensures r.Ok? <==> Fetches(svc, id)
  {
    if id !in svc.messages then Err(GetFailed)
    else
      var payload := svc.messages[id];
      match BodyOf(svc, payload.parts)
      case Err(e) => Err(e)
      case Ok(body) =>
        Ok(Email(HeaderValue(payload.headers, "Subject", NoSubject),
                 HeaderValue(payload.headers, "From", UnknownSender), body))
  }

  /** `fetch_email_by_id`: retrieve the message and extract subject, sender and body. */
  method FetchEmailById(svc: Service, id: MsgId) returns (r: Result<Email, FetchError>)
    ensures r == FetchResult(svc, id)
    ensures r.Ok? <==> Fetches(svc, id)
  {
    if id !in svc.messages {
      return Err(GetFailed);
    }
    var payload := svc.messages[id];
    var subject := HeaderValue(payload.headers, "Subject", NoSubject);
    var sender := HeaderValue(payload.headers, "From", UnknownSender);
    var body := ExtractBody(svc, payload.parts);
    match body {
      case Err(e) => r := Err(e);
      case Ok(text) => r := Ok(Email(subject, sender, text));
    }
  }

  // ---------------------------------------------------------------------------
  // The poller's state and how it may evolve

  /**
   * The poller's state: `seen_emails`, the IDs handed to fetch_email_by_id
   * so far (in call order) and the number of fetch_latest_email calls.
   */
  datatype State = State(seen: set<MsgId>, fetched: seq<MsgId>, latestCalls: nat)

  /** A final state, and whether the call returned normally (false: an exception escaped). */
  datatype Outcome = Outcome(st: State, ok: bool)

  function Elems(s: seq<MsgId>): set<MsgId>
  {
    set x | x in s
  }

  predicate NoDuplicates(s: seq<MsgId>)
  {
    forall i, j :: 0 <= i < j < |s| ==> s[i] != s[j]
  }

  /** No ID was fetched twice, and every fetched ID is in `seen_emails`. */
  predicate Consistent(st: State)
  {
    NoDuplicates(st.fetched) && Elems(st.fetched) <= st.seen
  }

  /**
   * `st'` can follow `st`: fetches are only appended, each new fetch is of an
   * ID that was not seen before and is fetched once, `seen_emails` grows by
   * exactly the newly fetched IDs, and fallback calls are only added.
   */
  predicate Advances(st: State, st': State)
  {
    && st.latestCalls <= st'.latestCalls
    && |st.fetched| <= |st'.fetched|
    && st'.fetched[..|st.fetched|] == st.fetched
    && NoDuplicates(st'.fetched[|st.fetched|..])
    && Elems(st'.fetched[|st.fetched|..]) !! st.seen
    && st'.seen == st.seen + Elems(st'.fetched[|st.fetched|..])
  }

  lemma ElemsConcat(a: seq<MsgId>, b: seq<MsgId>)
    ensures Elems(a + b) == Elems(a) + Elems(b)
  {
    assert forall x :: x in a + b <==> x in a || x in b;
  }

  lemma NoDuplicatesConcat(a: seq<MsgId>, b: seq<MsgId>)
    requires NoDuplicates(a) && NoDuplicates(b) && Elems(a) !! Elems(b)
    ensures NoDuplicates(a + b)
  {
    forall i, j | 0 <= i < j < |a + b| ensures (a + b)[i] != (a + b)[j] {
      if i < |a| && |a| <= j {
        assert (a + b)[i] in Elems(a) && (a + b)[j] in Elems(b);
      }
    }
  }

  lemma AdvancesReflexive(st: State)
    ensures Advances(st, st)
  {
    assert st.fetched[|st.fetched|..] == [];
    assert Elems([]) == {};
  }

  lemma AdvancesTransitive(a: State, b: State, c: State)
    requires Advances(a, b) && Advances(b, c)
    ensures Advances(a, c)
  {
    var x, y := b.fetched[|a.fetched|..], c.fetched[|b.fetched|..];
    assert c.fetched[..|a.fetched|] == b.fetched[..|a.fetched|] == a.fetched;
    assert c.fetched[|a.fetched|..] == x + y by {
      assert c.fetched == b.fetched + y;
      assert b.fetched == a.fetched + x;
    }
    ElemsConcat(x, y);
    NoDuplicatesConcat(x, y);
  }

  /** Advancing from a consistent state keeps it consistent. */
  lemma AdvancesKeepsConsistent(st: State, st': State)
    requires Consistent(st) && Advances(st, st')
    ensures Consistent(st')
  {
    var x := st'.fetched[|st.fetched|..];
    assert st'.fetched == st.fetched + x;
    ElemsConcat(st.fetched, x);
    NoDuplicatesConcat(st.fetched, x);
  }

  // ---------------------------------------------------------------------------
  // The seen_emails gate, get_new_emails and fetch_latest_email

  /** The gate: an unseen ID is added to `seen_emails` and then fetched; a seen one is skipped. */
  function Visit(svc: Service, st: State, id: MsgId): Outcome
  {
    if id in st.seen then Outcome(st, true)
    else Outcome(st.(seen := st.seen + {id}, fetched := st.fetched + [id]), Fetches(svc, id))
  }

  /**
   * The gate fetches an ID only when it is unseen, marks it seen before the
   * fetch, and raises exactly when that fetch raises.
   */
  lemma VisitFacts(svc: Service, st: State, id: MsgId)
    ensures var o := Visit(svc, st, id);
      && Advances(st, o.st)
      && o.st.fetched == st.fetched + (if id in st.seen then [] else [id])
      && id in o.st.seen && o.st.latestCalls == st.latestCalls
      && (o.ok <==> id in st.seen || Fetches(svc, id))
  {
    var o := Visit(svc, st, id);
    assert o.st.fetched[|st.fetched|..] == if id in st.seen then [] else [id];
    assert Elems([]) == {} && Elems([id]) == {id};
  }

  /** The nested loop of get_new_emails over a flattened ID list; stops at the first exception. */
  function VisitIds(svc: Service, st: State, ids: seq<MsgId>): Outcome
    decreases |ids|
  {
    if |ids| == 0 then Outcome(st, true)
    else
      var o1 := Visit(svc, st, ids[0]);
      if !o1.ok then o1 else VisitIds(svc, o1.st, ids[1..])
  }

  /** The loop only adds fresh IDs to what has been seen and fetched, and never falls back. */
  lemma {:induction false} VisitIdsAdvances(svc: Service, st: State, ids: seq<MsgId>)
    ensures var o := VisitIds(svc, st, ids);
      Advances(st, o.st) && o.st.latestCalls == st.latestCalls
    decreases |ids|
  {
    if |ids| == 0 {
      AdvancesReflexive(st);
    } else {
      var o1 := Visit(svc, st, ids[0]);
      VisitFacts(svc, st, ids[0]);
      if o1.ok {
        VisitIdsAdvances(svc, o1.st, ids[1..]);
        AdvancesTransitive(st, o1.st, VisitIds(svc, o1.st, ids[1..]).st);
      }
    }
  }

  /** Marking an ID a second time is a no-op: the gate lets each ID through once. */
  lemma VisitTwice(svc: Service, st: State, id: MsgId)
    ensures var o := Visit(svc, st, id);
      Visit(svc, o.st, id) == Outcome(o.st, true)
  {
  }

  /** The IDs of `ids` the gate lets through from `seen`, in visiting order. */
  function Dedup(ids: seq<MsgId>, seen: set<MsgId>): seq<MsgId>
    decreases |ids|
  {
    if |ids| == 0 then []
    else if ids[0] in seen then Dedup(ids[1..], seen)
    else [ids[0]] + Dedup(ids[1..], seen + {ids[0]})
  }

  /**
   * A reference definition by position: keep `ids[k]` exactly when it is
   * neither in `seen` nor earlier in the listing.
   */
  function FirstSightings(ids: seq<MsgId>, seen: set<MsgId>): seq<MsgId>
    decreases |ids|
  {
    if |ids| == 0 then []
    else
      var init, last := ids[..|ids| - 1], ids[|ids| - 1];
      FirstSightings(init, seen) + (if last in seen || last in init then [] else [last])
  }

  lemma {:induction false} DedupSnoc(a: seq<MsgId>, x: MsgId, seen: set<MsgId>)
    ensures Dedup(a + [x], seen) == Dedup(a, seen) + (if x in seen || x in a then [] else [x])
    decreases |a|
  {
    if |a| == 0 {
      assert a + [x] == [x];
      assert [x][1..] == [];
    } else {
      assert (a + [x])[0] == a[0];
      assert (a + [x])[1..] == a[1..] + [x];
      if a[0] in seen {
        DedupSnoc(a[1..], x, seen);
        assert x in a <==> x in a[1..] || x == a[0];
      } else {
        DedupSnoc(a[1..], x, seen + {a[0]});
        assert x in a <==> x in a[1..] || x == a[0];
      }
    }
  }

  /** The gate visits the listing in order and keeps first sightings of unseen IDs. */
  lemma {:induction false} DedupKeepsFirstSightings(ids: seq<MsgId>, seen: set<MsgId>)
    ensures Dedup(ids, seen) == FirstSightings(ids, seen)
    decreases |ids|
  {
    if |ids| > 0 {
      var init, last := ids[..|ids| - 1], ids[|ids| - 1];
      assert ids == init + [last];
      DedupSnoc(init, last, seen);
      DedupKeepsFirstSightings(init, seen);
    }
  }

  /** What the gate lets through: each unseen ID of the listing, once. */
  lemma {:induction false} DedupFacts(ids: seq<MsgId>, seen: set<MsgId>)
    ensures NoDuplicates(Dedup(ids, seen))
    ensures Elems(Dedup(ids, seen)) == Elems(ids) - seen
    decreases |ids|
  {
    if |ids| == 0 {
      assert Elems([]) == {};
    } else {
      assert ids == [ids[0]] + ids[1..];
      ElemsConcat([ids[0]], ids[1..]);
      assert Elems([ids[0]]) == {ids[0]};
      if ids[0] in seen {
        DedupFacts(ids[1..], seen);
      } else {
        var rest := Dedup(ids[1..], seen + {ids[0]});
        DedupFacts(ids[1..], seen + {ids[0]});
        ElemsConcat([ids[0]], rest);
        NoDuplicatesConcat([ids[0]], rest);
      }
    }
  }

  /** None of the fetches of `ids` raises. */
  predicate AllFetch(svc: Service, ids: seq<MsgId>)
  {
    forall k :: 0 <= k < |ids| ==> Fetches(svc, ids[k])
  }

  lemma AllFetchCons(svc: Service, id: MsgId, ids: seq<MsgId>)
    ensures AllFetch(svc, [id] + ids) <==> Fetches(svc, id) && AllFetch(svc, ids)
  {
    var d := [id] + ids;
    if Fetches(svc, id) && AllFetch(svc, ids) {
      forall k | 0 <= k < |d| ensures Fetches(svc, d[k]) {
        if k > 0 {
          assert d[k] == ids[k - 1];
        }
      }
    }
    if AllFetch(svc, d) {
      assert d[0] == id && Fetches(svc, d[0]);
      forall k | 0 <= k < |ids| ensures Fetches(svc, ids[k]) {
        assert ids[k] == d[k + 1];
      }
    }
  }

  /**
   * The loop fetches a prefix of the deduplicated listing, all of it when no
   * fetch raises, and it returns normally exactly when none of those fetches raises.
   */
  lemma {:induction false} VisitIdsFetchesDedup(svc: Service, st: State, ids: seq<MsgId>)
    ensures var o := VisitIds(svc, st, ids); var d := Dedup(ids, st.seen);
      && st.fetched <= o.st.fetched <= st.fetched + d
      && (o.ok <==> AllFetch(svc, d))
      && (o.ok ==> o.st.fetched == st.fetched + d)
    decreases |ids|
  {
    if |ids| == 0 {
      assert st.fetched + [] == st.fetched;
    } else {
      var id := ids[0];
      if id in st.seen {
        VisitIdsFetchesDedup(svc, st, ids[1..]);
      } else {
        VisitIdsFetchesStep(svc, st, ids);
      }
    }
  }

  lemma {:induction false} VisitIdsFetchesStep(svc: Service, st: State, ids: seq<MsgId>)
    requires |ids| > 0 && ids[0] !in st.seen
    ensures var o := VisitIds(svc, st, ids); var d := Dedup(ids, st.seen);
      && st.fetched <= o.st.fetched <= st.fetched + d
      && (o.ok <==> AllFetch(svc, d))
      && (o.ok ==> o.st.fetched == st.fetched + d)
    decreases |ids|, 0
  {
    var id := ids[0];
    var o1 := Visit(svc, st, id);
    var d := Dedup(ids, st.seen);
    var d1 := Dedup(ids[1..], st.seen + {id});
    assert d == [id] + d1;
    assert o1.st.fetched == st.fetched + [id];
    assert st.fetched + d == o1.st.fetched + d1;
    AllFetchCons(svc, id, d1);
    if o1.ok {
      VisitIdsFetchesDedup(svc, o1.st, ids[1..]);
    }
  }

  /** Visiting a concatenation visits the first part, then, if it returned normally, the second. */
  lemma {:induction false} VisitIdsConcat(svc: Service, st: State, a: seq<MsgId>, b: seq<MsgId>)
    ensures VisitIds(svc, st, a + b) ==
      var o := VisitIds(svc, st, a); if o.ok then VisitIds(svc, o.st, b) else o
    decreases |a|
  {
    if |a| == 0 {
      assert a + b == b;
    } else {
      assert (a + b)[0] == a[0] && (a + b)[1..] == a[1..] + b;
      var o1 := Visit(svc, st, a[0]);
      if o1.ok {
        VisitIdsConcat(svc, o1.st, a[1..], b);
      }
    }
  }

  function MessagesOf(r: HistoryRecord): seq<MsgId>
  {
    match r.messages
    case None => []
    case Some(ids) => ids
  }

  /** The IDs of a history listing in record order, then message order. */
  function HistoryIds(records: seq<HistoryRecord>): seq<MsgId>
    decreases |records|
  {
    if |records| == 0 then [] else MessagesOf(records[0]) + HistoryIds(records[1..])
  }

  /** Records without "messages" contribute nothing; every listed message ID is visited. */
  lemma {:induction false} HistoryIdsMembers(records: seq<HistoryRecord>, id: MsgId)
    ensures id in HistoryIds(records) <==>
      exists i :: 0 <= i < |records| && records[i].messages.Some? && id in records[i].messages.value
    decreases |records|
  {
    if |records| > 0 {
      HistoryIdsMembers(records[1..], id);
      if id in HistoryIds(records[1..]) {
        var i :| 0 <= i < |records[1..]| && records[1..][i].messages.Some? && id in records[1..][i].messages.value;
        assert records[i + 1] == records[1..][i];
      }
      if exists i :: 0 <= i < |records| && records[i].messages.Some? && id in records[i].messages.value {
        var i :| 0 <= i < |records| && records[i].messages.Some? && id in records[i].messages.value;
        if i > 0 {
          assert records[1..][i - 1] == records[i];
        }
      }
    }
  }

  /** `fetch_latest_email`: look at the first inbox message only, through the gate. */
  function FetchLatest(svc: Service, st: State): Outcome
  {
    var st1 := st.(latestCalls := st.latestCalls + 1);
    match svc.inbox
    case None => Outcome(st1, false)
    case Some(ids) => if |ids| == 0 then Outcome(st1, true) else Visit(svc, st1, ids[0])
  }

  /**
   * fetch_latest_email is counted once, fetches at most the head of the inbox
   * and only when it is unseen, and an empty inbox is not an error.
   */
  lemma FetchLatestFacts(svc: Service, st: State)
    ensures var o := FetchLatest(svc, st);
      && Advances(st, o.st)
      && o.st.latestCalls == st.latestCalls + 1
      && o.st.fetched == st.fetched +
           (if svc.inbox.Some? && |svc.inbox.value| > 0 && svc.inbox.value[0] !in st.seen
            then [svc.inbox.value[0]] else [])
      && (svc.inbox == Some([]) ==> o.ok)
      && (svc.inbox == None ==> !o.ok)
  {
    var st1 := st.(latestCalls := st.latestCalls + 1);
    AdvancesReflexive(st);
    assert Advances(st, st1);
    if svc.inbox.Some? && |svc.inbox.value| > 0 {
      VisitFacts(svc, st1, svc.inbox.value[0]);
      AdvancesTransitive(st, st1, Visit(svc, st1, svc.inbox.value[0]).st);
    } else {
      assert st.fetched + [] == st.fetched;
    }
  }

  /**
   * `get_new_emails`: list the history after `h` and fetch its unseen IDs,
   * falling back to fetch_latest_email when the listing fails, is empty, or
   * a fetch raises.
   */
  function NewEmails(svc: Service, st: State, h: HistoryId): Outcome
  {
    if h !in svc.history then FetchLatest(svc, st)
    else
      var records := svc.history[h];
      var tried := if records == [] then FetchLatest(svc, st) else VisitIds(svc, st, HistoryIds(records));
      if tried.ok then tried else FetchLatest(svc, tried.st)
  }

  /** get_new_emails only adds fresh IDs to what has been seen and fetched. */
  lemma NewEmailsAdvances(svc: Service, st: State, h: HistoryId)
    ensures Advances(st, NewEmails(svc, st, h).st)
  {
    FetchLatestFacts(svc, st);
    if h in svc.history {
      var records := svc.history[h];
      if records != [] {
        VisitIdsAdvances(svc, st, HistoryIds(records));
      }
      var tried := if records == [] then FetchLatest(svc, st) else VisitIds(svc, st, HistoryIds(records));
      if !tried.ok {
        FetchLatestFacts(svc, tried.st);
        AdvancesTransitive(st, tried.st, FetchLatest(svc, tried.st).st);
      }
    }
  }

  /**
   * How often get_new_emails falls back. An empty listing falls back inside
   * the try, so a fallback that raises there is followed by a second one
   * from the handler.
   */
  lemma NewEmailsFallbacks(svc: Service, st: State, h: HistoryId)
    ensures var o := NewEmails(svc, st, h);
      && (h !in svc.history ==> o == FetchLatest(svc, st))
      && (h in svc.history && svc.history[h] == [] ==>
            o.st.latestCalls == st.latestCalls + (if FetchLatest(svc, st).ok then 1 else 2))
      && (h in svc.history && svc.history[h] != [] ==>
            var v := VisitIds(svc, st, HistoryIds(svc.history[h]));
            && (v.ok ==> o == v && o.st.latestCalls == st.latestCalls)
            && (!v.ok ==> o.st.latestCalls == st.latestCalls + 1))
  {
    var o1 := FetchLatest(svc, st);
    FetchLatestFacts(svc, st);
    FetchLatestFacts(svc, o1.st);
    if h in svc.history && svc.history[h] != [] {
      var v := VisitIds(svc, st, HistoryIds(svc.history[h]));
      VisitIdsAdvances(svc, st, HistoryIds(svc.history[h]));
      FetchLatestFacts(svc, v.st);
    }
  }

  /**
   * A non-empty history listing fetches the unseen IDs of the listing in
   * order, each once, with no fallback; if one of those fetches raises, the
   * fetches stop there and fetch_latest_email runs exactly once.
   */
  lemma NewEmailsFetchesHistory(svc: Service, st: State, h: HistoryId)
    requires h in svc.history && svc.history[h] != []
    ensures var o := NewEmails(svc, st, h); var d := Dedup(HistoryIds(svc.history[h]), st.seen);
      && (AllFetch(svc, d) ==> o.ok && o.st.latestCalls == st.latestCalls && o.st.fetched == st.fetched + d)
      && (!AllFetch(svc, d) ==> o.st.latestCalls == st.latestCalls + 1)
  {
    VisitIdsFetchesDedup(svc, st, HistoryIds(svc.history[h]));
    NewEmailsFallbacks(svc, st, h);
  }

  // ---------------------------------------------------------------------------
  // One cycle of listen_for_emails

  /** `json.loads(msg["data"])`: undecodable, or an object whose "historyId" may be missing. */
  datatype Notification = Undecodable | Decoded(historyId: Option<HistoryId>)

  /** One pulled item; `data` is None when the item has no "data" key. */
  datatype PubSubItem = PubSubItem(data: Option<Notification>)

  /** The pull command's output: blank, not decodable as JSON, or a list of items. */
  datatype PullOutput = Blank | Malformed | Batch(items: seq<PubSubItem>)

  /** The item loop's result: the outcome so far, `data_found`, and whether a JSONDecodeError ended it. */
  datatype Scan = Scan(out: Outcome, found: bool, aborted: bool)

  /** A notification whose historyId is present and truthy (non-zero). */
  predicate HasMarker(n: Notification)
  {
    n.Decoded? && n.historyId.Some? && n.historyId.value != 0
  }

  /** The item loop of listen_for_emails, from state `st` with `data_found == found`. */
  function ScanItems(svc: Service, st: State, items: seq<PubSubItem>, found: bool): Scan
    decreases |items|
  {
    if |items| == 0 then Scan(Outcome(st, true), found, false)
    else
      match items[0].data
      case None => ScanItems(svc, st, items[1..], found)
      case Some(n) =>
        if n.Undecodable? then Scan(Outcome(st, true), found, true)
        else if !HasMarker(n) then ScanItems(svc, st, items[1..], found)
        else
          var o := NewEmails(svc, st, n.historyId.value);
          if !o.ok then Scan(o, found, false) else ScanItems(svc, o.st, items[1..], true)
  }

  /** Some item carries a marker. */
  predicate SomeMarker(items: seq<PubSubItem>)
  {
    exists k :: 0 <= k < |items| && items[k].data.Some? && HasMarker(items[k].data.value)
  }

  /**
   * The item loop only adds fresh IDs to what has been seen and fetched, and
   * it sets data_found only when some item carries a marker.
   */
  lemma {:induction false} ScanItemsFacts(svc: Service, st: State, items: seq<PubSubItem>, found: bool)
    ensures var s := ScanItems(svc, st, items, found);
      Advances(st, s.out.st) && (s.found ==> found || SomeMarker(items))
    decreases |items|
  {
    if |items| == 0 {
      AdvancesReflexive(st);
    } else if items[0].data.Some? && items[0].data.value.Undecodable? {
      AdvancesReflexive(st);
    } else {
      var rest := items[1..];
      var marked := items[0].data.Some? && HasMarker(items[0].data.value);
      if !marked {
        ScanItemsFacts(svc, st, rest, found);
        var s := ScanItems(svc, st, rest, found);
        if s.found && !found {
          var k :| 0 <= k < |rest| && rest[k].data.Some? && HasMarker(rest[k].data.value);
          assert items[k + 1] == rest[k];
        }
      } else {
        var o := NewEmails(svc, st, items[0].data.value.historyId.value);
        NewEmailsAdvances(svc, st, items[0].data.value.historyId.value);
        if o.ok {
          ScanItemsFacts(svc, o.st, rest, true);
          AdvancesTransitive(st, o.st, ScanItems(svc, o.st, rest, true).out.st);
        }
      }
    }
  }

  /**
   * One iteration of the `while True` loop of listen_for_emails. Blank output
   * falls back; undecodable output skips the cycle; otherwise each item with a
   * marker runs get_new_emails, a JSONDecodeError in an item's data ends the
   * cycle without fallback, and a batch in which no item ran get_new_emails
   * falls back once.
   */
  function Cycle(svc: Service, st: State, out: PullOutput): Outcome
  {
    match out
    case Blank => FetchLatest(svc, st)
    case Malformed => Outcome(st, true)
    case Batch(items) =>
      var s := ScanItems(svc, st, items, false);
      if !s.out.ok || s.aborted || s.found then s.out else FetchLatest(svc, s.out.st)
  }

  /** A cycle only adds fresh IDs to what has been seen and fetched, so it keeps the state consistent. */
  lemma CycleKeepsConsistent(svc: Service, st: State, out: PullOutput)
    requires Consistent(st)
    ensures var o := Cycle(svc, st, out);
      Advances(st, o.st) && Consistent(o.st)
  {
    var o := Cycle(svc, st, out);
    match out {
      case Blank =>
        FetchLatestFacts(svc, st);
      case Malformed =>
        AdvancesReflexive(st);
      case Batch(items) =>
        var s := ScanItems(svc, st, items, false);
        ScanItemsFacts(svc, st, items, false);
        if !(!s.out.ok || s.aborted || s.found) {
          FetchLatestFacts(svc, s.out.st);
          AdvancesTransitive(st, s.out.st, o.st);
        }
    }
    AdvancesKeepsConsistent(st, o.st);
  }

  /** Blank output falls back once; output that is not JSON skips the cycle, changing nothing. */
  lemma CycleUnparsed(svc: Service, st: State)
    ensures Cycle(svc, st, Blank).st.latestCalls == st.latestCalls + 1
    ensures Cycle(svc, st, Malformed) == Outcome(st, true)
  {
    FetchLatestFacts(svc, st);
  }

  /** No item's data fails to decode. */
  predicate NoUndecodable(items: seq<PubSubItem>)
  {
    forall k :: 0 <= k < |items| ==> items[k].data != Some(Undecodable)
  }

  /** The truthy historyIds of the items, in item order. */
  function Markers(items: seq<PubSubItem>): seq<HistoryId>
    decreases |items|
  {
    if |items| == 0 then []
    else
      var here := if items[0].data.Some? && HasMarker(items[0].data.value)
                  then [items[0].data.value.historyId.value] else [];
      here + Markers(items[1..])
  }

  /** get_new_emails once per marker, in order, until one raises. */
  function RunMarkers(svc: Service, st: State, hs: seq<HistoryId>): Outcome
    decreases |hs|
  {
    if |hs| == 0 then Outcome(st, true)
    else
      var o := NewEmails(svc, st, hs[0]);
      if o.ok then RunMarkers(svc, o.st, hs[1..]) else o
  }

  lemma {:induction false} ScanRunsMarkers(svc: Service, st: State, items: seq<PubSubItem>, found: bool)
    requires NoUndecodable(items)
    ensures var s := ScanItems(svc, st, items, found);
      && s.out == RunMarkers(svc, st, Markers(items))
      && !s.aborted
      && (s.out.ok ==> s.found == (found || Markers(items) != []))
    decreases |items|
  {
    if |items| > 0 {
      assert NoUndecodable(items[1..]) by {
        assert forall k :: 0 <= k < |items[1..]| ==> items[1..][k] == items[k + 1];
      }
      assert items[0].data != Some(Undecodable);
      match items[0].data
      case None =>
        assert Markers(items) == Markers(items[1..]);
        ScanRunsMarkers(svc, st, items[1..], found);
      case Some(n) =>
        if HasMarker(n) {
          var o := NewEmails(svc, st, n.historyId.value);
          assert Markers(items) == [n.historyId.value] + Markers(items[1..]);
          if o.ok {
            ScanRunsMarkers(svc, o.st, items[1..], true);
            assert ([n.historyId.value] + Markers(items[1..]))[1..] == Markers(items[1..]);
          }
        } else {
          assert Markers(items) == Markers(items[1..]);
          ScanRunsMarkers(svc, st, items[1..], found);
        }
    }
  }

  /**
   * A batch whose data all decodes runs get_new_emails once per marker, in
   * order; when no item has a marker, the cycle falls back exactly once.
   */
  lemma CycleRunsMarkers(svc: Service, st: State, items: seq<PubSubItem>)
    requires NoUndecodable(items)
    ensures Cycle(svc, st, Batch(items)) ==
      if Markers(items) == [] then FetchLatest(svc, st) else RunMarkers(svc, st, Markers(items))
  {
    ScanRunsMarkers(svc, st, items, false);
  }

  lemma {:induction false} ScanStopsAtDecodeError(svc: Service, st: State, items: seq<PubSubItem>, found: bool, k: nat)
    requires k < |items| && items[k].data == Some(Undecodable) && NoUndecodable(items[..k])
    ensures var s := ScanItems(svc, st, items, found);
      && s.out == RunMarkers(svc, st, Markers(items[..k]))
      && (s.out.ok ==> s.aborted)
    decreases k
  {
    if k > 0 {
      assert items[..k][0] == items[0];
      assert items[..k][1..] == items[1..][..k - 1];
      assert NoUndecodable(items[1..][..k - 1]) by {
        var tail, head := items[1..][..k - 1], items[..k];
        forall j | 0 <= j < |tail| ensures tail[j].data != Some(Undecodable) {
          assert tail[j] == head[j + 1];
        }
      }
      assert items[0].data != Some(Undecodable) by {
        assert items[..k][0] == items[0];
      }
      match items[0].data
      case None =>
        assert Markers(items[..k]) == Markers(items[1..][..k - 1]);
        ScanStopsAtDecodeError(svc, st, items[1..], found, k - 1);
      case Some(n) =>
        if HasMarker(n) {
          var o := NewEmails(svc, st, n.historyId.value);
          assert Markers(items[..k]) == [n.historyId.value] + Markers(items[1..][..k - 1]);
          if o.ok {
            ScanStopsAtDecodeError(svc, o.st, items[1..], true, k - 1);
            assert ([n.historyId.value] + Markers(items[1..][..k - 1]))[1..] == Markers(items[1..][..k - 1]);
          }
        } else {
          assert Markers(items[..k]) == Markers(items[1..][..k - 1]);
          ScanStopsAtDecodeError(svc, st, items[1..], found, k - 1);
        }
    } else {
      assert items[..0] == [];
    }
  }

  /**
   * A JSONDecodeError in the data of item `k` ends the cycle: only the markers
   * before it are processed, and there is no fallback even when there were none.
   */
  lemma CycleStopsAtDecodeError(svc: Service, st: State, items: seq<PubSubItem>, k: nat)
    requires k < |items| && items[k].data == Some(Undecodable) && NoUndecodable(items[..k])
    ensures Cycle(svc, st, Batch(items)) == RunMarkers(svc, st, Markers(items[..k]))
  {
    ScanStopsAtDecodeError(svc, st, items, false, k);
  }

  // ---------------------------------------------------------------------------
  // The poller itself: module-level `seen_emails` and the calls it makes

  class Poller {
    var seenEmails: set<MsgId>
    ghost var fetched: seq<MsgId>
    ghost var latestCalls: nat

    ghost function Abs(): State
      reads this
    {
      State(seenEmails, fetched, latestCalls)
    }

    ghost predicate Valid()
      reads this
    {
      Consistent(Abs())
    }

    /** `seen_emails = set()` at import time. */
    constructor ()
      ensures Valid() && Abs() == State({}, [], 0)
    {
      seenEmails := {};
      fetched := [];
      latestCalls := 0;
    }

    /** The gate shared by get_new_emails and fetch_latest_email. */
    method FetchIfUnseen(svc: Service, id: MsgId) returns (ok: bool)
      modifies this
      ensures Outcome(Abs(), ok) == Visit(svc, old(Abs()), id)
    {
      if id !in seenEmails {
        seenEmails := seenEmails + {id};
        fetched := fetched + [id];
        var r := FetchEmailById(svc, id);
        ok := r.Ok?;
      } else {
        ok := true;
      }
    }

    method FetchLatestEmail(svc: Service) returns (ok: bool)
      requires Valid()
      modifies this
      ensures Valid()
      ensures Outcome(Abs(), ok) == FetchLatest(svc, old(Abs()))
    {
      latestCalls := latestCalls + 1;
      match svc.inbox {
        case None =>
          ok := false;
        case Some(ids) =>
          if |ids| == 0 {
            ok := true;
          } else {
            ok := FetchIfUnseen(svc, ids[0]);
          }
      }
      FetchLatestFacts(svc, old(Abs()));
      AdvancesKeepsConsistent(old(Abs()), Abs());
    }

    /** The inner loop of get_new_emails over the messages of one history record. */
    method VisitMessages(svc: Service, msgs: seq<MsgId>) returns (ok: bool)
      modifies this
      ensures Outcome(Abs(), ok) == VisitIds(svc, old(Abs()), msgs)
    {
      ghost var target := VisitIds(svc, Abs(), msgs);
      ok := true;
      var j := 0;
      while j < |msgs| && ok
        invariant 0 <= j <= |msgs|
        invariant ok ==> VisitIds(svc, Abs(), msgs[j..]) == target
        invariant !ok ==> Outcome(Abs(), false) == target
      {
        assert msgs[j..][1..] == msgs[j + 1..];
        ok := FetchIfUnseen(svc, msgs[j]);
        j := j + 1;
      }
    }

    /** The outer loop of get_new_emails over the records of a history listing. */
    method VisitHistory(svc: Service, records: seq<HistoryRecord>) returns (ok: bool)
      modifies this
      ensures Outcome(Abs(), ok) == VisitIds(svc, old(Abs()), HistoryIds(records))
    {
      ghost var target := VisitIds(svc, Abs(), HistoryIds(records));
      ok := true;
      var i := 0;
      while i < |records| && ok
        invariant 0 <= i <= |records|
        invariant ok ==> VisitIds(svc, Abs(), HistoryIds(records[i..])) == target
        invariant !ok ==> Outcome(Abs(), false) == target
      {
        assert HistoryIds(records[i..]) == MessagesOf(records[i]) + HistoryIds(records[i + 1..]) by {
          assert records[i..][1..] == records[i + 1..];
        }
        VisitIdsConcat(svc, Abs(), MessagesOf(records[i]), HistoryIds(records[i + 1..]));
        match records[i].messages {
          case None =>
          case Some(msgs) =>
            ok := VisitMessages(svc, msgs);
        }
        i := i + 1;
      }
      assert ok ==> records[i..] == [];
    }

    method GetNewEmails(svc: Service, h: HistoryId) returns (ok: bool)
      requires Valid()
      modifies this
      ensures Valid()
      ensures Outcome(Abs(), ok) == NewEmails(svc, old(Abs()), h)
    {
      if h !in svc.history {
        ok := FetchLatestEmail(svc);
        return;
      }
      var records := svc.history[h];
      if |records| == 0 {
        ok := FetchLatestEmail(svc);
      } else {
        ok := VisitHistory(svc, records);
        VisitIdsAdvances(svc, old(Abs()), HistoryIds(records));
        AdvancesKeepsConsistent(old(Abs()), Abs());
      }
      if !ok {
        ok := FetchLatestEmail(svc);
      }
    }

    method ListenCycle(svc: Service, out: PullOutput) returns (ok: bool)
      requires Valid()
      modifies this
      ensures Valid()
      ensures Outcome(Abs(), ok) == Cycle(svc, old(Abs()), out)
    {
      match out {
        case Blank =>
          ok := FetchLatestEmail(svc);
        case Malformed =>
          ok := true;
        case Batch(items) =>
          ghost var target := ScanItems(svc, Abs(), items, false);
          var dataFound := false;
          var aborted := false;
          ok := true;
          var i := 0;
          while i < |items| && ok && !aborted
            invariant 0 <= i <= |items|
            invariant Valid()
            invariant ok && !aborted ==> ScanItems(svc, Abs(), items[i..], dataFound) == target
            invariant !(ok && !aborted) ==> Scan(Outcome(Abs(), ok), dataFound, aborted) == target
          {
            assert items[i..][1..] == items[i + 1..];
            match items[i].data {
              case None =>
              case Some(n) =>
                if n.Undecodable? {
                  aborted := true;
                } else if HasMarker(n) {
                  ok := GetNewEmails(svc, n.historyId.value);
                  if ok {
                    dataFound := true;
                  }
                }
            }
            i := i + 1;
          }
          if ok && !aborted && !dataFound {
            ok := FetchLatestEmail(svc);
          }
      }
      CycleKeepsConsistent(svc, old(Abs()), out);
    }
  }
}
