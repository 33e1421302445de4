/**
 * Model of backend_api/api.py: the manual merge-or-insert endpoint over the
 * per-user application store, the live connection set and the held e-mail
 * batch. The store is the `users` object of data.json, kept in memory.
 */
module Api {
  import opened Wrappers
  import opened DataHandling

  /** The endpoint always writes to this fixed demo user. */
  const FixedUser: string := "name@example.com"

  const NotJsonMessage: string := "Request must be JSON"
  const MissingMessage: string := "Missing required parameters"
  const SavedMessage: string := "Emails saved and broadcast successfully"

  /** A JSON value as Flask's get_json() produces it (numbers as integers). */
  datatype Json =
    | JNull
    | JBool(b: bool)
    | JNum(n: int)
    | JStr(s: string)
    | JArr(items: seq<Json>)
    | JObj(members: map<string, Json>)

  /** An incoming HTTP request, reduced to what the two endpoints look at. */
  datatype Request =
    | NotJson           // the content type is not JSON (request.is_json is false)
    | Malformed         // a JSON content type whose body get_json() cannot parse
    | Body(json: Json)  // the parsed body

  datatype ReplyBody =
    | ErrorBody(error: string)        // {"error": ...}
    | AppList(apps: seq<Application>) // the user's updated list
    | MessageBody(message: string)    // {"message": ...}
    | CaughtError                     // {"error": str(e)} for an exception the handler caught
    | FrameworkPage                   // Flask's own error page for an exception nobody caught

  datatype Reply = Reply(code: int, body: ReplyBody)

  /** The four validated request fields; `companyEmail` comes from the `user_email` key. */
  datatype Entry = Entry(company: string, date: string, companyEmail: string, status: string)

  /**
   * `data.get(key)` is truthy: the key holds a non-empty string. A missing key,
   * null and "" are falsy; other non-string values are treated as missing too.
   */
  predicate Present(members: map<string, Json>, key: string)
  {
    key in members && members[key].JStr? && members[key].s != ""
  }

  predicate Complete(members: map<string, Json>)
  {
    Present(members, "company") && Present(members, "date")
    && Present(members, "status") && Present(members, "user_email")
  }

  /** The request checks of `jobstatus_manual`, before the store is touched. */
  function ParseJobStatus(req: Request): (r: Result<Entry, Reply>)
    ensures r.Ok? <==> req.Body? && req.json.JObj? && Complete(req.json.members)
    ensures r.Ok? ==>
      var m := req.json.members;
      && m["company"] == JStr(r.value.company) && m["date"] == JStr(r.value.date)
      && m["user_email"] == JStr(r.value.companyEmail) && m["status"] == JStr(r.value.status)
    ensures req.NotJson? ==> r == Err(Reply(400, ErrorBody(NotJsonMessage)))
    ensures req.Malformed? ==> r == Err(Reply(400, FrameworkPage))
    ensures req.Body? && !req.json.JObj? ==> r == Err(Reply(500, FrameworkPage))
    ensures req.Body? && req.json.JObj? && !Complete(req.json.members) ==>
      r == Err(Reply(400, ErrorBody(MissingMessage)))
  {
    match req
    case NotJson => Err(Reply(400, ErrorBody(NotJsonMessage)))
    case Malformed => Err(Reply(400, FrameworkPage))
    case Body(json) =>
      if !json.JObj? then Err(Reply(500, FrameworkPage))
      else
        var m := json.members;
        if !Complete(m) then Err(Reply(400, ErrorBody(MissingMessage)))
        else Ok(Entry(m["company"].s, m["date"].s, m["user_email"].s, m["status"].s))
  }

  /** The record appended when no record for the company exists. */
  function NewRecord(e: Entry): Application
  {
    Application(e.date, e.company, e.companyEmail, e.status)
  }

  /**
   * Merge-or-insert on one user's list: overwrite the status of the first
   * record for the company, or append a new record at the end.
   */
  function Upsert(apps: seq<Application>, e: Entry): (r: seq<Application>)
    ensures HasCompany(apps, e.company) ==>
      && |r| == |apps|
      && var i := FirstMatch(apps, e.company);
         && r[i] == apps[i].(status := e.status)
         && forall j :: 0 <= j < |apps| && j != i ==> r[j] == apps[j]
    ensures !HasCompany(apps, e.company) ==>
      && |r| == |apps| + 1
      && r[..|apps|] == apps
      && r[|apps|] == NewRecord(e)
  {
    var i := FirstMatch(apps, e.company);
    if i != -1 then apps[i := apps[i].(status := e.status)] else apps + [NewRecord(e)]
  }

  /** After the merge, the first record for the company carries the new status. */
  lemma UpsertRecordsStatus(apps: seq<Application>, e: Entry)
    ensures var r := Upsert(apps, e);
      && HasCompany(r, e.company)
      && r[FirstMatch(r, e.company)].status == e.status
  {
    var r := Upsert(apps, e);
    if HasCompany(apps, e.company) {
      var i := FirstMatch(apps, e.company);
      assert r[i].company == e.company;
      assert forall j :: 0 <= j < i ==> r[j].company != e.company;
      assert FirstMatch(r, e.company) == i;
    } else {
      assert r[|apps|].company == e.company;
      assert forall j :: 0 <= j < |apps| ==> r[j].company != e.company;
      assert FirstMatch(r, e.company) == |apps|;
    }
  }

  /** The merge keeps "at most one record per company". */
  lemma UpsertKeepsUnique(apps: seq<Application>, e: Entry)
    requires UniqueCompanies(apps)
    ensures UniqueCompanies(Upsert(apps, e))
  {
    var r := Upsert(apps, e);
    if HasCompany(apps, e.company) {
      forall j | 0 <= j < |r| ensures r[j].company == apps[j].company {
      }
    } else {
      forall i, j | 0 <= i < j < |r| ensures r[i].company != r[j].company {
        if j == |apps| {
          assert r[i] == apps[i];
        } else {
          assert r[i] == apps[i] && r[j] == apps[j];
        }
      }
    }
  }

  /**
   * Two merges for the same company: one record for it remains, holding the
   * second status, and the second merge adds no record.
   */
  lemma UpsertTwice(apps: seq<Application>, e1: Entry, e2: Entry)
    requires UniqueCompanies(apps)
    requires e1.company == e2.company
    ensures var r1 := Upsert(apps, e1); var r2 := Upsert(r1, e2);
      && |r2| == |r1|
      && UniqueCompanies(r2)
      && exists i :: 0 <= i < |r2| && r2[i].company == e2.company && r2[i].status == e2.status
  {
    var r1 := Upsert(apps, e1);
    UpsertRecordsStatus(apps, e1);
    UpsertKeepsUnique(apps, e1);
    UpsertKeepsUnique(r1, e2);
    UpsertRecordsStatus(r1, e2);
    var r2 := Upsert(r1, e2);
    var i := FirstMatch(r2, e2.company);
    assert r2[i].company == e2.company && r2[i].status == e2.status;
  }

  /** The fixed user's list, or the empty list the endpoint creates for it. */
  function Partition(users: map<string, seq<Application>>): seq<Application>
  {
    if FixedUser in users then users[FixedUser] else []
  }

  /** The live server's module-level and stored state. */
  class Server {
    var users: map<string, seq<Application>>
    var activeConnections: set<string>
    var emailList: Json

    /** Starts from the stored users object, no connections and `email_list = []`. */
    constructor (stored: map<string, seq<Application>>)
      ensures users == stored && activeConnections == {} && emailList == JArr([])
    {
      users := stored;
      activeConnections := {};
      emailList := JArr([]);
    }

    /**
     * POST /jobstatuses: validate, then update or append on the fixed user's
     * list and answer with that list. A rejected request changes nothing.
     */
    method JobstatusManual(req: Request) returns (reply: Reply)
      modifies this`users
      ensures ParseJobStatus(req).Err? ==>
        reply == ParseJobStatus(req).error && users == old(users)
      ensures ParseJobStatus(req).Ok? ==>
        && users == old(users)[FixedUser := Upsert(Partition(old(users)), ParseJobStatus(req).value)]
        && reply == Reply(200, AppList(users[FixedUser]))
      ensures forall u :: u in old(users) && u != FixedUser ==> u in users && users[u] == old(users)[u]
      ensures users.Keys <= old(users).Keys + {FixedUser}
      ensures UniqueCompanies(Partition(old(users))) ==> UniqueCompanies(Partition(users))
    {
      var parsed := ParseJobStatus(req);
      if parsed.Err? {
        return parsed.error;
      }
      var e := parsed.value;
      if FixedUser !in users {
        users := users[FixedUser := []];
      }
      var apps := users[FixedUser];
      var index := ApplicationExists(e.company, apps);
      if index != -1 {
        users := users[FixedUser := apps[index := apps[index].(status := e.status)]];
      } else {
        users := users[FixedUser := apps + [NewRecord(e)]];
      }
      if UniqueCompanies(Partition(old(users))) {
        UpsertKeepsUnique(Partition(old(users)), e);
      }
      reply := Reply(200, AppList(users[FixedUser]));
    }

    /** The 'connect' handler adds the client's session id. */
    method HandleConnect(sid: string)
      modifies this`activeConnections
      ensures activeConnections == old(activeConnections) + {sid}
    {
      activeConnections := activeConnections + {sid};
    }

    /**
     * The 'disconnect' handler removes the session id; `set.remove` raises
     * KeyError when it is absent, reported here as `found == false`.
     */
    method HandleDisconnect(sid: string) returns (found: bool)
      modifies this`activeConnections
      ensures found <==> sid in old(activeConnections)
      ensures activeConnections == old(activeConnections) - {sid}
    {
      found := sid in activeConnections;
      if found {
        activeConnections := activeConnections - {sid};
      }
    }

    /**
     * POST /emails: the parsed body replaces `email_list` wholesale; when
     * get_json() raises, the handler answers 400 and keeps the old batch.
     */
    method AddEmails(req: Request) returns (reply: Reply)
      modifies this`emailList
      ensures req.Body? ==> emailList == req.json && reply == Reply(200, MessageBody(SavedMessage))
      ensures !req.Body? ==> emailList == old(emailList) && reply == Reply(400, CaughtError)
    {
      match req {
        case Body(json) =>
          emailList := json;
          reply := Reply(200, MessageBody(SavedMessage));
        case _ =>
          reply := Reply(400, CaughtError);
      }
    }
  }
}
