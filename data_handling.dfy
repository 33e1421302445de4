/**
 * Model of backend_api/data_handling.py: the company-keyed lookup over one
 * user's list of application records.
 */
module DataHandling {

  /** One stored application record: {date, company, company_email, status}. */
  datatype Application = Application(date: string, company: string, companyEmail: string, status: string)

  /** True when some record of `apps` is for `company` (exact string equality). */
  predicate HasCompany(apps: seq<Application>, company: string)
  {
    exists i :: 0 <= i < |apps| && apps[i].company == company
  }

  /** At most one record per company: the invariant the merge keeps. */
  predicate UniqueCompanies(apps: seq<Application>)
  {
    forall i, j :: 0 <= i < j < |apps| ==> apps[i].company != apps[j].company
  }

  /** The index of the first record for `company`, or -1 when there is none. */
  function FirstMatch(apps: seq<Application>, company: string): (r: int)
    ensures -1 <= r < |apps|
    ensures r == -1 <==> !HasCompany(apps, company)
    ensures r != -1 ==> apps[r].company == company
    ensures forall j :: 0 <= j < r ==> apps[j].company != company
    decreases |apps|
  {
    if |apps| == 0 then -1
    else if apps[0].company == company then 0
    else
      var k := FirstMatch(apps[1..], company);
      if k == -1 then -1 else k + 1
  }

  /**
   * `application_exists(company, applicationsObj)`: an index loop that returns
   * at the first record whose company matches and -1 after the last one.
   * The list is a value, so the search cannot change it.
   */
  method ApplicationExists(company: string, apps: seq<Application>) returns (index: int)
    ensures index == FirstMatch(apps, company)
  {
    for i := 0 to |apps|
      invariant forall j :: 0 <= j < i ==> apps[j].company != company
    {
      if apps[i].company == company {
        return i;
      }
    }
    return -1;
  }
}
