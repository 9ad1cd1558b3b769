/**
 * The employee profile page (src/containers/employees/employee-profile/employee-profile.jsx):
 * loading one employee by route id, extracting the record from the response, and choosing what
 * to render.
 */
module EmployeeProfile {
  import opened Wrappers
  import opened Js
  import Text
  import opened ApiHandler
  import Browser

  /** `response?.employee || response?.data || response` */
  function Extract(response: Value): (r: Value)
    ensures Truthy(Member(response, "employee")) ==> r == Member(response, "employee")
    ensures !Truthy(Member(response, "employee")) && Truthy(Member(response, "data")) ==> r == Member(response, "data")
    ensures !Truthy(Member(response, "employee")) && !Truthy(Member(response, "data")) ==> r == response
  {
    Or(Member(response, "employee"), Or(Member(response, "data"), response))
  }

  /** The colour of the status tag. */
  datatype Tone = Success | Error | Default

  /**
   * getStatusColor(status): None when status is truthy but not a string, where
   * `status.toLowerCase()` throws.
   */
  function StatusColor(status: Value): (r: Option<Tone>)
    ensures !Truthy(status) ==> r == Some(Default)
    ensures status.Str? ==> r.Some?
    ensures status.Str? ==> (r == Some(Success) <==> Text.Lower(status.s) == "active")
    ensures status.Str? ==> (r == Some(Error) <==> Text.Lower(status.s) == "inactive")
    ensures r.None? <==> Truthy(status) && !status.Str?
  {
    if !Truthy(status) then Some(Default)
    else if !status.Str? then None
    else
      var lower := Text.Lower(status.s);
      if lower == "active" then Some(Success)
      else if lower == "inactive" then Some(Error)
      else Some(Default)
  }

  /** Status matching ignores ASCII case. */
  lemma StatusIgnoresCase(s: string, t: string)
    requires Text.Lower(s) == Text.Lower(t)
    ensures StatusColor(Str(s)) == StatusColor(Str(t))
  {
  }

  /** The four picture fields, in the order they are tried. */
  const PictureFields := ["profilePicture", "profilePictureUrl", "image", "avatar"]

  /** `employee.profilePicture || employee.profilePictureUrl || employee.image || employee.avatar` */
  function ProfilePicture(employee: Value): (r: Value)
    ensures r == Member(employee, "profilePicture") || r == Member(employee, "profilePictureUrl")
      || r == Member(employee, "image") || r == Member(employee, "avatar")
    ensures Truthy(Member(employee, "profilePicture")) ==> r == Member(employee, "profilePicture")
    ensures !Truthy(r) ==> r == Member(employee, "avatar")
  {
    Or(Member(employee, "profilePicture"),
       Or(Member(employee, "profilePictureUrl"), Or(Member(employee, "image"), Member(employee, "avatar"))))
  }

  /**
   * The picture is the first truthy field in that order; it is falsy exactly when all four are,
   * and then it is the avatar field's value.
   */
  lemma PictureIsFirstTruthy(employee: Value)
    ensures Truthy(ProfilePicture(employee)) <==> exists f :: f in PictureFields && Truthy(Member(employee, f))
    ensures forall k ::
      (0 <= k < |PictureFields| && Truthy(Member(employee, PictureFields[k])) &&
       forall j :: 0 <= j < k ==> !Truthy(Member(employee, PictureFields[j]))) ==>
      ProfilePicture(employee) == Member(employee, PictureFields[k])
    ensures !Truthy(ProfilePicture(employee)) ==> ProfilePicture(employee) == Member(employee, "avatar")
  {
    var p := PictureFields;
    if Truthy(ProfilePicture(employee)) {
      if Truthy(Member(employee, p[0])) {
      } else if Truthy(Member(employee, p[1])) {
      } else if Truthy(Member(employee, p[2])) {
      } else {
        assert p[3] in p;
      }
    }
    forall k | 0 <= k < |p| && Truthy(Member(employee, p[k])) &&
      (forall j :: 0 <= j < k ==> !Truthy(Member(employee, p[j])))
      ensures ProfilePicture(employee) == Member(employee, p[k])
    {
      if k >= 1 { assert !Truthy(Member(employee, p[0])); }
      if k >= 2 { assert !Truthy(Member(employee, p[1])); }
      if k >= 3 { assert !Truthy(Member(employee, p[2])); }
    }
  }

  /** What the page renders. */
  datatype View = Spinner | NotFound | Profile(employee: Value)

  /** The render order: spinner while fetching or loading, then "not found", then the profile. */
  function ViewOf(fetching: bool, loading: bool, employee: Value): (v: View)
    ensures v == Spinner <==> fetching || loading
    ensures v == NotFound <==> !fetching && !loading && !Truthy(employee)
    ensures v.Profile? ==> v.employee == employee && Truthy(employee)
  {
    if fetching || loading then Spinner
    else if !Truthy(employee) then NotFound
    else Profile(employee)
  }

  const NotFoundText := "Employee not found"
  const LoadErrorText := "Failed to load employee data"

  /** `getData(`/users/get-employee/${id}`)` */
  function EmployeeCall(id: string): Call {
    GetCall("/users/get-employee/" + id, [])
  }

  /** getData never rejects, so the catch branch with its error toast is never taken. */
  lemma FetchNeverRejects(id: string, o: Outcome)
    ensures CompletionOf(EmployeeCall(id), o).Resolved?
    ensures o.Failed? ==> Extract(CompletionOf(EmployeeCall(id), o).value) == Undefined
  {
  }

  /** The page for one route id. */
  class ProfilePage {
    /** useParams().id: None when the route has none. */
    const id: Option<string>
    var employee: Value
    var fetching: bool
    const api: Handler
    const notices: Browser.Notices

    constructor (id: Option<string>, api: Handler, notices: Browser.Notices)
      ensures this.id == id && this.api == api && this.notices == notices
      ensures employee == Null && !fetching
    {
      this.id := id;
      this.api := api;
      this.notices := notices;
      employee := Null;
      fetching := false;
    }

    /** The view for the current state. */
    function CurrentView(): View
      reads this, api
    {
      ViewOf(fetching, api.loading, employee)
    }

    /**
     * fetchEmployee(): nothing without an id; otherwise one GET whose body, or undefined when
     * it failed, is reduced by Extract.
     */
    method FetchEmployee(o: Outcome)
      modifies this, api
      ensures (id.None? || id.value == "") ==>
        fetching == old(fetching) && employee == old(employee) && api.sent == old(api.sent) && api.Current() == old(api.Current())
      ensures id.Some? && id.value != "" ==>
        && !fetching
        && api.sent == old(api.sent) + [Dispatch(EmployeeCall(id.value), api.token, api.baseUrl).value]
        && api.Current() == Settled(Started(old(api.Current()), EmployeeCall(id.value)), EmployeeCall(id.value), o)
        && employee == Extract(if o.Succeeded? then o.body else Undefined)
        && CurrentView() == (if Truthy(employee) then Profile(employee) else NotFound)
      ensures unchanged(notices)
    {
      if id.None? || id.value == "" {
        return;
      }
      fetching := true;
      var c := api.Perform(EmployeeCall(id.value), o);
      FetchNeverRejects(id.value, o);
      employee := Extract(c.value);
      fetching := false;
    }
  }

  /** A failed fetch leaves the page on "Employee not found" once loading is over. */
  lemma FailedFetchShowsNotFound(id: string, f: Failure)
    ensures ViewOf(false, false, Extract(CompletionOf(EmployeeCall(id), Failed(f)).value)) == NotFound
  {
  }
}
