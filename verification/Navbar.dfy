/**
 * The header bar (src/components/navbar/navbar.jsx): which navigation links a role sees, how
 * the user's name and role are shown, the logout sequence and the change-password modal.
 */
module Navbar {
  import opened Wrappers
  import opened Js
  import Text
  import opened ApiHandler
  import Browser

  /** One navigation link and the roles that see it. */
  datatype Link = Link(title: string, link: string, roles: seq<string>)

  const AllRoles := ["superadmin", "client-admin", "customer-support", "developer", "client-employee"]

  const Links := [
    Link("Ticket Dashboard", "/Support", AllRoles),
    Link("Clients", "/clients", ["superadmin", "customer-support"]),
    Link("Projects", "/projects", ["client-admin"]),
    Link("Employees", "/jabemployees-listing", ["client-admin"]),
    Link("JABG Users", "/jabemployees-listing", ["superadmin", "customer-support"]),
    Link("Control Panel", "/AdminDashboard", ["superadmin"]),
    Link("Website", "/", AllRoles)
  ]

  /** `item.roles.includes(user?.role)`: strict equality, so only a string role can match. */
  predicate Includes(roles: seq<string>, role: Value) {
    role.Str? && role.s in roles
  }

  /** `links.filter(...)`: the links the role sees, in their original order. */
  function Visible(links: seq<Link>, role: Value): (r: seq<Link>)
    ensures |r| <= |links|
    ensures forall l :: l in r ==> l in links && Includes(l.roles, role)
  {
    if links == [] then []
    else (if Includes(links[0].roles, role) then [links[0]] else []) + Visible(links[1..], role)
  }

  /** A link is shown exactly when its roles include the user's role. */
  lemma {:induction false} VisibleMembers(links: seq<Link>, role: Value, l: Link)
    ensures l in Visible(links, role) <==> l in links && Includes(l.roles, role)
  {
    if links != [] {
      VisibleMembers(links[1..], role, l);
      assert links == [links[0]] + links[1..];
    }
  }

  /** The header's links for the signed-in user: only links whose roles include the user's role. */
  function FilteredLinks(user: Value): (r: seq<Link>)
    ensures forall l :: l in r ==> l in Links && Member(user, "role").Str? && Member(user, "role").s in l.roles
  {
    Visible(Links, Member(user, "role"))
  }

  lemma {:induction false} VisibleNone(links: seq<Link>, role: Value)
    requires forall l :: l in links ==> !Includes(l.roles, role)
    ensures Visible(links, role) == []
  {
    if links != [] {
      assert links[0] in links;
      forall l | l in links[1..] ensures !Includes(l.roles, role) {
        assert l in links;
      }
      VisibleNone(links[1..], role);
    }
  }

  /** Without a user, or with a role outside the five, no link is shown. */
  lemma NoRoleNoLinks(user: Value)
    requires !(Member(user, "role").Str? && Member(user, "role").s in AllRoles)
    ensures FilteredLinks(user) == []
  {
    VisibleNone(Links, Member(user, "role"));
  }

  /** a is b with some elements left out, the rest in their order. */
  predicate SubsequenceOf<T(==)>(a: seq<T>, b: seq<T>)
    decreases |b|
  {
    if a == [] then true
    else if b == [] then false
    else (a[0] == b[0] && SubsequenceOf(a[1..], b[1..])) || SubsequenceOf(a, b[1..])
  }

  /** The visible links keep the order they have in the list. */
  lemma {:induction false} VisibleKeepsOrder(links: seq<Link>, role: Value)
    ensures SubsequenceOf(Visible(links, role), links)
    decreases |links|
  {
    if links != [] {
      VisibleKeepsOrder(links[1..], role);
      var rest := Visible(links[1..], role);
      if Includes(links[0].roles, role) {
        assert Visible(links, role) == [links[0]] + rest;
        assert ([links[0]] + rest)[1..] == rest;
      } else if rest != [] {
        assert Visible(links, role) == rest;
      }
    }
  }

  /** Each of the five roles sees the ticket dashboard and the website link. */
  lemma EveryRoleSeesDashboardAndWebsite(role: string)
    requires role in AllRoles
    ensures Links[0] in Visible(Links, Str(role)) && Links[6] in Visible(Links, Str(role))
  {
    VisibleMembers(Links, Str(role), Links[0]);
    VisibleMembers(Links, Str(role), Links[6]);
  }

  /** `.replace(/[-_]/g, " ")` */
  function Spaced(s: string): (r: string)
    ensures |r| == |s|
    ensures '-' !in r && '_' !in r
    ensures forall i :: 0 <= i < |s| && s[i] != '-' && s[i] != '_' ==> r[i] == s[i]
    ensures forall i :: 0 <= i < |s| && (s[i] == '-' || s[i] == '_') ==> r[i] == ' '
  {
    seq(|s|, i requires 0 <= i < |s| => if s[i] == '-' || s[i] == '_' then ' ' else s[i])
  }

  /** Position i starts a word: a word character with no word character before it (`\b\w`). */
  predicate WordStart(s: string, i: int)
    requires 0 <= i < |s|
  {
    Text.IsWordChar(s[i]) && (i == 0 || !Text.IsWordChar(s[i - 1]))
  }

  /** `.replace(/\b\w/g, (char) => char.toUpperCase())` */
  function Capitalized(s: string): (r: string)
    ensures |r| == |s|
    ensures forall i :: 0 <= i < |s| && !WordStart(s, i) ==> r[i] == s[i]
    ensures forall i :: 0 <= i < |s| ==> (Text.IsWordChar(r[i]) <==> Text.IsWordChar(s[i]))
    ensures forall i :: 0 <= i < |r| && WordStart(r, i) ==> !Text.IsAsciiLower(r[i])
  {
    var r := seq(|s|, i requires 0 <= i < |s| => if WordStart(s, i) then Text.UpperChar(s[i]) else s[i]);
    assert forall i :: 0 <= i < |s| ==> (Text.IsWordChar(r[i]) <==> Text.IsWordChar(s[i])) by {
      forall i | 0 <= i < |s| ensures Text.IsWordChar(r[i]) <==> Text.IsWordChar(s[i]) {
        UpperKeepsWordChar(s[i]);
      }
    }
    r
  }

  /** The role under the name: the formatted role, "User" without one, None where `replace` throws on a non-string. */
  function RoleLabel(user: Value): (r: Option<string>)
    ensures !Truthy(Member(user, "role")) ==> r == Some("User")
    ensures r.None? <==> Truthy(Member(user, "role")) && !Member(user, "role").Str?
    ensures Member(user, "role").Str? && Member(user, "role").s != "" ==>
      r == Some(Capitalized(Spaced(Member(user, "role").s)))
  {
    var role := Member(user, "role");
    if !Truthy(role) then Some("User")
    else if !role.Str? then None
    else Some(Capitalized(Spaced(role.s)))
  }

  lemma UpperKeepsWordChar(c: char)
    ensures Text.IsWordChar(Text.UpperChar(c)) <==> Text.IsWordChar(c)
  {
  }

  /**
   * The text keeps the role's length, has no '-' or '_' left, differs from the spaced role
   * only by upper-casing the first letter of each word, and formatting it again changes nothing.
   */
  lemma RoleLabelProperties(role: string)
    requires role != ""
    ensures var text := Capitalized(Spaced(role));
      && |text| == |role|
      && '-' !in text && '_' !in text
      && (forall i :: 0 <= i < |text| ==> text[i] == Spaced(role)[i] || text[i] == Text.UpperChar(Spaced(role)[i]))
      && (forall i :: 0 <= i < |text| && WordStart(text, i) ==> !Text.IsAsciiLower(text[i]))
      && Capitalized(Spaced(text)) == text
  {
    var sp := Spaced(role);
    var text := Capitalized(sp);
    forall i | 0 <= i < |text| ensures text[i] != '-' && text[i] != '_' {
      assert sp[i] != '-' && sp[i] != '_';
    }
    forall i | 0 <= i < |text| ensures Text.IsWordChar(text[i]) <==> Text.IsWordChar(sp[i]) {
      UpperKeepsWordChar(sp[i]);
    }
    assert Spaced(text) == text;
    forall i | 0 <= i < |text| ensures Capitalized(text)[i] == text[i] {
      assert WordStart(text, i) <==> WordStart(sp, i);
    }
  }

  lemma RoleLabelExample()
    ensures Capitalized(Spaced("client-admin")) == "Client Admin"
  {
    var sp := "client admin";
    assert Spaced("client-admin") == sp;
    assert WordStart(sp, 0) && WordStart(sp, 7);
    forall i | 0 <= i < |sp| && i != 0 && i != 7 ensures !WordStart(sp, i) {
      assert i == 6 || Text.IsWordChar(sp[i - 1]);
    }
    assert Capitalized(sp) == "Client Admin";
  }

  /** `user?.name || "User Name"` */
  function DisplayName(user: Value): (r: Value)
    ensures Truthy(r)
    ensures Truthy(Member(user, "name")) ==> r == Member(user, "name")
    ensures !Truthy(Member(user, "name")) ==> r == Str("User Name")
  {
    Or(Member(user, "name"), Str("User Name"))
  }

  /** `refreshToken ? { refreshToken } : {}` */
  function LogoutPayload(refreshToken: Option<string>): (r: Value)
    ensures refreshToken.Some? && refreshToken.value != "" ==> r == Obj([Entry("refreshToken", Str(refreshToken.value))])
    ensures refreshToken.None? || refreshToken.value == "" ==> r == Obj([])
  {
    if refreshToken.Some? && refreshToken.value != "" then Obj([Entry("refreshToken", Str(refreshToken.value))]) else Obj([])
  }

  function LogoutCall(refreshToken: Option<string>): Call {
    PostCall("/auth/logout", Json(LogoutPayload(refreshToken)), false, false)
  }

  function ChangePasswordCall(oldPass: string, newPass: string): Call {
    PatchCall("/v1/auth/change-password", Obj([Entry("oldPassword", Str(oldPass)), Entry("newPassword", Str(newPass))]), false)
  }

  const PasswordChangedText := "Password Changed Successfully"
  const FallbackErrorText := "Something went wrong!"

  /** The modal handleChangePassword leaves: whether it is an error modal, and its text. */
  function PasswordModal(c: Completion): (r: (bool, string))
    ensures r.0 <==> c.Rejected?
    ensures c.Resolved? ==> r.1 == PasswordChangedText
    ensures c.Rejected? && c.failure.serverMessage.Some? && c.failure.serverMessage.value != "" ==> r.1 == c.failure.serverMessage.value
    ensures c.Rejected? && (c.failure.serverMessage.None? || c.failure.serverMessage.value == "") ==> r.1 == FallbackErrorText
  {
    if c.Resolved? then (false, PasswordChangedText) else (true, OrText(c.failure.serverMessage, FallbackErrorText))
  }

  /** The header's own state and the services it uses. */
  class Header {
    var openPasswordModal: bool
    var errorShow: bool
    var modalMessage: string
    var showModal: bool
    const api: Handler
    const storage: Browser.LocalStorage
    const router: Browser.Navigator

    constructor (api: Handler, storage: Browser.LocalStorage, router: Browser.Navigator)
      ensures this.api == api && this.storage == storage && this.router == router
      ensures !openPasswordModal && !errorShow && modalMessage == "" && !showModal
    {
      this.api := api;
      this.storage := storage;
      this.router := router;
      openPasswordModal := false;
      errorShow := false;
      modalMessage := "";
      showModal := false;
    }

    /**
     * logout(): post the stored refresh token; only once that resolves remove the token and the
     * user and go to '/'. A rejection leaves storage and location as they were.
     */
    method Logout(o: Outcome)
      modifies api, storage, router
      ensures var call := LogoutCall(old(storage.GetItem("refreshToken")));
        var d := Dispatch(call, api.token, api.baseUrl);
        && api.sent == old(api.sent) + (if d.Ok? then [d.value] else [])
        && api.Current() == Settled(Started(old(api.Current()), call), call, Effective(d, o))
        && (Effective(d, o).Succeeded? ==>
              storage.items == old(storage.items) - {"token", "user"} && router.visits == old(router.visits) + [Browser.Visit("/", false)])
        && (Effective(d, o).Failed? ==> storage.items == old(storage.items) && router.visits == old(router.visits))
    {
      var refreshToken := storage.GetItem("refreshToken");
      var c := api.Perform(LogoutCall(refreshToken), o);
      if c.Resolved? {
        storage.RemoveItem("token");
        storage.RemoveItem("user");
        router.Navigate("/", false);
      }
    }

    /** handleChangePassword(): close the form, send the change, then open the result modal. */
    method HandleChangePassword(oldPass: string, newPass: string, o: Outcome)
      modifies this, api
      ensures var call := ChangePasswordCall(oldPass, newPass);
        && api.sent == old(api.sent) + [Dispatch(call, api.token, api.baseUrl).value]
        && api.Current() == Settled(Started(old(api.Current()), call), call, o)
        && (errorShow, modalMessage) == PasswordModal(CompletionOf(call, o))
      ensures !openPasswordModal && showModal
    {
      openPasswordModal := false;
      errorShow := false;
      modalMessage := "";
      showModal := false;
      var c := api.Perform(ChangePasswordCall(oldPass, newPass), o);
      if c.Resolved? {
        errorShow := false;
        modalMessage := PasswordChangedText;
        showModal := true;
      } else {
        openPasswordModal := false;
        errorShow := true;
        modalMessage := OrText(c.failure.serverMessage, FallbackErrorText);
        showModal := true;
      }
    }
  }
}
