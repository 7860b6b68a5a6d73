/**
 * The user-administration page: the list filter (search, role, status), the badge colours,
 * the two counters, the guard in front of the add-user request, and the CSV export of the
 * filtered list.
 */
module UserManagement {
  import opened Wrappers
  import Lists
  import Text
  import Csv
  import UserSlice

  type User = UserSlice.User

  /** The three filter controls. */
  datatype UserFilter = UserFilter(searchTerm: string, roleFilter: string, statusFilter: string)

  const ShowAll: UserFilter := UserFilter("", "all", "all")

  /** The search test. `full_name` is lower-cased unconditionally, so a user without one makes
      it throw (`None`); the e-mail is read only when the name does not match. */
  function SearchMatch(u: User, term: string): (r: Option<bool>)
    ensures u.fullName.None? ==> r.None?
    ensures u.fullName.Some? && u.email.Some? ==> r.Some?
    ensures r == Some(true) ==>
      Text.IncludesIgnoringCase(u.fullName.value, term)
      || (u.email.Some? && Text.IncludesIgnoringCase(u.email.value, term))
  {
    if u.fullName.None? then None
    else if Text.IncludesIgnoringCase(u.fullName.value, term) then Some(true)
    else if u.email.None? then None
    else Some(Text.IncludesIgnoringCase(u.email.value, term))
  }

  predicate RoleMatch(u: User, roleFilter: string) {
    roleFilter == "all" || u.role == Some(roleFilter)
  }

  /** `is_active === (statusFilter === 'true')`: an absent or non-boolean flag matches neither. */
  predicate StatusMatch(u: User, statusFilter: string) {
    statusFilter == "all" || u.isActive == Some(statusFilter == "true")
  }

  /** The whole test; `None` when it throws. */
  function Matches(u: User, f: UserFilter): Option<bool> {
    var s := SearchMatch(u, f.searchTerm);
    if s.None? then None else Some(s.value && RoleMatch(u, f.roleFilter) && StatusMatch(u, f.statusFilter))
  }

  /** `filteredUsers`; `None` when the test throws on some user. */
  function FilterUsers(users: seq<User>, f: UserFilter): (r: Option<seq<User>>)
    ensures r.Some? ==> |r.value| <= |users| && forall u :: u in r.value ==> u in users && Matches(u, f) == Some(true)
    ensures r.None? ==> exists k :: 0 <= k < |users| && Matches(users[k], f).None?
  {
    if users == [] then Some([])
    else
      var m := Matches(users[0], f);
      if m.None? then None
      else
        var rest := FilterUsers(users[1..], f);
        if rest.None? then None
        else Some((if m.value then [users[0]] else []) + rest.value)
  }

  predicate Passes(u: User, f: UserFilter) {
    Matches(u, f) == Some(true)
  }

  function PassTest(f: UserFilter): User -> bool {
    (u: User) => Passes(u, f)
  }

  /** Some user makes the test throw. */
  predicate SomeThrows(users: seq<User>, f: UserFilter) {
    exists k :: 0 <= k < |users| && Matches(users[k], f).None?
  }

  lemma SomeThrowsFront(users: seq<User>, f: UserFilter)
    requires users != []
    ensures SomeThrows(users, f) <==> Matches(users[0], f).None? || SomeThrows(users[1..], f)
  {
    if SomeThrows(users, f) {
      var k :| 0 <= k < |users| && Matches(users[k], f).None?;
      if k > 0 {
        assert users[1..][k - 1] == users[k];
      }
    }
    if SomeThrows(users[1..], f) {
      var k :| 0 <= k < |users[1..]| && Matches(users[1..][k], f).None?;
      assert users[k + 1] == users[1..][k];
    }
  }

  /** The filter throws exactly when the test throws on some user; otherwise it keeps exactly
      the users that pass, in their order. */
  lemma {:induction false} FilterUsersMeaning(users: seq<User>, f: UserFilter)
    ensures FilterUsers(users, f).None? <==> SomeThrows(users, f)
    ensures FilterUsers(users, f).Some? ==> FilterUsers(users, f).value == Lists.Filter(users, PassTest(f))
  {
    if users != [] {
      FilterUsersMeaning(users[1..], f);
      SomeThrowsFront(users, f);
    }
  }

  /** The filtered list is an order-preserving selection, and a user is in it exactly when the
      user's name or e-mail contains the term ignoring case, the role filter is 'all' or names
      the user's role, and the status filter is 'all' or agrees with `is_active`. */
  lemma FilteredUsersAreSelection(users: seq<User>, f: UserFilter)
    requires FilterUsers(users, f).Some?
    ensures var r := FilterUsers(users, f).value;
      && Lists.IsSubsequence(r, users)
      && forall u :: u in r <==> (
        && u in users && u.fullName.Some?
        && (|| Text.IncludesIgnoringCase(u.fullName.value, f.searchTerm)
            || (u.email.Some? && Text.IncludesIgnoringCase(u.email.value, f.searchTerm)))
        && (f.roleFilter == "all" || u.role == Some(f.roleFilter))
        && (f.statusFilter == "all" || u.isActive == Some(f.statusFilter == "true")))
  {
    FilterUsersMeaning(users, f);
    Lists.FilterIsSubsequence(users, PassTest(f));
  }

  /** Users that all have a name: an empty term matches every one of them, so with both
      selectors on 'all' the list is shown whole. */
  lemma EmptyTermShowsAll(users: seq<User>)
    requires forall k :: 0 <= k < |users| ==> users[k].fullName.Some?
    ensures FilterUsers(users, ShowAll) == Some(users)
  {
    forall k | 0 <= k < |users| ensures Passes(users[k], ShowAll) {
      Text.IncludesIgnoringCaseEmpty(users[k].fullName.value);
    }
    FilterUsersMeaning(users, ShowAll);
    Lists.FilterKeepingAll(users, PassTest(ShowAll));
  }

  /** A user without `full_name` breaks the filter, whatever the controls say. */
  lemma MissingNameThrows(users: seq<User>, f: UserFilter, k: nat)
    requires k < |users| && users[k].fullName.None?
    ensures FilterUsers(users, f).None?
  {
    FilterUsersMeaning(users, f);
  }

  const GreyBadge := "bg-gray-100 text-gray-800 border-gray-200"

  /** `getStatusColor`. The user table calls it with the boolean `is_active`, which is none of
      the three strings, so the badge the table shows is always the grey one. */
  function StatusColor(status: Option<string>): (c: string)
    ensures c == GreyBadge <==> status !in {Some("active"), Some("inactive"), Some("suspended")}
  {
    if status == Some("active") then "bg-green-100 text-green-800 border-green-200"
    else if status == Some("inactive") then "bg-red-100 text-red-800 border-red-200"
    else if status == Some("suspended") then "bg-yellow-100 text-yellow-800 border-yellow-200"
    else GreyBadge
  }

  /** `getRoleColor`. */
  function RoleColor(role: Option<string>): (c: string)
    ensures c == GreyBadge <==> role !in {Some("admin"), Some("user")}
  {
    if role == Some("admin") then "bg-purple-100 text-purple-800 border-purple-200"
    else if role == Some("user") then "bg-blue-100 text-blue-800 border-blue-200"
    else GreyBadge
  }

  /** Each recognised value has its own colour, and only unrecognised values get grey. */
  lemma BadgeColors(status: Option<string>, other: Option<string>, role: Option<string>)
    ensures StatusColor(status) == GreyBadge <==>
      status !in {Some("active"), Some("inactive"), Some("suspended")}
    ensures RoleColor(role) == GreyBadge <==> role !in {Some("admin"), Some("user")}
    ensures StatusColor(status) == StatusColor(other) && StatusColor(status) != GreyBadge ==> status == other
  {
  }

  function IsAdmin(u: User): bool { u.role == Some("admin") }

  function IsActive(u: User): bool { u.isActive == Some(true) }

  /** The Admins card. */
  function AdminCount(users: seq<User>): (n: nat)
    ensures n == Lists.CountIf(users, IsAdmin)
  {
    Lists.FilterLength(users, IsAdmin);
    |Lists.Filter(users, IsAdmin)|
  }

  /** The Active Users card. */
  function ActiveCount(users: seq<User>): (n: nat)
    ensures n == Lists.CountIf(users, IsActive)
  {
    Lists.FilterLength(users, IsActive);
    |Lists.Filter(users, IsActive)|
  }

  /** The cards count the users with role 'admin' and with `is_active` exactly true, among all
      users, whatever the controls say; each is at most the Total Users card. */
  lemma CountsAreCounts(users: seq<User>)
    ensures AdminCount(users) == Lists.CountIf(users, IsAdmin) <= |users|
    ensures ActiveCount(users) == Lists.CountIf(users, IsActive) <= |users|
  {
    Lists.FilterLength(users, IsAdmin);
    Lists.FilterLength(users, IsActive);
  }

  /** A user with a name matches the empty term. */
  lemma EmptyTermMatches(u: User)
    requires u.fullName.Some?
    ensures SearchMatch(u, "") == Some(true)
  {
    Text.IncludesIgnoringCaseEmpty(u.fullName.value);
  }

  /** With an empty term and no missing names, the filter keeps exactly the users that pass the
      two selectors. */
  lemma EmptyTermSelects(users: seq<User>, f: UserFilter)
    requires f.searchTerm == ""
    requires forall k :: 0 <= k < |users| ==> users[k].fullName.Some?
    ensures FilterUsers(users, f) == Some(Lists.Filter(users, PassTest(f)))
    ensures forall k :: 0 <= k < |users| ==>
      PassTest(f)(users[k]) == (RoleMatch(users[k], f.roleFilter) && StatusMatch(users[k], f.statusFilter))
  {
    forall k | 0 <= k < |users| ensures Matches(users[k], f) ==
      Some(RoleMatch(users[k], f.roleFilter) && StatusMatch(users[k], f.statusFilter))
    {
      EmptyTermMatches(users[k]);
    }
    FilterUsersMeaning(users, f);
  }

  /** When the list has no missing names, the Active Users card equals the length of the list
      filtered on status 'true' with no search and every role. */
  lemma ActiveCountIsStatusFilter(users: seq<User>)
    requires forall k :: 0 <= k < |users| ==> users[k].fullName.Some?
    ensures FilterUsers(users, UserFilter("", "all", "true")) == Some(Lists.Filter(users, IsActive))
  {
    var f := UserFilter("", "all", "true");
    EmptyTermSelects(users, f);
    SameFilter(users, PassTest(f), IsActive);
  }

  /** When the list has no missing names, the Admins card equals the length of the list filtered
      on role 'admin' with no search and every status. */
  lemma AdminCountIsRoleFilter(users: seq<User>)
    requires forall k :: 0 <= k < |users| ==> users[k].fullName.Some?
    ensures FilterUsers(users, UserFilter("", "admin", "all")) == Some(Lists.Filter(users, IsAdmin))
  {
    var f := UserFilter("", "admin", "all");
    EmptyTermSelects(users, f);
    SameFilter(users, PassTest(f), IsAdmin);
  }

  lemma {:induction false} SameFilter(xs: seq<User>, a: User -> bool, b: User -> bool)
    requires forall k :: 0 <= k < |xs| ==> a(xs[k]) == b(xs[k])
    ensures Lists.Filter(xs, a) == Lists.Filter(xs, b)
  {
    if xs != [] {
      SameFilter(xs[1..], a, b);
    }
  }

  /** The add-user request. */
  datatype NewUser = NewUser(name: string, email: string, role: string, phone: Option<string>, status: string)

  /** `handleAddUser` after its four prompts (`None` for a cancelled prompt): the request is
      made only when name, e-mail and role are all given and non-empty; an empty or cancelled
      phone becomes `null`, and the status is always 'active'. */
  function AddUserRequest(name: Option<string>, email: Option<string>, role: Option<string>, phone: Option<string>): (r: Option<NewUser>)
    ensures r.Some? <==> name.Some? && name.value != "" && email.Some? && email.value != "" && role.Some? && role.value != ""
    ensures r.Some? ==> r.value.name == name.value && r.value.email == email.value && r.value.role == role.value
    ensures r.Some? ==> r.value.status == "active"
    ensures r.Some? ==> (r.value.phone.None? <==> phone.None? || phone == Some(""))
    ensures r.Some? && r.value.phone.Some? ==> r.value.phone == phone
  {
    if name.Some? && name.value != "" && email.Some? && email.value != "" && role.Some? && role.value != "" then
      Some(NewUser(name.value, email.value, role.value, if phone == Some("") then None else phone, "active"))
    else None
  }

  /** A value as `join` writes it: absent is the empty string. */
  function TextOf(v: Option<string>): string {
    if v.Some? then v.value else ""
  }

  function FlagText(v: Option<bool>): string {
    if v == Some(true) then "true" else if v == Some(false) then "false" else ""
  }

  /** The exported columns. */
  const ExportKeys: seq<string> := ["ID", "Name", "Email", "Role", "Status", "Phone", "CreatedAt", "LastLogin"]

  /** One exported record; `date` stands for the locale's date formatting. A missing or empty
      phone reads 'N/A' and a missing or empty last login 'Never'. */
  function ExportRow(u: User, date: Option<string> -> string): (row: Csv.Row)
    ensures Csv.Keys(row) == ExportKeys
    ensures row[5].1 == (if u.mobile.None? || u.mobile == Some("") then "N/A" else u.mobile.value)
    ensures row[7].1 == (if u.lastLogin.None? || u.lastLogin == Some("") then "Never" else date(u.lastLogin))
  {
    [("ID", TextOf(u.userId)), ("Name", TextOf(u.fullName)), ("Email", TextOf(u.email)),
     ("Role", TextOf(u.role)), ("Status", FlagText(u.isActive)),
     ("Phone", if u.mobile.None? || u.mobile == Some("") then "N/A" else u.mobile.value),
     ("CreatedAt", date(u.createdAt)),
     ("LastLogin", if u.lastLogin.None? || u.lastLogin == Some("") then "Never" else date(u.lastLogin))]
  }

  function ExportRows(users: seq<User>, date: Option<string> -> string): (rows: seq<Csv.Row>)
    ensures |rows| == |users|
    ensures forall k :: 0 <= k < |users| ==> rows[k] == ExportRow(users[k], date)
  {
    if users == [] then [] else [ExportRow(users[0], date)] + ExportRows(users[1..], date)
  }

  /** `exportToCSV`: `None` when the filter throws or keeps nobody (`csvData[0]` is undefined). */
  function ExportContent(users: seq<User>, f: UserFilter, date: Option<string> -> string): (r: Option<string>)
    ensures r.Some? <==> FilterUsers(users, f).Some? && FilterUsers(users, f).value != []
    ensures r.Some? ==> Csv.DataUriPrefix <= r.value
  {
    var shown := FilterUsers(users, f);
    if shown.None? then None else Csv.Content(ExportRows(shown.value, date))
  }

  /** The export fails exactly when the filtered list cannot be built or is empty. */
  lemma ExportFails(users: seq<User>, f: UserFilter, date: Option<string> -> string)
    ensures ExportContent(users, f, date).None? <==> SomeThrows(users, f) || FilterUsers(users, f) == Some([])
  {
    FilterUsersMeaning(users, f);
    var shown := FilterUsers(users, f);
    if shown.Some? {
      assert |ExportRows(shown.value, date)| == |shown.value|;
    }
  }

  /** Whatever the users, the export starts with the data-URI prefix and the fixed header line. */
  lemma ExportHeader(rows: seq<Csv.Row>, content: string)
    requires rows != [] && Csv.Keys(rows[0]) == ExportKeys && Csv.Content(rows) == Some(content)
    ensures Csv.DataUriPrefix + Text.Join(ExportKeys, ",") + "\n" <= content
  {
    var rest := Text.Join(Csv.Lines(rows), "\n");
    assert content == (Csv.DataUriPrefix + Text.Join(ExportKeys, ",") + "\n") + rest;
  }

  /** The export of a non-empty filtered list begins with the header line. */
  lemma ExportStartsWithHeader(users: seq<User>, f: UserFilter, date: Option<string> -> string)
    requires ExportContent(users, f, date).Some?
    ensures Csv.DataUriPrefix + Text.Join(ExportKeys, ",") + "\n" <= ExportContent(users, f, date).value
  {
    var rows := ExportRows(FilterUsers(users, f).value, date);
    ExportHeader(rows, ExportContent(users, f, date).value);
  }
}
