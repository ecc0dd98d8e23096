/** Who a stage task is assigned to, src/components/stages/TaskAssigneeSelect.tsx: `getAssigneeData`. */
module TaskAssignee {
  import opened Wrappers
  import opened Text

  const DefaultAssignee := "none"
  const AdminPrefix := "admin-"

  /** What the select shows for an assignee: a name and an avatar URL. */
  datatype AssigneeData = AssigneeData(name: string, image: string)

  const NoneEntry := AssigneeData("Assign", "")

  /** The fixed table of assignees that are roles rather than people. */
  function StaticEntry(key: string): (r: Option<AssigneeData>)
    ensures r.Some? <==> key in {"client", "account_manager", "designer", "none"}
    ensures key == "none" ==> r == Some(NoneEntry)
  {
    if key == "client" then
      Some(AssigneeData("Client", "https://images.unsplash.com/photo-1649972904349-6e44c42644a7?w=100&h=100&fit=crop"))
    else if key == "account_manager" then
      Some(AssigneeData("Account Manager", "https://images.unsplash.com/photo-1486312338219-ce68d2c6f44d?w=100&h=100&fit=crop"))
    else if key == "designer" then
      Some(AssigneeData("Designer", "https://images.unsplash.com/photo-1581091226825-a6a2a5aee158?w=100&h=100&fit=crop"))
    else if key == "none" then Some(NoneEntry)
    else None
  }

  /** An admin profile as the query returns it. */
  datatype Admin = Admin(id: string, firstName: Option<string>, lastName: Option<string>, avatarUrl: Option<string>)

  /** `s.replace(pattern, replacement)` with a string pattern: only the first occurrence is replaced. */
  function ReplaceFirst(s: string, pattern: string, replacement: string): (r: string)
    ensures !Includes(s, pattern) ==> r == s
    decreases |s|
  {
    if StartsWith(s, pattern) then replacement + s[|pattern|..]
    else if s == [] then s
    else [s[0]] + ReplaceFirst(s[1..], pattern, replacement)
  }

  /** Replacing a prefix that the string starts with removes exactly that prefix. */
  lemma ReplacePrefix(s: string)
    requires StartsWith(s, AdminPrefix)
    ensures ReplaceFirst(s, AdminPrefix, "") == s[|AdminPrefix|..]
  {
  }

  /** `adminUsers?.find(u => u.id === id)`: the first admin with that id. */
  function FindAdmin(admins: Option<seq<Admin>>, id: string): (r: Option<Admin>)
    ensures r.None? <==> admins.None? || forall a :: a in admins.value ==> a.id != id
    ensures r.Some? ==> r.value in admins.value && r.value.id == id
    ensures r.Some? ==> exists k :: 0 <= k < |admins.value| && admins.value[k] == r.value && NoIdBefore(admins.value, id, k)
  {
    match admins
    case None => None
    case Some(list) => FindIn(list, id)
  }

  /** The search of `find` over a loaded list: the first admin whose id matches. */
  function FindIn(list: seq<Admin>, id: string): (r: Option<Admin>)
    ensures r.None? <==> forall a :: a in list ==> a.id != id
    ensures r.Some? ==> r.value in list && r.value.id == id
    ensures r.Some? ==> exists k :: 0 <= k < |list| && list[k] == r.value && NoIdBefore(list, id, k)
  {
    if list == [] then None
    else if list[0].id == id then
      assert NoIdBefore(list, id, 0);
      Some(list[0])
    else
      var r := FindIn(list[1..], id);
      assert r.Some? ==> exists k :: 0 <= k < |list| && list[k] == r.value && NoIdBefore(list, id, k) by {
        if r.Some? {
          var k :| 0 <= k < |list[1..]| && list[1..][k] == r.value && NoIdBefore(list[1..], id, k);
          assert list[k + 1] == r.value && NoIdBefore(list, id, k + 1);
        }
      }
      r
  }

  /** No admin before position `k` has the id. */
  predicate NoIdBefore(list: seq<Admin>, id: string, k: int)
    requires 0 <= k <= |list|
  {
    forall j :: 0 <= j < k ==> list[j].id != id
  }

  /** `getAssigneeData`: an admin by id after the prefix, else the role table, else the "none" entry. */
  function AssigneeDataFor(assignee: string, admins: Option<seq<Admin>>): (r: AssigneeData)
    ensures StartsWith(assignee, AdminPrefix) ==>
      match FindAdmin(admins, assignee[|AdminPrefix|..])
      case Some(a) => r == AssigneeData(ShowNullable(a.firstName) + " " + ShowNullable(a.lastName), OrElse(a.avatarUrl, ""))
      case None => r == NoneEntry
    ensures !StartsWith(assignee, AdminPrefix) ==> r == StaticEntry(assignee).GetOr(NoneEntry)
  {
    if StartsWith(assignee, AdminPrefix) then
      ReplacePrefix(assignee);
      match FindAdmin(admins, ReplaceFirst(assignee, AdminPrefix, ""))
      case Some(a) => AssigneeData(ShowNullable(a.firstName) + " " + ShowNullable(a.lastName), OrElse(a.avatarUrl, ""))
      case None => NoneEntry
    else StaticEntry(assignee).GetOr(NoneEntry)
  }

  /** The assignee shown when none is passed. */
  function CurrentAssignee(assignee: Option<string>, admins: Option<seq<Admin>>): (r: AssigneeData)
    ensures assignee.None? ==> r == NoneEntry
  {
    AssigneeDataFor(assignee.GetOr(DefaultAssignee), admins)
  }

  /** While the admin list is loading every admin id shows as unassigned. */
  lemma AdminsLoadingShowNone(assignee: string)
    requires StartsWith(assignee, AdminPrefix)
    ensures AssigneeDataFor(assignee, None) == NoneEntry
  {
  }

  /** An unknown role key shows as unassigned, and a known one never does. */
  lemma UnknownKeyShowsNone(assignee: string, admins: Option<seq<Admin>>)
    requires !StartsWith(assignee, AdminPrefix)
    ensures AssigneeDataFor(assignee, admins) == NoneEntry <==> assignee !in {"client", "account_manager", "designer"}
  {
  }
}
