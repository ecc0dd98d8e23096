/** The points balance and display name of src/components/UserMenu.tsx. */
module UserMenu {
  import opened Wrappers
  import opened Text

  /** A `projects` row: `points` and the nullable `points_used`. */
  datatype ProjectRow = ProjectRow(points: int, pointsUsed: Option<int>)

  /** `project.points - (project.points_used || 0)`. */
  function Balance(p: ProjectRow): int {
    p.points - p.pointsUsed.GetOr(0)
  }

  /** The `reduce` from 0 over the rows, left to right. */
  function SumBalances(rows: seq<ProjectRow>): int
    decreases |rows|
  {
    if rows == [] then 0 else SumBalances(rows[..|rows| - 1]) + Balance(rows[|rows| - 1])
  }

  /** Sum of the `points` column. */
  function SumPoints(rows: seq<ProjectRow>): int
    decreases |rows|
  {
    if rows == [] then 0 else rows[0].points + SumPoints(rows[1..])
  }

  /** Sum of the `points_used` column, nulls counting as 0. */
  function SumUsed(rows: seq<ProjectRow>): int
    decreases |rows|
  {
    if rows == [] then 0 else rows[0].pointsUsed.GetOr(0) + SumUsed(rows[1..])
  }

  /** The fold adds the last row's balance to the total of the others (column sums from the front). */
  lemma {:induction false} ColumnSumsSnoc(rows: seq<ProjectRow>)
    requires rows != []
    ensures var init := rows[..|rows| - 1]; var last := rows[|rows| - 1];
      SumPoints(rows) == SumPoints(init) + last.points
      && SumUsed(rows) == SumUsed(init) + last.pointsUsed.GetOr(0)
    decreases |rows|
  {
    if |rows| > 1 {
      var tail := rows[1..];
      ColumnSumsSnoc(tail);
      assert tail[..|tail| - 1] == rows[..|rows| - 1][1..];
    }
  }

  /** The balance is the total of `points` minus the total of `points_used`. */
  lemma {:induction false} BalanceIsPointsMinusUsed(rows: seq<ProjectRow>)
    ensures SumBalances(rows) == SumPoints(rows) - SumUsed(rows)
    decreases |rows|
  {
    if rows != [] {
      BalanceIsPointsMinusUsed(rows[..|rows| - 1]);
      ColumnSumsSnoc(rows);
    }
  }

  /** `queryFn` of the points query: 0 without a user id or without rows, else the fold. */
  function TotalPoints(userId: Option<string>, rows: Option<seq<ProjectRow>>): (r: int)
    ensures !TruthyOpt(userId) || rows.None? ==> r == 0
    ensures TruthyOpt(userId) && rows.Some? ==> r == SumPoints(rows.value) - SumUsed(rows.value)
  {
    BalanceIsPointsMinusUsed(rows.GetOr([]));
    if !TruthyOpt(userId) then 0
    else match rows
      case None => 0
      case Some(rs) => SumBalances(rs)
  }

  /** The balance is not clamped: a project that used more than it had makes the total negative. */
  lemma OverspentIsNegative()
    ensures TotalPoints(Some("u1"), Some([ProjectRow(100, Some(250))])) == -150
  {
  }

  /** When no project used more than it had, the total is not negative. */
  lemma {:induction false} WithinBudgetNonNegative(rows: seq<ProjectRow>)
    requires forall i :: 0 <= i < |rows| ==> rows[i].pointsUsed.GetOr(0) <= rows[i].points
    ensures SumBalances(rows) >= 0
    decreases |rows|
  {
    if rows != [] {
      WithinBudgetNonNegative(rows[..|rows| - 1]);
    }
  }

  /** `email.split("@")[0]`: everything before the first '@'. */
  function BeforeAt(s: string): (r: string)
    ensures |r| <= |s| && r == s[..|r|]
    ensures '@' !in r
    ensures |r| < |s| ==> s[|r|] == '@'
  {
    if s == [] || s[0] == '@' then [] else [s[0]] + BeforeAt(s[1..])
  }

  /** The profile fields the name is built from; a missing column is `None` (rendered "null"). */
  datatype Profile = Profile(firstName: Option<string>, lastName: Option<string>)

  /** `userName`: the trimmed "first last" with a profile; otherwise the e-mail's local part, or "User". */
  function UserName(profile: Option<Profile>, email: Option<string>): (r: string)
    ensures profile.None? ==> r != ""
    ensures profile.None? && r != "User" ==> '@' !in r && |r| <= |OrElse(email, "")| && r == OrElse(email, "")[..|r|]
    ensures profile.Some? ==> r == [] || (!IsSpace(r[0]) && !IsSpace(r[|r| - 1]))
    ensures profile.None? && BeforeAt(OrElse(email, "")) != "" ==> r == BeforeAt(OrElse(email, ""))
    ensures profile.None? && BeforeAt(OrElse(email, "")) == "" ==> r == "User"
    ensures profile.Some? ==>
      TrimmedFrom(r, ShowNullable(profile.value.firstName) + " " + ShowNullable(profile.value.lastName))
  {
    match profile
    case Some(p) => Trim(ShowNullable(p.firstName) + " " + ShowNullable(p.lastName))
    case None =>
      var local := BeforeAt(OrElse(email, ""));
      if local != "" then local else "User"
  }

  /** A profile with two plain names shows them separated by one space. */
  lemma ProfileName(first: string, last: string)
    requires first != [] && !IsSpace(first[0])
    requires last != [] && !IsSpace(last[|last| - 1])
    ensures UserName(Some(Profile(Some(first), Some(last))), None) == first + " " + last
  {
    var s := first + " " + last;
    assert s[0] == first[0] && s[|s| - 1] == last[|last| - 1];
    TrimUnchanged(s);
  }

  /** A null first name is rendered by the template literal: the name then reads "null" and the last name. */
  lemma NullFirstNameShowsNull(last: string, email: Option<string>)
    requires last != [] && !IsSpace(last[|last| - 1])
    ensures UserName(Some(Profile(None, Some(last))), email) == "null " + last
  {
    var s := "null " + last;
    assert s[0] == 'n' && s[|s| - 1] == last[|last| - 1];
    TrimUnchanged(s);
  }

  /** Without a profile, an address with an empty local part (or no address) shows "User". */
  lemma NoLocalPartShowsUser(email: Option<string>)
    requires email.None? || email.value == "" || email.value[0] == '@'
    ensures UserName(None, email) == "User"
  {
  }

  /** `userName.charAt(0)`: the avatar fallback, empty for an empty name. */
  function AvatarFallback(name: string): (r: string)
    ensures |r| == (if name == "" then 0 else 1)
    ensures r == name[..|r|]
  {
    if name == "" then "" else name[..1]
  }
}
