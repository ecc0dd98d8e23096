/** The client block of src/components/admin/projects/manage/ProjectPointsCard.tsx. */
module ProjectPointsCard {
  import opened Wrappers
  import opened Text

  const NotAvailable := "N/A"

  /** The project's user; every field may be missing. */
  datatype ProjectUser = ProjectUser(
    firstName: Option<string>,
    lastName: Option<string>,
    email: Option<string>,
    phone: Option<string>,
    street: Option<string>,
    street2: Option<string>,
    city: Option<string>,
    state: Option<string>,
    zip: Option<string>)

  /** A project without a user reads every field as missing. */
  function FieldsOf(user: Option<ProjectUser>): ProjectUser {
    user.GetOr(ProjectUser(None, None, None, None, None, None, None, None, None))
  }

  /** The text the client name is trimmed from: `"first last"` with a missing or empty part as "". */
  function NameText(user: Option<ProjectUser>): string {
    OrElse(FieldsOf(user).firstName, "") + " " + OrElse(FieldsOf(user).lastName, "")
  }

  /** The client name: `"first last"` with missing parts as "", trimmed, or "N/A" when that is empty. */
  function ClientName(user: Option<ProjectUser>): (r: string)
    ensures r != ""
    ensures !TruthyOpt(FieldsOf(user).firstName) && !TruthyOpt(FieldsOf(user).lastName) ==> r == NotAvailable
    ensures AllSpace(NameText(user)) ==> r == NotAvailable
    ensures !AllSpace(NameText(user)) ==> TrimmedFrom(r, NameText(user))
  {
    var u := FieldsOf(user);
    var name := Trim(OrElse(u.firstName, "") + " " + OrElse(u.lastName, ""));
    assert !TruthyOpt(u.firstName) && !TruthyOpt(u.lastName) ==> AllSpace(OrElse(u.firstName, "") + " " + OrElse(u.lastName, ""));
    if name != "" then name else NotAvailable
  }

  predicate Tidy(s: string) {
    s != "" && !IsSpace(s[0]) && !IsSpace(s[|s| - 1])
  }

  lemma TrimTrailingSpace(s: string)
    requires Tidy(s)
    ensures Trim(s + " ") == s
  {
    assert TrimStart(s + " ") == s + " ";
    assert (s + " ")[..|s|] == s;
    assert TrimEnd(s + " ") == TrimEnd(s);
    TrimUnchanged(s);
  }

  lemma TrimLeadingSpace(s: string)
    requires Tidy(s)
    ensures Trim(" " + s) == s
  {
    assert (" " + s)[1..] == s;
    assert TrimStart(" " + s) == TrimStart(s);
    TrimUnchanged(s);
  }

  /** Names without stray spaces show as one "first last", or alone with no dangling space. */
  lemma ClientNameParts(u: ProjectUser)
    requires u.firstName.Some? ==> Tidy(u.firstName.value) || u.firstName.value == ""
    requires u.lastName.Some? ==> Tidy(u.lastName.value) || u.lastName.value == ""
    ensures TruthyOpt(u.firstName) && TruthyOpt(u.lastName) ==> ClientName(Some(u)) == u.firstName.value + " " + u.lastName.value
    ensures TruthyOpt(u.firstName) && !TruthyOpt(u.lastName) ==> ClientName(Some(u)) == u.firstName.value
    ensures !TruthyOpt(u.firstName) && TruthyOpt(u.lastName) ==> ClientName(Some(u)) == u.lastName.value
  {
    var f := OrElse(u.firstName, "");
    var l := OrElse(u.lastName, "");
    if TruthyOpt(u.firstName) && TruthyOpt(u.lastName) {
      TrimUnchanged(f + " " + l);
    } else if TruthyOpt(u.firstName) {
      assert f + " " + l == f + " ";
      TrimTrailingSpace(f);
    } else if TruthyOpt(u.lastName) {
      assert f + " " + l == " " + l;
      TrimLeadingSpace(l);
    }
  }

  /** The e-mail line: "N/A" for a missing or empty e-mail. */
  function EmailLine(user: Option<ProjectUser>): (r: string)
    ensures r != ""
    ensures TruthyOpt(FieldsOf(user).email) ==> r == FieldsOf(user).email.value
    ensures !TruthyOpt(FieldsOf(user).email) ==> r == NotAvailable
  {
    OrElse(FieldsOf(user).email, NotAvailable)
  }

  /** The phone line: "N/A" for a missing or empty phone. */
  function PhoneLine(user: Option<ProjectUser>): (r: string)
    ensures r != ""
    ensures TruthyOpt(FieldsOf(user).phone) ==> r == FieldsOf(user).phone.value
    ensures !TruthyOpt(FieldsOf(user).phone) ==> r == NotAvailable
  {
    OrElse(FieldsOf(user).phone, NotAvailable)
  }

  /** The four address parts shown, in order; the second street line is not among them. */
  function AddressParts(u: ProjectUser): seq<Option<string>> {
    [u.street, u.city, u.state, u.zip]
  }

  /** The address line: the present parts joined by ", ", or "N/A" when none is present. */
  function AddressLine(user: Option<ProjectUser>): (r: string)
    ensures r != ""
    ensures r == NotAvailable || r == JoinPresent(AddressParts(FieldsOf(user)), ", ")
  {
    var joined := JoinPresent(AddressParts(FieldsOf(user)), ", ");
    if joined != "" then joined else NotAvailable
  }

  /** The address is "N/A" when all four parts are missing, and otherwise their join. */
  lemma AddressNotAvailableIff(user: Option<ProjectUser>)
    ensures var u := FieldsOf(user);
      (forall i :: 0 <= i < 4 ==> !TruthyOpt(AddressParts(u)[i])) ==> AddressLine(user) == NotAvailable
    ensures var u := FieldsOf(user);
      (exists i :: 0 <= i < 4 && TruthyOpt(AddressParts(u)[i])) ==> AddressLine(user) == JoinPresent(AddressParts(u), ", ")
  {
    JoinPresentEmptyIff(AddressParts(FieldsOf(user)), ", ");
  }

  /** The second street line never changes the address shown. */
  lemma Street2Ignored(u: ProjectUser, street2: Option<string>)
    ensures AddressLine(Some(u.(street2 := street2))) == AddressLine(Some(u))
  {
  }
}
