/**
 * The dashboard's top bar: the avatar initials, the display name and the role
 * caption derived from the signed-in user, and the profile menu whose
 * "Logout" entry closes the menu before signing out.
 */
module Topbar {
  import opened Wrappers
  import opened Text
  import opened Browser
  import opened Auth

  const FallbackInitials := "A"
  const FallbackName := "Admin User"
  const AdminLabel := "Admin"
  const UserLabel := "User"

  /** The user has a first or a last name that is present and non-empty. */
  predicate HasName(u: User) {
    Truthy(u.firstName) || Truthy(u.lastName)
  }

  /**
   * `getUserInitials`: "A" without a user; the upper-cased first characters of
   * the first and last names when either is set; else the upper-cased first
   * character of the email.
   */
  function UserInitials(user: Option<User>): (r: string)
    ensures user.None? ==> r == FallbackInitials
    ensures user.Some? && HasName(user.value) ==> 1 <= |r| <= 2
    ensures user.Some? && Truthy(user.value.firstName) ==> r[0] == UpperChar(user.value.firstName.value[0])
    ensures user.Some? && Truthy(user.value.lastName) ==> r[|r| - 1] == UpperChar(user.value.lastName.value[0])
    ensures user.Some? && HasName(user.value) ==>
              |r| == (if Truthy(user.value.firstName) then 1 else 0) + (if Truthy(user.value.lastName) then 1 else 0)
    ensures user.Some? && !HasName(user.value) && user.value.email == "" ==> r == ""
    ensures user.Some? && !HasName(user.value) && user.value.email != "" ==> r == [UpperChar(user.value.email[0])]
  {
    match user
    case None => FallbackInitials
    case Some(u) =>
      var first := Or(u.firstName, "");
      var last := Or(u.lastName, "");
      if first != "" || last != "" then Upper(FirstChar(first) + FirstChar(last))
      else Upper(FirstChar(u.email))
  }

  /** The initials never contain a lower-case ASCII letter: upper-casing them again changes nothing. */
  lemma {:induction false} InitialsAreUpperCase(user: Option<User>)
    ensures Upper(UserInitials(user)) == UserInitials(user)
  {
    var r := UserInitials(user);
    forall i | 0 <= i < |r|
      ensures UpperChar(r[i]) == r[i]
    {
      if user.Some? {
        var u := user.value;
        var base := if HasName(u) then FirstChar(Or(u.firstName, "")) + FirstChar(Or(u.lastName, "")) else FirstChar(u.email);
        assert r == Upper(base);
      }
    }
  }

  /**
   * `getUserName`: "Admin User" without a user; the trimmed "first last" when
   * either name is set; else the part of the email before its first `@`.
   */
  function UserName(user: Option<User>): (r: string)
    ensures user.None? ==> r == FallbackName
    ensures user.Some? && HasName(user.value) ==> r == Trim(Or(user.value.firstName, "") + " " + Or(user.value.lastName, ""))
    ensures user.Some? && HasName(user.value) ==> r == "" || (!IsSpace(r[0]) && !IsSpace(r[|r| - 1]))
    ensures user.Some? && !HasName(user.value) ==>
              '@' !in r && |r| <= |user.value.email| && user.value.email[..|r|] == r
              && (|r| == |user.value.email| || user.value.email[|r|] == '@')
  {
    match user
    case None => FallbackName
    case Some(u) =>
      var first := Or(u.firstName, "");
      var last := Or(u.lastName, "");
      if first != "" || last != "" then Trim(first + " " + last)
      else BeforeFirst(u.email, '@')
  }

  /** Names without surrounding whitespace are shown joined by exactly one space. */
  lemma {:induction false} UserNameJoinsNames(u: User)
    requires Truthy(u.firstName) && Truthy(u.lastName)
    requires !IsSpace(u.firstName.value[0]) && !IsSpace(u.lastName.value[|u.lastName.value| - 1])
    ensures UserName(Some(u)) == u.firstName.value + " " + u.lastName.value
  {
    var s := u.firstName.value + " " + u.lastName.value;
    assert s[0] == u.firstName.value[0];
    assert s[|s| - 1] == u.lastName.value[|u.lastName.value| - 1];
    TrimKeepsUntrimmed(s);
  }

  /** With only a first name, the name is shown without the separating space. */
  lemma {:induction false} UserNameFirstOnly(u: User)
    requires Truthy(u.firstName) && !Truthy(u.lastName)
    requires !IsSpace(u.firstName.value[0]) && !IsSpace(u.firstName.value[|u.firstName.value| - 1])
    ensures UserName(Some(u)) == u.firstName.value
  {
    var f := u.firstName.value;
    var s := f + " ";
    assert Or(u.lastName, "") == "";
    assert f + " " + "" == s;
    assert LeadingSpace(s) == 0;
    assert s[..|s| - 1] == f;
    assert TrailingSpace(f) == 0;
    assert TrailingSpace(s) == 1;
    assert s[0..][..|s| - 1] == f;
  }

  /** The displayed name is blank exactly when the names that are set hold only whitespace. */
  lemma {:induction false} UserNameBlankIffBlankNames(u: User)
    requires HasName(u)
    ensures UserName(Some(u)) == "" <==> AllSpace(Or(u.firstName, "") + " " + Or(u.lastName, ""))
  {
    TrimEmptyIffAllSpace(Or(u.firstName, "") + " " + Or(u.lastName, ""));
  }

  /** The role caption: "Admin" exactly when some role has the `admin` slug. */
  function RoleLabel(user: Option<User>): (r: string)
    ensures r == AdminLabel <==> user.Some? && exists i :: 0 <= i < |user.value.roles| && user.value.roles[i].slug == AdminSlug
    ensures r == AdminLabel || r == UserLabel
  {
    if user.Some? && HasAdminRole(user.value.roles) then AdminLabel else UserLabel
  }

  /** The caption agrees with the authentication context's `isAdmin` flag. */
  lemma RoleLabelMatchesIsAdmin(user: Option<User>)
    ensures RoleLabel(user) == AdminLabel <==> IsAdmin(user)
  {
  }

  /** The profile menu: open while it has an anchor element. */
  class ProfileMenu {
    var open: bool

    constructor ()
      ensures !open
    {
      open := false;
    }

    /** `handleProfileMenuOpen`: anchors the menu on the clicked avatar. */
    method HandleProfileMenuOpen()
      modifies this
      ensures open
    {
      open := true;
    }

    /** `handleMenuClose`: drops the anchor. */
    method HandleMenuClose()
      modifies this
      ensures !open
    {
      open := false;
    }

    /**
     * `handleLogout`: closes the menu, then signs out, which removes both
     * session keys before the browser is sent to the logout page.
     */
    method HandleLogout(auth: AuthProvider)
      modifies this, auth, auth.win
      ensures !open
      ensures auth.win.storage == ClearSession(old(auth.win.storage))
      ensures auth.win.log == old(auth.win.log) + [RemoveItem(AuthTokenKey), RemoveItem(UserDataKey), Assign(LogoutHref)]
      ensures auth.token == None && auth.user == None
      ensures !IsAuthenticated(auth.token, auth.user)
      ensures auth.isLoading == old(auth.isLoading)
    {
      HandleMenuClose();
      auth.Logout();
    }
  }
}
