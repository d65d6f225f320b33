/** The owner portal's shell (owner-portal/src/App.tsx): the header's
    greeting, avatar and verification badge, the sign-in state read back
    from `localStorage`, and logging out. */
module OwnerApp {
  import opened Common
  import opened Browser
  import opened Sessions

  /** `` `${firstName || ''} ${lastName || ''}`.trim() ``: both names
      around one space, or the one that is there, with surrounding white
      space dropped. */
  function OwnerName(user: Option<OwnerAccount>): (r: string)
    ensures IsTrimmed(r)
    ensures user.None? ==> r == ""
    ensures user.Some? && !Present(user.value.firstName) && !Present(user.value.lastName) ==> r == ""
    ensures user.Some? && !Present(user.value.lastName) ==> r == Trim(OrElse(user.value.firstName, ""))
    ensures user.Some? && !Present(user.value.firstName) ==> r == Trim(OrElse(user.value.lastName, ""))
    ensures user.Some? && Present(user.value.firstName) && Present(user.value.lastName)
              && IsTrimmed(user.value.firstName.value) && IsTrimmed(user.value.lastName.value) ==>
              r == user.value.firstName.value + " " + user.value.lastName.value
  {
    var first := if user.Some? then OrElse(user.value.firstName, "") else "";
    var last := if user.Some? then OrElse(user.value.lastName, "") else "";
    assert first + " " == first + " " + "";
    assert " " + last == "" + " " + last;
    TrimPadRight(first);
    TrimPadLeft(last);
    TrimJoinTrimmed(first, last);
    Trim(first + " " + last)
  }

  /** The e-mail text before its first `'@'` (all of it without one). */
  function MailboxName(email: string): (r: string)
    ensures |r| <= |email| && r == email[..|r|]
    ensures '@' !in r
    ensures |r| < |email| ==> email[|r|] == '@'
  {
    if email == [] || email[0] == '@' then "" else [email[0]] + MailboxName(email[1..])
  }

  function EmailOf(user: Option<OwnerAccount>): Option<string> {
    if user.Some? then user.value.email else None
  }

  function CompanyOf(profile: Option<OwnerProfileInfo>): Option<string> {
    if profile.Some? then Some(profile.value.companyName) else None
  }

  /** The avatar letter: the upper-cased first character of the owner's
      name, else of the e-mail, else of the company name, else `'T'`. */
  function Avatar(profile: Option<OwnerProfileInfo>, user: Option<OwnerAccount>): (r: string)
    ensures |r| == 1
    ensures OwnerName(user) != "" ==> r == [UpperChar(OwnerName(user)[0])]
    ensures OwnerName(user) == "" && Present(EmailOf(user)) ==> r == [UpperChar(EmailOf(user).value[0])]
    ensures OwnerName(user) == "" && !Present(EmailOf(user)) && Present(CompanyOf(profile)) ==>
              r == [UpperChar(CompanyOf(profile).value[0])]
    ensures OwnerName(user) == "" && !Present(EmailOf(user)) && !Present(CompanyOf(profile)) ==> r == "T"
  {
    var name := OwnerName(user);
    var email := EmailOf(user);
    var company := CompanyOf(profile);
    var source := if name != "" then name else if Present(email) then email.value else if Present(company) then company.value else "T";
    [UpperChar(source[0])]
  }

  /** The name in "Welcome Back, …": the owner's name, else the e-mail's
      mailbox part, else the company name, else `'Travel Owner'`. */
  function WelcomeName(profile: Option<OwnerProfileInfo>, user: Option<OwnerAccount>): (r: string)
    ensures r != ""
    ensures OwnerName(user) != "" ==> r == OwnerName(user)
    ensures OwnerName(user) == "" && Present(EmailOf(user)) && MailboxName(EmailOf(user).value) != "" ==>
              r == MailboxName(EmailOf(user).value)
    ensures OwnerName(user) == "" && (!Present(EmailOf(user)) || MailboxName(EmailOf(user).value) == "") ==>
              r == OrElse(CompanyOf(profile), "Travel Owner")
  {
    var name := OwnerName(user);
    var email := EmailOf(user);
    var mailbox := if email.Some? then MailboxName(email.value) else "";
    if name != "" then name else if mailbox != "" then mailbox else OrElse(CompanyOf(profile), "Travel Owner")
  }

  /** The company line: the company name, else the owner's name, else
      `'Travel Agency'`. */
  function CompanyLine(profile: Option<OwnerProfileInfo>, user: Option<OwnerAccount>): (r: string)
    ensures r != ""
    ensures Present(CompanyOf(profile)) ==> r == profile.value.companyName
    ensures !Present(CompanyOf(profile)) && OwnerName(user) != "" ==> r == OwnerName(user)
    ensures !Present(CompanyOf(profile)) && OwnerName(user) == "" ==> r == "Travel Agency"
  {
    var company := CompanyOf(profile);
    var name := OwnerName(user);
    if Present(company) then company.value else if name != "" then name else "Travel Agency"
  }

  /** The badge under the company line: "Verified" exactly for a profile
      the admin verified, "Pending Verification" for any other profile and
      when there is none. */
  function VerificationBadge(profile: Option<OwnerProfileInfo>): (r: string)
    ensures r == "Verified" || r == "Pending Verification"
    ensures r == "Verified" <==> profile.Some? && profile.value.verifiedByAdmin
    ensures profile.None? ==> r == "Pending Verification"
  {
    if profile.Some? && profile.value.verifiedByAdmin then "Verified" else "Pending Verification"
  }

  /** The stand-in owner's name is "Demo Owner". */
  lemma DemoOwnerName(email: Option<string>, mobile: Option<string>)
    ensures OwnerName(Some(DummyUser(email, mobile))) == "Demo Owner"
  {
    var u := DummyUser(email, mobile);
    var joined := "Demo" + " " + "Owner";
    assert OrElse(u.firstName, "") == "Demo" && OrElse(u.lastName, "") == "Owner";
    assert joined == "Demo Owner";
    assert IsTrimmed(joined);
    TrimOfTrimmed(joined);
  }

  /** The stand-in owner of an offline sign-in is greeted as "Demo Owner",
      shows "D" and carries the Verified badge. */
  lemma DemoOwnerHeader(email: Option<string>, mobile: Option<string>)
    ensures var u := DummyUser(email, mobile);
      && WelcomeName(u.ownerProfile, Some(u)) == "Demo Owner"
      && Avatar(u.ownerProfile, Some(u)) == "D"
      && VerificationBadge(u.ownerProfile) == "Verified"
  {
    DemoOwnerName(email, mobile);
    assert "Demo Owner"[0] == 'D';
    assert UpperChar('D') == 'D';
  }

  /** The keys logging out removes. */
  const SessionKeys: set<string> := {"isLoggedIn", OwnerProfileKey, OwnerTokenKey, OwnerUserKey}

  /** The shell's state. */
  class Shell {
    var isLoggedIn: bool
    var profile: Option<OwnerProfileInfo>
    var ownerUser: Option<OwnerAccount>

    constructor ()
      ensures !isLoggedIn && profile.None? && ownerUser.None?
    {
      isLoggedIn := false;
      profile := None;
      ownerUser := None;
    }

    /** The sign-in effect: signed in exactly when `isLoggedIn` is stored as
        `'true'`; only then are the stored profile and user read, each when
        it is stored non-empty, a user that does not parse being skipped. */
    method LoadFromStorage(store: Storage, parseProfile: string -> OwnerProfileInfo,
                           parseUser: string -> Option<OwnerAccount>)
      modifies this
      ensures isLoggedIn <==> store.GetItem("isLoggedIn") == Some("true")
      ensures var stored := store.GetItem(OwnerProfileKey);
        profile == if isLoggedIn && Present(stored) then Some(parseProfile(stored.value)) else old(profile)
      ensures var stored := store.GetItem(OwnerUserKey);
        ownerUser == if isLoggedIn && Present(stored) && parseUser(stored.value).Some? then parseUser(stored.value) else old(ownerUser)
    {
      isLoggedIn := store.GetItem("isLoggedIn") == Some("true");
      if isLoggedIn {
        var storedProfile := store.GetItem(OwnerProfileKey);
        var storedUser := store.GetItem(OwnerUserKey);
        if Present(storedProfile) {
          profile := Some(parseProfile(storedProfile.value));
        }
        if Present(storedUser) {
          var parsed := parseUser(storedUser.value);
          if parsed.Some? {
            ownerUser := parsed;
          }
        }
      }
    }

    /** `handleLogout` with the shell's `onLogout`: the four session keys
        are removed and nothing else, and the shell forgets the owner, so
        reading the store back finds no one signed in. */
    method Logout(store: Storage)
      modifies this, store
      ensures store.items == old(store.items) - SessionKeys
      ensures forall k :: k in old(store.items) && k !in SessionKeys ==> k in store.items && store.items[k] == old(store.items)[k]
      ensures store.GetItem("isLoggedIn").None? && !Cached(store.items, OwnerTokenKey, OwnerUserKey)
      ensures !isLoggedIn && profile.None? && ownerUser.None?
    {
      store.RemoveItem("isLoggedIn");
      store.RemoveItem(OwnerProfileKey);
      store.RemoveItem(OwnerTokenKey);
      store.RemoveItem(OwnerUserKey);
      isLoggedIn := false;
      profile := None;
      ownerUser := None;
    }
  }
}
