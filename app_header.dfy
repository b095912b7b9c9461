/**
 * The application header: the breadcrumb derived from the current location,
 * the navigation menu, the user name, and the logout button with its
 * in-flight flag.
 */
module AppHeader {
  import opened Wrappers
  import opened Session

  // ----- breadcrumb -----

  datatype Section = Inbound | Outbound
  datatype SubSection = Customers | Staffs

  /** `s.startsWith(p)`: `p` is at least as short as `s` and agrees with it character by character. */
  predicate StartsWith(s: string, p: string)
    ensures StartsWith(s, p) <==> |p| <= |s| && forall i :: 0 <= i < |p| ==> s[i] == p[i]
  {
    |p| <= |s| && s[..|p|] == p
  }

  /** `s.includes(p)`, searched from the front. */
  predicate Includes(s: string, p: string)
    ensures Includes(s, p) ==> |p| <= |s|
    ensures StartsWith(s, p) ==> Includes(s, p)
    decreases |s|
  {
    StartsWith(s, p) || (|s| > 0 && Includes(s[1..], p))
  }

  /** `p` occurs in `s` exactly when some suffix of `s` starts with it. */
  lemma {:induction false} IncludesAt(s: string, p: string)
    ensures Includes(s, p) <==> exists i :: 0 <= i <= |s| && StartsWith(s[i..], p)
    decreases |s|
  {
    assert s[0..] == s;
    if |s| > 0 {
      IncludesAt(s[1..], p);
      if Includes(s[1..], p) {
        var i :| 0 <= i <= |s[1..]| && StartsWith(s[1..][i..], p);
        assert s[i + 1..] == s[1..][i..];
      }
      if exists i :: 0 <= i <= |s| && StartsWith(s[i..], p) {
        var i :| 0 <= i <= |s| && StartsWith(s[i..], p);
        if i > 0 {
          assert s[1..][i - 1..] == s[i..];
          assert StartsWith(s[1..][i - 1..], p);
        }
      }
    }
  }

  /** A text lacking one of the characters of `p` does not include `p`. */
  lemma {:induction false} MissingCharNotIncluded(s: string, p: string, k: nat)
    requires k < |p| && forall j :: 0 <= j < |s| ==> s[j] != p[k]
    ensures !Includes(s, p)
    decreases |s|
  {
    if |p| <= |s| {
      assert s[..|p|][k] == s[k] != p[k];
    }
    if |s| > 0 {
      MissingCharNotIncluded(s[1..], p, k);
    }
  }

  /** The section shown in the breadcrumb: Outbound only under "/outbound". */
  function CurrentSection(location: string): (r: Section)
    ensures r == Outbound <==> StartsWith(location, "/outbound")
  {
    if StartsWith(location, "/outbound") then Outbound else Inbound
  }

  /** The subsection shown in the breadcrumb: Customers wherever "/customers" occurs. */
  function CurrentSubSection(location: string): (r: SubSection)
    ensures r == Customers <==>
              exists i :: 0 <= i <= |location| && StartsWith(location[i..], "/customers")
  {
    IncludesAt(location, "/customers");
    if Includes(location, "/customers") then Customers else Staffs
  }

  // ----- navigation menu -----

  /** The four menu entries: a section dropdown and one of its two items. */
  datatype MenuItem = MenuItem(section: Section, sub: SubSection)

  /** The location each menu item navigates to: its section's prefix, then its subsection. */
  function MenuTarget(m: MenuItem): (t: string)
    ensures m.section == Inbound ==> StartsWith(t, "/inbound/")
    ensures m.section == Outbound ==> StartsWith(t, "/outbound/")
    ensures m.sub == Customers ==> |t| >= 10 && t[|t| - 10..] == "/customers"
    ensures m.sub == Staffs ==> |t| >= 7 && t[|t| - 7..] == "/staffs"
  {
    match m
    case MenuItem(Inbound, Customers) => "/inbound/customers"
    case MenuItem(Inbound, Staffs) => "/inbound/staffs"
    case MenuItem(Outbound, Customers) => "/outbound/customers"
    case MenuItem(Outbound, Staffs) => "/outbound/staffs"
  }

  /** After choosing a menu item, the breadcrumb names that item. */
  lemma MenuBreadcrumb(m: MenuItem)
    ensures CurrentSection(MenuTarget(m)) == m.section
    ensures CurrentSubSection(MenuTarget(m)) == m.sub
  {
    MenuSection(m);
    if m.sub == Staffs {
      NoCustomersInStaffs(m.section);
    } else {
      CustomersInCustomers(m.section);
    }
  }

  lemma MenuSection(m: MenuItem)
    ensures StartsWith(MenuTarget(m), "/outbound") <==> m.section == Outbound
  {
    var t := MenuTarget(m);
    if m.section == Inbound {
      assert t[1] == 'i' != "/outbound"[1];
    } else {
      assert t[..9] == "/outbound";
    }
  }

  lemma CustomersInCustomers(section: Section)
    ensures Includes(MenuTarget(MenuItem(section, Customers)), "/customers")
  {
    var t := MenuTarget(MenuItem(section, Customers));
    IncludesAt(t, "/customers");
    assert t[|t| - 10..] == "/customers";
  }

  lemma NoCustomersInStaffs(section: Section)
    ensures !Includes(MenuTarget(MenuItem(section, Staffs)), "/customers")
  {
    var t := MenuTarget(MenuItem(section, Staffs));
    assert forall j :: 0 <= j < |t| ==> t[j] != 'c';
    assert "/customers"[1] == 'c';
    MissingCharNotIncluded(t, "/customers", 1);
  }

  /** A location outside both menus, such as "/analytics", shows "Inbound / Staffs". */
  lemma AnalyticsBreadcrumb()
    ensures CurrentSection("/analytics") == Inbound
    ensures CurrentSubSection("/analytics") == Staffs
  {
    var t := "/analytics";
    assert t[1] == 'a' != "/outbound"[1];
    assert forall j :: 0 <= j < |t| ==> t[j] != 'u';
    assert "/customers"[2] == 'u';
    MissingCharNotIncluded(t, "/customers", 2);
  }

  // ----- user name -----

  /** `session?.user && session.user.username`: shown only when the cached session has a user. */
  function ShownUsername(session: Option<SessionResponse>): (name: Option<string>)
    ensures name.Some? <==> session.Some? && session.value.user.Some?
    ensures name.Some? ==> name.value == session.value.user.value.username
  {
    if session.Some? && session.value.user.Some? then Some(session.value.user.value.username)
    else None
  }

  // ----- logout -----

  /** A toast as the header emits it. */
  datatype Toast = Toast(title: string, description: string, destructive: bool)

  const LoggedOutToast := Toast("Logged out", "You have been successfully logged out", false)
  const LogoutFailedToast := Toast("Logout failed", "An error occurred while logging out", true)

  /**
   * The logout part of the header's state: the `isLoggingOut` flag, how often
   * the session query has been invalidated, and the toasts emitted so far.
   * The awaited request is split into a press event and one completion event.
   */
  class LogoutController {
    var isLoggingOut: bool
    var sessionInvalidations: nat
    var toasts: seq<Toast>

    constructor ()
      ensures !isLoggingOut && sessionInvalidations == 0 && toasts == []
    {
      isLoggingOut := false;
      sessionInvalidations := 0;
      toasts := [];
    }

    /** The button is disabled while a logout is in flight. */
    predicate ButtonDisabled()
      reads this
    {
      isLoggingOut
    }

    /** The button text; it reads "Logging out..." exactly while the button is disabled. */
    function ButtonLabel(): (text: string)
      reads this
      ensures text == "Logging out..." <==> ButtonDisabled()
      ensures text == "Logout" <==> !ButtonDisabled()
    {
      if isLoggingOut then "Logging out..." else "Logout"
    }

    /**
     * A press of the logout button. A disabled button ignores the press; an
     * enabled one starts `handleLogout`, which first raises the flag.
     */
    method PressLogout() returns (started: bool)
      modifies this`isLoggingOut
      ensures started == !old(isLoggingOut)
      ensures isLoggingOut
      ensures sessionInvalidations == old(sessionInvalidations) && toasts == old(toasts)
    {
      started := !isLoggingOut;
      if started {
        isLoggingOut := true;
      }
    }

    /** The logout request succeeded: invalidate the session query, toast, clear the flag. */
    method LogoutSucceeded()
      requires isLoggingOut
      modifies this
      ensures !isLoggingOut
      ensures sessionInvalidations == old(sessionInvalidations) + 1
      ensures toasts == old(toasts) + [LoggedOutToast]
    {
      sessionInvalidations := sessionInvalidations + 1;
      toasts := toasts + [LoggedOutToast];
      isLoggingOut := false;
    }

    /** The logout request failed: a destructive toast only, then clear the flag. */
    method LogoutFailed()
      requires isLoggingOut
      modifies this
      ensures !isLoggingOut
      ensures sessionInvalidations == old(sessionInvalidations)
      ensures toasts == old(toasts) + [LogoutFailedToast]
    {
      toasts := toasts + [LogoutFailedToast];
      isLoggingOut := false;
    }
  }

  /**
   * One logout from a fresh header, with a second press while the request is
   * in flight: the second press does nothing, the session query is
   * invalidated only on success, exactly one toast tells the outcome, and the
   * button is enabled again either way.
   */
  method LogoutOnce(succeeds: bool)
    returns (secondStarted: bool, invalidations: nat, shown: seq<Toast>, labelAfter: string)
    ensures !secondStarted
    ensures invalidations == if succeeds then 1 else 0
    ensures shown == [if succeeds then LoggedOutToast else LogoutFailedToast]
    ensures labelAfter == "Logout"
  {
    var header := new LogoutController();
    var started := header.PressLogout();
    assert header.ButtonLabel() == "Logging out...";
    secondStarted := header.PressLogout();
    if succeeds {
      header.LogoutSucceeded();
    } else {
      header.LogoutFailed();
    }
    invalidations := header.sessionInvalidations;
    shown := header.toasts;
    labelAfter := header.ButtonLabel();
  }
}
