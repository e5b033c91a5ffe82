/** The access policy as the routers apply it, across files: how the exact
    role check of the task router and the case-insensitive one of the sales
    router compare, and what a session issued at login lets its holder do. */
module AccessPolicy {
  import opened Common
  import opened Tables
  import UserServices
  import CompanyRouter
  import TaskRouter
  import SalesRouter

  /** The role strings admin_required accepts are exactly the upper/lower
      case spellings of "admin". */
  lemma SalesAdminSpellings(role: string)
    ensures SalesRouter.IsSalesAdmin(role) <==>
            && |role| == 5
            && (role[0] == 'a' || role[0] == 'A') && (role[1] == 'd' || role[1] == 'D')
            && (role[2] == 'm' || role[2] == 'M') && (role[3] == 'i' || role[3] == 'I')
            && (role[4] == 'n' || role[4] == 'N')
  {
    var low := SalesRouter.Lower(role);
    if |role| == 5 {
      if low == "admin" {
        assert low[0] == 'a' && low[1] == 'd' && low[2] == 'm' && low[3] == 'i' && low[4] == 'n';
      } else {
        var k :| 0 <= k < 5 && low[k] != "admin"[k];
        assert SalesRouter.LowerChar(role[k]) != "admin"[k];
      }
    }
  }

  /** Whoever passes the task router's guard passes admin_required... */
  lemma TaskAdminIsSalesAdmin(caller: TokenData)
    requires TaskRouter.IsTaskAdmin(caller.role)
    ensures SalesRouter.AdminRequired(caller).Ok?
    ensures SalesRouter.AdminRequiredAsWritten(caller).Ok?
  {
    SalesAdminSpellings("Admin");
  }

  /** ...but not the other way round: "ADMIN" and "admin" open the sales
      endpoints and none of the task mutations. */
  lemma SalesGuardIsWeaker(email: Email, companyId: Option<nat>)
    ensures SalesRouter.AdminRequired(TokenData(email, companyId, Some("ADMIN"))).Ok?
    ensures SalesRouter.AdminRequired(TokenData(email, companyId, Some("admin"))).Ok?
    ensures SalesRouter.AdminRequiredAsWritten(TokenData(email, companyId, Some("ADMIN"))).Ok?
    ensures !TaskRouter.IsTaskAdmin(Some("ADMIN")) && !TaskRouter.IsTaskAdmin(Some("admin"))
  {
    SalesAdminSpellings("ADMIN");
    SalesAdminSpellings("admin");
    assert "ADMIN"[1] != "Admin"[1];
    assert "admin"[0] != "Admin"[0];
  }

  /** A session issued at login opens the task and sales mutations exactly
      when the user's first membership row has role Admin, and "Member" is
      refused by both guards. */
  lemma LoginRoleDecidesGuards(users: seq<User>, members: seq<CompanyMember>,
                               form: UserServices.LoginForm, h: UserServices.Hasher)
    requires UserServices.AuthenticateUser(users, members, form, h).Ok?
    ensures var s := UserServices.AuthenticateUser(users, members, form, h).value;
            var row := FirstMembership(members, form.username);
            && (TaskRouter.IsTaskAdmin(s.role) <==> row.Some? && row.value.role == Admin)
            && (SalesRouter.AdminRequired(s).Ok? <==> row.Some? && row.value.role == Admin)
            && (SalesRouter.AdminRequiredAsWritten(s).Ok? <==> row.Some? && row.value.role == Admin)
  {
    SalesAdminSpellings("Admin");
    SalesAdminSpellings("Member");
  }

  /** A user who logs in without any membership row gets a session without
      a role, so admin_required as written answers every sales request with
      500 and the corrected guard with 403. */
  lemma LoginWithoutMembershipBreaksSales(users: seq<User>, members: seq<CompanyMember>,
                                          form: UserServices.LoginForm, h: UserServices.Hasher)
    requires UserServices.AuthenticateUser(users, members, form, h).Ok?
    requires FirstMembership(members, form.username).None?
    ensures var s := UserServices.AuthenticateUser(users, members, form, h).value;
            && SalesRouter.AdminRequiredAsWritten(s) == Err(SalesRouter.NoneRoleAttributeError)
            && SalesRouter.AdminRequired(s) == Err(SalesRouter.AdminsOnly)
  {
  }

  /** The invitation handlers agree while the session is fresh: the row
      they look up for the token's company is the user's first membership
      row, so a user whose first row is Admin may issue invitations. */
  lemma LoginAdminMayInvite(users: seq<User>, members: seq<CompanyMember>,
                            form: UserServices.LoginForm, h: UserServices.Hasher)
    requires UserServices.AuthenticateUser(users, members, form, h).Ok?
    requires FirstMembership(members, form.username).Some? && FirstMembership(members, form.username).value.role == Admin
    ensures CompanyRouter.IsTokenCompanyAdmin(members, UserServices.AuthenticateUser(users, members, form, h).value)
  {
    var s := UserServices.AuthenticateUser(users, members, form, h).value;
    var m := FirstMembership(members, form.username).value;
    var k :| 0 <= k < |members| && members[k] == m &&
             forall i :: 0 <= i < k ==> members[i].userId != form.username;
    var row := CompanyRouter.TokenCompanyRow(members, s);
    assert row.Some? by {
      assert members[k].userId == s.email && members[k].companyId == s.companyId.value;
    }
  }
}
