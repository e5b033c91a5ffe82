/** `company_router.py`: founding a company, issuing and redeeming
    invitations, reading and updating the company, and listing its members.
    Every handler that commits rows is a method on the Database; the guards
    and the row a redemption would insert are functions of the tables. */
module CompanyRouter {
  import opened Common
  import opened Tables

  /** `timedelta(hours=24)`: how long an invitation token is valid. */
  const InvitationValidityHours: nat := 24

  /** The claims of a decoded invitation token; a key the issuer did not
      put in the payload is absent. */
  datatype InvitationClaims = InvitationClaims(
    newMemberEmail: Option<Email>,
    companyId: Option<nat>,
    role: Option<MemberRole>,
    position: Option<string>)

  /** `schema.InvitationToken`: the payload as join_company_via_invite
      validates it. */
  datatype InvitationToken = InvitationToken(companyId: nat, role: MemberRole, position: string)

  const AlreadyInCompany := HttpError(Forbidden, "You already own or belong to a company. You cannot create another one.")
  const NotAdmin := HttpError(Forbidden, "Only Admins can generate invite links.")
  const AlreadyMember := HttpError(Forbidden, "You are already a member of a company.")
  const InvalidInvitation := HttpError(Forbidden, "Invalid or expired invitation token.")
  const MalformedInvitation := HttpError(InternalError, "payload does not validate as InvitationToken")
  const UnknownCompany := HttpError(NotFound, "Company does not exist.")
  const NotAssociated := HttpError(Forbidden, "You are not associated with this company.")
  const NoCompany := HttpError(Forbidden, "You are not associated with any company.")
  const TargetAlreadyMember := HttpError(BadRequest, "User is already a member of the company.")
  const BadInvitationLink := HttpError(BadRequest, "Invalid or expired invitation token.")
  const IncompleteRow := HttpError(InternalError, "CompanyMember row without user_id or company_id")

  // ---------------------------------------------------------------------
  // create_company

  /** `create_company`: a caller with any membership row is refused with 403
      and no table changes; otherwise one Company owned by the caller is
      added under a fresh id, with one founding row {caller, id, Admin,
      "Founder"}. The two commits of the source are one step here. */
  method CreateCompany(db: Database, caller: TokenData, info: CompanyInfo) returns (r: Result<string>)
    requires db.Valid()
    modifies db`companies, db`members, db`nextCompanyId
    ensures db.Valid()
    ensures FirstMembership(old(db.members), caller.email).Some? ==>
              && r == Err(AlreadyInCompany)
              && db.companies == old(db.companies) && db.members == old(db.members)
              && db.nextCompanyId == old(db.nextCompanyId)
    ensures FirstMembership(old(db.members), caller.email).None? ==>
              var id := old(db.nextCompanyId);
              && r == Ok("Company created successfully")
              && id !in old(db.companies)
              && db.companies == old(db.companies)[id := Company(id, caller.email, info)]
              && db.members == old(db.members) + [CompanyMember(caller.email, id, Admin, "Founder")]
              && db.nextCompanyId == id + 1
    ensures SingleMembership(old(db.members)) ==> SingleMembership(db.members)
  {
    if FirstMembership(db.members, caller.email).Some? {
      return Err(AlreadyInCompany);
    }
    var id := db.nextCompanyId;
    db.companies := db.companies[id := Company(id, caller.email, info)];
    db.nextCompanyId := id + 1;
    AppendPreservesSingleMembership(db.members, CompanyMember(caller.email, id, Admin, "Founder"));
    db.members := db.members + [CompanyMember(caller.email, id, Admin, "Founder")];
    r := Ok("Company created successfully");
  }

  // ---------------------------------------------------------------------
  // create_invitation_link and send_invitation_link

  /** The row the admin check of both invitation handlers finds: the
      caller's first row for the company named in the session token. */
  function TokenCompanyRow(members: seq<CompanyMember>, caller: TokenData): (r: Option<CompanyMember>)
    ensures r.Some? ==> r.value.userId == caller.email && caller.companyId == Some(r.value.companyId)
    ensures r.Some? ==> exists k :: 0 <= k < |members| && members[k] == r.value &&
                                     forall i :: 0 <= i < k ==>
                                       !(members[i].userId == caller.email && members[i].companyId == r.value.companyId)
    ensures r.None? <==> caller.companyId.None? ||
                         forall i :: 0 <= i < |members| ==>
                           !(members[i].userId == caller.email && members[i].companyId == caller.companyId.value)
  {
    match caller.companyId
    case None => None
    case Some(c) => FirstMembershipIn(members, caller.email, c)
  }

  /** `not member or member.role != ADMIN` fails: the caller passes exactly
      when the token names a company and the caller's first row for it has
      role Admin. A later Admin row for the same company does not help. */
  function IsTokenCompanyAdmin(members: seq<CompanyMember>, caller: TokenData): (b: bool)
    ensures b <==> caller.companyId.Some? &&
                   exists k :: 0 <= k < |members| && IsFirstRowFor(members, k, caller.email, caller.companyId.value) &&
                               members[k].role == Admin
  {
    var row := TokenCompanyRow(members, caller);
    if row.Some? then
      var k :| 0 <= k < |members| && members[k] == row.value &&
               forall i :: 0 <= i < k ==>
                 !(members[i].userId == caller.email && members[i].companyId == row.value.companyId);
      FirstRowUnique(members, k, caller.email, caller.companyId.value);
      row.value.role == Admin
    else
      false
  }

  /** Row `k` is the first row of user `email` for company `companyId`. */
  ghost predicate IsFirstRowFor(members: seq<CompanyMember>, k: nat, email: Email, companyId: nat) {
    && k < |members|
    && members[k].userId == email && members[k].companyId == companyId
    && forall i :: 0 <= i < k ==> !(members[i].userId == email && members[i].companyId == companyId)
  }

  /** Only one row can be the first. */
  lemma FirstRowUnique(members: seq<CompanyMember>, k: nat, email: Email, companyId: nat)
    requires IsFirstRowFor(members, k, email, companyId)
    ensures forall j :: 0 <= j < |members| && IsFirstRowFor(members, j, email, companyId) ==> j == k
  {
  }

  /** The payload of a generic invitation. */
  function GenericInvitation(companyId: nat): InvitationClaims {
    InvitationClaims(None, Some(companyId), Some(Member), Some("Employee"))
  }

  const JoinPath := "/company/invitation/join?token="

  /** The `token` query parameter of a generic invitation link, read back:
      whatever follows the join path under the prefix. */
  function TokenOfLink(apiPrefix: string, link: string): (r: Option<string>)
    ensures r.Some? ==> link == apiPrefix + JoinPath + r.value
  {
    var head := apiPrefix + JoinPath;
    if |head| <= |link| && link[..|head|] == head then
      assert link == link[..|head|] + link[|head|..];
      Some(link[|head|..])
    else None
  }

  /** The generic invitation link handed back to the admin; it carries
      exactly the token it is built from. */
  function JoinLink(apiPrefix: string, token: string): (link: string)
    ensures TokenOfLink(apiPrefix, link) == Some(token)
  {
    var head := apiPrefix + JoinPath;
    assert (head + token)[..|head|] == head;
    assert (head + token)[|head|..] == token;
    head + token
  }

  /** `create_invitation_link`: only an Admin row for the token's company
      passes (403 otherwise). The signed payload is always that company with
      role Member and position "Employee", valid for 24 hours; `encode` is the
      token signer. */
  function CreateInvitationLink(members: seq<CompanyMember>, caller: TokenData, apiPrefix: string,
                                encode: (InvitationClaims, nat) -> string): (r: Result<string>)
    ensures r.Ok? <==> IsTokenCompanyAdmin(members, caller)
    ensures r.Err? ==> r.error == NotAdmin
    ensures r.Ok? ==> TokenOfLink(apiPrefix, r.value) ==
                      Some(encode(GenericInvitation(caller.companyId.value), InvitationValidityHours))
  {
    if !IsTokenCompanyAdmin(members, caller) then Err(NotAdmin)
    else
      var row := TokenCompanyRow(members, caller).value;
      var token := encode(GenericInvitation(row.companyId), InvitationValidityHours);
      Ok(JoinLink(apiPrefix, token))
  }

  /** What `send_invitation_link` signs and mails: the payload, its
      validity and the one recipient. */
  datatype SentInvitation = SentInvitation(recipient: Email, claims: InvitationClaims, validityHours: nat)

  /** `send_invitation_link`, without the mail: Admin of the token's company
      (403 otherwise); a target who already has any membership row is refused
      with 400; otherwise the 24-hour payload names the target, the admin's
      company, role Member and position "Employee". */
  function SendInvitationLink(members: seq<CompanyMember>, caller: TokenData, email: Email): (r: Result<SentInvitation>)
    ensures !IsTokenCompanyAdmin(members, caller) ==> r == Err(NotAdmin)
    ensures IsTokenCompanyAdmin(members, caller) && FirstMembership(members, email).Some? ==> r == Err(TargetAlreadyMember)
    ensures r.Ok? <==> IsTokenCompanyAdmin(members, caller) && FirstMembership(members, email).None?
    ensures r.Ok? ==> r.value.recipient == email && r.value.validityHours == InvitationValidityHours
    ensures r.Ok? ==> r.value.claims ==
                      InvitationClaims(Some(email), caller.companyId, Some(Member), Some("Employee"))
  {
    if !IsTokenCompanyAdmin(members, caller) then Err(NotAdmin)
    else if FirstMembership(members, email).Some? then Err(TargetAlreadyMember)
    else
      var row := TokenCompanyRow(members, caller).value;
      Ok(SentInvitation(email,
                        InvitationClaims(Some(email), Some(row.companyId), Some(Member), Some("Employee")),
                        InvitationValidityHours))
  }

  // ---------------------------------------------------------------------
  // join_company_via_invite

  /** `schema.InvitationToken(**data)`: the payload validates when it has a
      company, a role and a position, and the token carries those three. */
  function ToInvitationToken(c: InvitationClaims): (r: Option<InvitationToken>)
    ensures r.Some? <==> c.companyId.Some? && c.role.Some? && c.position.Some?
    ensures r.Some? ==> Some(r.value.companyId) == c.companyId && Some(r.value.role) == c.role &&
                        Some(r.value.position) == c.position
  {
    if c.companyId.Some? && c.role.Some? && c.position.Some?
    then Some(InvitationToken(c.companyId.value, c.role.value, c.position.value))
    else None
  }

  /** The guards of `join_company_via_invite`, in the source's order, and the
      row it inserts. `decoded` is what `decode_jwt_token` gives for the
      token: None for a bad signature or an expired token. */
  function JoinDecision(members: seq<CompanyMember>, companies: map<nat, Company>, caller: TokenData,
                        decoded: Option<InvitationClaims>): (r: Result<CompanyMember>)
    ensures FirstMembership(members, caller.email).Some? ==> r == Err(AlreadyMember)
    ensures FirstMembership(members, caller.email).None? && decoded.None? ==> r == Err(InvalidInvitation)
    ensures (FirstMembership(members, caller.email).None? && decoded.Some? &&
             ToInvitationToken(decoded.value).None?) ==> r == Err(MalformedInvitation)
    ensures (FirstMembership(members, caller.email).None? && decoded.Some? &&
             ToInvitationToken(decoded.value).Some? &&
             ToInvitationToken(decoded.value).value.companyId !in companies) ==> r == Err(UnknownCompany)
    ensures (FirstMembership(members, caller.email).None? && decoded.Some? &&
             ToInvitationToken(decoded.value).Some? &&
             ToInvitationToken(decoded.value).value.companyId in companies) ==> r.Ok?
    ensures r.Ok? ==> FirstMembership(members, caller.email).None? && decoded.Some? &&
                      var t := ToInvitationToken(decoded.value);
                      t.Some? && t.value.companyId in companies &&
                      r.value == CompanyMember(caller.email, t.value.companyId, t.value.role, t.value.position)
  {
    if FirstMembership(members, caller.email).Some? then Err(AlreadyMember)
    else if decoded.None? then Err(InvalidInvitation)
    else match ToInvitationToken(decoded.value)
      case None => Err(MalformedInvitation)
      case Some(t) =>
        if t.companyId !in companies then Err(UnknownCompany)
        else Ok(CompanyMember(caller.email, t.companyId, t.role, t.position))
  }

  /** `join_company_via_invite`: a rejection changes no row; an admission
      commits the one row of JoinDecision and so keeps the single-membership
      invariant. */
  method JoinCompanyViaInvite(db: Database, caller: TokenData, decoded: Option<InvitationClaims>) returns (r: Result<string>)
    requires db.Valid()
    modifies db`members
    ensures db.Valid()
    ensures var d := JoinDecision(old(db.members), db.companies, caller, decoded);
            && (d.Err? ==> r == Err(d.error) && db.members == old(db.members))
            && (d.Ok? ==>
                  && r == Ok("You have successfully joined the company: " + db.companies[d.value.companyId].info.name)
                  && db.members == old(db.members) + [d.value])
    ensures SingleMembership(old(db.members)) ==> SingleMembership(db.members)
  {
    var d := JoinDecision(db.members, db.companies, caller, decoded);
    if d.Err? {
      return Err(d.error);
    }
    var row := d.value;
    AppendPreservesSingleMembership(db.members, row);
    db.members := db.members + [row];
    r := Ok("You have successfully joined the company: " + db.companies[row.companyId].info.name);
  }

  /** Redeeming the same invitation a second time is refused as "already a
      member": the row of the first redemption is in the way. */
  lemma JoinRefusesReplay(members: seq<CompanyMember>, companies: map<nat, Company>, caller: TokenData,
                          decoded: Option<InvitationClaims>)
    requires JoinDecision(members, companies, caller, decoded).Ok?
    ensures JoinDecision(members + [JoinDecision(members, companies, caller, decoded).value],
                         companies, caller, decoded) == Err(AlreadyMember)
  {
    var row := JoinDecision(members, companies, caller, decoded).value;
    var ms := members + [row];
    assert ms[|members|].userId == caller.email;
  }

  /** join_company_via_invite ignores the target of a targeted invitation:
      whoever redeems it gets the row, not the invited address. */
  lemma JoinIgnoresInvitedEmail(members: seq<CompanyMember>, companies: map<nat, Company>,
                                admin: TokenData, target: Email, caller: TokenData)
    requires SendInvitationLink(members, admin, target).Ok?
    requires admin.companyId.value in companies
    requires FirstMembership(members, caller.email).None?
    ensures JoinDecision(members, companies, caller, Some(SendInvitationLink(members, admin, target).value.claims))
            == Ok(CompanyMember(caller.email, admin.companyId.value, Member, "Employee"))
  {
  }

  /** join_company_via_invite with the check a targeted invitation calls
      for: a payload that names an invitee admits only that invitee (403
      otherwise); every other case is decided as JoinDecision decides it. */
  function JoinDecisionChecked(members: seq<CompanyMember>, companies: map<nat, Company>, caller: TokenData,
                               decoded: Option<InvitationClaims>): (r: Result<CompanyMember>)
    ensures (FirstMembership(members, caller.email).None? && decoded.Some? &&
             decoded.value.newMemberEmail.Some? && decoded.value.newMemberEmail.value != caller.email) ==>
              r == Err(InvalidInvitation)
    ensures FirstMembership(members, caller.email).Some? ==> r == Err(AlreadyMember)
    ensures (decoded.None? || decoded.value.newMemberEmail.None? ||
             decoded.value.newMemberEmail == Some(caller.email)) ==>
              r == JoinDecision(members, companies, caller, decoded)
    ensures r.Ok? ==> r == JoinDecision(members, companies, caller, decoded)
                      && decoded.value.newMemberEmail.GetOr(caller.email) == caller.email
  {
    if FirstMembership(members, caller.email).None? && decoded.Some? &&
       decoded.value.newMemberEmail.Some? && decoded.value.newMemberEmail.value != caller.email
    then Err(InvalidInvitation)
    else JoinDecision(members, companies, caller, decoded)
  }

  /** With the check, a mailed invitation admits its invitee, into the
      admin's company as a Member "Employee", and nobody else. */
  lemma JoinCheckedAdmitsOnlyInvitee(members: seq<CompanyMember>, companies: map<nat, Company>,
                                     admin: TokenData, target: Email, caller: TokenData)
    requires SendInvitationLink(members, admin, target).Ok?
    ensures var d := JoinDecisionChecked(members, companies, caller,
                                         Some(SendInvitationLink(members, admin, target).value.claims));
            && (d.Ok? ==> caller.email == target &&
                          d.value == CompanyMember(target, admin.companyId.value, Member, "Employee"))
            && (caller.email == target && admin.companyId.value in companies ==> d.Ok?)
  {
  }

  // ---------------------------------------------------------------------
  // accept_invitation_link

  /** The row `accept_invitation_link` commits for a decoded payload, as the
      source writes it: role and position default to Member and "Employee";
      nothing is checked against the existing rows or the company table. A
      payload without a user or company is refused by the store. */
  function AcceptedRow(decoded: Option<InvitationClaims>): (r: Result<CompanyMember>)
    ensures decoded.None? ==> r == Err(BadInvitationLink)
    ensures decoded.Some? && (decoded.value.newMemberEmail.None? || decoded.value.companyId.None?) ==>
              r == Err(IncompleteRow)
    ensures decoded.Some? && decoded.value.newMemberEmail.Some? && decoded.value.companyId.Some? ==> r.Ok?
    ensures r.Ok? ==> decoded.Some? && var c := decoded.value;
                      && c.newMemberEmail == Some(r.value.userId)
                      && c.companyId == Some(r.value.companyId)
                      && r.value.role == c.role.GetOr(Member)
                      && r.value.position == c.position.GetOr("Employee")
  {
    match decoded
    case None => Err(BadInvitationLink)
    case Some(c) =>
      if c.newMemberEmail.None? || c.companyId.None? then Err(IncompleteRow)
      else Ok(CompanyMember(c.newMemberEmail.value, c.companyId.value,
                            c.role.GetOr(Member), c.position.GetOr("Employee")))
  }

  /** `accept_invitation_link`: no session; commits AcceptedRow whenever it
      exists. Its contract promises nothing about single membership. */
  method AcceptInvitationLink(db: Database, decoded: Option<InvitationClaims>) returns (r: Result<string>)
    requires db.Valid()
    modifies db`members
    ensures db.Valid()
    ensures AcceptedRow(decoded).Err? ==>
              r == Err(AcceptedRow(decoded).error) && db.members == old(db.members)
    ensures AcceptedRow(decoded).Ok? ==>
              r == Ok("You have successfully joined the company.") &&
              db.members == old(db.members) + [AcceptedRow(decoded).value]
  {
    var row := AcceptedRow(decoded);
    if row.Err? {
      return Err(row.error);
    }
    db.members := db.members + [row.value];
    r := Ok("You have successfully joined the company.");
  }

  /** For every table, accept_invitation_link admits a payload for a user who
      already has a row, and the committed table then holds two rows for that
      user: the operation does not keep single membership. */
  lemma AcceptBreaksSingleMembership(members: seq<CompanyMember>, decoded: Option<InvitationClaims>)
    requires AcceptedRow(decoded).Ok?
    requires FirstMembership(members, AcceptedRow(decoded).value.userId).Some?
    ensures !SingleMembership(members + [AcceptedRow(decoded).value])
  {
    var row := AcceptedRow(decoded).value;
    var ms := members + [row];
    var k :| 0 <= k < |members| && members[k] == FirstMembership(members, row.userId).value &&
             forall i :: 0 <= i < k ==> members[i].userId != row.userId;
    assert ms[k].userId == ms[|members|].userId;
  }

  /** The same replayed invitation: a mailed invitation redeemed twice gives
      the target two rows. */
  lemma AcceptReplayDuplicates(members: seq<CompanyMember>, admin: TokenData, target: Email)
    requires SendInvitationLink(members, admin, target).Ok?
    ensures var c := Some(SendInvitationLink(members, admin, target).value.claims);
            && AcceptedRow(c) == Ok(CompanyMember(target, admin.companyId.value, Member, "Employee"))
            && !SingleMembership(members + [AcceptedRow(c).value] + [AcceptedRow(c).value])
  {
    var c := Some(SendInvitationLink(members, admin, target).value.claims);
    var row := AcceptedRow(c).value;
    var once := members + [row];
    assert once[|members|] == row;
    AcceptBreaksSingleMembership(once, c);
  }

  /** accept_invitation_link with the existing-membership check of
      join_company_via_invite: a user who already has a row is refused. */
  function AcceptDecisionChecked(members: seq<CompanyMember>, decoded: Option<InvitationClaims>): (r: Result<CompanyMember>)
    ensures AcceptedRow(decoded).Err? ==> r == AcceptedRow(decoded)
    ensures AcceptedRow(decoded).Ok? && FirstMembership(members, AcceptedRow(decoded).value.userId).Some? ==>
              r == Err(AlreadyMember)
    ensures AcceptedRow(decoded).Ok? && FirstMembership(members, AcceptedRow(decoded).value.userId).None? ==>
              r == AcceptedRow(decoded)
    ensures r.Ok? ==> r == AcceptedRow(decoded) && FirstMembership(members, r.value.userId).None?
  {
    match AcceptedRow(decoded)
    case Err(e) => Err(e)
    case Ok(row) => if FirstMembership(members, row.userId).Some? then Err(AlreadyMember) else Ok(row)
  }

  /** The checked redemption keeps single membership, and a replay of the
      same invitation is refused. */
  lemma AcceptCheckedKeepsSingleMembership(members: seq<CompanyMember>, decoded: Option<InvitationClaims>)
    requires SingleMembership(members)
    requires AcceptDecisionChecked(members, decoded).Ok?
    ensures SingleMembership(members + [AcceptDecisionChecked(members, decoded).value])
    ensures AcceptDecisionChecked(members + [AcceptDecisionChecked(members, decoded).value], decoded) == Err(AlreadyMember)
  {
    var row := AcceptDecisionChecked(members, decoded).value;
    AppendPreservesSingleMembership(members, row);
    var ms := members + [row];
    assert ms[|members|].userId == row.userId;
  }

  /** `accept_invitation_link` as intended: commits the checked row only. */
  method AcceptInvitationLinkChecked(db: Database, decoded: Option<InvitationClaims>) returns (r: Result<string>)
    requires db.Valid()
    modifies db`members
    ensures db.Valid()
    ensures var d := AcceptDecisionChecked(old(db.members), decoded);
            && (d.Err? ==> r == Err(d.error) && db.members == old(db.members))
            && (d.Ok? ==> r == Ok("You have successfully joined the company.") && db.members == old(db.members) + [d.value])
    ensures SingleMembership(old(db.members)) ==> SingleMembership(db.members)
  {
    var d := AcceptDecisionChecked(db.members, decoded);
    if d.Err? {
      return Err(d.error);
    }
    AppendPreservesSingleMembership(db.members, d.value);
    db.members := db.members + [d.value];
    r := Ok("You have successfully joined the company.");
  }

  // ---------------------------------------------------------------------
  // read_company and update_company

  /** `read_company`: any membership row of the caller suffices; neither the
      role nor the path's company id is consulted. `getCompany` is
      `company_services.get_company_by_id`, called with the session. */
  function ReadCompany(members: seq<CompanyMember>, caller: TokenData, pathCompanyId: nat,
                       getCompany: TokenData -> Option<Company>): (r: Result<Option<Company>>)
    ensures r.Err? <==> forall i :: 0 <= i < |members| ==> members[i].userId != caller.email
    ensures r.Err? ==> r.error == NotAssociated
    ensures r.Ok? ==> r.value == getCompany(caller)
  {
    if FirstMembership(members, caller.email).None? then Err(NotAssociated) else Ok(getCompany(caller))
  }

  /** `update_company`: the same membership-only guard as read_company;
      `updateCompany` is `company_services.update_company_by_id`. */
  function UpdateCompany(members: seq<CompanyMember>, caller: TokenData, pathCompanyId: nat, update: CompanyInfo,
                         updateCompany: (CompanyInfo, TokenData) -> Option<Company>): (r: Result<Option<Company>>)
    ensures r.Err? <==> forall i :: 0 <= i < |members| ==> members[i].userId != caller.email
    ensures r.Err? ==> r.error == NotAssociated
    ensures r.Ok? ==> r.value == updateCompany(update, caller)
  {
    if FirstMembership(members, caller.email).None? then Err(NotAssociated) else Ok(updateCompany(update, caller))
  }

  /** A plain Member of one company passes the guard of update_company for
      any path id, including another company's. This holds by construction:
      the guard reads neither the role nor the path id. */
  lemma MemberMayUpdateAnyPath(members: seq<CompanyMember>, k: nat, pathCompanyId: nat, update: CompanyInfo,
                               updateCompany: (CompanyInfo, TokenData) -> Option<Company>)
    requires k < |members| && members[k].role == Member && members[k].companyId != pathCompanyId
    ensures UpdateCompany(members, TokenData(members[k].userId, None, None), pathCompanyId, update, updateCompany).Ok?
  {
  }

  const NotCompanyAdmin := HttpError(Forbidden, "Only the company's Admin can update it.")

  /** `update_company` as its docstring describes it: only an Admin of the
      company named by the path may update it, so the session must name that
      company and the caller's first row for it must have role Admin. */
  function UpdateCompanyChecked(members: seq<CompanyMember>, caller: TokenData, pathCompanyId: nat, update: CompanyInfo,
                                updateCompany: (CompanyInfo, TokenData) -> Option<Company>): (r: Result<Option<Company>>)
    ensures r.Ok? ==> caller.companyId == Some(pathCompanyId) &&
                      exists k :: 0 <= k < |members| && IsFirstRowFor(members, k, caller.email, pathCompanyId) &&
                                  members[k].role == Admin
    ensures r.Ok? <== caller.companyId == Some(pathCompanyId) && IsTokenCompanyAdmin(members, caller)
    ensures r.Err? ==> r.error == NotCompanyAdmin
    ensures r.Ok? ==> r.value == updateCompany(update, caller)
  {
    if caller.companyId != Some(pathCompanyId) || !IsTokenCompanyAdmin(members, caller) then Err(NotCompanyAdmin)
    else Ok(updateCompany(update, caller))
  }

  /** With the docstring's check, the plain Member that update_company lets
      through is refused, whatever path id and session claims it presents:
      under single membership its one row is not an Admin row. */
  lemma CheckedUpdateRefusesMember(members: seq<CompanyMember>, k: nat, caller: TokenData, pathCompanyId: nat,
                                    update: CompanyInfo, updateCompany: (CompanyInfo, TokenData) -> Option<Company>)
    requires SingleMembership(members)
    requires k < |members| && members[k].userId == caller.email && members[k].role == Member
    ensures UpdateCompanyChecked(members, caller, pathCompanyId, update, updateCompany) == Err(NotCompanyAdmin)
  {
  }

  // ---------------------------------------------------------------------
  // list_company_members

  /** One entry of the member list. */
  datatype MemberInfo = MemberInfo(id: Option<nat>, name: string, position: string)

  /** `info` is the entry for membership row `row`: its position, and the id
      and name of the user with that email, or None and "" without one. */
  ghost predicate Describes(info: MemberInfo, row: CompanyMember, users: seq<User>) {
    && info.position == row.position
    && match FindUser(users, row.userId)
       case None => info.id.None? && info.name == ""
       case Some(k) => info.id == Some(users[k].id) && info.name == users[k].name
  }

  /** One more described row keeps the entries describing the rows so far. */
  lemma DescribesExtend(result: seq<MemberInfo>, info: MemberInfo, rows: seq<CompanyMember>, users: seq<User>)
    requires |result| < |rows|
    requires forall j :: 0 <= j < |result| ==> Describes(result[j], rows[j], users)
    requires Describes(info, rows[|result|], users)
    ensures forall j :: 0 <= j < |result| + 1 ==> Describes((result + [info])[j], rows[j], users)
  {
    forall j | 0 <= j < |result| + 1
      ensures Describes((result + [info])[j], rows[j], users)
    {
      if j < |result| {
        assert (result + [info])[j] == result[j];
      } else {
        assert (result + [info])[j] == info;
      }
    }
  }

  /** `list_company_members`: refused when the token carries no (truthy)
      company id; otherwise one entry per membership row of that company, in
      table order. The caller's own membership is not checked. */
  method ListCompanyMembers(users: seq<User>, members: seq<CompanyMember>, caller: TokenData)
    returns (r: Result<seq<MemberInfo>>)
    ensures r.Err? <==> !Truthy(caller.companyId)
    ensures r.Err? ==> r.error == NoCompany
    ensures r.Ok? ==> var rows := MembersOfCompany(members, caller.companyId.value);
                      && |r.value| == |rows|
                      && forall i :: 0 <= i < |rows| ==> Describes(r.value[i], rows[i], users)
  {
    if !Truthy(caller.companyId) {
      return Err(NoCompany);
    }
    var rows := MembersOfCompany(members, caller.companyId.value);
    var result: seq<MemberInfo> := [];
    var i := 0;
    while i < |rows|
      invariant 0 <= i <= |rows|
      invariant |result| == i
      invariant forall j :: 0 <= j < i ==> Describes(result[j], rows[j], users)
    {
      var m := rows[i];
      var found := FindUser(users, m.userId);
      var info := if found.Some? then MemberInfo(Some(users[found.value].id), users[found.value].name, m.position)
                  else MemberInfo(None, "", m.position);
      DescribesExtend(result, info, rows, users);
      result := result + [info];
      i := i + 1;
    }
    r := Ok(result);
  }

  // ---------------------------------------------------------------------
  // The route table of the router (prefix "/company")

  datatype Verb = GET | POST | PUT

  /** A path segment of a route: literal text, or a `{param}` that matches
      any non-empty segment. */
  datatype Segment = Lit(text: string) | Param

  datatype Handler =
    | CreateCompanyH | CreateInvitationLinkH | JoinCompanyViaInviteH | ReadCompanyH
    | UpdateCompanyH | ListCompanyMembersH | SendInvitationLinkH | AcceptInvitationLinkH

  datatype Route = Route(verb: Verb, pattern: seq<Segment>, handler: Handler)

  /** The routes in the order the decorators declare them. */
  const DeclaredRoutes: seq<Route> := [
    Route(POST, [Lit("create")], CreateCompanyH),
    Route(GET, [Lit("invitation"), Lit("link")], CreateInvitationLinkH),
    Route(GET, [Lit("invitation"), Lit("join")], JoinCompanyViaInviteH),
    Route(GET, [Param], ReadCompanyH),
    Route(PUT, [Param], UpdateCompanyH),
    Route(GET, [Lit("company"), Lit("members")], ListCompanyMembersH),
    Route(POST, [Lit("invite"), Param], SendInvitationLinkH),
    Route(GET, [Lit("join")], AcceptInvitationLinkH)
  ]

  predicate SegmentMatches(s: Segment, part: string) {
    match s
    case Lit(t) => t == part
    case Param => part != ""
  }

  /** A route pattern matches a path segment by segment. */
  predicate PatternMatches(pattern: seq<Segment>, path: seq<string>)
    decreases |path|
  {
    if |pattern| == 0 || |path| == 0 then |pattern| == |path|
    else SegmentMatches(pattern[0], path[0]) && PatternMatches(pattern[1..], path[1..])
  }

  lemma PatternOfOne(s: Segment, path: seq<string>)
    ensures PatternMatches([s], path) <==> |path| == 1 && SegmentMatches(s, path[0])
  {
    if |path| > 0 {
      assert [s][1..] == [];
    }
  }

  lemma PatternOfTwo(s: Segment, t: Segment, path: seq<string>)
    ensures PatternMatches([s, t], path) <==>
            |path| == 2 && SegmentMatches(s, path[0]) && SegmentMatches(t, path[1])
  {
    if |path| > 0 {
      assert [s, t][1..] == [t];
      PatternOfOne(t, path[1..]);
    }
  }

  predicate Matches(route: Route, verb: Verb, path: seq<string>) {
    route.verb == verb && PatternMatches(route.pattern, path)
  }

  /** Index of the first route that matches both the verb and the path, as
      the router tries routes in declaration order. */
  function MatchIndex(routes: seq<Route>, verb: Verb, path: seq<string>): (k: Option<nat>)
    ensures k.Some? ==> k.value < |routes| && Matches(routes[k.value], verb, path)
    ensures k.Some? ==> forall i :: 0 <= i < k.value ==> !Matches(routes[i], verb, path)
    ensures k.None? <==> forall i :: 0 <= i < |routes| ==> !Matches(routes[i], verb, path)
  {
    FirstIndex(routes, (r: Route) => Matches(r, verb, path))
  }

  /** The handler a request reaches: that of the first matching route, and
      none when no route matches. */
  function Dispatch(routes: seq<Route>, verb: Verb, path: seq<string>): (h: Option<Handler>)
    ensures h.None? <==> forall i :: 0 <= i < |routes| ==> !Matches(routes[i], verb, path)
    ensures h.Some? ==> exists k :: 0 <= k < |routes| && routes[k].handler == h.value &&
                                    Matches(routes[k], verb, path) &&
                                    forall i :: 0 <= i < k ==> !Matches(routes[i], verb, path)
  {
    match MatchIndex(routes, verb, path)
    case None => None
    case Some(k) => Some(routes[k].handler)
  }

  /** As declared, GET /company/join is taken by the earlier
      GET /company/{company_id}, so no request reaches accept_invitation_link. */
  lemma AcceptInvitationLinkUnreachable(verb: Verb, path: seq<string>)
    ensures Dispatch(DeclaredRoutes, verb, path) != Some(AcceptInvitationLinkH)
  {
    JoinShadowedByCompanyId(verb, path);
    ShadowedRouteNeverTaken(DeclaredRoutes, verb, path, 3, 7);
    AcceptHandlerIsLast();
  }

  /** Whatever GET /join matches, GET /{company_id} matches too. */
  lemma JoinShadowedByCompanyId(verb: Verb, path: seq<string>)
    ensures Matches(DeclaredRoutes[7], verb, path) ==> Matches(DeclaredRoutes[3], verb, path)
  {
    PatternOfOne(Lit("join"), path);
    PatternOfOne(Param, path);
  }

  /** accept_invitation_link is the handler of the last declared route only. */
  lemma AcceptHandlerIsLast()
    ensures forall k :: 0 <= k < |DeclaredRoutes| && DeclaredRoutes[k].handler == AcceptInvitationLinkH ==> k == 7
  {
  }

  /** A route that matches only where an earlier route also matches is
      never the one taken. */
  lemma ShadowedRouteNeverTaken(routes: seq<Route>, verb: Verb, path: seq<string>, i: nat, j: nat)
    requires i < j < |routes|
    requires Matches(routes[j], verb, path) ==> Matches(routes[i], verb, path)
    ensures MatchIndex(routes, verb, path) != Some(j)
  {
  }

  /** GET /company/join as the router answers it: read_company. */
  lemma JoinPathReachesReadCompany()
    ensures Dispatch(DeclaredRoutes, GET, ["join"]) == Some(ReadCompanyH)
  {
    var path := ["join"];
    PatternOfTwo(Lit("invitation"), Lit("link"), path);
    PatternOfTwo(Lit("invitation"), Lit("join"), path);
    PatternOfOne(Param, path);
    assert Matches(DeclaredRoutes[3], GET, path);
  }

  /** The intended table: the literal GET /join ahead of the parameter
      routes, the rest in the declared order. */
  const IntendedRoutes: seq<Route> := [
    Route(POST, [Lit("create")], CreateCompanyH),
    Route(GET, [Lit("invitation"), Lit("link")], CreateInvitationLinkH),
    Route(GET, [Lit("invitation"), Lit("join")], JoinCompanyViaInviteH),
    Route(GET, [Lit("join")], AcceptInvitationLinkH),
    Route(GET, [Param], ReadCompanyH),
    Route(PUT, [Param], UpdateCompanyH),
    Route(GET, [Lit("company"), Lit("members")], ListCompanyMembersH),
    Route(POST, [Lit("invite"), Param], SendInvitationLinkH)
  ]

  /** With the intended order GET /company/join reaches
      accept_invitation_link. */
  lemma IntendedJoinReachesAccept()
    ensures Dispatch(IntendedRoutes, GET, ["join"]) == Some(AcceptInvitationLinkH)
  {
    var path := ["join"];
    PatternOfTwo(Lit("invitation"), Lit("link"), path);
    PatternOfTwo(Lit("invitation"), Lit("join"), path);
    PatternOfOne(Lit("join"), path);
    assert Matches(IntendedRoutes[3], GET, path);
  }

  /** With the intended order every other company id still reaches
      read_company and update_company. */
  lemma IntendedCompanyIdReachesCompany(companyId: string)
    requires companyId != "" && companyId != "join"
    ensures Dispatch(IntendedRoutes, GET, [companyId]) == Some(ReadCompanyH)
    ensures Dispatch(IntendedRoutes, PUT, [companyId]) == Some(UpdateCompanyH)
  {
    IntendedGetCompanyId(companyId);
    IntendedPutCompanyId(companyId);
  }

  /** PUT /company/{company_id} in the intended order. */
  lemma IntendedPutCompanyId(companyId: string)
    requires companyId != ""
    ensures Dispatch(IntendedRoutes, PUT, [companyId]) == Some(UpdateCompanyH)
  {
    PatternOfOne(Param, [companyId]);
    RouteTaken(IntendedRoutes, PUT, [companyId], 5);
  }

  /** GET /company/{company_id} in the intended order. */
  lemma IntendedGetCompanyId(companyId: string)
    requires companyId != "" && companyId != "join"
    ensures Dispatch(IntendedRoutes, GET, [companyId]) == Some(ReadCompanyH)
  {
    var path := [companyId];
    PatternOfTwo(Lit("invitation"), Lit("link"), path);
    PatternOfTwo(Lit("invitation"), Lit("join"), path);
    PatternOfOne(Lit("join"), path);
    PatternOfOne(Param, path);
    RouteTaken(IntendedRoutes, GET, path, 4);
  }

  /** The route taken is the first one that matches. */
  lemma RouteTaken(routes: seq<Route>, verb: Verb, path: seq<string>, k: nat)
    requires k < |routes| && Matches(routes[k], verb, path)
    requires forall i :: 0 <= i < k ==> !Matches(routes[i], verb, path)
    ensures Dispatch(routes, verb, path) == Some(routes[k].handler)
  {
  }
}
