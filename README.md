# Company membership and access control of the SE-Better-Start backend

This Dafny project models the part of the backend that decides who belongs to
which company and who may do what:

- `company_router.py`: founding a company, issuing generic and targeted
  invitations, redeeming them through `join_company_via_invite` and
  `accept_invitation_link`, reading and updating the company, listing its
  members, and the order in which the router's routes are declared;
- `user_services.py`: signup, login and the session claims it issues,
  reading the caller's own user row, and a partial update of that row;
- `task_router.py`: the `role == "Admin"` guards in front of the task
  services, the unguarded status change, and the two read handlers that
  attach member references to tasks;
- `sales_router.py`: the case-insensitive `admin_required` guard, the
  per-endpoint 404s, and the scoping of every sales call by the session
  token's company.

Layout, one module per file:

- `common.dfy` (`Common`): `Option`, `Result`, `HttpError`, `MemberRole`,
  the session claims `TokenData`, and the `.first()` and `.all()` query shapes
  (`FirstIndex`, `Filter`).
- `tables.dfy` (`Tables`): the `User`, `Company` and `CompanyMember` rows.
  Also the queries the handlers run against them, the single-membership
  invariant, and the class `Database` that stands for the database session.
- `user_services.dfy`, `company_router.dfy`, `task_router.dfy`,
  `sales_router.dfy`: one module per source file.
- `access_policy.dfy` (`AccessPolicy`): lemmas that relate the guards of
  different files to each other and to the session issued at login.

Handlers that commit rows are methods that modify the `Database` fields they
touch and state the whole new state. Handlers that only decide an answer,
without a loop, are functions; the read handlers that loop over rows are
methods that change nothing. The loops of the source are methods with loop invariants:
`list_company_members`, the member references of the task handlers, and the
set-field loop of `update_user_details`.

Companies are a map from id with an auto-increment counter that starts
at 1.

Collaborators whose code is not part of this model become parameters:
- the JWT codec: a decoded token is an `Option<InvitationClaims>`, where
  `None` stands for a bad signature or an expired token, and `encode` is a
  function parameter;
- the password hasher (`Hasher`);
- the company, task and sales services: function parameters or the values
  they return.

Where the behaviour of the code differs from what its messages and
docstrings promise, the model follows the code. For each difference listed
under "## Findings" it also gives a corrected definition beside it.

Assumptions about files that are not part of this model:
- Tables are sequences in insertion order, and a `.first()` without
  `order_by` returns the first matching row in that order. The database does
  not guarantee this order. It matters only when several rows match, as after
  `accept_invitation_link` (`IsTokenCompanyAdmin`, `AuthenticateUser`,
  `GetUserDetails`, `CreateNewTask`).
- `UserUpdate` reaches only `name` and the profile columns, never `id`,
  `email` or `password`.
- `schema.InvitationToken` requires `company_id`, `role` and `position`; a
  payload without one of them fails validation, which is a 500.
- A `CompanyMember` row without `user_id` or `company_id` is refused by the
  store, which is a 500.
- The session's role string is the `MemberRole` value, `"Admin"` or `"Member"`.
- The task handlers' `CompanyMember.user_id == m.user_id` compares an email
  column with an integer user id. The model takes that query's outcome as
  given (`Lookups.companyMemberWork`).

## Model

| member | source | states |
|---|---|---|
| Common.FirstIndex | backend/src/features/company/company_router.py:36-38 | `.first()`: the index of the first element satisfying the condition; None exactly when none does |
| Common.Filter | backend/src/features/company/company_router.py:205-209 | `.all()`: the result holds exactly the elements satisfying the condition, and is no longer than the table |
| Common.FilterCount | backend/src/features/company/company_router.py:205-209 | `.all()` loses and repeats nothing: each matching element occurs exactly as often as in the table |
| Common.FilterAppend | backend/src/features/company/company_router.py:205-209 | `.all()` keeps table order: the matches of a concatenation are those of its first part followed by those of its second |
| Common.RoleValue | backend/src/features/user/user_services.py:51 | The stored role string is "Admin" exactly for Admin and "Member" exactly for Member |
| Tables.FindUser | backend/src/features/user/user_services.py:13-14 | The index found holds the first user row with that email; None exactly when no row has it |
| Tables.FirstMembership | backend/src/features/company/company_router.py:36-38 | The row found is the first CompanyMember row of that user; None exactly when the user has no row |
| Tables.FirstMembershipIn | backend/src/features/company/company_router.py:75-80 | The row found is the first row of that user for that company; None exactly when no such row exists |
| Tables.MembersOfCompany | backend/src/features/company/company_router.py:205-209 | Exactly the rows of the given company, each as often as the table holds it |
| Tables.MembersOfCompanyAppend | backend/src/features/company/company_router.py:205-209 | Table order: a row committed last comes last among the company's rows, and only if it belongs to the company |
| Tables.AppendPreservesSingleMembership | backend/src/features/company/company_router.py:53-60 | Adding a row for a user without one keeps "at most one row per user" whenever it held |
| Tables.Database.constructor | backend/src/features/company/company_router.py:22 | The session starts with empty tables, both id counters at 1, and its storage invariants holding |
| Tables.SoleMembershipIsFirst | backend/src/features/user/user_services.py:44-46 | Under single membership, `.first()` finds the user's only row wherever it is stored |
| UserServices.NewUser | backend/src/features/user/user_services.py:22-25 | The committed row carries the given id, the form's email, name and profile, and the hash of the password |
| UserServices.CreateUser | backend/src/features/user/user_services.py:13-30 | A registered email gives 400 and no change; otherwise exactly one row with the next id and the hashed password is appended; storage invariants are kept |
| UserServices.SessionClaims | backend/src/features/user/user_services.py:48-52 | The claims carry the email, and the company and role of the membership row, both None without a row |
| UserServices.AuthenticateUser | backend/src/features/user/user_services.py:34-52 | The same 401 whether the email is unknown or the password fails; otherwise the claims of the user's first membership row |
| UserServices.LoginCarriesMembership | backend/src/features/user/user_services.py:44-52 | Under single membership the session carries the company and role of the user's one row |
| UserServices.SignupThenLogin | backend/src/features/user/user_services.py:13-52 | With a sound hasher, login with the signup password succeeds right after signup |
| UserServices.GetUserDetails | backend/src/features/user/user_services.py:63-68 | The first row with the caller's email, or 404 exactly when no row has it |
| UserServices.SetAttr | backend/src/features/user/user_services.py:80 | One attribute changes to the value; every other attribute and the id, email and password stay |
| UserServices.ApplyUpdate | backend/src/features/user/user_services.py:79-80 | Exactly the fields that were set take their new values; everything else is unchanged |
| UserServices.UpdateUserDetails | backend/src/features/user/user_services.py:74-84 | 404 and no change without a row; otherwise the caller's row is updated field by field and every other row is unchanged |
| CompanyRouter.CreateCompany | backend/src/features/company/company_router.py:36-62 | Any existing row gives 403 and no change; otherwise one company under a fresh id and one Admin "Founder" row are added; single membership is preserved |
| CompanyRouter.TokenCompanyRow | backend/src/features/company/company_router.py:75-80 | The row found is the caller's first row for the token's company; None exactly when the token has no company or no such row exists |
| CompanyRouter.IsTokenCompanyAdmin | backend/src/features/company/company_router.py:82 | Passes exactly when the token names a company and the caller's first row for it has role Admin |
| CompanyRouter.TokenOfLink | backend/src/features/company/company_router.py:95 | A token read back from a link is what follows the prefix and the join path |
| CompanyRouter.JoinLink | backend/src/features/company/company_router.py:95 | The join link carries exactly the token it is built from |
| CompanyRouter.CreateInvitationLink | backend/src/features/company/company_router.py:75-95 | 403 exactly unless the caller is Admin of the token's company; the link carries a 24-hour token for that company, role Member, position "Employee" |
| CompanyRouter.SendInvitationLink | backend/src/features/company/company_router.py:235-265 | 403 for a non-Admin, 400 for a target who has any row; otherwise a 24-hour payload for the target, the admin's company, Member and "Employee" |
| CompanyRouter.JoinDecision | backend/src/features/company/company_router.py:108-140 | Guards in source order: existing row (403), failed decode (403), invalid payload (500), unknown company (404); the inserted row is the caller's, with the payload's company, role and position; a caller without a row holding a valid payload for an existing company is admitted |
| CompanyRouter.JoinCompanyViaInvite | backend/src/features/company/company_router.py:108-144 | A refusal changes no row; an admission appends exactly the decided row and names the company; single membership is preserved |
| CompanyRouter.JoinRefusesReplay | backend/src/features/company/company_router.py:108-116 | Redeeming the same token again is refused as already a member |
| CompanyRouter.ToInvitationToken | backend/src/features/company/company_router.py:125 | The payload validates exactly when it has a company, a role and a position, and the token carries those three |
| CompanyRouter.JoinIgnoresInvitedEmail | backend/src/features/company/company_router.py:134-140 | A targeted invitation admits whoever redeems it, not the invited address |
| CompanyRouter.JoinDecisionChecked | backend/src/features/company/company_router.py:108-140 | Corrected join: a payload naming another invitee is refused with 403, a caller who already has a row with the 403 of the existing-row guard; every other case is decided as join_company_via_invite decides it |
| CompanyRouter.JoinCheckedAdmitsOnlyInvitee | backend/src/features/company/company_router.py:119-140 | With the check, a mailed invitation admits its invitee as a Member "Employee" of the admin's company, and nobody else |
| CompanyRouter.AcceptedRow | backend/src/features/company/company_router.py:285-305 | Failed decode gives 400, a payload without email or company 500; otherwise a row for the payload's email and company, with role and position defaulting to Member and "Employee"; every decoded payload with an email and a company yields its row |
| CompanyRouter.AcceptInvitationLink | backend/src/features/company/company_router.py:285-309 | Commits the accepted row whenever there is one, with no check against existing rows |
| CompanyRouter.AcceptBreaksSingleMembership | backend/src/features/company/company_router.py:299-307 | For every table, accepting a payload for a user who has a row leaves two rows for that user |
| CompanyRouter.AcceptReplayDuplicates | backend/src/features/company/company_router.py:285-307 | A mailed invitation accepted twice gives the target two rows |
| CompanyRouter.AcceptDecisionChecked | backend/src/features/company/company_router.py:285-307 | The accepted row, refused with 403 when its user already has a row and returned unchanged when the user has none |
| CompanyRouter.AcceptCheckedKeepsSingleMembership | backend/src/features/company/company_router.py:299-307 | The checked redemption keeps single membership and refuses a replay |
| CompanyRouter.AcceptInvitationLinkChecked | backend/src/features/company/company_router.py:285-309 | Commits only the checked row; single membership is preserved |
| CompanyRouter.ReadCompany | backend/src/features/company/company_router.py:155-167 | 403 exactly when the caller has no row; the path's company id and the role are not consulted |
| CompanyRouter.UpdateCompany | backend/src/features/company/company_router.py:179-191 | 403 exactly when the caller has no row; otherwise the service's result for the caller's session |
| CompanyRouter.MemberMayUpdateAnyPath | backend/src/features/company/company_router.py:179-190 | A plain Member of one company passes update_company's guard for another company's path id |
| CompanyRouter.UpdateCompanyChecked | backend/src/features/company/company_router.py:176-190 | The docstring's intent: Ok only when the session names the path's company and the caller's first row for it is Admin, and then always; otherwise 403 |
| CompanyRouter.CheckedUpdateRefusesMember | backend/src/features/company/company_router.py:176-190 | Under single membership, the corrected update refuses a plain Member for every path id and session |
| CompanyRouter.ListCompanyMembers | backend/src/features/company/company_router.py:199-222 | 403 exactly when the token's company id is missing or 0; otherwise one entry per row of that company in table order, with the user's id and name or None and "" |
| CompanyRouter.MatchIndex | backend/src/features/company/company_router.py:21 | The route taken is the first declared route that matches verb and path |
| CompanyRouter.Dispatch | backend/src/features/company/company_router.py:21 | The handler reached is that of the first matching route; none exactly when no route matches |
| CompanyRouter.AcceptInvitationLinkUnreachable | backend/src/features/company/company_router.py:277 | As declared, no request reaches accept_invitation_link: GET /{company_id} at line 147 matches first |
| CompanyRouter.JoinPathReachesReadCompany | backend/src/features/company/company_router.py:147 | GET /company/join is answered by read_company |
| CompanyRouter.IntendedJoinReachesAccept | backend/src/features/company/company_router.py:277 | With GET /join declared before the parameter routes, GET /company/join reaches accept_invitation_link |
| CompanyRouter.IntendedCompanyIdReachesCompany | backend/src/features/company/company_router.py:147-170 | In the corrected order every other company id still reaches read_company and update_company |
| TaskRouter.IsTaskAdmin | backend/src/features/kanban/task_router.py:34 | Passes exactly for the stored value of the Admin role, compared exactly; "Member" and a missing role never pass |
| TaskRouter.CreateNewTask | backend/src/features/kanban/task_router.py:34-40 | 403 unless the role is exactly "Admin", then 404 without a user row; otherwise the created task, with the id of the caller's first user row as assignee |
| TaskRouter.DeleteExistingTask | backend/src/features/kanban/task_router.py:70-72 | Proceeds exactly for role "Admin"; 403 otherwise |
| TaskRouter.AddMember | backend/src/features/kanban/task_router.py:134-137 | Proceeds exactly for role "Admin"; 403 otherwise |
| TaskRouter.RemoveMember | backend/src/features/kanban/task_router.py:141-144 | Proceeds exactly for role "Admin"; 403 otherwise |
| TaskRouter.UpdateExistingTask | backend/src/features/kanban/task_router.py:153-156 | Proceeds exactly for role "Admin"; 403 otherwise |
| TaskRouter.ChangeTaskStatusAsWritten | backend/src/features/kanban/task_router.py:119-122 | No role guard; a missing task gives 500, otherwise the success message |
| TaskRouter.MissingTaskStatusIsInternalError | backend/src/features/kanban/task_router.py:115-121 | For every caller, a missing task answers 500, not 404 |
| TaskRouter.ChangeTaskStatus | backend/src/features/kanban/task_router.py:119-122 | No role guard; 404 exactly when the status service reports no task |
| TaskRouter.StatusChangeIgnoresRole | backend/src/features/kanban/task_router.py:112-122 | A non-Admin may change a task's status, as written and corrected, but not update or delete the task |
| TaskRouter.MembersOfTask | backend/src/features/kanban/task_router.py:47-49 | Exactly the TaskMember rows of the task, each as often as the table holds it |
| TaskRouter.MembersOfTaskAppend | backend/src/features/kanban/task_router.py:47-49 | Table order: a row committed last comes last among the task's rows, and only if it belongs to the task |
| TaskRouter.MemberRefs | backend/src/features/kanban/task_router.py:50-63 | One reference per task member in order: user id, user name or "", company work or the member's own, photo or None |
| TaskRouter.RespondTask | backend/src/features/kanban/task_router.py:64-66 | The response holds the task and one reference per TaskMember row of it, in table order |
| TaskRouter.ReadTaskByTaskId | backend/src/features/kanban/task_router.py:44-66 | 404 exactly when the task is missing; otherwise the task with one reference per TaskMember row of it |
| TaskRouter.ReadTasksByProject | backend/src/features/kanban/task_router.py:80-110 | 404 exactly when the project is missing; otherwise its title, description and one response per task in order |
| SalesRouter.LowerChar | backend/src/features/sales/sales_router.py:14 | ASCII capitals map to their small letters; every other character is unchanged |
| SalesRouter.Lower | backend/src/features/sales/sales_router.py:14 | Same length, lowered character by character |
| SalesRouter.IsSalesAdmin | backend/src/features/sales/sales_router.py:14 | Passes exactly for five characters that lower, one by one, to the letters of "admin" |
| SalesRouter.AdminRequiredAsWritten | backend/src/features/sales/sales_router.py:13-16 | A missing role gives 500; otherwise the caller passes exactly when the role lower-cases to "admin", and is refused with 403 "Admins only" otherwise |
| SalesRouter.AdminRequired | backend/src/features/sales/sales_router.py:13-16 | Corrected guard: the caller passes exactly when the role lower-cases to "admin"; everyone else, a roleless caller included, gets 403 |
| SalesRouter.GuardsAgreeOnRole | backend/src/features/sales/sales_router.py:13-16 | For a caller with a role the as-written and corrected guards give the same answer |
| SalesRouter.CreateSales | backend/src/features/sales/sales_router.py:22-24 | Behind admin_required as written (500 without a role, 403 for a non-admin); the sale is created for the token's company |
| SalesRouter.UpdateSales | backend/src/features/sales/sales_router.py:31-36 | Behind admin_required as written; 404 exactly when the update, scoped to the token's company, finds nothing |
| SalesRouter.ReadAllSales | backend/src/features/sales/sales_router.py:41-43 | Behind admin_required as written; the list of the token's company |
| SalesRouter.ChangeSalesStatusAsWritten | backend/src/features/sales/sales_router.py:49-55 | Behind admin_required as written; a missing sale gives 500 |
| SalesRouter.MissingSaleStatusIsInternalError | backend/src/features/sales/sales_router.py:49-54 | For an admin and a missing sale, 500 as written against 404 as intended |
| SalesRouter.ChangeSalesStatus | backend/src/features/sales/sales_router.py:52-55 | Corrected: behind the corrected guard; 404 exactly when the status change, scoped to the token's company, finds nothing |
| SalesRouter.ReadSale | backend/src/features/sales/sales_router.py:61-66 | Behind admin_required as written; 404 exactly when the lookup, scoped to the token's company, finds nothing |
| SalesRouter.RolelessCallerGetsInternalError | backend/src/features/sales/sales_router.py:14 | A roleless session gets 500 from all five sales endpoints as written, and 403 from the corrected status change |
| SalesRouter.ReadSaleScopedByTokenCompany | backend/src/features/sales/sales_router.py:63 | Callers with the same role and token company get the same answer |
| AccessPolicy.SalesAdminSpellings | backend/src/features/sales/sales_router.py:14 | admin_required accepts exactly the upper/lower case spellings of "admin" |
| AccessPolicy.TaskAdminIsSalesAdmin | backend/src/features/kanban/task_router.py:34 | Whoever passes the task guard passes admin_required |
| AccessPolicy.SalesGuardIsWeaker | backend/src/features/sales/sales_router.py:14 | "ADMIN" and "admin" pass admin_required and no task guard |
| AccessPolicy.LoginRoleDecidesGuards | backend/src/features/user/user_services.py:44-52 | A login session passes the task guard and both sales guards exactly when the user's first row is Admin |
| AccessPolicy.LoginWithoutMembershipBreaksSales | backend/src/features/user/user_services.py:50-51 | A login without a membership row yields a roleless session: 500 from admin_required as written, 403 from the corrected guard |
| AccessPolicy.LoginAdminMayInvite | backend/src/features/company/company_router.py:75-86 | A fresh session whose first row is Admin passes the invitation handlers' admin check |

## Left out

- JWT signing, verification and expiry (`create_jwt_token`, `decode_jwt_token`, the session token's encoding): the codec is a parameter. A decode failure is modelled as each handler's own refusal (403 in join, 400 in accept). `decode_jwt_token` is not part of this model. Join checks its result for falsity and accept catches an exception, so whichever way it signals failure, one of the two handlers answers 500 instead.
- Password hashing: a `Hasher` parameter; `SignupThenLogin` assumes only that a password verifies against its own hash.
- `send_mail` and the `server_url` link of `send_invitation_link`: I/O. The model returns the payload, validity and recipient it would sign and mail.
- The company, task and sales services: their code is not part of this model, so their results are parameters.
- `config.py`: `api_prefix` is a parameter of `CreateInvitationLink`.
- The FastAPI dependency injection, `response_model` filtering and the 422 validation of path and body parameters.
- Concurrency and database constraints: the two commits of `create_company` are one step, and no uniqueness constraint on `CompanyMember.user_id` is assumed.
- The `print` in `create_user`.
- UserServices.AuthenticateUser: returns the session claims instead of the signed `Token`, because the signer is not part of this model.
- TaskRouter.MemberRefs: the `hasattr(user_obj, "photo")` test is modelled by an optional photo, and the `CompanyMember` lookup by its outcome.
- TaskRouter.Lookups: a found CompanyMember row supplies `work`. The CompanyMember rows modelled here have no `work` column, and the model file that would settle it is not part of this model. If the column is missing, lines 61 and 100 of task_router.py raise on a found row, and the model does not capture that 500.
- UserServices.ApplyUpdate: update values are strings. `exclude_unset=True` also keeps a field the client explicitly set to null, and the model does not represent writing None into a column.
- CompanyRouter.ReadCompany: the docstring says "by company_id", but the handler has no `company_id` parameter and the service looks the company up from the session. The model follows the code and gives no corrected definition, because nothing in the handler says which company the path should select.
- SalesRouter.LowerChar: lowers ASCII capitals only, where Python's `str.lower` also lowers other capitals ('É' to 'é', and 'İ' to two characters). This cannot change the comparison with "admin". Python lowers only two characters outside ASCII to something containing an ASCII letter. The Kelvin sign (U+212A) lowers to 'k', which "admin" does not contain. 'İ' (U+0130) lowers to 'i' followed by the non-ASCII U+0307, which cannot be part of "admin". So `IsSalesAdmin` and `SalesAdminSpellings` give the same answer as Python.
- SalesRouter.Lower: the same ASCII-only lowering as LowerChar, for the same reason.

## Findings

| source | as written | input that shows it | evidently intended | confidence | as-written member | corrected member |
|---|---|---|---|---|---|---|
| backend/src/features/kanban/task_router.py:115-121 | The `status` parameter hides the fastapi `status` module, so `status.HTTP_404_NOT_FOUND` raises AttributeError: 500 | PATCH /tasks/{id}/status for a task id that does not exist | 404 "Task not found" | high, not executed | TaskRouter.MissingTaskStatusIsInternalError | TaskRouter.ChangeTaskStatus |
| backend/src/features/sales/sales_router.py:49-54 | The `status` body parameter, a str, hides the `status` module: 500 | PATCH /sales/{id}/status by an admin for a sale the service does not find | 404 "Sale not found" | high, not executed | SalesRouter.MissingSaleStatusIsInternalError | SalesRouter.ChangeSalesStatus |
| backend/src/features/sales/sales_router.py:14 | `user.role.lower()` on a session without a role raises AttributeError: 500 | Any sales request by a user who logged in without a membership row (role None) | 403 "Admins only" | high, not executed | SalesRouter.RolelessCallerGetsInternalError | SalesRouter.AdminRequired |
| backend/src/features/company/company_router.py:299-307 | accept_invitation_link inserts without checking existing rows | A payload for a user who already has a CompanyMember row, or the same invitation accepted twice. With the routes as declared no request reaches this handler (AcceptInvitationLinkUnreachable), so the duplicate row appears once the route order is corrected or the handler is called directly | Refuse a user who already belongs to a company, as join_company_via_invite does | medium, not executed | CompanyRouter.AcceptBreaksSingleMembership | CompanyRouter.AcceptCheckedKeepsSingleMembership |
| backend/src/features/company/company_router.py:119-140 | join_company_via_invite never compares the payload's `new_member_email` with the caller | A token mailed to a@x by send_invitation_link, redeemed at GET /company/invitation/join by b@x, who has no membership row | A targeted invitation admits only its invitee | medium, not executed | CompanyRouter.JoinIgnoresInvitedEmail | CompanyRouter.JoinCheckedAdmitsOnlyInvitee |
| backend/src/features/company/company_router.py:176-190 | update_company's guard accepts any membership row, of any role and any company, though the docstring says owner/admin | PUT /company/{id} by a plain Member of another company | Only an Admin of the path's company may update it | medium, not executed | CompanyRouter.MemberMayUpdateAnyPath | CompanyRouter.CheckedUpdateRefusesMember |
| backend/src/features/company/company_router.py:277 | GET /{company_id} (line 147) is declared first and matches /join | GET /company/join?token=... is answered by read_company | GET /company/join reaches accept_invitation_link | high, not executed | CompanyRouter.AcceptInvitationLinkUnreachable | CompanyRouter.IntendedJoinReachesAccept |
