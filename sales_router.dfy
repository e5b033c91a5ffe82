/** `sales_router.py`: every sales endpoint sits behind `admin_required`,
    hands the caller's token company to a sales service, and turns a missing
    sale into 404. The services are collaborators passed in as functions. */
module SalesRouter {
  import opened Common

  /** `str.lower()` on one character, for the letters that matter here: an
      ASCII capital becomes its small letter, every other character is left
      alone. */
  function LowerChar(c: char): (d: char)
    ensures 'A' <= c <= 'Z' ==> d as int == c as int + 32
    ensures !('A' <= c <= 'Z') ==> d == c
  {
    if 'A' <= c <= 'Z' then (c as int + 32) as char else c
  }

  function Lower(s: string): (r: string)
    ensures |r| == |s|
    ensures forall i :: 0 <= i < |s| ==> r[i] == LowerChar(s[i])
  {
    seq(|s|, i requires 0 <= i < |s| => LowerChar(s[i]))
  }

  /** `role.lower() == "admin"`: five characters that lower, one by one, to
      the letters of "admin". */
  function IsSalesAdmin(role: string): (b: bool)
    ensures b <==> |role| == 5 && forall i :: 0 <= i < 5 ==> LowerChar(role[i]) == "admin"[i]
  {
    var low := Lower(role);
    assert |role| == 5 && (forall i :: 0 <= i < 5 ==> LowerChar(role[i]) == "admin"[i]) ==> low == "admin";
    low == "admin"
  }

  const AdminsOnly := HttpError(Forbidden, "Admins only")
  const SaleNotFound := HttpError(NotFound, "Sale not found")
  /** `None.lower()`: the session of a user without a membership has no role. */
  const NoneRoleAttributeError := HttpError(InternalError, "AttributeError: 'NoneType' object has no attribute 'lower'")
  /** `status.HTTP_404_NOT_FOUND` looked up on the `status` body parameter,
      a str, which hides the fastapi `status` module in change_sales_status. */
  const StatusAttributeError := HttpError(InternalError, "AttributeError: 'str' object has no attribute 'HTTP_404_NOT_FOUND'")

  /** `admin_required` as written: a missing role reaches `.lower()`. */
  function AdminRequiredAsWritten(caller: TokenData): (r: Result<TokenData>)
    ensures caller.role.None? ==> r == Err(NoneRoleAttributeError)
    ensures caller.role.Some? ==> (r.Ok? <==> IsSalesAdmin(caller.role.value))
    ensures caller.role.Some? && r.Err? ==> r.error == AdminsOnly
    ensures r.Ok? ==> r.value == caller
  {
    match caller.role
    case None => Err(NoneRoleAttributeError)
    case Some(role) => if !IsSalesAdmin(role) then Err(AdminsOnly) else Ok(caller)
  }

  /** `admin_required` as intended: the caller passes exactly when the role
      lower-cases to "admin"; everyone else, a caller without a role
      included, gets 403. */
  function AdminRequired(caller: TokenData): (r: Result<TokenData>)
    ensures r.Ok? <==> caller.role.Some? && IsSalesAdmin(caller.role.value)
    ensures r.Ok? ==> r.value == caller
    ensures r.Err? ==> r.error == AdminsOnly
  {
    if caller.role.None? || !IsSalesAdmin(caller.role.value) then Err(AdminsOnly) else Ok(caller)
  }

  /** A sale as the services return it. */
  datatype Sale = Sale(id: nat, fields: map<string, string>)

  /** `SalesCreate` and `SalesUpdate`: request bodies, field by field. */
  type SaleFields = map<string, string>

  /** The two guards differ only for a caller without a role. */
  lemma GuardsAgreeOnRole(caller: TokenData)
    requires caller.role.Some?
    ensures AdminRequiredAsWritten(caller) == AdminRequired(caller)
  {
  }

  /** `create_sales`: behind admin_required, the created sale for the
      caller's token company. */
  function CreateSales(caller: TokenData, sale: SaleFields,
                       createSale: (SaleFields, Option<nat>) -> Sale): (r: Result<Sale>)
    ensures r.Ok? <==> AdminRequiredAsWritten(caller).Ok?
    ensures r.Err? ==> r.error == AdminRequiredAsWritten(caller).error
    ensures r.Ok? ==> r.value == createSale(sale, caller.companyId)
  {
    match AdminRequiredAsWritten(caller)
    case Err(e) => Err(e)
    case Ok(user) => Ok(createSale(sale, user.companyId))
  }

  /** `update_sales`: behind admin_required; 404 exactly when update_sale,
      scoped to the caller's token company, returns nothing. */
  function UpdateSales(caller: TokenData, saleId: nat, update: SaleFields,
                       updateSale: (nat, SaleFields, Option<nat>) -> Option<Sale>): (r: Result<Sale>)
    ensures AdminRequiredAsWritten(caller).Err? ==> r == Err(AdminRequiredAsWritten(caller).error)
    ensures AdminRequiredAsWritten(caller).Ok? && updateSale(saleId, update, caller.companyId).None? ==>
              r == Err(SaleNotFound)
    ensures r.Ok? <==> AdminRequiredAsWritten(caller).Ok? && updateSale(saleId, update, caller.companyId).Some?
    ensures r.Ok? ==> r.value == updateSale(saleId, update, caller.companyId).value
  {
    match AdminRequiredAsWritten(caller)
    case Err(e) => Err(e)
    case Ok(user) =>
      match updateSale(saleId, update, user.companyId)
      case None => Err(SaleNotFound)
      case Some(s) => Ok(s)
  }

  /** `read_all_sales`: even listing is behind admin_required; the list is
      the one for the caller's token company. */
  function ReadAllSales(caller: TokenData, getAllSales: Option<nat> -> seq<Sale>): (r: Result<seq<Sale>>)
    ensures r.Ok? <==> AdminRequiredAsWritten(caller).Ok?
    ensures r.Err? ==> r.error == AdminRequiredAsWritten(caller).error
    ensures r.Ok? ==> r.value == getAllSales(caller.companyId)
  {
    match AdminRequiredAsWritten(caller)
    case Err(e) => Err(e)
    case Ok(user) => Ok(getAllSales(user.companyId))
  }

  /** `change_sales_status` as written: behind admin_required, and the 404
      branch fails on the shadowed `status` name. */
  function ChangeSalesStatusAsWritten(caller: TokenData, saleId: nat, status: string,
                                      changeStatus: (nat, string, Option<nat>) -> Option<Sale>): (r: Result<Sale>)
    ensures AdminRequiredAsWritten(caller).Err? ==> r == Err(AdminRequiredAsWritten(caller).error)
    ensures AdminRequiredAsWritten(caller).Ok? && changeStatus(saleId, status, caller.companyId).None? ==>
              r == Err(StatusAttributeError)
    ensures r.Ok? <==> AdminRequiredAsWritten(caller).Ok? && changeStatus(saleId, status, caller.companyId).Some?
    ensures r.Ok? ==> r.value == changeStatus(saleId, status, caller.companyId).value
  {
    match AdminRequiredAsWritten(caller)
    case Err(e) => Err(e)
    case Ok(user) =>
      match changeStatus(saleId, status, user.companyId)
      case None => Err(StatusAttributeError)
      case Some(s) => Ok(s)
  }

  /** For an admin and a sale the service does not find, the as-written
      handler answers 500 where the intended one answers 404. */
  lemma MissingSaleStatusIsInternalError(caller: TokenData, saleId: nat, status: string,
                                         changeStatus: (nat, string, Option<nat>) -> Option<Sale>)
    requires AdminRequired(caller).Ok?
    requires changeStatus(saleId, status, caller.companyId).None?
    ensures ChangeSalesStatusAsWritten(caller, saleId, status, changeStatus).error.status == InternalError
    ensures ChangeSalesStatus(caller, saleId, status, changeStatus).error.status == NotFound
  {
    GuardsAgreeOnRole(caller);
  }

  /** `change_sales_status` as intended: the corrected guard, then 404
      exactly when change_status, scoped to the caller's token company,
      returns nothing. */
  function ChangeSalesStatus(caller: TokenData, saleId: nat, status: string,
                             changeStatus: (nat, string, Option<nat>) -> Option<Sale>): (r: Result<Sale>)
    ensures AdminRequired(caller).Err? ==> r == Err(AdminsOnly)
    ensures AdminRequired(caller).Ok? && changeStatus(saleId, status, caller.companyId).None? ==> r == Err(SaleNotFound)
    ensures r.Ok? <==> AdminRequired(caller).Ok? && changeStatus(saleId, status, caller.companyId).Some?
    ensures r.Ok? ==> r.value == changeStatus(saleId, status, caller.companyId).value
  {
    match AdminRequired(caller)
    case Err(e) => Err(e)
    case Ok(user) =>
      match changeStatus(saleId, status, user.companyId)
      case None => Err(SaleNotFound)
      case Some(s) => Ok(s)
  }

  /** `read_sale`: behind admin_required; 404 exactly when get_sale, scoped
      to the caller's token company, returns nothing. */
  function ReadSale(caller: TokenData, saleId: nat, getSale: (nat, Option<nat>) -> Option<Sale>): (r: Result<Sale>)
    ensures AdminRequiredAsWritten(caller).Err? ==> r == Err(AdminRequiredAsWritten(caller).error)
    ensures AdminRequiredAsWritten(caller).Ok? && getSale(saleId, caller.companyId).None? ==> r == Err(SaleNotFound)
    ensures r.Ok? <==> AdminRequiredAsWritten(caller).Ok? && getSale(saleId, caller.companyId).Some?
    ensures r.Ok? ==> r.value == getSale(saleId, caller.companyId).value
  {
    match AdminRequiredAsWritten(caller)
    case Err(e) => Err(e)
    case Ok(user) =>
      match getSale(saleId, user.companyId)
      case None => Err(SaleNotFound)
      case Some(s) => Ok(s)
  }

  /** A caller whose session carries no role, as login issues for a user
      without a membership row, gets 500 from every sales endpoint as
      written, where the corrected guard answers 403. */
  lemma RolelessCallerGetsInternalError(caller: TokenData, saleId: nat, fields: SaleFields, status: string,
                                        createSale: (SaleFields, Option<nat>) -> Sale,
                                        updateSale: (nat, SaleFields, Option<nat>) -> Option<Sale>,
                                        getAllSales: Option<nat> -> seq<Sale>,
                                        changeStatus: (nat, string, Option<nat>) -> Option<Sale>,
                                        getSale: (nat, Option<nat>) -> Option<Sale>)
    requires caller.role.None?
    ensures CreateSales(caller, fields, createSale) == Err(NoneRoleAttributeError)
    ensures UpdateSales(caller, saleId, fields, updateSale) == Err(NoneRoleAttributeError)
    ensures ReadAllSales(caller, getAllSales) == Err(NoneRoleAttributeError)
    ensures ChangeSalesStatusAsWritten(caller, saleId, status, changeStatus) == Err(NoneRoleAttributeError)
    ensures ReadSale(caller, saleId, getSale) == Err(NoneRoleAttributeError)
    ensures NoneRoleAttributeError.status == InternalError
    ensures ChangeSalesStatus(caller, saleId, status, changeStatus) == Err(AdminsOnly)
  {
  }

  /** Two callers with the same role and token company get the same answer
      from read_sale. This holds by construction: the guard reads only the
      role, and the handler hands only the token's company to get_sale. */
  lemma ReadSaleScopedByTokenCompany(a: TokenData, b: TokenData, saleId: nat,
                                     getSale: (nat, Option<nat>) -> Option<Sale>)
    requires a.role == b.role && a.companyId == b.companyId
    ensures ReadSale(a, saleId, getSale) == ReadSale(b, saleId, getSale)
  {
  }
}
