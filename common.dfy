/** Shared vocabulary of the backend: optional values, handler results with
    their HTTP error, member roles and the claims of a session token. */
module Common {

  datatype Option<+T> = None | Some(value: T) {
    function GetOr(default: T): T {
      match this
      case Some(v) => v
      case None => default
    }
  }

  /** An HTTP error raised by a handler: status code and detail message. */
  datatype HttpError = HttpError(status: nat, detail: string)

  const BadRequest: nat := 400
  const Unauthorized: nat := 401
  const Forbidden: nat := 403
  const NotFound: nat := 404
  /** An exception the handler does not catch (FastAPI answers 500). */
  const InternalError: nat := 500

  /** The 404 both user_services and the task router raise for a session
      whose email has no User row. */
  const UserNotFound := HttpError(NotFound, "User not found")

  /** A handler either answers with a value or raises an HttpError. */
  datatype Result<+T> = Ok(value: T) | Err(error: HttpError)

  type Email = string

  /** `enums.MemberRole`: the role column of a CompanyMember row. */
  datatype MemberRole = Admin | Member

  /** The string a MemberRole is stored and serialised as. */
  function RoleValue(r: MemberRole): (s: string)
    ensures s == "Admin" <==> r == Admin
    ensures s == "Member" <==> r == Member
  {
    match r
    case Admin => "Admin"
    case Member => "Member"
  }

  /** `TokenData`: the claims of a session token, as `get_current_user`
      hands them to a handler. `companyId` and `role` are a snapshot of the
      caller's membership row at login, absent when there was none. */
  datatype TokenData = TokenData(email: Email, companyId: Option<nat>, role: Option<string>)

  /** Python truthiness of an optional id: `None` and `0` are both falsy. */
  predicate Truthy(id: Option<nat>) {
    id.Some? && id.value != 0
  }

  /** Index of the first element of `s` that satisfies `p`, as a query's
      `.first()` picks the first matching row in table order. */
  function FirstIndex<T>(s: seq<T>, p: T -> bool): (r: Option<nat>)
    ensures r.Some? ==> r.value < |s| && p(s[r.value])
    ensures r.Some? ==> forall i :: 0 <= i < r.value ==> !p(s[i])
    ensures r.None? <==> forall i :: 0 <= i < |s| ==> !p(s[i])
  {
    if |s| == 0 then None
    else if p(s[0]) then Some(0)
    else match FirstIndex(s[1..], p)
      case None => None
      case Some(k) => Some(k + 1)
  }

  /** The elements of `s` that satisfy `p`, in order, as a query's `.all()`
      returns the matching rows in table order. */
  function Filter<T(!new)>(s: seq<T>, p: T -> bool): (r: seq<T>)
    ensures |r| <= |s|
    ensures forall x :: x in r <==> x in s && p(x)
  {
    if |s| == 0 then []
    else (if p(s[0]) then [s[0]] else []) + Filter(s[1..], p)
  }

  /** `.all()` loses and repeats nothing: each matching element occurs in
      the result exactly as often as in the table. */
  lemma {:induction false} FilterCount<T(!new)>(s: seq<T>, p: T -> bool)
    ensures forall x :: multiset(Filter(s, p))[x] == if p(x) then multiset(s)[x] else 0
  {
    if |s| > 0 {
      FilterCount(s[1..], p);
      assert s == [s[0]] + s[1..];
    }
  }

  /** Filtering keeps table order: the matches of a concatenation are the
      matches of its first part followed by those of its second. */
  lemma {:induction false} FilterAppend<T(!new)>(a: seq<T>, b: seq<T>, p: T -> bool)
    ensures Filter(a + b, p) == Filter(a, p) + Filter(b, p)
  {
    if |a| == 0 {
      assert a + b == b;
    } else {
      assert (a + b)[0] == a[0];
      assert (a + b)[1..] == a[1..] + b;
      FilterAppend(a[1..], b, p);
    }
  }

  /** A row appended to a table is appended to the matches exactly when it
      satisfies the condition. */
  lemma FilterSnoc<T(!new)>(s: seq<T>, x: T, p: T -> bool)
    ensures Filter(s + [x], p) == Filter(s, p) + (if p(x) then [x] else [])
  {
    FilterAppend(s, [x], p);
    FilterOne(x, p);
  }

  lemma FilterOne<T(!new)>(x: T, p: T -> bool)
    ensures Filter([x], p) == if p(x) then [x] else []
  {
    var one := [x];
    assert one[1..] == [];
    assert Filter(one[1..], p) == [];
  }
}
