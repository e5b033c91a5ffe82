/** The rows of the User, Company and CompanyMember tables, the queries the
    handlers run against them, and the in-memory store that stands for the
    database session. */
module Tables {
  import opened Common

  /** A `User` row. `profile` holds the columns other than id, email, name
      and password, by column name. */
  datatype User = User(id: nat, email: Email, name: string, password: string, profile: map<string, string>)

  /** The fields of `CompanyCreate`: what a founder submits and what
      `update_company` overwrites. */
  datatype CompanyInfo = CompanyInfo(name: string, profile: map<string, string>)

  /** A `Company` row, owned by the user whose email is `owner`. */
  datatype Company = Company(id: nat, owner: Email, info: CompanyInfo)

  /** A `CompanyMember` row: the user (by email) belongs to the company with
      the given role and position. */
  datatype CompanyMember = CompanyMember(userId: Email, companyId: nat, role: MemberRole, position: string)

  /** `select(User).where(User.email == email).first()`, as a row index. */
  function FindUser(users: seq<User>, email: Email): (r: Option<nat>)
    ensures r.Some? ==> r.value < |users| && users[r.value].email == email
    ensures r.Some? ==> forall i :: 0 <= i < r.value ==> users[i].email != email
    ensures r.None? <==> forall i :: 0 <= i < |users| ==> users[i].email != email
  {
    FirstIndex(users, (u: User) => u.email == email)
  }

  /** `select(CompanyMember).where(CompanyMember.user_id == email).first()`. */
  function FirstMembership(members: seq<CompanyMember>, email: Email): (r: Option<CompanyMember>)
    ensures r.Some? ==> r.value.userId == email
    ensures r.Some? ==> exists k :: 0 <= k < |members| && members[k] == r.value &&
                                     forall i :: 0 <= i < k ==> members[i].userId != email
    ensures r.None? <==> forall i :: 0 <= i < |members| ==> members[i].userId != email
  {
    match FirstIndex(members, (m: CompanyMember) => m.userId == email)
    case None => None
    case Some(k) => Some(members[k])
  }

  /** The same query narrowed to one company:
      `.where(user_id == email, company_id == companyId).first()`. */
  function FirstMembershipIn(members: seq<CompanyMember>, email: Email, companyId: nat): (r: Option<CompanyMember>)
    ensures r.Some? ==> r.value.userId == email && r.value.companyId == companyId
    ensures r.Some? ==> exists k :: 0 <= k < |members| && members[k] == r.value &&
                                     forall i :: 0 <= i < k ==>
                                       !(members[i].userId == email && members[i].companyId == companyId)
    ensures r.None? <==> forall i :: 0 <= i < |members| ==>
                           !(members[i].userId == email && members[i].companyId == companyId)
  {
    match FirstIndex(members, (m: CompanyMember) => m.userId == email && m.companyId == companyId)
    case None => None
    case Some(k) => Some(members[k])
  }

  /** `select(CompanyMember).where(CompanyMember.company_id == companyId).all()`:
      every row of the company, as often as the table holds it. */
  function MembersOfCompany(members: seq<CompanyMember>, companyId: nat): (r: seq<CompanyMember>)
    ensures forall m :: m in r <==> m in members && m.companyId == companyId
    ensures forall m :: multiset(r)[m] == if m.companyId == companyId then multiset(members)[m] else 0
  {
    FilterCount(members, (m: CompanyMember) => m.companyId == companyId);
    Filter(members, (m: CompanyMember) => m.companyId == companyId)
  }

  /** `.all()` answers in table order: a row committed last comes last in
      the company's rows, and only if it is one of them. */
  lemma MembersOfCompanyAppend(members: seq<CompanyMember>, row: CompanyMember, companyId: nat)
    ensures MembersOfCompany(members + [row], companyId) ==
            MembersOfCompany(members, companyId) + (if row.companyId == companyId then [row] else [])
  {
    FilterSnoc(members, row, (m: CompanyMember) => m.companyId == companyId);
  }

  /** The intended invariant of the membership table: a user appears in at
      most one CompanyMember row. */
  ghost predicate SingleMembership(members: seq<CompanyMember>) {
    forall i, j :: 0 <= i < j < |members| ==> members[i].userId != members[j].userId
  }

  /** No two users share an email. */
  ghost predicate UniqueEmails(users: seq<User>) {
    forall i, j :: 0 <= i < j < |users| ==> users[i].email != users[j].email
  }

  /** Adding a row for a user who has none keeps the single-membership
      invariant whenever it held. */
  lemma AppendPreservesSingleMembership(members: seq<CompanyMember>, row: CompanyMember)
    requires FirstMembership(members, row.userId).None?
    ensures SingleMembership(members) ==> SingleMembership(members + [row])
  {
    if SingleMembership(members) {
      var ms := members + [row];
      forall i, j | 0 <= i < j < |ms| ensures ms[i].userId != ms[j].userId {
        if j == |members| {
          assert ms[i] == members[i];
        }
      }
    }
  }

  /** Under the invariant, the row `.first()` finds for a user is that
      user's only row, wherever it sits in the table. */
  lemma {:induction false} SoleMembershipIsFirst(members: seq<CompanyMember>, k: nat)
    requires SingleMembership(members)
    requires k < |members|
    ensures FirstMembership(members, members[k].userId) == Some(members[k])
  {
    var email := members[k].userId;
    var r := FirstMembership(members, email);
    assert r.Some?;
    var j :| 0 <= j < |members| && members[j] == r.value &&
             forall i :: 0 <= i < j ==> members[i].userId != email;
    assert j == k;
  }

  /** The database session: the three tables and the id counters of the
      auto-increment primary keys. Handlers that commit rows modify it. */
  class Database {
    var users: seq<User>
    var companies: map<nat, Company>
    var members: seq<CompanyMember>
    var nextUserId: nat
    var nextCompanyId: nat

    /** Storage-level facts: unique user emails, ids below the counters,
        user ids in increasing order and each company stored under its id. */
    ghost predicate Valid()
      reads this
    {
      && 0 < nextUserId && 0 < nextCompanyId
      && UniqueEmails(users)
      && (forall i :: 0 <= i < |users| ==> 0 < users[i].id < nextUserId)
      && (forall i, j :: 0 <= i < j < |users| ==> users[i].id < users[j].id)
      && (forall id :: id in companies ==> 0 < id < nextCompanyId && companies[id].id == id)
    }

    /** An empty database; ids start at 1, as autoincrement keys do. */
    constructor ()
      ensures Valid()
      ensures users == [] && companies == map[] && members == []
      ensures nextUserId == 1 && nextCompanyId == 1
    {
      users, companies, members := [], map[], [];
      nextUserId, nextCompanyId := 1, 1;
    }
  }
}
