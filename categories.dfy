/**
  `GET /api/categories` and `POST /api/categories`: the guard chains, the company's
  category list, and the mapping of a failed insert to a status code.
*/
module Categories {
  import opened Common

  datatype Category = Category(id: string, name: string, slug: string, companyId: string)

  function OfCompany(companyId: string): Category -> bool {
    (c: Category) => c.companyId == companyId
  }

  /**
    `GET /api/categories`: 401 signed out, 400 without a company id, 403 when a non-super asks for
    another company; else the company's categories in the store's order (by name).
  */
  function ListCategories(session: Option<User>, companyId: Option<string>, store: seq<Category>)
    : (r: Response<seq<Category>>)
    ensures session.None? ==> r == Fail(401, "Unauthorized")
    ensures session.Some? && !Truthy(companyId) ==> r == Fail(400, "Company ID is required")
    ensures session.Some? && Truthy(companyId) && !MayAccessCompany(session.value, companyId.value) ==>
      r == Fail(403, "Unauthorized access to company data")
    ensures r.Ok? <==> session.Some? && Truthy(companyId) && MayAccessCompany(session.value, companyId.value)
    ensures r.Ok? ==> IsSubsequence(r.body, store)
    ensures r.Ok? ==> forall c :: c in r.body <==> c in store && c.companyId == companyId.value
  {
    if session.None? then Fail(401, "Unauthorized")
    else if !Truthy(companyId) then Fail(400, "Company ID is required")
    else if session.value.role != Super && session.value.companyId != companyId then
      Fail(403, "Unauthorized access to company data")
    else
      var cs := Filter(store, OfCompany(companyId.value));
      FilterIsSubsequence(store, OfCompany(companyId.value));
      assert forall c :: c in store && c.companyId == companyId.value ==> c in cs by {
        forall c | c in store && c.companyId == companyId.value
          ensures c in cs
        {
          FilterKeeps(store, OfCompany(companyId.value), c);
        }
      }
      Ok(cs)
  }

  /** The status a failed insert answers with: 409 for a unique-constraint violation, else 500. */
  function CreateErrorStatus(code: Option<string>): (status: nat)
    ensures status == 409 <==> code == Some("P2002")
    ensures status == 409 || status == 500
  {
    if code == Some("P2002") then 409 else 500
  }

  /** The outcome of the insert itself, which the store decides. */
  datatype InsertOutcome = Inserted(id: string) | InsertFailed(code: Option<string>)

  /**
    `POST /api/categories`: 401 signed out, 400 when name, slug or company id is missing, 403 when
    a non-super creates for another company; else the insert's outcome: 201 with the new category,
    409 on a duplicate name or slug, 500 on any other error.
  */
  function CreateCategory(session: Option<User>, name: Option<string>, slug: Option<string>,
                          companyId: Option<string>, outcome: InsertOutcome): (r: Response<Category>)
    ensures session.None? ==> r == Fail(401, "Unauthorized")
    ensures session.Some? && !(Truthy(name) && Truthy(slug) && Truthy(companyId)) ==>
      r == Fail(400, "Missing required fields")
    ensures session.Some? && Truthy(name) && Truthy(slug) && Truthy(companyId)
            && !MayAccessCompany(session.value, companyId.value) ==>
      r == Fail(403, "Unauthorized access to company data")
    ensures r.Ok? ==>
      && session.Some? && Truthy(name) && Truthy(slug) && Truthy(companyId)
      && MayAccessCompany(session.value, companyId.value) && outcome.Inserted?
      && r.body == Category(outcome.id, name.value, slug.value, companyId.value)
    ensures r.Fail? && r.status == 409 ==> outcome == InsertFailed(Some("P2002"))
    ensures session.Some? && Truthy(name) && Truthy(slug) && Truthy(companyId)
            && MayAccessCompany(session.value, companyId.value) ==>
      && (outcome.Inserted? ==> r.Ok?)
      && (outcome.InsertFailed? ==> r.Fail? && r.status == CreateErrorStatus(outcome.code))
  {
    if session.None? then Fail(401, "Unauthorized")
    else if !Truthy(name) || !Truthy(slug) || !Truthy(companyId) then Fail(400, "Missing required fields")
    else if session.value.role != Super && session.value.companyId != companyId then
      Fail(403, "Unauthorized access to company data")
    else
      match outcome
      case Inserted(id) => Ok(Category(id, name.value, slug.value, companyId.value))
      case InsertFailed(code) =>
        var status := CreateErrorStatus(code);
        Fail(status, if status == 409 then "A category with this name or slug already exists for this company"
                     else "Failed to create category")
  }

  /** The access rule: a super reaches every company, anyone else only the session's own. */
  lemma AccessRule(user: User, companyId: string)
    ensures user.role == Super ==> MayAccessCompany(user, companyId)
    ensures user.role != Super ==> (MayAccessCompany(user, companyId) <==> user.companyId == Some(companyId))
  {
  }
}
