/** The product service's categories: create, rename and list by business.
    The SQL repository is an input: each query is a function from its
    parameters to the rows returned or the driver's error. The struct-tag
    validation of a payload is an input too (`shapeErrors`). */
module ProductCategory {
  import opened Common
  import Validation

  /** The product service's `*ServiceError`. */
  datatype ServiceError = ServiceError(httpErrorCode: int, devErrorCode: string, short: string, long: string)

  const InternalError := ServiceError(500, "general_internal_error", "Internal server error", "Internal server error")

  datatype Failure = Invalid(errors: seq<Validation.ValidationError>) | Service(error: ServiceError) | Driver(message: string)

  /** A `product_categories` row as the queries return it. */
  datatype Category = Category(id: Uuid, name: string, businessId: Uuid)

  datatype CreateProductCategoryPayload = CreateProductCategoryPayload(name: string, businessId: Uuid, initiator: Uuid)
  datatype UpdateProductCategoryPayload = UpdateProductCategoryPayload(id: Uuid, name: string, businessId: Uuid, initiator: Uuid)
  datatype ListProductCategoryPayload = ListProductCategoryPayload(businessId: Uuid, page: int, limit: int)

  /** The response of Create, Update and each entry of List. */
  datatype CategoryResponse = CategoryResponse(id: Uuid, name: string)

  datatype CreateProductCategoryParams = CreateProductCategoryParams(name: string, businessId: Uuid, createdBy: Uuid)
  datatype SetProductCategoryNameByIdParams = SetProductCategoryNameByIdParams(id: Uuid, name: string, updatedBy: Option<Uuid>)
  datatype ListParams = ListParams(businessId: Uuid, limit: int, offset: int)

  /** The repository's three queries. */
  datatype Queries = Queries(
    create: CreateProductCategoryParams -> Result<Category, string>,
    setName: SetProductCategoryNameByIdParams -> Result<Category, string>,
    list: ListParams -> Result<seq<Category>, string>)

  /** `CreateProductCategory`: the category is created in the payload's
      business by its initiator; a repository error is `InternalError`. */
  function CreateProductCategory(q: Queries, p: CreateProductCategoryPayload, shapeErrors: seq<Validation.ValidationError>)
    : (r: Result<CategoryResponse, Failure>)
    ensures shapeErrors != [] ==> r == Err(Invalid(shapeErrors))
    ensures shapeErrors == [] && q.create(CreateProductCategoryParams(p.name, p.businessId, p.initiator)).Err? ==>
              r == Err(Service(InternalError))
    ensures r.Ok? ==>
              var row := q.create(CreateProductCategoryParams(p.name, p.businessId, p.initiator));
              shapeErrors == [] && row.Ok? && r.value == CategoryResponse(row.value.id, row.value.name)
  {
    if shapeErrors != [] then Err(Invalid(shapeErrors))
    else
      match q.create(CreateProductCategoryParams(p.name, p.businessId, p.initiator))
      case Err(_) => Err(Service(InternalError))
      case Ok(category) => Ok(CategoryResponse(category.id, category.name))
  }

  /** The rename query `UpdateProductCategory` issues: it names the row by
      its identifier alone. */
  function RenameParams(p: UpdateProductCategoryPayload): SetProductCategoryNameByIdParams {
    SetProductCategoryNameByIdParams(p.id, p.name, Some(p.initiator))
  }

  /** `UpdateProductCategory`: rename by identifier; a repository error is
      returned as it is. */
  function UpdateProductCategory(q: Queries, p: UpdateProductCategoryPayload, shapeErrors: seq<Validation.ValidationError>)
    : (r: Result<CategoryResponse, Failure>)
    ensures shapeErrors != [] ==> r == Err(Invalid(shapeErrors))
    ensures shapeErrors == [] && q.setName(RenameParams(p)).Err? ==> r == Err(Driver(q.setName(RenameParams(p)).error))
    ensures r.Ok? ==>
              shapeErrors == [] && q.setName(RenameParams(p)).Ok?
              && r.value == CategoryResponse(q.setName(RenameParams(p)).value.id, q.setName(RenameParams(p)).value.name)
  {
    if shapeErrors != [] then Err(Invalid(shapeErrors))
    else
      match q.setName(RenameParams(p))
      case Err(e) => Err(Driver(e))
      case Ok(category) => Ok(CategoryResponse(category.id, category.name))
  }

  /** The business named in the update payload plays no part: the same
      rename goes to the same row whichever business is named. */
  lemma UpdateIgnoresBusiness(q: Queries, p: UpdateProductCategoryPayload, otherBusiness: Uuid,
                              shapeErrors: seq<Validation.ValidationError>)
    ensures UpdateProductCategory(q, p.(businessId := otherBusiness), shapeErrors) == UpdateProductCategory(q, p, shapeErrors)
  {
    assert RenameParams(p.(businessId := otherBusiness)) == RenameParams(p);
  }

  const DefaultLimit: int := 10
  const DefaultPage: int := 1

  /** The page query: an unset limit is 10, an unset page is 1, and the
      offset skips the earlier pages. */
  function PageQuery(p: ListProductCategoryPayload): (params: ListParams)
    ensures params.businessId == p.businessId
    ensures params.limit == (if p.limit == 0 then 10 else p.limit)
    ensures params.offset == ((if p.page == 0 then 1 else p.page) - 1) * params.limit
  {
    var limit := if p.limit == 0 then DefaultLimit else p.limit;
    var page := if p.page == 0 then DefaultPage else p.page;
    ListParams(p.businessId, limit, (page - 1) * limit)
  }

  /** The first page starts at the beginning, and each page starts where the
      one before it ends. */
  lemma PagesAreConsecutive(p: ListProductCategoryPayload)
    requires p.page >= 1
    ensures PageQuery(p.(page := 1)).offset == 0
    ensures PageQuery(p.(page := p.page + 1)).offset == PageQuery(p).offset + PageQuery(p).limit
  {
  }

  /** Two different pages of positive size start at least a page apart, so
      they never ask for the same rows. */
  lemma {:induction false} PagesDisjoint(p: ListProductCategoryPayload, page1: int, page2: int)
    requires page1 >= 1 && page2 > page1 && p.limit >= 0
    ensures PageQuery(p.(page := page2)).offset >= PageQuery(p.(page := page1)).offset + PageQuery(p.(page := page1)).limit
  {
    var limit := PageQuery(p).limit;
    assert limit >= 0;
    assert (page2 - 1) * limit >= page1 * limit by {
      assert page2 - 1 >= page1;
      MulMonotone(limit, page1, page2 - 1);
    }
  }

  lemma MulMonotone(k: int, a: int, b: int)
    requires k >= 0 && a <= b
    ensures a * k <= b * k
  {
    assert b * k - a * k == (b - a) * k;
  }

  /** The list response: one entry per returned row, its identifier and name, in order. */
  function Entries(rows: seq<Category>): (es: seq<CategoryResponse>)
    ensures |es| == |rows|
    ensures forall i :: 0 <= i < |rows| ==> es[i] == CategoryResponse(rows[i].id, rows[i].name)
  {
    seq(|rows|, i requires 0 <= i < |rows| => CategoryResponse(rows[i].id, rows[i].name))
  }

  /** `ListProductCategories`: the defaults, one page query, and one entry
      per row; a validation or query error returns the empty list. */
  method ListProductCategories(q: Queries, payload: ListProductCategoryPayload, shapeErrors: seq<Validation.ValidationError>)
    returns (response: seq<CategoryResponse>, err: Option<Failure>)
    ensures shapeErrors != [] ==> response == [] && err == Some(Invalid(shapeErrors))
    ensures shapeErrors == [] && q.list(PageQuery(payload)).Err? ==>
              response == [] && err == Some(Driver(q.list(PageQuery(payload)).error))
    ensures shapeErrors == [] && q.list(PageQuery(payload)).Ok? ==>
              err.None? && response == Entries(q.list(PageQuery(payload)).value)
  {
    response := [];
    if shapeErrors != [] {
      return response, Some(Invalid(shapeErrors));
    }
    var p := payload;
    if p.limit == 0 {
      p := p.(limit := DefaultLimit);
    }
    if p.page == 0 {
      p := p.(page := DefaultPage);
    }
    var categories := q.list(ListParams(p.businessId, p.limit, (p.page - 1) * p.limit));
    assert ListParams(p.businessId, p.limit, (p.page - 1) * p.limit) == PageQuery(payload);
    if categories.Err? {
      return response, Some(Driver(categories.error));
    }
    var rows := categories.value;
    var i := 0;
    while i < |rows|
      invariant 0 <= i <= |rows|
      invariant response == Entries(rows[..i])
    {
      response := response + [CategoryResponse(rows[i].id, rows[i].name)];
      i := i + 1;
    }
    assert rows[..i] == rows;
    return response, None;
  }
}
