/** The catalog handlers of controllers/productController.js: the listing query
    built clause by clause with its parameter list, the sort whitelist, the
    camel-case renaming of rows, and the writes of create, update and delete
    with the resolution of a category given by name. */
module Catalog {
  import opened Store
  import opened Numbers
  import Paging
  import opened Sql

  // ---------------------------------------------------------------------------
  // getProducts: the query and its parameters

  const SelectProducts := "SELECT p.*, u.full_name as seller_name FROM products p LEFT JOIN users u ON p.seller_id = u.user_id WHERE 1=1"
  const SelectCount := "SELECT COUNT(*) as total FROM products p LEFT JOIN users u ON p.seller_id = u.user_id WHERE 1=1"

  const ValidSortFields: seq<string> := ["created_at", "product_id", "price", "name", "stock_quantity"]

  /** The listing's query-string inputs; `page` and `limit` already hold their defaults. */
  datatype ListQuery = ListQuery(
    page: int,
    limit: int,
    search: Option<string>,
    category: Option<string>,
    minPrice: Option<string>,
    maxPrice: Option<string>,
    sortBy: Option<string>,
    order: Option<string>)

  /** The column the listing sorts by: the requested one when whitelisted, else `created_at`. */
  function SortField(sortBy: Option<string>): (f: string)
    ensures f in ValidSortFields
    ensures sortBy.Some? && sortBy.value in ValidSortFields ==> f == sortBy.value
    ensures !(sortBy.Some? && sortBy.value in ValidSortFields) ==> f == "created_at"
  {
    if sortBy.Some? && sortBy.value in ValidSortFields then sortBy.value else "created_at"
  }

  /** `toUpperCase` on the ASCII letters. */
  function UpperChar(c: char): char
  {
    if 'a' <= c <= 'z' then (c as int - 32) as char else c
  }

  function Upper(s: string): (r: string)
    ensures |r| == |s| && forall i :: 0 <= i < |s| ==> r[i] == UpperChar(s[i])
  {
    if s == [] then [] else [UpperChar(s[0])] + Upper(s[1..])
  }

  /** The direction of the sort: `ASC` when the request's order upper-cases to `ASC`,
      `DESC` otherwise (and by default). */
  function SortOrder(order: Option<string>): (d: string)
    ensures d == "ASC" || d == "DESC"
  {
    if order.Some? && Upper(order.value) == "ASC" then "ASC" else "DESC"
  }

  /** The order is ascending exactly for the three letters a, s, c in either case. */
  lemma SortOrderAscending(s: string)
    ensures SortOrder(Some(s)) == "ASC" <==>
      |s| == 3 && (s[0] == 'a' || s[0] == 'A') && (s[1] == 's' || s[1] == 'S') && (s[2] == 'c' || s[2] == 'C')
  {
    if |s| == 3 {
      var u := Upper(s);
      if u == "ASC" {
        assert u[0] == 'A' && u[1] == 'S' && u[2] == 'C';
      }
      if (s[0] == 'a' || s[0] == 'A') && (s[1] == 's' || s[1] == 'S') && (s[2] == 'c' || s[2] == 'C') {
        assert u == [u[0], u[1], u[2]];
      }
    }
  }

  /** The number of parameters the filters of a listing bind: two for a search, one
      for each other filter present. */
  function FilterParams(f: ListQuery): nat
  {
    (if Truthy(f.search) then 2 else 0) + (if Truthy(f.category) then 1 else 0) +
    (if Truthy(f.minPrice) then 1 else 0) + (if Truthy(f.maxPrice) then 1 else 0)
  }

  /** The `WHERE` clauses for the present filters, in the order getProducts appends
      them, with their parameters: as many placeholders as parameters. */
  method FilterClauses(f: ListQuery) returns (filters: seq<Tok>, params: seq<Param>)
    ensures Holes(filters) == |params| && |params| == FilterParams(f)
    ensures Truthy(f.search) ==> params[0] == Str("%" + f.search.value + "%") && params[1] == params[0]
  {
    filters := [];
    params := [];
    if Truthy(f.search) {
      var pattern := "%" + f.search.value + "%";
      var clause := Clause(" AND (p.name LIKE ", " OR p.description LIKE ") + Clause("", ")");
      HolesAppend(Clause(" AND (p.name LIKE ", " OR p.description LIKE "), Clause("", ")"));
      HolesAppend(filters, clause);
      filters := filters + clause;
      params := params + [Str(pattern), Str(pattern)];
    }
    if Truthy(f.category) {
      HolesAppend(filters, Clause(" AND p.category = ", ""));
      filters := filters + Clause(" AND p.category = ", "");
      params := params + [Str(f.category.value)];
    }
    if Truthy(f.minPrice) {
      HolesAppend(filters, Clause(" AND p.price >= ", ""));
      filters := filters + Clause(" AND p.price >= ", "");
      params := params + [Str(f.minPrice.value)];
    }
    if Truthy(f.maxPrice) {
      HolesAppend(filters, Clause(" AND p.price <= ", ""));
      filters := filters + Clause(" AND p.price <= ", "");
      params := params + [Str(f.maxPrice.value)];
    }
  }

  /** getProducts' query building: one clause per present filter, each with its
      parameters; the count query is the filtered query with the select list
      replaced; sorting and paging are appended to the listing query only. Every
      query has exactly as many placeholders as parameters. */
  method BuildProductQuery(f: ListQuery) returns (query: seq<Tok>, params: seq<Param>, countQuery: seq<Tok>, countParams: seq<Param>)
    ensures Holes(query) == |params| && Holes(countQuery) == |countParams|
    ensures |countParams| == FilterParams(f)
    ensures params == countParams + [Int(f.limit), Int(Paging.Offset(f.page, f.limit))]
    ensures Truthy(f.search) ==> countParams[0] == Str("%" + f.search.value + "%") && countParams[1] == countParams[0]
    ensures |countQuery| >= 1 && query[0] == Text(SelectProducts) && countQuery[0] == Text(SelectCount)
    ensures |countQuery| + 4 == |query| && countQuery[1..] == query[1..|countQuery|]
    ensures query[|countQuery|..] == Clause(" ORDER BY p." + SortField(f.sortBy) + " " + SortOrder(f.order) + " LIMIT ", " OFFSET ") + [Hole]
  {
    var filters;
    filters, params := FilterClauses(f);
    countQuery := [Text(SelectCount)] + filters;
    countParams := params;
    HolesAppend([Text(SelectCount)], filters);
    HolesAppend([Text(SelectProducts)], filters);
    var tail := Clause(" ORDER BY p." + SortField(f.sortBy) + " " + SortOrder(f.order) + " LIMIT ", " OFFSET ") + [Hole];
    HoleAlone();
    HolesAppend(Clause(" ORDER BY p." + SortField(f.sortBy) + " " + SortOrder(f.order) + " LIMIT ", " OFFSET "), [Hole]);
    HolesAppend([Text(SelectProducts)] + filters, tail);
    query := [Text(SelectProducts)] + filters + tail;
    assert countQuery[1..] == filters && query[1..|countQuery|] == filters && query[|countQuery|..] == tail;
    params := params + [Int(f.limit), Int(Paging.Offset(f.page, f.limit))];
  }

  // ---------------------------------------------------------------------------
  // Listed products

  /** A product as the listing reports it, under its camel-case names. */
  datatype ListedProduct = ListedProduct(
    id: int,
    name: string,
    description: Option<string>,
    price: int,
    stock: int,
    category: int,
    imageUrl: Option<string>,
    sellerName: Option<string>)

  function FormatProduct(id: int, p: Product, sellerName: Option<string>): ListedProduct
  {
    ListedProduct(id, p.name, p.description, p.price, p.stock, p.category, p.imageUrl, sellerName)
  }

  /** The row a listed product was made from, given the seller id the listing omits. */
  function StoredProduct(l: ListedProduct, seller: int): Product
  {
    Product(seller, l.name, l.description, l.price, l.category, l.stock, l.imageUrl)
  }

  /** The renaming loses nothing: `product_id` becomes `id`, `stock_quantity` becomes
      `stock`, `category_id` becomes `category`, and the row can be read back. */
  lemma FormatProductRoundTrip(id: int, p: Product, sellerName: Option<string>)
    ensures FormatProduct(id, p, sellerName).id == id
    ensures FormatProduct(id, p, sellerName).stock == p.stock && FormatProduct(id, p, sellerName).category == p.category
    ensures StoredProduct(FormatProduct(id, p, sellerName), p.seller) == p
  {
  }

  // ---------------------------------------------------------------------------
  // Category resolution

  /** A category as a request gives it: a JSON number, or a string. */
  datatype CategoryInput = CategoryNumber(n: int) | CategoryText(s: string)

  predicate CategoryTruthy(c: Option<CategoryInput>)
  {
    c.Some? && (match c.value
      case CategoryNumber(n) => n != 0
      case CategoryText(s) => s != "")
  }

  /** The id a category input is used as directly: a number, or a string that reads
      as a number; `None` for a string that does not, which is a category name. */
  function NumericCategory(c: CategoryInput): (r: Option<int>)
    ensures c.CategoryNumber? ==> r == Some(c.n)
    ensures r.None? ==> c.CategoryText? && JsNumber(c.s).None?
  {
    match c
    case CategoryNumber(n) => Some(n)
    case CategoryText(s) => JsNumber(s)
  }

  predicate HasCategoryNamed(categories: map<int, string>, name: string)
  {
    exists k :: k in categories && categories[k] == name
  }

  /** The categories table once a category input is resolved, `next` being the id the
      next inserted category receives: a name no category has yet is added under
      `next`; a number or a name already present leaves the table as it is. */
  function ResolvedCategories(categories: map<int, string>, c: CategoryInput, next: int): map<int, string>
  {
    if NumericCategory(c).None? && !HasCategoryNamed(categories, c.s) then categories[next := c.s] else categories
  }

  /** A numeric category is used as the id; a name is looked up and, when no category
      has it, inserted under a new id. */
  method ResolveCategory(db: Database, c: CategoryInput) returns (id: int)
    requires db.Valid()
    modifies db
    ensures db.Valid()
    ensures db.categories == ResolvedCategories(old(db.categories), c, old(db.nextCategoryId))
    ensures NumericCategory(c).Some? ==> id == NumericCategory(c).value && unchanged(db)
    ensures NumericCategory(c).None? ==> id in db.categories && db.categories[id] == c.s
    ensures NumericCategory(c).None? && HasCategoryNamed(old(db.categories), c.s) ==> unchanged(db)
    ensures NumericCategory(c).None? && !HasCategoryNamed(old(db.categories), c.s) ==>
      id !in old(db.categories) && db.Content() == old(db.Content()).(categories := old(db.categories)[id := c.s])
  {
    var n := NumericCategory(c);
    if n.Some? {
      return n.value;
    }
    var name := c.s;
    if k :| k in db.categories && db.categories[k] == name {
      return k;
    }
    id := db.nextCategoryId;
    db.categories := db.categories[id := name];
    db.nextCategoryId := db.nextCategoryId + 1;
  }

  // ---------------------------------------------------------------------------
  // createProduct

  /** The body of a create or update request; `None` stands for a field left out. */
  datatype ProductInput = ProductInput(
    name: Option<string>,
    description: Option<string>,
    price: Option<int>,
    category: Option<CategoryInput>,
    stock: Option<int>,
    imageUrl: Option<string>)

  predicate PriceTruthy(p: Option<int>)
  {
    p.Some? && p.value != 0
  }

  /** What createProduct demands: a name, a price and a category that are truthy, and a stock that is given. */
  predicate CreateComplete(input: ProductInput)
  {
    Truthy(input.name) && PriceTruthy(input.price) && CategoryTruthy(input.category) && input.stock.Some?
  }

  /** The row createProduct inserts; empty description and image become NULL. */
  function NewProduct(seller: int, input: ProductInput, category: int): Product
    requires CreateComplete(input)
  {
    Product(seller, input.name.value, if Truthy(input.description) then input.description else None,
            input.price.value, category, input.stock.value, if Truthy(input.imageUrl) then input.imageUrl else None)
  }

  /** True when `id` is what the category input names in `categories`. */
  predicate CategoryNamed(categories: map<int, string>, c: CategoryInput, id: int)
  {
    if NumericCategory(c).Some? then id == NumericCategory(c).value
    else id in categories && categories[id] == c.s
  }

  /** createProduct: an incomplete request is refused with 400 and writes nothing;
      otherwise the category is resolved and one product row owned by the caller is
      inserted under a new id (201). */
  method CreateProduct(db: Database, seller: int, input: ProductInput) returns (code: int, productId: Option<int>)
    requires db.Valid()
    modifies db
    ensures db.Valid()
    ensures code == 400 <==> !CreateComplete(input)
    ensures code == 400 ==> productId.None? && unchanged(db)
    ensures code != 400 ==> code == 201 && productId.Some? && productId.value !in old(db.products)
    ensures code == 201 ==>
      var id := productId.value;
      id in db.products && CategoryNamed(db.categories, input.category.value, db.products[id].category) &&
      db.products == old(db.products)[id := NewProduct(seller, input, db.products[id].category)] &&
      db.Content() == old(db.Content()).(categories := db.categories, products := db.products)
    ensures code == 201 ==> db.categories == ResolvedCategories(old(db.categories), input.category.value, old(db.nextCategoryId))
    ensures forall k :: k in old(db.categories) ==> k in db.categories && db.categories[k] == old(db.categories)[k]
  {
    if !CreateComplete(input) {
      return 400, None;
    }
    var category := ResolveCategory(db, input.category.value);
    var id := db.nextProductId;
    db.products := db.products[id := NewProduct(seller, input, category)];
    db.nextProductId := db.nextProductId + 1;
    return 201, Some(id);
  }

  // ---------------------------------------------------------------------------
  // updateProduct: the fields an update writes

  /** True when the update request names no field it would write. */
  predicate NoFields(input: ProductInput)
  {
    !Truthy(input.name) && input.description.None? && !PriceTruthy(input.price) &&
    !CategoryTruthy(input.category) && input.stock.None? && input.imageUrl.None?
  }

  /** The product after the update: name, price and category only when truthy;
      description, stock and image whenever given. */
  function ApplyUpdate(p: Product, input: ProductInput, category: int): Product
  {
    p.(name := if Truthy(input.name) then input.name.value else p.name,
       description := if input.description.Some? then input.description else p.description,
       price := if PriceTruthy(input.price) then input.price.value else p.price,
       category := if CategoryTruthy(input.category) then category else p.category,
       stock := if input.stock.Some? then input.stock.value else p.stock,
       imageUrl := if input.imageUrl.Some? then input.imageUrl else p.imageUrl)
  }

  /** The columns an update can write. */
  datatype Column = NameColumn | DescriptionColumn | PriceColumn | CategoryColumn | StockColumn | ImageColumn

  function ColumnName(c: Column): string
  {
    match c
    case NameColumn => "name"
    case DescriptionColumn => "description"
    case PriceColumn => "price"
    case CategoryColumn => "category_id"
    case StockColumn => "stock_quantity"
    case ImageColumn => "image_url"
  }

  /** A product's column as a bound parameter. */
  function ColumnValue(p: Product, c: Column): Param
  {
    match c
    case NameColumn => Str(p.name)
    case DescriptionColumn => if p.description.Some? then Str(p.description.value) else Null
    case PriceColumn => Int(p.price)
    case CategoryColumn => Int(p.category)
    case StockColumn => Int(p.stock)
    case ImageColumn => if p.imageUrl.Some? then Str(p.imageUrl.value) else Null
  }

  /** True when the update request writes column `c`. */
  predicate Writes(input: ProductInput, c: Column)
  {
    match c
    case NameColumn => Truthy(input.name)
    case DescriptionColumn => input.description.Some?
    case PriceColumn => PriceTruthy(input.price)
    case CategoryColumn => CategoryTruthy(input.category)
    case StockColumn => input.stock.Some?
    case ImageColumn => input.imageUrl.Some?
  }

  /** The value an update request binds to column `c`. */
  function InputValue(input: ProductInput, category: int, c: Column): Param
  {
    match c
    case NameColumn => if input.name.Some? then Str(input.name.value) else Null
    case DescriptionColumn => if input.description.Some? then Str(input.description.value) else Null
    case PriceColumn => if input.price.Some? then Int(input.price.value) else Null
    case CategoryColumn => Int(category)
    case StockColumn => if input.stock.Some? then Int(input.stock.value) else Null
    case ImageColumn => if input.imageUrl.Some? then Str(input.imageUrl.value) else Null
  }

  /** The value bound to a written column is that column of the updated product,
      whatever the product held before; a column not written keeps its value. */
  lemma BoundValueIsNewValue(p: Product, input: ProductInput, category: int, c: Column)
    ensures Writes(input, c) ==> ColumnValue(ApplyUpdate(p, input, category), c) == InputValue(input, category, c)
    ensures !Writes(input, c) ==> ColumnValue(ApplyUpdate(p, input, category), c) == ColumnValue(p, c)
  {
  }

  /** The column names of an update, in order. */
  function ColumnNames(columns: seq<Column>): (names: seq<string>)
    ensures |names| == |columns| && forall i :: 0 <= i < |columns| ==> names[i] == ColumnName(columns[i])
  {
    if columns == [] then [] else [ColumnName(columns[0])] + ColumnNames(columns[1..])
  }

  /** The order in which updateProduct considers the columns. */
  const UpdateOrder: seq<Column> := [NameColumn, DescriptionColumn, PriceColumn, CategoryColumn, StockColumn, ImageColumn]

  /** The columns among the first `k` of UpdateOrder that the request writes, in order. */
  function Chosen(input: ProductInput, k: nat): seq<Column>
    requires k <= |UpdateOrder|
  {
    if k == 0 then []
    else Chosen(input, k - 1) + (if Writes(input, UpdateOrder[k - 1]) then [UpdateOrder[k - 1]] else [])
  }

  function Rank(c: Column): nat
  {
    match c
    case NameColumn => 0
    case DescriptionColumn => 1
    case PriceColumn => 2
    case CategoryColumn => 3
    case StockColumn => 4
    case ImageColumn => 5
  }

  lemma {:induction false} ChosenColumns(input: ProductInput, k: nat)
    requires k <= |UpdateOrder|
    ensures forall c :: c in Chosen(input, k) <==> Writes(input, c) && Rank(c) < k
    ensures forall i, j :: 0 <= i < j < |Chosen(input, k)| ==> Rank(Chosen(input, k)[i]) < Rank(Chosen(input, k)[j])
  {
    if k > 0 {
      ChosenColumns(input, k - 1);
      assert Rank(UpdateOrder[k - 1]) == k - 1;
      forall c ensures Rank(c) == k - 1 ==> c == UpdateOrder[k - 1] {
      }
    }
  }

  /** Exactly the written columns are chosen, each once, and none exactly when the
      request names no field. */
  lemma ChosenAreWritten(input: ProductInput)
    ensures forall c :: c in Chosen(input, 6) <==> Writes(input, c)
    ensures forall i, j :: 0 <= i < j < |Chosen(input, 6)| ==> Chosen(input, 6)[i] != Chosen(input, 6)[j]
    ensures Chosen(input, 6) == [] <==> NoFields(input)
  {
    ChosenColumns(input, 6);
    forall c ensures Rank(c) < 6 {
    }
    if Chosen(input, 6) == [] {
      forall c ensures !Writes(input, c) {
        assert c !in Chosen(input, 6);
      }
      assert !Writes(input, NameColumn) && !Writes(input, DescriptionColumn) && !Writes(input, PriceColumn);
      assert !Writes(input, CategoryColumn) && !Writes(input, StockColumn) && !Writes(input, ImageColumn);
    } else {
      assert Chosen(input, 6)[0] in Chosen(input, 6);
    }
  }

  /** One step of updateProduct's selection: the `k`-th column is pushed, with the
      value the request gives, when the request writes it. */
  method PushIfWritten(input: ProductInput, category: int, k: nat, columns: seq<Column>, values: seq<Param>)
    returns (columns': seq<Column>, values': seq<Param>)
    requires k < |UpdateOrder|
    requires columns == Chosen(input, k) && |columns| == |values|
    requires forall i :: 0 <= i < |columns| ==> values[i] == InputValue(input, category, columns[i])
    ensures columns' == Chosen(input, k + 1) && |columns'| == |values'|
    ensures forall i :: 0 <= i < |columns'| ==> values'[i] == InputValue(input, category, columns'[i])
  {
    var c := UpdateOrder[k];
    if Writes(input, c) {
      columns', values' := columns + [c], values + [InputValue(input, category, c)];
    } else {
      columns', values' := columns, values;
    }
  }

  /** updateProduct's field selection: the columns pushed, in the order of the code,
      with the value the request gives bound to each. */
  method SelectUpdates(input: ProductInput, category: int) returns (columns: seq<Column>, values: seq<Param>)
    ensures columns == Chosen(input, 6) && |columns| == |values|
    ensures forall i :: 0 <= i < |columns| ==> values[i] == InputValue(input, category, columns[i])
  {
    columns, values := [], [];
    columns, values := PushIfWritten(input, category, 0, columns, values);
    columns, values := PushIfWritten(input, category, 1, columns, values);
    columns, values := PushIfWritten(input, category, 2, columns, values);
    columns, values := PushIfWritten(input, category, 3, columns, values);
    columns, values := PushIfWritten(input, category, 4, columns, values);
    columns, values := PushIfWritten(input, category, 5, columns, values);
  }

  /** updateProduct's category step: a truthy category is resolved, and the id it
      stands for is bound; any other leaves the tables alone. */
  method ResolveGivenCategory(db: Database, category: Option<CategoryInput>) returns (id: int)
    requires db.Valid()
    modifies db
    ensures db.Valid()
    ensures db.categories ==
      if CategoryTruthy(category) then ResolvedCategories(old(db.categories), category.value, old(db.nextCategoryId))
      else old(db.categories)
    ensures CategoryTruthy(category) ==> CategoryNamed(db.categories, category.value, id)
    ensures !CategoryTruthy(category) ==> unchanged(db)
    ensures db.Content() == old(db.Content()).(categories := db.categories)
  {
    id := 0;
    if CategoryTruthy(category) {
      id := ResolveCategory(db, category.value);
    }
  }

  /** updateProduct after its ownership check: resolves a truthy category, refuses an
      update with no field (400, nothing written), and otherwise runs one `UPDATE` whose
      placeholders match its values, the product id last; a missing product matches no row. */
  method UpdateProduct(db: Database, id: int, input: ProductInput) returns (code: int, columns: seq<Column>, query: seq<Tok>, values: seq<Param>)
    requires db.Valid()
    modifies db
    ensures db.Valid()
    ensures code == 400 <==> NoFields(input)
    ensures code == 400 ==> unchanged(db)
    ensures code != 400 ==> code == 200 && Holes(query) == |values| && |values| == |columns| + 1 && values[|columns|] == Int(id)
    ensures code == 200 ==> query == UpdateStatement("products", ColumnNames(columns), "product_id") && forall c :: c in columns <==> Writes(input, c)
    ensures code == 200 && id in db.products ==> forall i :: 0 <= i < |columns| ==> values[i] == ColumnValue(db.products[id], columns[i])
    ensures code == 200 && id in old(db.products) ==>
      id in db.products && db.products == old(db.products)[id := ApplyUpdate(old(db.products)[id], input, db.products[id].category)]
    ensures code == 200 && id !in old(db.products) ==> db.products == old(db.products)
    ensures code == 200 && CategoryTruthy(input.category) && id in db.products ==>
      CategoryNamed(db.categories, input.category.value, db.products[id].category)
    ensures db.categories ==
      if CategoryTruthy(input.category) then ResolvedCategories(old(db.categories), input.category.value, old(db.nextCategoryId))
      else old(db.categories)
    ensures db.Content() == old(db.Content()).(categories := db.categories, products := db.products)
  {
    var category := ResolveGivenCategory(db, input.category);
    columns, values := SelectUpdates(input, category);
    ChosenAreWritten(input);
    if columns == [] {
      return 400, [], [], [];
    }
    forall i | 0 <= i < |columns| && id in db.products
      ensures values[i] == ColumnValue(ApplyUpdate(db.products[id], input, category), columns[i])
    {
      BoundValueIsNewValue(db.products[id], input, category, columns[i]);
    }
    values := values + [Int(id)];
    query := UpdateStatement("products", ColumnNames(columns), "product_id");
    if id in db.products {
      db.products := db.products[id := ApplyUpdate(db.products[id], input, category)];
    }
    return 200, columns, query, values;
  }

  // ---------------------------------------------------------------------------
  // updateProduct's ownership check

  /** The ownership check as updateProduct writes it (productController.js:290-307).
      `rows` are the seller ids its lookup returns; that lookup is keyed by
      `req.params.user_id`, which the route `/:id` never supplies. `compared` is
      `req.user.user_id`, and protect attaches `id`, never `user_id`, so in every
      request it is `None`. The result is 404 for no row, 403 when the first row's
      seller is not the compared value, and 0 when the handler goes on to update. */
  function OwnershipAsWritten(rows: seq<int>, compared: Option<int>): (code: int)
    ensures code == 404 <==> rows == []
    ensures code == 0 <==> rows != [] && compared == Some(rows[0])
    ensures code == 0 || code == 403 || code == 404
  {
    if rows == [] then 404 else if compared != Some(rows[0]) then 403 else 0
  }

  /** As written, the check refuses every request: whatever rows the lookup returns,
      the compared value is absent, so the UPDATE is never reached. The lookup binds
      the absent route parameter: if `products` has a `user_id` column, `user_id = NULL`
      matches no row and the answer is 404 (403 were a row returned); if it has none,
      the query fails and the handler's catch answers 500, which this function does
      not represent. */
  lemma UpdateNeverAuthorized(rows: seq<int>)
    ensures OwnershipAsWritten(rows, None) != 0
    ensures OwnershipAsWritten([], None) == 404
    ensures OwnershipAsWritten([1], None) == 403
  {
  }

  /** updateProduct with the ownership check deleteProduct makes: 404 for a missing
      product and 403 for another seller's, both writing nothing; the product's own
      seller gets the update. No other product ever changes, and the product keeps
      its seller. */
  method UpdateOwnProduct(db: Database, seller: int, id: int, input: ProductInput)
    returns (code: int, columns: seq<Column>, query: seq<Tok>, values: seq<Param>)
    requires db.Valid()
    modifies db
    ensures db.Valid()
    ensures id !in old(db.products) ==> code == 404 && unchanged(db)
    ensures id in old(db.products) && old(db.products)[id].seller != seller ==> code == 403 && unchanged(db)
    ensures id in old(db.products) && old(db.products)[id].seller == seller ==>
      (code == 400 <==> NoFields(input)) && (code != 400 ==> code == 200)
    ensures code == 200 ==>
      id in old(db.products) && old(db.products)[id].seller == seller && id in db.products &&
      db.products == old(db.products)[id := ApplyUpdate(old(db.products)[id], input, db.products[id].category)] &&
      db.products[id].seller == seller
    ensures forall k :: k in old(db.products) && k != id ==> k in db.products && db.products[k] == old(db.products)[k]
    ensures db.categories ==
      if code == 200 && CategoryTruthy(input.category) then ResolvedCategories(old(db.categories), input.category.value, old(db.nextCategoryId))
      else old(db.categories)
    ensures db.Content() == old(db.Content()).(categories := db.categories, products := db.products)
  {
    if id !in db.products {
      return 404, [], [], [];
    }
    if db.products[id].seller != seller {
      return 403, [], [], [];
    }
    code, columns, query, values := UpdateProduct(db, id, input);
  }

  // ---------------------------------------------------------------------------
  // deleteProduct

  /** deleteProduct: 404 for a missing product, 403 for another seller's product;
      otherwise exactly that product row is deleted. */
  method DeleteProduct(db: Database, seller: int, id: int) returns (code: int)
    requires db.Valid()
    modifies db
    ensures db.Valid()
    ensures id !in old(db.products) ==> code == 404
    ensures id in old(db.products) && old(db.products)[id].seller != seller ==> code == 403
    ensures id in old(db.products) && old(db.products)[id].seller == seller ==> code == 200
    ensures code == 200 ==> db.Content() == old(db.Content()).(products := old(db.products) - {id})
    ensures code != 200 ==> unchanged(db)
  {
    if id !in db.products {
      return 404;
    }
    if db.products[id].seller != seller {
      return 403;
    }
    db.products := db.products - {id};
    return 200;
  }
}
