/** The admin product endpoints: reads are public; creating, updating and
    deleting need an admin session. A created product gets its slug derived
    from its name when none is given, and fixed defaults for the optional
    columns; an update writes exactly the columns present in the body. A
    row is a map from column name to cell; the table a map from id to row. */
module Products {
  import opened Common

  // ---------------------------------------------------------------------
  // Slugs

  /** The leading run of characters outside [a-z0-9] dropped. */
  function SkipRun(s: string): (r: string)
    ensures |r| <= |s| && r == s[|s| - |r|..]
    ensures r == "" || IsAlnumLower(r[0])
    ensures |r| < |s|
            || (|s| == 0 || IsAlnumLower(s[0]))
  {
    if |s| > 0 && !IsAlnumLower(s[0]) then SkipRun(s[1..]) else s
  }

  /** `.replace(/[^a-z0-9]+/g, '-')`: each maximal run outside [a-z0-9]
      becomes one '-'. */
  function Collapse(s: string): (r: string)
    ensures forall i :: 0 <= i < |r| ==> IsAlnumLower(r[i]) || r[i] == '-'
    ensures forall i :: 0 <= i < |r| - 1 ==> !(r[i] == '-' && r[i + 1] == '-')
    ensures |s| > 0 && IsAlnumLower(s[0]) ==> |r| > 0 && r[0] == s[0]
    ensures |s| == 0 <==> |r| == 0
    decreases |s|
  {
    if |s| == 0 then ""
    else if IsAlnumLower(s[0]) then [s[0]] + Collapse(s[1..])
    else "-" + Collapse(SkipRun(s[1..]))
  }

  /** Only [a-z0-9-] and no '--'. */
  predicate Clean(s: string) {
    (forall i :: 0 <= i < |s| ==> IsAlnumLower(s[i]) || s[i] == '-') &&
    (forall i :: 0 <= i < |s| - 1 ==> !(s[i] == '-' && s[i + 1] == '-'))
  }

  /** The shape of a slug: clean, and no '-' at either end. */
  predicate IsSlug(s: string) {
    Clean(s) && (|s| == 0 || (s[0] != '-' && s[|s| - 1] != '-'))
  }

  /** The `^-` alternative. */
  function DropLeadingDash(s: string): (r: string)
    requires Clean(s)
    ensures Clean(r) && (r == "" || r[0] != '-')
    ensures r == if |s| > 0 && s[0] == '-' then s[1..] else s
  {
    if |s| > 0 && s[0] == '-' then
      assert forall i :: 0 <= i < |s| - 1 ==> s[1..][i] == s[i + 1];
      if |s| > 1 then assert s[1] != '-'; s[1..] else s[1..]
    else s
  }

  /** The `-$` alternative. */
  function DropTrailingDash(s: string): (r: string)
    requires Clean(s) && (s == "" || s[0] != '-')
    ensures IsSlug(r)
    ensures r == if |s| > 0 && s[|s| - 1] == '-' then s[..|s| - 1] else s
  {
    if |s| > 0 && s[|s| - 1] == '-' then
      assert |s| > 1 && s[|s| - 2] != '-';
      s[..|s| - 1]
    else s
  }

  /** `.replace(/(^-|-$)/g, '')` on a collapsed string. */
  function TrimDashes(s: string): (r: string)
    requires Clean(s)
    ensures IsSlug(r)
  {
    DropTrailingDash(DropLeadingDash(s))
  }

  /** The slug of a name whose accents have already been stripped: lower
      case, runs of other characters to '-', edge dashes removed. */
  function Slug(name: string): (r: string)
    ensures IsSlug(r)
  {
    TrimDashes(Collapse(ToLower(name)))
  }

  /** A run-free string of [a-z0-9-] collapses to itself. */
  lemma {:induction false} CollapseOfClean(s: string)
    requires Clean(s)
    ensures Collapse(s) == s
    decreases |s|
  {
    if |s| > 0 {
      var rest := s[1..];
      CleanTail(s);
      if IsAlnumLower(s[0]) {
        CollapseOfClean(rest);
        assert Collapse(s) == [s[0]] + Collapse(rest);
        assert s == [s[0]] + rest;
      } else {
        assert SkipRun(rest) == rest by {
          if |rest| > 0 {
            assert rest[0] == s[1];
          }
        }
        CollapseOfClean(rest);
        assert Collapse(s) == "-" + Collapse(rest);
        assert s == "-" + rest;
      }
    }
  }

  lemma CleanTail(s: string)
    requires Clean(s) && |s| > 0
    ensures Clean(s[1..])
  {
    var rest := s[1..];
    assert forall i :: 0 <= i < |rest| ==> rest[i] == s[i + 1];
  }

  lemma ToLowerOfSlug(s: string)
    requires IsSlug(s)
    ensures ToLower(s) == s
  {
  }

  /** A slug is its own slug, so deriving a slug is idempotent. */
  lemma SlugOfSlug(s: string)
    requires IsSlug(s)
    ensures Slug(s) == s
  {
    ToLowerOfSlug(s);
    CollapseOfClean(s);
  }

  lemma SlugIdempotent(name: string)
    ensures Slug(Slug(name)) == Slug(name)
  {
    SlugOfSlug(Slug(name));
  }

  // ---------------------------------------------------------------------
  // Rows

  /** A column value as written: a body value copied, one passed through
      parseFloat or parseInt (the conversions are not modelled), an integer,
      or null. */
  datatype Cell = Copied(v: Value) | Float(v: Value) | Int(v: Value) | Integer(n: int) | Null

  /** The body fields the handlers read: `id` and the thirteen columns. */
  datatype Column = Id | Name | Description | Price | Stock | ImageUrl | Images | AnimalType | Size | Category
                  | AgeRange | OnSale | SalePrice | SlugColumn

  type Row = map<Column, Cell>

  /** Every column but the id. */
  const COLUMNS: set<Column> := {Name, Description, Price, Stock, ImageUrl, Images, AnimalType, Size, Category,
                                 AgeRange, OnSale, SalePrice, SlugColumn}

  /** A parsed body, field to value; an absent field is undefined. */
  type Body = map<Column, Value>

  function Field(body: Body, k: Column): (v: Value)
    ensures k !in body ==> v == Missing
  {
    if k in body then body[k] else Missing
  }

  /** `parseInt(body.stock) || 0`: parseInt reads `String(body.stock)`, so
      a JSON number is read from its decimal text; NaN and 0 give 0. */
  function StockOrZero(stock: Value): (n: int)
    ensures ParseInt(JsString(stock)).Some? ==> n == ParseInt(JsString(stock)).value
    ensures ParseInt(JsString(stock)).None? ==> n == 0
  {
    match stock
    case Text(s) => ParseInt(s).GetOr(0)
    case NonText(_, rendered, _) => ParseInt(rendered).GetOr(0)
    case Missing => ParseIntNoDigits(JsString(stock)); 0
  }

  /** A stock sent as a JSON number is stored as that number, the same as
      the stock sent as its decimal text. */
  lemma StockOfNumber(n: int, truthy: bool)
    ensures StockOrZero(NonText(truthy, IntToString(n), None)) == n
    ensures StockOrZero(Text(IntToString(n))) == n
  {
    ParseIntOfInt(n);
  }

  /** The default POST writes into a column when the body's value is
      falsy: `|| ''`, `|| []`, `|| 'mediano'`, `|| 'adulto'`, `|| false`. */
  function Default(k: Column): Option<Value> {
    match k
    case Description => Some(Text(""))
    case ImageUrl => Some(Text(""))
    case Images => Some(NonText(true, "", Some(0)))
    case Size => Some(Text("mediano"))
    case AgeRange => Some(Text("adulto"))
    case OnSale => Some(NonText(false, "false", None))
    case _ => None
  }

  /** What POST writes into column `k`. */
  function NewCell(body: Body, slug: Value, k: Column): Cell {
    match k
    case Price => Float(Field(body, Price))
    case Stock => Integer(StockOrZero(Field(body, Stock)))
    case SalePrice => if Truthy(Field(body, SalePrice)) then Float(Field(body, SalePrice)) else Null
    case SlugColumn => Copied(slug)
    case _ => if Default(k).Some? then Copied(Or(Field(body, k), Default(k).value)) else Copied(Field(body, k))
  }

  /** The row POST inserts, `slug` already settled: every column but the id. */
  function NewRow(body: Body, slug: Value): (r: Row)
    ensures r.Keys == COLUMNS
    ensures r[SlugColumn] == Copied(slug)
  {
    map k | k in COLUMNS :: NewCell(body, slug, k)
  }

  /** The required fields are copied, the price parsed, the stock parsed
      with 0 for NaN, and the sale price parsed only when truthy. */
  lemma NewRowRequired(body: Body, slug: Value)
    ensures var r := NewRow(body, slug);
            r[Name] == Copied(Field(body, Name)) && r[AnimalType] == Copied(Field(body, AnimalType)) &&
            r[Category] == Copied(Field(body, Category)) && r[Price] == Float(Field(body, Price)) &&
            r[Stock] == Integer(StockOrZero(Field(body, Stock))) &&
            (r[SalePrice] != Null <==> Truthy(Field(body, SalePrice)))
  {
    NewRowCopies(body, slug, Name);
    NewRowCopies(body, slug, AnimalType);
    NewRowCopies(body, slug, Category);
    NewRowPrice(body, slug);
    NewRowStock(body, slug);
    NewRowSalePrice(body, slug);
  }

  /** The cell of a column is the column's own `NewCell`. */
  lemma NewRowAt(body: Body, slug: Value, k: Column)
    requires k in COLUMNS
    ensures NewRow(body, slug)[k] == NewCell(body, slug, k)
  {
  }

  /** The columns POST copies as they are sent. */
  lemma NewRowCopies(body: Body, slug: Value, k: Column)
    requires k == Name || k == AnimalType || k == Category
    ensures NewRow(body, slug)[k] == Copied(Field(body, k))
  {
    NewRowAt(body, slug, k);
  }

  lemma NewRowPrice(body: Body, slug: Value)
    ensures NewRow(body, slug)[Price] == Float(Field(body, Price))
  {
    NewRowAt(body, slug, Price);
  }

  lemma NewRowStock(body: Body, slug: Value)
    ensures NewRow(body, slug)[Stock] == Integer(StockOrZero(Field(body, Stock)))
  {
    NewRowAt(body, slug, Stock);
  }

  lemma NewRowSalePrice(body: Body, slug: Value)
    ensures NewRow(body, slug)[SalePrice] != Null <==> Truthy(Field(body, SalePrice))
  {
    NewRowAt(body, slug, SalePrice);
    SalePriceCell(body, slug);
  }

  lemma SalePriceCell(body: Body, slug: Value)
    ensures NewCell(body, slug, SalePrice) != Null <==> Truthy(Field(body, SalePrice))
  {
  }

  /** Every defaulted column holds the body's value when it is truthy and
      its default otherwise. */
  lemma NewRowDefaults(body: Body, slug: Value)
    ensures forall k :: k in COLUMNS && Default(k).Some? ==>
              NewRow(body, slug)[k] == Copied(if Truthy(Field(body, k)) then Field(body, k) else Default(k).value)
  {
  }

  /** What an update writes into column `k` for body value `v`. */
  function UpdateCell(k: Column, v: Value): Cell {
    match k
    case Price => Float(v)
    case Stock => Int(v)
    case SalePrice => if Truthy(v) then Float(v) else Null
    case _ => Copied(v)
  }

  /** PUT's `updateData`: exactly the columns the body defines; a falsy
      sale price is written as null. */
  function UpdateData(body: Body): (r: Row)
    ensures forall k :: k in r <==> k != Id && k in body && body[k] != Missing
    ensures forall k :: k in r ==> r[k] == UpdateCell(k, body[k])
    ensures SalePrice in r && !Truthy(body[SalePrice]) ==> r[SalePrice] == Null
  {
    map k | k in body && k != Id && body[k] != Missing :: UpdateCell(k, body[k])
  }

  /** A row after the update: written columns replaced, all others kept. */
  lemma UpdateKeepsOthers(row: Row, body: Body, k: Column)
    requires k in row && !(k in body && body[k] != Missing)
    ensures k in row + UpdateData(body) && (row + UpdateData(body))[k] == row[k]
  {
  }

  // ---------------------------------------------------------------------
  // Routes

  type Table = map<string, Row>

  /** `isAdmin(cookies)`: a session whose user row has role 'admin'. */
  predicate IsAdmin(session: Option<string>, roles: map<string, string>) {
    session.Some? && session.value in roles && roles[session.value] == "admin"
  }

  datatype Reply = Reply(status: int, rows: seq<Row>)

  /** `body.name && body.price && body.animal_type && body.category`. */
  predicate HasRequired(body: Body) {
    Truthy(Field(body, Name)) && Truthy(Field(body, Price)) && Truthy(Field(body, AnimalType)) &&
    Truthy(Field(body, Category))
  }

  /** `GET ?id=`: one row (a missing row is an error, so 500), else every
      row; `listing` is the table in `created_at` descending order. */
  function Get(table: Table, listing: seq<Row>, id: Option<string>, queryOk: bool): (r: Reply)
    ensures !queryOk ==> r.status == 500
    ensures queryOk && NonEmpty(id).Some? ==>
              (r.status == 200 <==> id.value in table) && (r.status == 200 ==> r.rows == [table[id.value]])
    ensures queryOk && NonEmpty(id).None? ==> r == Reply(200, listing)
  {
    if !queryOk then Reply(500, [])
    else if NonEmpty(id).Some? then (if id.value in table then Reply(200, [table[id.value]]) else Reply(500, []))
    else Reply(200, listing)
  }

  /** `POST`: `bodyOk` is false when the body is not JSON; `newId` is the id
      the insert assigns; `insertOk` is false on an insert error. A name
      that is not a string cannot be slugged and ends in 500. */
  function Post(table: Table, session: Option<string>, roles: map<string, string>, bodyOk: bool, body: Body,
                newId: string, insertOk: bool): (r: (Reply, Table))
    ensures r.0.status != 201 ==> r.1 == table
    ensures !IsAdmin(session, roles) ==> r.0.status == 401
    ensures IsAdmin(session, roles) && !bodyOk ==> r.0.status == 500
    ensures IsAdmin(session, roles) && bodyOk && !HasRequired(body) ==> r.0.status == 400
    ensures r.0.status == 201 <==>
              IsAdmin(session, roles) && bodyOk && HasRequired(body) &&
              (Truthy(Field(body, SlugColumn)) || Field(body, Name).Text?) && insertOk
    ensures r.0.status == 201 ==>
              |r.0.rows| == 1 && r.1 == table[newId := r.0.rows[0]] &&
              r.0.rows == [NewRow(body, if Truthy(Field(body, SlugColumn)) then Field(body, SlugColumn)
                                        else Text(Slug(Field(body, Name).s)))]
  {
    if !IsAdmin(session, roles) then (Reply(401, []), table)
    else if !bodyOk then (Reply(500, []), table)
    else if !HasRequired(body) then (Reply(400, []), table)
    else if !Truthy(Field(body, SlugColumn)) && !Field(body, Name).Text? then (Reply(500, []), table)
    else if !insertOk then (Reply(500, []), table)
    else
      var slug := if Truthy(Field(body, SlugColumn)) then Field(body, SlugColumn) else Text(Slug(Field(body, Name).s));
      var row := NewRow(body, slug);
      (Reply(201, [row]), table[newId := row])
  }

  /** A derived slug is always well formed. */
  lemma PostSlugShape(table: Table, session: Option<string>, roles: map<string, string>, body: Body,
                      newId: string)
    requires Post(table, session, roles, true, body, newId, true).0.status == 201 && !Truthy(Field(body, SlugColumn))
    ensures var row := Post(table, session, roles, true, body, newId, true).0.rows[0];
            SlugColumn in row && row[SlugColumn].Copied? && row[SlugColumn].v.Text? && IsSlug(row[SlugColumn].v.s)
  {
  }

  /** `PUT`: `bodyOk` is false when the body is not JSON; `updateOk` is
      false when the update errors (including no row with that id). */
  function Put(table: Table, session: Option<string>, roles: map<string, string>, bodyOk: bool, body: Body,
               updateOk: bool): (r: (Reply, Table))
    ensures r.0.status != 200 ==> r.1 == table
    ensures !IsAdmin(session, roles) ==> r.0.status == 401
    ensures IsAdmin(session, roles) && !bodyOk ==> r.0.status == 500
    ensures IsAdmin(session, roles) && bodyOk && !Truthy(Field(body, Id)) ==> r.0.status == 400
    ensures r.0.status == 200 <==>
              IsAdmin(session, roles) && bodyOk && Truthy(Field(body, Id)) && Field(body, Id).Text? &&
              Field(body, Id).s in table && updateOk
    ensures r.0.status == 200 ==>
              var id := Field(body, Id).s;
              r.1 == table[id := table[id] + UpdateData(body)] && r.0.rows == [r.1[id]]
  {
    if !IsAdmin(session, roles) then (Reply(401, []), table)
    else if !bodyOk then (Reply(500, []), table)
    else if !Truthy(Field(body, Id)) then (Reply(400, []), table)
    else if !(Field(body, Id).Text? && Field(body, Id).s in table && updateOk) then (Reply(500, []), table)
    else
      var id := Field(body, Id).s;
      var row := table[id] + UpdateData(body);
      (Reply(200, [row]), table[id := row])
  }

  /** `DELETE ?id=`. */
  function Delete(table: Table, session: Option<string>, roles: map<string, string>, id: Option<string>,
                  deleteOk: bool): (r: (Reply, Table))
    ensures r.0.status != 200 ==> r.1 == table
    ensures !IsAdmin(session, roles) ==> r.0.status == 401
    ensures IsAdmin(session, roles) && NonEmpty(id).None? ==> r.0.status == 400
    ensures r.0.status == 200 <==> IsAdmin(session, roles) && NonEmpty(id).Some? && deleteOk
    ensures r.0.status == 200 ==> r.1 == table - {id.value} && id.value !in r.1
  {
    if !IsAdmin(session, roles) then (Reply(401, []), table)
    else if NonEmpty(id).None? then (Reply(400, []), table)
    else if !deleteOk then (Reply(500, []), table)
    else (Reply(200, []), table - {id.value})
  }
}
