/** A whole Apicalypse query as the query builder renders it: optional
    `search`, `fields`, `where`, `offset`, `limit` and `sort` sections, each
    closed by `;`, always in that order. */
module ApicalypseQuery {
  import opened Results
  import opened Text
  import opened WhereClause

  datatype Order = Asc | Desc
  datatype Sort = Sort(field: string, order: Order)

  datatype Query = Query(
    search: Option<string>,
    fields: Option<string>,
    where: Option<seq<Step>>,
    offset: Option<int>,
    limit: Option<int>,
    sort: Option<Sort>)

  const Empty := Query(None, None, None, None, None, None)

  function Section(keyword: string, body: Option<string>): (r: string)
    ensures body.None? <==> r == ""
    ensures body.Some? ==> r[|r| - 1] == ';'
  {
    match body
    case None => ""
    case Some(b) => keyword + " " + b + ";"
  }

  function Quoted(s: Option<string>): Option<string> {
    match s
    case None => None
    case Some(t) => Some("\"" + t + "\"")
  }

  function Number(n: Option<int>): Option<string> {
    match n
    case None => None
    case Some(k) => Some(IntToString(k))
  }

  function Clause(w: Option<seq<Step>>): Option<string> {
    match w
    case None => None
    case Some(steps) => Some(Build(steps))
  }

  function SortText(s: Option<Sort>): Option<string> {
    match s
    case None => None
    case Some(Sort(f, Asc)) => Some(f + " asc")
    case Some(Sort(f, Desc)) => Some(f + " desc")
  }

  /** The query text; an unset section is left out altogether. */
  function Render(q: Query): (r: string)
    ensures q == Empty ==> r == ""
  {
    Section("search", Quoted(q.search))
    + Section("fields", q.fields)
    + Section("where", Clause(q.where))
    + Section("offset", Number(q.offset))
    + Section("limit", Number(q.limit))
    + Section("sort", SortText(q.sort))
  }

  /** The rendered text ends a section exactly when a section was set. */
  lemma RenderEndsWithSemicolon(q: Query)
    requires q != Empty
    ensures |Render(q)| > 0 && Render(q)[|Render(q)| - 1] == ';'
  {
    var parts := [Section("search", Quoted(q.search)), Section("fields", q.fields),
                  Section("where", Clause(q.where)), Section("offset", Number(q.offset)),
                  Section("limit", Number(q.limit)), Section("sort", SortText(q.sort))];
    var r := Render(q);
    assert r == parts[0] + parts[1] + parts[2] + parts[3] + parts[4] + parts[5];
    if parts[5] != "" {
    } else if parts[4] != "" {
    } else if parts[3] != "" {
    } else if parts[2] != "" {
    } else if parts[1] != "" {
    } else {
      assert q.search.Some?;
    }
  }

  /** The shape every discovery query takes: fields, a where clause,
      offset, limit and a sort, as in the builder's tests. */
  lemma {:induction false} SelectQueryText(fields: string, w: seq<Step>, offset: int, limit: int, s: Sort)
    ensures Render(Query(None, Some(fields), Some(w), Some(offset), Some(limit), Some(s)))
         == ("fields " + fields + ";")
            + ("where " + Build(w) + ";")
            + ("offset " + IntToString(offset) + ";")
            + ("limit " + IntToString(limit) + ";")
            + ("sort " + s.field + (if s.order == Asc then " asc;" else " desc;"))
  {
    var q := Query(None, Some(fields), Some(w), Some(offset), Some(limit), Some(s));
    var a := "fields " + fields + ";";
    var b := "where " + Build(w) + ";";
    var c := "offset " + IntToString(offset) + ";";
    var d := "limit " + IntToString(limit) + ";";
    var e := "sort " + s.field + (if s.order == Asc then " asc;" else " desc;");
    assert Section("fields", Some(fields)) == a by { assert "fields" + " " == "fields "; }
    assert Section("where", Some(Build(w))) == b by { assert "where" + " " == "where "; }
    assert Section("offset", Some(IntToString(offset))) == c by { assert "offset" + " " == "offset "; }
    assert Section("limit", Some(IntToString(limit))) == d by { assert "limit" + " " == "limit "; }
    SortSection(s);
    assert Render(q) == "" + a + b + c + d + e;
    assert "" + a == a;
  }

  /** The sort section names the field and then the direction. */
  lemma SortSection(s: Sort)
    ensures Section("sort", SortText(Some(s))) == "sort " + s.field + (if s.order == Asc then " asc;" else " desc;")
  {
    assert "sort" + " " == "sort ";
    if s.order == Asc {
      assert " asc" + ";" == " asc;";
    } else {
      assert " desc" + ";" == " desc;";
    }
  }
}
