/**
 * Translation of a list request's filters and sorters into a Firestore query:
 * the operator table and the clause composition of the database adapter.
 */
module FirestoreQuery {
  import opened Options
  import opened Values

  /** The framework operators that have a Firestore operator of their own. */
  const LISTED_OPERATORS: set<string> := {"lt", "lte", "gt", "gte", "eq", "ne", "nin"}

  /** One framework filter: field, framework operator, operand. */
  datatype Filter = Filter(field: string, operator: string, value: Value)

  /** One framework sorter: field and direction ("asc" or "desc"). */
  datatype Sorter = Sorter(field: string, order: string)

  /** One query constraint as passed to Firestore's `query`. */
  datatype Clause =
    | Where(field: string, op: string, value: Value)
    | OrderBy(field: string, direction: string)

  /** What is handed to `getDocs`: the bare collection, or a query over it. */
  datatype QueryRef =
    | CollectionRef(resource: string)
    | Query(resource: string, clauses: seq<Clause>)

  /**
   * Firestore's comparison for a framework operator. Every listed operator has its
   * own token, distinct from the others; "in" and every other operator become "in".
   */
  function GetFilterOperator(operator: string): (r: string)
    ensures r in {"<", "<=", ">", ">=", "==", "!=", "not-in", "in"}
    ensures r == "in" <==> operator !in LISTED_OPERATORS
    ensures r == "<" <==> operator == "lt"
    ensures r == "<=" <==> operator == "lte"
    ensures r == ">" <==> operator == "gt"
    ensures r == ">=" <==> operator == "gte"
    ensures r == "==" <==> operator == "eq"
    ensures r == "!=" <==> operator == "ne"
    ensures r == "not-in" <==> operator == "nin"
  {
    match operator
    case "lt" => "<"
    case "lte" => "<="
    case "gt" => ">"
    case "gte" => ">="
    case "eq" => "=="
    case "ne" => "!="
    case "nin" => "not-in"
    case _ => "in"
  }

  function WhereOf(f: Filter): Clause {
    Where(f.field, GetFilterOperator(f.operator), f.value)
  }

  function OrderByOf(s: Sorter): Clause {
    OrderBy(s.field, s.order)
  }

  /** `filters.map(...)`: one where-clause per filter, in order. */
  function WhereClauses(filters: seq<Filter>): (cs: seq<Clause>)
    ensures |cs| == |filters|
    ensures forall i :: 0 <= i < |filters| ==> cs[i] == WhereOf(filters[i]) && cs[i].Where?
  {
    if filters == [] then [] else [WhereOf(filters[0])] + WhereClauses(filters[1..])
  }

  /** `sort.map(...)`: one orderBy-clause per sorter, in order. */
  function OrderClauses(sorters: seq<Sorter>): (cs: seq<Clause>)
    ensures |cs| == |sorters|
    ensures forall i :: 0 <= i < |sorters| ==> cs[i] == OrderByOf(sorters[i]) && cs[i].OrderBy?
  {
    if sorters == [] then [] else [OrderByOf(sorters[0])] + OrderClauses(sorters[1..])
  }

  /**
   * The query of a list request. Absent filters or sorters count as empty. With neither,
   * the bare collection reference; otherwise one where-clause per filter followed by
   * one orderBy-clause per sorter, each group in input order.
   */
  function GetFilterQuery(resource: string, sort: Option<seq<Sorter>>, filters: Option<seq<Filter>>): (q: QueryRef)
    ensures q.resource == resource
    ensures q.CollectionRef? <==> |filters.GetOr([])| == 0 && |sort.GetOr([])| == 0
    ensures q.Query? ==>
      var fs, ss := filters.GetOr([]), sort.GetOr([]);
      && |q.clauses| == |fs| + |ss|
      && (forall i :: 0 <= i < |fs| ==> q.clauses[i] == WhereOf(fs[i]))
      && (forall j :: 0 <= j < |ss| ==> q.clauses[|fs| + j] == OrderByOf(ss[j]))
  {
    var queryFilter := WhereClauses(filters.GetOr([]));
    var querySorter := OrderClauses(sort.GetOr([]));
    if |queryFilter| > 0 && |querySorter| > 0 then
      Query(resource, queryFilter + querySorter)
    else if |queryFilter| > 0 then
      Query(resource, queryFilter)
    else if |querySorter| > 0 then
      Query(resource, querySorter)
    else
      CollectionRef(resource)
  }

  /** In a composed query no where-clause follows an orderBy-clause. */
  lemma FiltersPrecedeSorters(resource: string, sort: Option<seq<Sorter>>, filters: Option<seq<Filter>>, i: int, j: int)
    requires GetFilterQuery(resource, sort, filters).Query?
    requires 0 <= i < j < |GetFilterQuery(resource, sort, filters).clauses|
    requires GetFilterQuery(resource, sort, filters).clauses[i].OrderBy?
    ensures GetFilterQuery(resource, sort, filters).clauses[j].OrderBy?
  {
    var fs, ss := filters.GetOr([]), sort.GetOr([]);
    var cs := GetFilterQuery(resource, sort, filters).clauses;
    assert forall k :: 0 <= k < |fs| ==> cs[k].Where?;
    assert cs[j] == OrderByOf(ss[j - |fs|]);
  }
}
