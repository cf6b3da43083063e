/**
 Scope resolution: project before user before team before organisation before catalog. The table is a
 set of rows; a query's answer is any answer that its filter and its order allow.
 */
module Scopes {
  import opened Wrappers

  type Id = string

  datatype Kind = Catalog | Org | Team | User | Project | Unknown
  datatype Context = Context(project: Option<Id>, user: Option<Id>, team: Option<Id>, org: Option<Id>)
  datatype Row = Row(
    key: nat, name: string, kind: Kind, org: Option<Id>, team: Option<Id>, user: Option<Id>, project: Option<Id>)

  datatype Error = InvalidRow(row: Row)

  /** A context id that is there and not empty. */
  predicate Present(id: Option<Id>) {
    id.Some? && id.value != ""
  }

  predicate IsCatalog(row: Row) {
    row.org.None? && row.team.None? && row.user.None? && row.project.None? && row.kind == Catalog
  }

  /** What the filter means. */
  predicate Admitted(ctx: Context, row: Row) {
    || IsCatalog(row)
    || (Present(ctx.org) && row.org == ctx.org && row.kind == Org)
    || (Present(ctx.team) && row.team == ctx.team && row.kind == Team)
    || (Present(ctx.user) && row.user == ctx.user && row.kind == User)
    || (Present(ctx.project) && row.project == ctx.project && row.kind == Project)
  }

  /** Comparing with an absent id is never true. */
  predicate SqlEqual(a: Option<Id>, b: Option<Id>) {
    a.Some? && b.Some? && a.value == b.value
  }

  function Priority(ctx: Context, row: Row): nat {
    if SqlEqual(row.project, ctx.project) && row.kind == Project then 1
    else if SqlEqual(row.user, ctx.user) && row.kind == User then 2
    else if SqlEqual(row.team, ctx.team) && row.kind == Team then 3
    else if SqlEqual(row.org, ctx.org) && row.kind == Org then 4
    else if IsCatalog(row) then 5
    else 99
  }

  /** The id of the row's own layer, in a row and in a context. */
  function Owner(row: Row): Option<Id> {
    match row.kind
    case Project => row.project
    case User => row.user
    case Team => row.team
    case Org => row.org
    case _ => None
  }

  function ContextOwner(ctx: Context, kind: Kind): Option<Id> {
    match kind
    case Project => ctx.project
    case User => ctx.user
    case Team => ctx.team
    case Org => ctx.org
    case _ => None
  }

  /** The layers, nearest first. */
  function Layer(n: nat): Kind {
    if n == 1 then Project else if n == 2 then User else if n == 3 then Team else if n == 4 then Org else Catalog
  }

  /** The filter admits a row exactly when the order ranks it and its layer's context id is not empty;
      its rank is its layer, and its owner the context's. */
  lemma RankedIff(ctx: Context, row: Row)
    ensures Admitted(ctx, row) <==> Priority(ctx, row) <= 5 && ContextOwner(ctx, row.kind) != Some("")
    ensures Admitted(ctx, row) ==>
      && 1 <= Priority(ctx, row) <= 5
      && row.kind == Layer(Priority(ctx, row)) && Owner(row) == ContextOwner(ctx, row.kind)
  {
  }

  /** The list of layer filters, joined by OR, then by AND with the caller's. */
  method ScopedWhere(ctx: Context, extra: Option<Row -> bool>) returns (admits: Row -> bool)
    ensures forall row :: admits(row) <==> Admitted(ctx, row) && (extra.Some? ==> extra.value(row))
  {
    var layers := Push([], (row: Row) => IsCatalog(row));
    if Present(ctx.org) {
      layers := Push(layers, (row: Row) => row.org == ctx.org && row.kind == Org);
    }
    if Present(ctx.team) {
      layers := Push(layers, (row: Row) => row.team == ctx.team && row.kind == Team);
    }
    if Present(ctx.user) {
      layers := Push(layers, (row: Row) => row.user == ctx.user && row.kind == User);
    }
    if Present(ctx.project) {
      layers := Push(layers, (row: Row) => row.project == ctx.project && row.kind == Project);
    }
    assert forall row :: Any(layers, row) <==> Admitted(ctx, row);
    admits := (row: Row) => Any(layers, row) && (extra.Some? ==> extra.value(row));
  }

  function Push(layers: seq<Row -> bool>, p: Row -> bool): (r: seq<Row -> bool>)
    ensures forall row :: Any(r, row) <==> Any(layers, row) || p(row)
  {
    AnyAppend(layers, p);
    layers + [p]
  }

  lemma {:induction false} AnyAppend(layers: seq<Row -> bool>, p: Row -> bool)
    ensures forall row :: Any(layers + [p], row) <==> Any(layers, row) || p(row)
  {
    var all := layers + [p];
    if layers == [] {
      assert all[1..] == [];
    } else {
      assert all[1..] == layers[1..] + [p];
      AnyAppend(layers[1..], p);
    }
  }

  predicate Any(layers: seq<Row -> bool>, row: Row) {
    layers != [] && (layers[0](row) || Any(layers[1..], row))
  }

  // ---------------------------------------------------------------- validity

  function SetScopes(row: Row): nat {
    (if row.org.Some? then 1 else 0) + (if row.team.Some? then 1 else 0)
    + (if row.user.Some? then 1 else 0) + (if row.project.Some? then 1 else 0)
  }

  predicate ValidRow(row: Row) {
    var expected :=
      if row.project.Some? then Project
      else if row.user.Some? then User
      else if row.team.Some? then Team
      else if row.org.Some? then Org
      else Catalog;
    SetScopes(row) <= 1 && row.kind == expected
  }

  /** A row is valid exactly when it has one owner, its own layer's, or none and is a catalog row. */
  lemma ValidIff(row: Row)
    ensures ValidRow(row) <==>
            IsCatalog(row) || (row.kind != Catalog && Owner(row).Some? && SetScopes(row) == 1)
  {
  }

  method AssertValidScopedRows(rows: seq<Row>) returns (r: Result<seq<Row>, Error>)
    ensures r.Ok? ==> r.value == rows && forall row | row in rows :: ValidRow(row)
    ensures r.Err? ==> exists i :: 0 <= i < |rows| && r.error == InvalidRow(rows[i]) && !ValidRow(rows[i])
                                   && forall j | 0 <= j < i :: ValidRow(rows[j])
  {
    for i := 0 to |rows|
      invariant forall j | 0 <= j < i :: ValidRow(rows[j])
    {
      if !ValidRow(rows[i]) {
        return Err(InvalidRow(rows[i]));
      }
    }
    return Ok(rows);
  }

  // ---------------------------------------------------------------- the two queries

  ghost predicate Best(table: set<Row>, ctx: Context, extra: Row -> bool, x: Row) {
    && x in table && Admitted(ctx, x) && extra(x)
    && forall y | y in table && Admitted(ctx, y) && extra(y) :: Priority(ctx, x) <= Priority(ctx, y)
  }

  /** Filter, order by priority, keep one. */
  ghost predicate QueryOne(table: set<Row>, ctx: Context, extra: Row -> bool, rows: seq<Row>) {
    || (rows == [] && forall y | y in table :: !(Admitted(ctx, y) && extra(y)))
    || (|rows| == 1 && Best(table, ctx, extra, rows[0]))
  }

  function Named(extra: Row -> bool, name: string): Row -> bool {
    (row: Row) => extra(row) && row.name == name
  }

  /** Filter, order by name and priority, keep one of each name. */
  ghost predicate QueryAll(table: set<Row>, ctx: Context, extra: Row -> bool, rows: seq<Row>) {
    && (forall i, j | 0 <= i < j < |rows| :: rows[i].name != rows[j].name)
    && (forall x | x in rows :: Best(table, ctx, Named(extra, x.name), x))
    && (forall y | y in table && Admitted(ctx, y) && extra(y) :: exists x :: x in rows && x.name == y.name)
  }

  /** At most one row for each name and layer owner. */
  ghost predicate Unique(table: set<Row>) {
    forall x, y | x in table && y in table && x.name == y.name && x.kind == y.kind && Owner(x) == Owner(y) :: x == y
  }

  /** Then no two candidates tie, so the query has one answer. */
  lemma BestUnique(table: set<Row>, ctx: Context, extra: Row -> bool, name: string, x: Row, y: Row)
    requires Unique(table)
    requires Best(table, ctx, Named(extra, name), x) && Best(table, ctx, Named(extra, name), y)
    ensures x == y
  {
    RankedIff(ctx, x);
    RankedIff(ctx, y);
  }

  /** For every name, the bulk query keeps exactly the row that the one-name query returns; so the bulk
      call fails exactly when some one-name call would. */
  lemma QueriesAgree(table: set<Row>, ctx: Context, extra: Row -> bool, name: string, all: seq<Row>, one: seq<Row>)
    requires Unique(table)
    requires QueryAll(table, ctx, extra, all) && QueryOne(table, ctx, Named(extra, name), one)
    ensures one == [] <==> forall x | x in all :: x.name != name
    ensures forall x | x in all && x.name == name :: one == [x]
    ensures forall x | x in one :: x in all && x.name == name
  {
    forall x | x in all && x.name == name
      ensures one == [x]
    {
      assert Best(table, ctx, Named(extra, name), x);
      if one != [] {
        BestUnique(table, ctx, extra, name, x, one[0]);
      }
    }
  }

  /** Project before user before team before organisation before catalog. */
  predicate Nearer(a: Kind, b: Kind) {
    || (a == Project && b in {User, Team, Org, Catalog})
    || (a == User && b in {Team, Org, Catalog})
    || (a == Team && b in {Org, Catalog})
    || (a == Org && b == Catalog)
  }

  /** The row returned comes from the nearest layer that has one: nothing nearer is there. */
  lemma NearestLayerWins(table: set<Row>, ctx: Context, extra: Row -> bool, x: Row)
    ensures Best(table, ctx, extra, x) <==>
      && x in table && Admitted(ctx, x) && extra(x)
      && forall y | y in table && Admitted(ctx, y) && extra(y) :: !Nearer(y.kind, x.kind)
  {
    if x in table && Admitted(ctx, x) {
      forall y | y in table && Admitted(ctx, y)
        ensures Nearer(y.kind, x.kind) <==> Priority(ctx, y) < Priority(ctx, x)
      {
        RankedIff(ctx, x);
        RankedIff(ctx, y);
      }
    }
  }

  /** A new row changes no other name's answer, and its own only by coming from a nearer layer. */
  lemma AddedRow(table: set<Row>, ctx: Context, extra: Row -> bool, name: string, row: Row, before: seq<Row>, after: seq<Row>)
    requires row !in table && Unique(table + {row})
    requires QueryOne(table, ctx, Named(extra, name), before)
    requires QueryOne(table + {row}, ctx, Named(extra, name), after)
    ensures after == if row.name == name && Admitted(ctx, row) && extra(row)
                        && (before == [] || Priority(ctx, row) < Priority(ctx, before[0])) then [row] else before
  {
    var table' := table + {row};
    assert Unique(table);
    if before != [] && after != [] {
      var b, a := before[0], after[0];
      assert b in table' && a in table';
      RankedIff(ctx, row);
      RankedIff(ctx, b);
      if a != row {
        assert Best(table, ctx, Named(extra, name), a);
        BestUnique(table, ctx, extra, name, a, b);
      }
    }
  }

  // ---------------------------------------------------------------- the calls

  /** `rows` is the database's answer. */
  method ResolveScoped(ghost table: set<Row>, ctx: Context, extra: Row -> bool, rows: seq<Row>) returns (r: Result<Option<Row>, Error>)
    requires QueryOne(table, ctx, extra, rows)
    ensures r == Ok(None) <==> forall y | y in table :: !(Admitted(ctx, y) && extra(y))
    ensures r.Ok? && r.value.Some? ==> Best(table, ctx, extra, r.value.value) && ValidRow(r.value.value)
    ensures r.Err? ==> Best(table, ctx, extra, r.error.row) && !ValidRow(r.error.row)
  {
    var valid := AssertValidScopedRows(rows);
    if valid.Err? {
      return Err(valid.error);
    }
    return Ok(if |rows| == 0 then None else Some(rows[0]));
  }

  method ResolveScopedAll(ghost table: set<Row>, ctx: Context, extra: Row -> bool, rows: seq<Row>) returns (r: Result<seq<Row>, Error>)
    requires QueryAll(table, ctx, extra, rows)
    ensures r.Ok? ==> r.value == rows && QueryAll(table, ctx, extra, r.value) && forall x | x in rows :: ValidRow(x)
    ensures r.Err? ==> Best(table, ctx, Named(extra, r.error.row.name), r.error.row) && !ValidRow(r.error.row)
  {
    r := AssertValidScopedRows(rows);
  }
}
