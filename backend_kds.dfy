/** The kitchen display's ticket feed on the server (backend/routes/kds.js):
    the SELECT it assembles from the optional `station` query parameter. */
module BackendKds {
  import opened Types
  import opened Seqs
  import opened SqlText

  /** The condition that keeps bumped tickets off the display. */
  const NotBumped: Fragment := Text("WHERE kt.status != 'bumped'")

  /** The fixed head of the statement, ending with the bumped-ticket condition. */
  const TicketsBase: seq<Fragment> := [
    Text("\n      SELECT kt.*, o.order_number, o.table_id, o.token_number \n      FROM kds_tickets kt\n"
      + "      LEFT JOIN orders o ON kt.order_id = o.id\n      "),
    NotBumped,
    Text("\n    ")
  ]

  const StationClause: seq<Fragment> := [Text(" AND kt.station = "), Placeholder]
  const OldestFirst: seq<Fragment> := [Text(" ORDER BY kt.created_at ASC")]

  /** The GET /tickets handler's statement: bumped tickets are never returned,
      the station condition and its parameter are there exactly when a station
      is given, the placeholders match the parameters, and the oldest ticket
      comes first. */
  method BuildTicketsQuery(station: Option<string>) returns (query: seq<Fragment>, params: seq<string>)
    ensures query == TicketsBase + (if Given(station) then StationClause else []) + OldestFirst
    ensures params == if Given(station) then [station.value] else []
    ensures Placeholders(query) == |params|
    ensures IsInfix([NotBumped], query)
    ensures IsInfix(StationClause, query) <==> Given(station)
    ensures query[|query| - 1..] == OldestFirst
  {
    query := TicketsBase;
    params := [];
    if Given(station) {
      query := query + StationClause;
      params := params + [station.value];
    }
    ghost var filtered := query;
    query := query + OldestFirst;

    assert Placeholders(OldestFirst) == 0;
    assert Placeholders(TicketsBase) == 0 by {
      OccurrencesAbsent(TicketsBase, Placeholder);
    }
    assert Placeholders(StationClause) == 1 by {
      assert StationClause[1..][1..] == [];
    }
    AppendPlaceholders(filtered, OldestFirst);
    if Given(station) {
      AppendPlaceholders(TicketsBase, StationClause);
      MiddleIsInfix(TicketsBase, StationClause, OldestFirst);
    } else {
      if IsInfix(StationClause, query) {
        var i :| 0 <= i <= |query| && OccursAt(StationClause, query, i);
        InfixPlaceholders(StationClause, query, i);
      }
    }
    MiddleIsInfix([TicketsBase[0]], [NotBumped], query[2..]);
    assert query == [TicketsBase[0]] + [NotBumped] + query[2..];
  }
}
