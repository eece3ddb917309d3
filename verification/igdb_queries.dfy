/** The six game queries the IGDB data source sends. The factory and the
    query builder of the `games` package compose the same queries, so one
    definition serves both. The serialized field list and the timestamp
    bounds come from collaborators that are outside the model and are
    passed in. */
module IgdbQueries {
  import opened Results
  import opened Text
  import opened WhereClause
  import opened ClauseMeaning
  import opened ApicalypseQuery

  /** Field names of the game schema. */
  const ID := "id"
  const HYPE_COUNT := "hypes"
  const RELEASE_DATE := "first_release_date"
  const USERS_RATING := "rating"
  const TOTAL_RATING := "total_rating"

  /** The release-date bounds the timestamp provider hands out. */
  datatype Timestamps = Timestamps(
    popularMin: int,
    recentlyReleasedMin: int,
    recentlyReleasedMax: int,
    comingSoonMin: int,
    mostAnticipatedMin: int)

  /** Searching by text: no where clause and no sort. */
  function SearchQuery(fields: string, searchQuery: string, offset: int, limit: int): (q: Query)
    ensures q.search == Some(searchQuery) && q.fields == Some(fields)
    ensures q.where.None? && q.sort.None?
    ensures q.offset == Some(offset) && q.limit == Some(limit)
  {
    Query(Some(searchQuery), Some(fields), None, Some(offset), Some(limit), None)
  }

  function PopularQuery(fields: string, ts: Timestamps, offset: int, limit: int): (q: Query)
    ensures q.search.None? && q.fields == Some(fields) && q.where.Some?
    ensures q.offset == Some(offset) && q.limit == Some(limit)
    ensures q.sort == Some(Sort(TOTAL_RATING, Desc))
  {
    Query(None, Some(fields),
          Some([IsNotNull(USERS_RATING), And([Compare(RELEASE_DATE, IsLargerThan, IntToString(ts.popularMin))])]),
          Some(offset), Some(limit), Some(Sort(TOTAL_RATING, Desc)))
  }

  function RecentlyReleasedQuery(fields: string, ts: Timestamps, offset: int, limit: int): (q: Query)
    ensures q.search.None? && q.fields == Some(fields) && q.where.Some?
    ensures q.offset == Some(offset) && q.limit == Some(limit)
    ensures q.sort == Some(Sort(RELEASE_DATE, Desc))
  {
    Query(None, Some(fields),
          Some([Compare(RELEASE_DATE, IsLargerThan, IntToString(ts.recentlyReleasedMin)),
                And([Compare(RELEASE_DATE, IsSmallerThan, IntToString(ts.recentlyReleasedMax))])]),
          Some(offset), Some(limit), Some(Sort(RELEASE_DATE, Desc)))
  }

  function ComingSoonQuery(fields: string, ts: Timestamps, offset: int, limit: int): (q: Query)
    ensures q.search.None? && q.fields == Some(fields) && q.where.Some?
    ensures q.offset == Some(offset) && q.limit == Some(limit)
    ensures q.sort == Some(Sort(RELEASE_DATE, Asc))
  {
    Query(None, Some(fields),
          Some([Compare(RELEASE_DATE, IsLargerThan, IntToString(ts.comingSoonMin))]),
          Some(offset), Some(limit), Some(Sort(RELEASE_DATE, Asc)))
  }

  function MostAnticipatedQuery(fields: string, ts: Timestamps, offset: int, limit: int): (q: Query)
    ensures q.search.None? && q.fields == Some(fields) && q.where.Some?
    ensures q.offset == Some(offset) && q.limit == Some(limit)
    ensures q.sort == Some(Sort(HYPE_COUNT, Desc))
  {
    Query(None, Some(fields),
          Some([Compare(RELEASE_DATE, IsLargerThan, IntToString(ts.mostAnticipatedMin)), And([IsNotNull(HYPE_COUNT)])]),
          Some(offset), Some(limit), Some(Sort(HYPE_COUNT, Desc)))
  }

  function Stringified(ids: seq<int>): (r: seq<string>)
    ensures |r| == |ids|
    ensures forall i :: 0 <= i < |ids| ==> r[i] == IntToString(ids[i])
  {
    if |ids| == 0 then [] else [IntToString(ids[0])] + Stringified(ids[1..])
  }

  /** Games by id: `id = (i1, i2, ...)` in input order, and no sort. */
  function GamesByIdQuery(fields: string, ids: seq<int>, offset: int, limit: int): (q: Query)
    ensures q.search.None? && q.fields == Some(fields) && q.sort.None?
    ensures q.offset == Some(offset) && q.limit == Some(limit)
    ensures q.where == Some([ListOf(ID, ContainsAnyOf, Stringified(ids))])
  {
    Query(None, Some(fields), Some([ListOf(ID, ContainsAnyOf, Stringified(ids))]),
          Some(offset), Some(limit), None)
  }

  /** The popular-games query asks for a rated game released after the
      bound. */
  lemma PopularQueryMeaning(fields: string, ts: Timestamps, offset: int, limit: int, row: Row)
    ensures Holds(PopularQuery(fields, ts, offset, limit).where.value, row)
         == Some(row(USERS_RATING).Some? && row(RELEASE_DATE).Some? && row(RELEASE_DATE).value > ts.popularMin)
  {
    ParseIntToString(ts.popularMin);
    Conjunction(IsNotNull(USERS_RATING), Compare(RELEASE_DATE, IsLargerThan, IntToString(ts.popularMin)), row);
  }

  /** Recently released: the release date lies strictly between the two
      bounds. */
  lemma RecentlyReleasedQueryMeaning(fields: string, ts: Timestamps, offset: int, limit: int, row: Row)
    ensures Holds(RecentlyReleasedQuery(fields, ts, offset, limit).where.value, row)
         == Some(row(RELEASE_DATE).Some? && ts.recentlyReleasedMin < row(RELEASE_DATE).value < ts.recentlyReleasedMax)
  {
    ParseIntToString(ts.recentlyReleasedMin);
    ParseIntToString(ts.recentlyReleasedMax);
    Conjunction(Compare(RELEASE_DATE, IsLargerThan, IntToString(ts.recentlyReleasedMin)),
                Compare(RELEASE_DATE, IsSmallerThan, IntToString(ts.recentlyReleasedMax)), row);
  }

  /** Coming soon: released strictly after the bound. */
  lemma ComingSoonQueryMeaning(fields: string, ts: Timestamps, offset: int, limit: int, row: Row)
    ensures Holds(ComingSoonQuery(fields, ts, offset, limit).where.value, row)
         == Some(row(RELEASE_DATE).Some? && row(RELEASE_DATE).value > ts.comingSoonMin)
  {
    ParseIntToString(ts.comingSoonMin);
    var w := ComingSoonQuery(fields, ts, offset, limit).where.value;
    assert w[1..] == [];
  }

  /** Most anticipated: released after the bound and with a hype count. */
  lemma MostAnticipatedQueryMeaning(fields: string, ts: Timestamps, offset: int, limit: int, row: Row)
    ensures Holds(MostAnticipatedQuery(fields, ts, offset, limit).where.value, row)
         == Some(row(RELEASE_DATE).Some? && row(RELEASE_DATE).value > ts.mostAnticipatedMin && row(HYPE_COUNT).Some?)
  {
    ParseIntToString(ts.mostAnticipatedMin);
    Conjunction(Compare(RELEASE_DATE, IsLargerThan, IntToString(ts.mostAnticipatedMin)), IsNotNull(HYPE_COUNT), row);
  }

  /** Games by id: exactly the games whose id is one of the requested ids. */
  lemma GamesByIdQueryMeaning(fields: string, ids: seq<int>, offset: int, limit: int, row: Row)
    ensures Holds(GamesByIdQuery(fields, ids, offset, limit).where.value, row)
         == Some(row(ID).Some? && row(ID).value in ids)
  {
    var w := GamesByIdQuery(fields, ids, offset, limit).where.value;
    assert w[1..] == [];
    if row(ID).Some? {
      var x := row(ID).value;
      if IntToString(x) in Stringified(ids) {
        var i :| 0 <= i < |ids| && Stringified(ids)[i] == IntToString(x);
        IntToStringInjective(x, ids[i]);
      }
      if x in ids {
        var i :| 0 <= i < |ids| && ids[i] == x;
        assert Stringified(ids)[i] == IntToString(x);
      }
    }
  }

  /** The rendered popular-games query, section by section. */
  lemma PopularQueryText(fields: string, ts: Timestamps, offset: int, limit: int)
    ensures Render(PopularQuery(fields, ts, offset, limit))
         == ("fields " + fields + ";")
            + ("where " + ("rating != null" + " & " + ("first_release_date > " + IntToString(ts.popularMin))) + ";")
            + ("offset " + IntToString(offset) + ";")
            + ("limit " + IntToString(limit) + ";")
            + ("sort " + "total_rating" + " desc;")
  {
    var q := PopularQuery(fields, ts, offset, limit);
    AndOrJoin(IsNotNull(USERS_RATING), Compare(RELEASE_DATE, IsLargerThan, IntToString(ts.popularMin)));
    assert Fragment(IsNotNull(USERS_RATING)) == "rating != null";
    assert Fragment(Compare(RELEASE_DATE, IsLargerThan, IntToString(ts.popularMin)))
        == "first_release_date > " + IntToString(ts.popularMin);
    SelectQueryText(fields, q.where.value, offset, limit, q.sort.value);
  }
}
