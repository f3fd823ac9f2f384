/**
 * The list query of the catalogue's movie listing (app/handler/movie.go,
 * `GetAllMovie`): page and limit with their defaults, the offset computed
 * from them in 64-bit arithmetic, the optional genre and title filters, and
 * the meta block echoed back with the rows. The other listing handlers repeat
 * the same paging lines.
 */
module HandlerMovie {
  import opened Wrappers
  import opened Decimal
  import opened Http

  const DefaultPage := 1
  const DefaultLimit := 25

  datatype Paging = Paging(page: int64, limit: int64, offset: int64)

  /** The query the handler sends: paging, a genre join when asked for, a title pattern when asked for. */
  datatype MovieQuery = MovieQuery(paging: Paging, genreJoin: Option<string>, titlePattern: Option<string>)

  /** The meta block, in the order the handler fills it positionally. */
  datatype Meta = Meta(limit: int64, offset: int64, page: int64, total: int64)

  /** `(page - 1) * limit` in Go's 64-bit `int`: exact whenever it fits, never clamped. */
  function Offset(page: int64, limit: int64): (offset: int64)
    ensures offset == Wrap64((page - 1) * limit)
    ensures MinInt64 <= (page - 1) * limit <= MaxInt64 ==> offset == (page - 1) * limit
  {
    var previous := Wrap64(page - 1);
    if page != MinInt64 then
      assert previous == page - 1;
      Wrap64(previous * limit)
    else
      assert previous == (page - 1) + 0x1_0000_0000_0000_0000;
      assert previous * limit == (page - 1) * limit + limit * 0x1_0000_0000_0000_0000;
      Wrap64Shift((page - 1) * limit, limit);
      Wrap64(previous * limit)
  }

  /** Without overflow, a page at or below 0 gives an offset at or below 0 for a non-negative limit. */
  lemma OffsetNotClamped(page: int64, limit: int64)
    requires MinInt64 <= (page - 1) * limit <= MaxInt64
    requires page <= 0 && limit >= 0
    ensures Offset(page, limit) <= 0
    ensures page == 0 ==> Offset(page, limit) == -limit
  {
    if limit > 0 {
      MulAtLeast(1 - page, limit);
      assert (1 - page) * limit == -((page - 1) * limit);
    }
  }

  /** From the offset and limit of the meta block a client recovers the page. */
  lemma PageFromOffset(page: int64, limit: int64)
    requires limit > 0
    requires MinInt64 <= (page - 1) * limit <= MaxInt64
    ensures Offset(page, limit) % limit == 0
    ensures Offset(page, limit) / limit + 1 == page
  {
    ExactDivision(page - 1, limit);
  }

  lemma MulAtLeast(x: int, b: int)
    requires b > 0 && x > 0
    ensures x * b >= b
  {
    assert x * b == (x - 1) * b + b;
    assert (x - 1) * b >= 0;
  }

  lemma ExactDivision(a: int, b: int)
    requires b > 0
    ensures (a * b) % b == 0 && (a * b) / b == a
  {
    var q, r := (a * b) / b, (a * b) % b;
    assert a * b == q * b + r && 0 <= r < b;
    assert (a - q) * b == r;
    if a - q > 0 {
      MulAtLeast(a - q, b);
    } else if a - q < 0 {
      MulAtLeast(q - a, b);
    }
  }

  /** Page and limit as sent, or 1 and 25 when they do not parse as integers. */
  function ParsePaging(page: string, limit: string): (p: Paging)
    ensures Atoi(page).None? ==> p.page == DefaultPage
    ensures Atoi(page).Some? ==> p.page == Atoi(page).value
    ensures Atoi(limit).None? ==> p.limit == DefaultLimit
    ensures Atoi(limit).Some? ==> p.limit == Atoi(limit).value
    ensures p.offset == Offset(p.page, p.limit)
  {
    var pageInt: int64 := match Atoi(page) case Some(n) => n case None => DefaultPage;
    var limitInt: int64 := match Atoi(limit) case Some(n) => n case None => DefaultLimit;
    Paging(pageInt, limitInt, Offset(pageInt, limitInt))
  }

  /** Parameters that are absent or do not parse as integers give the first page of 25 rows. */
  lemma MissingParametersDefault(page: string, limit: string)
    requires Atoi(page).None? && Atoi(limit).None?
    ensures ParsePaging(page, limit) == Paging(1, 25, 0)
  {
  }

  /** An absent parameter and a word are both such parameters. */
  lemma MissingParametersExamples()
    ensures ParsePaging("", "") == Paging(1, 25, 0)
    ensures ParsePaging("two", "ten") == Paging(1, 25, 0)
  {
    assert !IsDigit('t');
    assert Atoi("two").None?;
    assert Atoi("ten").None?;
    MissingParametersDefault("", "");
    MissingParametersDefault("two", "ten");
  }

  /** Page and limit written as decimal numbers are taken as they are. */
  lemma ParsePagingEchoes(page: int64, limit: int64)
    ensures ParsePaging(Itoa(page), Itoa(limit)) == Paging(page, limit, Offset(page, limit))
  {
    AtoiItoa(page);
    AtoiItoa(limit);
  }

  /** The genre join, only for a non-empty genre, matched by name. */
  function GenreJoin(genre: string): (j: Option<string>)
    ensures j.Some? <==> |genre| != 0
    ensures j.Some? ==> j.value == genre
  {
    if |genre| != 0 then Some(genre) else None
  }

  /** The title filter, only for a non-empty title, as a LIKE pattern with the title anywhere. */
  function TitlePattern(title: string): (p: Option<string>)
    ensures p.Some? <==> |title| != 0
    ensures p.Some? ==> |p.value| == |title| + 2 && p.value[0] == '%' && p.value[|p.value| - 1] == '%'
    ensures p.Some? ==> p.value[1..|p.value| - 1] == title
  {
    if |title| != 0 then Some("%" + title + "%") else None
  }

  function ListQuery(page: string, limit: string, genre: string, title: string): (q: MovieQuery)
    ensures q.paging == ParsePaging(page, limit)
    ensures q.genreJoin == GenreJoin(genre) && q.titlePattern == TitlePattern(title)
  {
    MovieQuery(ParsePaging(page, limit), GenreJoin(genre), TitlePattern(title))
  }

  /**
   * The handler's answer once the query ran: the database error as a failure,
   * or the meta block echoing limit, offset, page and the row count.
   * `found` is `None` when the query failed; the rows themselves are not modelled.
   */
  function GetAllMovie(page: string, limit: string, genre: string, title: string,
                       found: Option<int64>, dbError: string): (reply: Reply<Meta>)
    ensures found.None? ==> reply == Failure(dbError)
    ensures found.Some? ==> reply.Success? && reply.data.total == found.value
    ensures found.Some? ==> reply.data.offset == Offset(reply.data.page, reply.data.limit)
    ensures found.Some? ==> reply.data.page == ParsePaging(page, limit).page
    ensures found.Some? ==> reply.data.limit == ParsePaging(page, limit).limit
  {
    var q := ListQuery(page, limit, genre, title);
    match found
    case None => Failure(dbError)
    case Some(count) => Success(Meta(q.paging.limit, q.paging.offset, q.paging.page, count))
  }
}
