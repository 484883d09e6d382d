/**
 * The BigQuery VECTOR_SEARCH text that the "Run Vector Search" button sends
 * (src/ee_app.js, runSearch), and a reader for that text that recovers the
 * values spliced into it.
 */
module SearchQuery {
  import opened Wrappers
  import opened Scan
  import opened Decimal

  /** The table that is both searched and used to find the seed row. */
  const Table: string := "embeddings_kenya.earthgenome_kenya_subset36_v1"

  /** The radius, in metres, around the clicked point within which the seed row is taken. */
  const SeedRadius: nat := 160

  /**
   * The query text for the clicked point whose coordinates print as `lon`
   * and `lat`, asking for `matches` neighbours besides the seed row itself.
   * It is the script's single concatenation, grouped here by SQL clause.
   */
  function BuildQuery(lon: string, lat: string, matches: nat): (q: string)
  {
    var topk := matches + 1;  // the first match is the seed row itself
    "SELECT\n" + SelectList + "FROM\n" + VectorSearchCall(lon, lat, topk) + LimitOffset(matches)
  }

  /** The six result columns, one per line. */
  const SelectList: string :=
    "base.id as base_id,\n" +
    "base.tile as base_tile,\n" +
    "query.id as query_id,\n" +
    "query.tile as query_tile,\n" +
    "base.geometry as geo,\n" +
    "distance\n"

  /** The VECTOR_SEARCH call: the table, its vector column, the seed rows, their vector column, and top_k. */
  function VectorSearchCall(lon: string, lat: string, topk: nat): string
  {
    "VECTOR_SEARCH(\n" +
    "TABLE " + Table + ",\n " +
    "'embedding',\n" +
    SeedSubquery(lon, lat) + ",\n" +
    "'embedding',\n" +
    "top_k => " + NatToString(topk) + ")\n"
  }

  /**
   * The seed rows: one row of the table within 160 m of the clicked point.
   * The script writes the closing `)` and the argument list's `,` as one
   * piece, "LIMIT 1),\n"; here the comma goes with the enclosing call.
   */
  function SeedSubquery(lon: string, lat: string): string
  {
    "(SELECT id, tile, embedding \n" +
    "FROM " + Table + "\n" +
    "WHERE ST_DWITHIN(geometry, ST_GEOGPOINT(" + lon + "," + lat + "),160)\n" +
    "LIMIT 1)"
  }

  /** The outer query keeps `matches` rows after skipping the first. */
  function LimitOffset(matches: nat): string
  {
    "LIMIT " + NatToString(matches) + "\n" +
    "OFFSET 1;\n"
  }

  /** Coordinate text that cannot be confused with the punctuation around it. */
  predicate CoordinateText(s: string) {
    ',' !in s && ')' !in s
  }

  /** One entry of a SELECT list: an expression and the name it is returned under. */
  datatype Projection = Projection(expr: string, alias: string)

  /** The seed subquery's filter: rows within `radius` metres of the point (`lon`, `lat`). */
  datatype Within = Within(lon: string, lat: string, radius: nat)

  /** The seed subquery: at most `limit` rows of `table` that satisfy `where`. */
  datatype Seed = Seed(table: string, where: Within, limit: nat)

  /** The arguments of VECTOR_SEARCH, in the order they are written. */
  datatype VectorSearch = VectorSearch(baseTable: string, baseColumn: string, seed: Seed,
                                       queryColumn: string, topK: nat)

  /** What a query text of this shape asks for. */
  datatype SearchText = SearchText(projections: seq<Projection>, search: VectorSearch,
                                   limit: nat, offset: nat)

  /** The six result columns, in the order the query selects them. */
  const Projections: seq<Projection> := [
    Projection("base.id", "base_id"),
    Projection("base.tile", "base_tile"),
    Projection("query.id", "query_id"),
    Projection("query.tile", "query_tile"),
    Projection("base.geometry", "geo"),
    Projection("distance", "distance")
  ]

  /**
   * One line of a SELECT list, `expr as alias` or a bare column. The line
   * ends with the comma that separates it from the next item exactly when
   * `separated` holds, that is, when another item follows before `FROM`.
   */
  function ParseProjection(line: string, separated: bool): (r: Option<Projection>)
    ensures r.Some? ==> ' ' !in r.value.expr
    ensures r.Some? ==> (separated <==> |line| > 0 && line[|line| - 1] == ',')
  {
    var hasComma := |line| > 0 && line[|line| - 1] == ',';
    if separated != hasComma then None
    else
      var item := if hasComma then line[..|line| - 1] else line;
      match SplitAt(item, ' ')
      case None => if item == [] then None else Some(Projection(item, item))
      case Some(parts) =>
        var alias :- StripPrefix(parts.1, "as ");
        Some(Projection(parts.0, alias))
  }

  /** The lines of a SELECT list up to the line `FROM`, and the text after that line. */
  function ParseSelectList(s: string): Option<(seq<Projection>, string)>
    decreases |s|
  {
    var cut :- SplitAt(s, '\n');
    if cut.0 == "FROM" then Some(([], cut.1))
    else
      var tail :- ParseSelectList(cut.1);
      var p :- ParseProjection(cut.0, tail.0 != []);
      Some(([p] + tail.0, tail.1))
  }

  /** A single-quoted name, and the text after its closing quote. */
  function ParseQuoted(s: string): Option<(string, string)>
  {
    var s0 :- StripPrefix(s, "'");
    SplitAt(s0, '\'')
  }

  /** The filter line `WHERE ST_DWITHIN(geometry, ST_GEOGPOINT(lon,lat),radius)`. */
  function ParseWithin(s: string): Option<(Within, string)>
  {
    var s0 :- StripPrefix(s, "WHERE ST_DWITHIN(geometry, ST_GEOGPOINT(");
    var lon :- SplitAt(s0, ',');
    var lat :- SplitAt(lon.1, ')');
    var s1 :- StripPrefix(lat.1, ",");
    var radius :- ParseNat(s1);
    var s2 :- StripPrefix(radius.1, ")\n");
    Some((Within(lon.0, lat.0, radius.0), s2))
  }

  /** The seed subquery `(SELECT id, tile, embedding FROM .. WHERE .. LIMIT ..)`. */
  function ParseSeed(s: string): Option<(Seed, string)>
  {
    var s0 :- StripPrefix(s, "(SELECT id, tile, embedding \n");
    var s1 :- StripPrefix(s0, "FROM ");
    var table :- SplitAt(s1, '\n');
    var where :- ParseWithin(table.1);
    var s2 :- StripPrefix(where.1, "LIMIT ");
    var limit :- ParseNat(s2);
    var s3 :- StripPrefix(limit.1, ")");
    Some((Seed(table.0, where.0, limit.0), s3))
  }

  /** `VECTOR_SEARCH(TABLE t, 'col', (seed), 'col', top_k => k)` and a line break. */
  function ParseVectorSearch(s: string): Option<(VectorSearch, string)>
  {
    var s0 :- StripPrefix(s, "VECTOR_SEARCH(\n");
    var s1 :- StripPrefix(s0, "TABLE ");
    var table :- SplitAt(s1, ',');
    var s2 :- StripPrefix(table.1, "\n ");
    var column :- ParseQuoted(s2);
    var s3 :- StripPrefix(column.1, ",\n");
    var seed :- ParseSeed(s3);
    var s4 :- StripPrefix(seed.1, ",\n");
    var queryColumn :- ParseQuoted(s4);
    var s5 :- StripPrefix(queryColumn.1, ",\n");
    var s6 :- StripPrefix(s5, "top_k => ");
    var topK :- ParseNat(s6);
    var s7 :- StripPrefix(topK.1, ")\n");
    Some((VectorSearch(table.0, column.0, seed.0, queryColumn.0, topK.0), s7))
  }

  /** The closing `LIMIT n` and `OFFSET k;` lines, which must end the text. */
  function ParseLimitOffset(s: string): Option<(nat, nat)>
  {
    var s0 :- StripPrefix(s, "LIMIT ");
    var limit :- ParseNat(s0);
    var s1 :- StripPrefix(limit.1, "\n");
    var s2 :- StripPrefix(s1, "OFFSET ");
    var offset :- ParseNat(s2);
    if offset.1 == ";\n" then Some((limit.0, offset.0)) else None
  }

  /** Reads back what a query text of the shape BuildQuery writes asks for. */
  function Decode(q: string): Option<SearchText>
  {
    var s0 :- StripPrefix(q, "SELECT\n");
    var select :- ParseSelectList(s0);
    var search :- ParseVectorSearch(select.1);
    var window :- ParseLimitOffset(search.1);
    Some(SearchText(select.0, search.0, window.0, window.1))
  }

  /** What the query for (`lon`, `lat`) and `matches` asks for, as the source means it. */
  function Intended(lon: string, lat: string, matches: nat): SearchText
  {
    SearchText(Projections,
               VectorSearch(Table, "embedding", Seed(Table, Within(lon, lat, SeedRadius), 1), "embedding", matches + 1),
               matches, 1)
  }

  lemma ParseProjectionAs(expr: string, alias: string)
    requires ' ' !in expr
    ensures ParseProjection(expr + " as " + alias + ",", true) == Some(Projection(expr, alias))
  {
    var line := expr + " as " + alias + ",";
    assert line[..|line| - 1] == expr + [' '] + ("as " + alias);
    SplitAtFirst(expr, ' ', "as " + alias);
    StripPrefixOf("as ", alias);
  }

  lemma ParseSelectLine(line: string, rest: string, p: Projection, ps: seq<Projection>, r: string)
    requires '\n' !in line && line != "FROM"
    requires ParseProjection(line, ps != []) == Some(p)
    requires ParseSelectList(rest) == Some((ps, r))
    ensures ParseSelectList(line + "\n" + rest) == Some(([p] + ps, r))
  {
    SplitAtFirst(line, '\n', rest);
  }

  lemma ParseSelectFrom(rest: string)
    ensures ParseSelectList("FROM\n" + rest) == Some(([], rest))
  {
    assert "FROM\n" + rest == "FROM" + ['\n'] + rest;
    SplitAtFirst("FROM", '\n', rest);
  }

  lemma ParseDistanceLine()
    ensures ParseProjection("distance", false) == Some(Projection("distance", "distance"))
  {
    assert |"distance"| == 8 && "distance"[7] != ',' by {}
    assert SplitAt("distance", ' ').None? by {
      assert ' ' !in "distance";
    }
  }

  lemma DistanceLineText(tail: string)
    ensures "distance\n" + tail == "distance" + "\n" + tail
  {
  }

  /** The bare line `distance` followed by `FROM` ends the SELECT list. */
  lemma ParseSelectLastLine(rest: string)
    ensures ParseSelectList("distance\n" + ("FROM\n" + rest)) ==
            Some(([Projection("distance", "distance")], rest))
  {
    var tail := "FROM\n" + rest;
    ParseSelectFrom(rest);
    ParseDistanceLine();
    assert A: '\n' !in "distance" && "distance" != "FROM";
    DistanceLineText(tail);
    ParseSelectLine("distance", tail, Projection("distance", "distance"), [], rest);
    assert [Projection("distance", "distance")] + [] == [Projection("distance", "distance")];
  }

  /** An item line followed by `FROM` must not end with a separating comma. */
  lemma CommaBeforeFromRejected(line: string, rest: string)
    requires '\n' !in line && |line| > 0 && line[|line| - 1] == ','
    ensures ParseSelectList(line + "\n" + ("FROM\n" + rest)).None?
  {
    assert line != "FROM" by {
      assert "FROM"[3] != ',';
    }
    assert line + "\n" + ("FROM\n" + rest) == line + ['\n'] + ("FROM\n" + rest);
    SplitAtFirst(line, '\n', "FROM\n" + rest);
    ParseSelectFrom(rest);
  }

  /** An item line followed by further items must end with its separating comma. */
  lemma MissingCommaRejected(line: string, rest: string, ps: seq<Projection>, r: string)
    requires '\n' !in line && line != "FROM" && (line == [] || line[|line| - 1] != ',')
    requires ParseSelectList(rest) == Some((ps, r)) && ps != []
    ensures ParseSelectList(line + "\n" + rest).None?
  {
    SplitAtFirst(line, '\n', rest);
  }

  /** A SELECT line `expr as alias,` whose parts contain no separator. */
  predicate ItemLine(lineText: string, p: Projection)
  {
    lineText == p.expr + " as " + p.alias + ",\n" &&
    ' ' !in p.expr && '\n' !in p.expr && '\n' !in p.alias
  }

  /** The line of an item, without its newline, is a single projection line. */
  lemma ItemLineParts(lineText: string, p: Projection)
    requires ItemLine(lineText, p)
    ensures var line := p.expr + " as " + p.alias + ",";
            lineText == line + "\n" && '\n' !in line && line != "FROM"
  {
    var line := p.expr + " as " + p.alias + ",";
    assert |line| != |"FROM"|;
  }

  /** A line `expr as alias,` of a SELECT list, followed by more items, reads back as that projection. */
  lemma ParseSelectItem(lineText: string, p: Projection, rest: string, ps: seq<Projection>, r: string)
    requires ItemLine(lineText, p) && ps != []
    requires ParseSelectList(rest) == Some((ps, r))
    ensures ParseSelectList(lineText + rest) == Some(([p] + ps, r))
  {
    var line := p.expr + " as " + p.alias + ",";
    ItemLineParts(lineText, p);
    ParseProjectionAs(p.expr, p.alias);
    ParseSelectLine(line, rest, p, ps, r);
  }

  lemma ItemLineOf(lineText: string, expr: string, alias: string)
    requires lineText == expr + " as " + alias + ",\n"
    requires ' ' !in expr && '\n' !in expr && '\n' !in alias
    ensures ItemLine(lineText, Projection(expr, alias))
  {
  }

  lemma BaseIdLine()
    ensures ItemLine("base.id as base_id,\n", Projection("base.id", "base_id"))
  {
    assert "base.id as base_id,\n" == "base.id" + " as " + "base_id" + ",\n" by {}
    assert ' ' !in "base.id" && '\n' !in "base.id" && '\n' !in "base_id" by {}
    ItemLineOf("base.id as base_id,\n", "base.id", "base_id");
  }

  lemma BaseTileLine()
    ensures ItemLine("base.tile as base_tile,\n", Projection("base.tile", "base_tile"))
  {
    assert "base.tile as base_tile,\n" == "base.tile" + " as " + "base_tile" + ",\n" by {}
    assert ' ' !in "base.tile" && '\n' !in "base.tile" && '\n' !in "base_tile" by {}
    ItemLineOf("base.tile as base_tile,\n", "base.tile", "base_tile");
  }

  lemma QueryIdLine()
    ensures ItemLine("query.id as query_id,\n", Projection("query.id", "query_id"))
  {
    assert "query.id as query_id,\n" == "query.id" + " as " + "query_id" + ",\n" by {}
    assert ' ' !in "query.id" && '\n' !in "query.id" && '\n' !in "query_id" by {}
    ItemLineOf("query.id as query_id,\n", "query.id", "query_id");
  }

  lemma QueryTileLine()
    ensures ItemLine("query.tile as query_tile,\n", Projection("query.tile", "query_tile"))
  {
    assert "query.tile as query_tile,\n" == "query.tile" + " as " + "query_tile" + ",\n" by {}
    assert ' ' !in "query.tile" && '\n' !in "query.tile" && '\n' !in "query_tile" by {}
    ItemLineOf("query.tile as query_tile,\n", "query.tile", "query_tile");
  }

  lemma GeometryLine()
    ensures ItemLine("base.geometry as geo,\n", Projection("base.geometry", "geo"))
  {
    assert "base.geometry as geo,\n" == "base.geometry" + " as " + "geo" + ",\n" by {}
    assert ' ' !in "base.geometry" && '\n' !in "base.geometry" && '\n' !in "geo" by {}
    ItemLineOf("base.geometry as geo,\n", "base.geometry", "geo");
  }

  lemma ProjectionsSplit()
    ensures Projections == [Projection("base.id", "base_id")] + ([Projection("base.tile", "base_tile")] + ([Projection("query.id", "query_id")] +
                           ([Projection("query.tile", "query_tile")] + ([Projection("base.geometry", "geo")] + [Projection("distance", "distance")]))))
  {
  }

  lemma Regroup6(a: string, b: string, c: string, d: string, e: string, f: string, t: string)
    ensures a + b + c + d + e + f + t == a + (b + (c + (d + (e + (f + t)))))
  {
  }

  /** The SELECT list BuildQuery writes reads back as the six projections, in order. */
  lemma ParseSelectListOfQuery(rest: string)
    ensures ParseSelectList(SelectList + ("FROM\n" + rest)) == Some((Projections, rest))
  {
    var r5 := "distance\n" + ("FROM\n" + rest);
    var ps5 := [Projection("distance", "distance")];
    ParseSelectLastLine(rest);
    var r4 := "base.geometry as geo,\n" + r5;
    var ps4 := [Projection("base.geometry", "geo")] + ps5;
    assert ParseSelectList(r4) == Some((ps4, rest)) by {
      GeometryLine();
      ParseSelectItem("base.geometry as geo,\n", Projection("base.geometry", "geo"), r5, ps5, rest);
    }
    var r3 := "query.tile as query_tile,\n" + r4;
    var ps3 := [Projection("query.tile", "query_tile")] + ps4;
    assert ParseSelectList(r3) == Some((ps3, rest)) by {
      QueryTileLine();
      ParseSelectItem("query.tile as query_tile,\n", Projection("query.tile", "query_tile"), r4, ps4, rest);
    }
    var r2 := "query.id as query_id,\n" + r3;
    var ps2 := [Projection("query.id", "query_id")] + ps3;
    assert ParseSelectList(r2) == Some((ps2, rest)) by {
      QueryIdLine();
      ParseSelectItem("query.id as query_id,\n", Projection("query.id", "query_id"), r3, ps3, rest);
    }
    var r1 := "base.tile as base_tile,\n" + r2;
    var ps1 := [Projection("base.tile", "base_tile")] + ps2;
    assert ParseSelectList(r1) == Some((ps1, rest)) by {
      BaseTileLine();
      ParseSelectItem("base.tile as base_tile,\n", Projection("base.tile", "base_tile"), r2, ps2, rest);
    }
    var r0 := "base.id as base_id,\n" + r1;
    var ps0 := [Projection("base.id", "base_id")] + ps1;
    assert ParseSelectList(r0) == Some((ps0, rest)) by {
      BaseIdLine();
      ParseSelectItem("base.id as base_id,\n", Projection("base.id", "base_id"), r1, ps1, rest);
    }
    ProjectionsSplit();
    Regroup6("base.id as base_id,\n", "base.tile as base_tile,\n", "query.id as query_id,\n",
             "query.tile as query_tile,\n", "base.geometry as geo,\n", "distance\n", "FROM\n" + rest);
  }

  lemma NumeralTexts()
    ensures NatToString(1) == "1"
    ensures NatToString(160) == "160"
  {
    assert NatToString(16) == NatToString(1) + [DigitChar(6)];
  }

  lemma TableTextParts()
    ensures Table == "embeddings_kenya" + ".earthgenome" + "_kenya_subset36_v1"
  {
  }

  /** The table name holds neither of the delimiters that end it in the query. */
  lemma TableText()
    ensures '\n' !in Table && ',' !in Table
  {
    TableTextParts();
    assert '\n' !in "embeddings_kenya" && ',' !in "embeddings_kenya" by {}
    assert '\n' !in ".earthgenome" && ',' !in ".earthgenome" by {}
    assert '\n' !in "_kenya_subset36_v1" && ',' !in "_kenya_subset36_v1" by {}
  }

  lemma WithinText(lat: string, rest: string)
    ensures lat + ("),160)\n" + rest) == lat + [')'] + ("," + ("160" + (")\n" + rest)))
  {
  }

  /** The filter line BuildQuery writes reads back as the clicked point and the 160 m radius. */
  lemma ParseWithinOfQuery(lon: string, lat: string, rest: string)
    requires CoordinateText(lon) && CoordinateText(lat)
    ensures ParseWithin("WHERE ST_DWITHIN(geometry, ST_GEOGPOINT(" + (lon + ("," + (lat + ("),160)\n" + rest)))))
            == Some((Within(lon, lat, SeedRadius), rest))
  {
    NumeralTexts();
    WithinText(lat, rest);
    var s3 := ")\n" + rest;
    var s2 := "160" + s3;
    var s1 := lat + ("),160)\n" + rest);
    var s0 := lon + ("," + s1);
    StripPrefixOf("WHERE ST_DWITHIN(geometry, ST_GEOGPOINT(", s0);
    assert s0 == lon + [','] + s1;
    SplitAtFirst(lon, ',', s1);
    SplitAtFirst(lat, ')', "," + s2);
    StripPrefixOf(",", s2);
    ParseNatOf(160, s3);
    StripPrefixOf(")\n", rest);
  }

  lemma Regroup10(a: string, b: string, c: string, d: string, e: string,
                  f: string, g: string, h: string, i: string, j: string, t: string)
    ensures a + b + c + d + e + f + g + h + i + j + t ==
            a + (b + (c + (d + (e + (f + (g + (h + (i + (j + t)))))))))
  {
  }

  lemma Regroup11(a: string, b: string, c: string, d: string, e: string, f: string,
                  g: string, h: string, i: string, j: string, k: string, t: string)
    ensures a + b + c + d + e + f + g + h + i + j + k + t ==
            a + (b + (c + (d + (e + (f + (g + (h + (i + (j + (k + t))))))))))
  {
  }

  /** The seed subquery BuildQuery writes reads back as one row of the same table near the point. */
  lemma ParseSeedOfQuery(lon: string, lat: string, rest: string)
    requires CoordinateText(lon) && CoordinateText(lat)
    ensures ParseSeed(SeedSubquery(lon, lat) + rest) == Some((Seed(Table, Within(lon, lat, SeedRadius), 1), rest))
  {
    NumeralTexts();
    TableText();
    var s3 := ")" + rest;
    var s2 := "LIMIT 1)" + rest;
    assert s2 == "LIMIT " + ("1" + s3);
    var s1 := "WHERE ST_DWITHIN(geometry, ST_GEOGPOINT(" + (lon + ("," + (lat + ("),160)\n" + s2))));
    var s0 := Table + ("\n" + s1);
    Regroup10("(SELECT id, tile, embedding \n", "FROM ", Table, "\n", "WHERE ST_DWITHIN(geometry, ST_GEOGPOINT(",
              lon, ",", lat, "),160)\n", "LIMIT 1)", rest);
    StripPrefixOf("(SELECT id, tile, embedding \n", "FROM " + s0);
    StripPrefixOf("FROM ", s0);
    assert s0 == Table + ['\n'] + s1;
    SplitAtFirst(Table, '\n', s1);
    ParseWithinOfQuery(lon, lat, s2);
    StripPrefixOf("LIMIT ", "1" + s3);
    ParseNatOf(1, s3);
    StripPrefixOf(")", rest);
  }

  /** A quoted column argument `'embedding'` reads back as that name. */
  lemma ParseEmbeddingArgument(rest: string)
    ensures ParseQuoted("'embedding',\n" + rest) == Some(("embedding", ",\n" + rest))
  {
    var tail := "',\n" + rest;
    assert "'embedding',\n" + rest == "'" + ("embedding" + tail);
    StripPrefixOf("'", "embedding" + tail);
    assert '\'' !in "embedding";
    assert "embedding" + tail == "embedding" + ['\''] + (",\n" + rest);
    SplitAtFirst("embedding", '\'', ",\n" + rest);
  }

  /** The VECTOR_SEARCH call BuildQuery writes reads back as a search of the table against its own seed row. */
  lemma ParseVectorSearchOfQuery(lon: string, lat: string, topk: nat, rest: string)
    requires CoordinateText(lon) && CoordinateText(lat)
    ensures ParseVectorSearch(VectorSearchCall(lon, lat, topk) + rest) ==
            Some((VectorSearch(Table, "embedding", Seed(Table, Within(lon, lat, SeedRadius), 1), "embedding", topk), rest))
  {
    TableText();
    var s5 := NatToString(topk) + (")\n" + rest);
    var s4 := "'embedding',\n" + ("top_k => " + s5);
    var s3 := ",\n" + s4;
    var s2 := SeedSubquery(lon, lat) + s3;
    var s1 := "'embedding',\n" + s2;
    var s0 := Table + (",\n " + s1);
    Regroup11("VECTOR_SEARCH(\n", "TABLE ", Table, ",\n ", "'embedding',\n", SeedSubquery(lon, lat), ",\n",
              "'embedding',\n", "top_k => ", NatToString(topk), ")\n", rest);
    StripPrefixOf("VECTOR_SEARCH(\n", "TABLE " + s0);
    StripPrefixOf("TABLE ", s0);
    assert s0 == Table + [','] + ("\n " + s1);
    SplitAtFirst(Table, ',', "\n " + s1);
    StripPrefixOf("\n ", s1);
    ParseEmbeddingArgument(s2);
    StripPrefixOf(",\n", s2);
    ParseSeedOfQuery(lon, lat, s3);
    StripPrefixOf(",\n", s4);
    ParseEmbeddingArgument("top_k => " + s5);
    StripPrefixOf(",\n", "top_k => " + s5);
    StripPrefixOf("top_k => ", s5);
    ParseNatOf(topk, ")\n" + rest);
    StripPrefixOf(")\n", rest);
  }

  /** The closing lines BuildQuery writes read back as LIMIT matches and OFFSET 1. */
  lemma ParseLimitOffsetOfQuery(matches: nat)
    ensures ParseLimitOffset(LimitOffset(matches)) == Some((matches, 1))
  {
    NumeralTexts();
    var tail := "OFFSET 1;\n";
    assert LimitOffset(matches) == "LIMIT " + (NatToString(matches) + ("\n" + tail));
    assert tail == "OFFSET " + (NatToString(1) + ";\n");
    StripPrefixOf("LIMIT ", NatToString(matches) + ("\n" + tail));
    ParseNatOf(matches, "\n" + tail);
    StripPrefixOf("\n", tail);
    StripPrefixOf("OFFSET ", NatToString(1) + ";\n");
    ParseNatOf(1, ";\n");
  }

  /**
   * Reading back the query text recovers everything the search depends on:
   * the six result columns, one table searched and seeded from, the point
   * with longitude first, the 160 m radius, a single seed row, the
   * `embedding` column on both sides, top_k = matches + 1, LIMIT matches
   * and OFFSET 1.
   */
  lemma DecodeBuildQuery(lon: string, lat: string, matches: nat)
    requires CoordinateText(lon) && CoordinateText(lat)
    ensures Decode(BuildQuery(lon, lat, matches)) == Some(Intended(lon, lat, matches))
  {
    var window := LimitOffset(matches);
    var search := VectorSearchCall(lon, lat, matches + 1) + window;
    var select := SelectList + ("FROM\n" + search);
    assert BuildQuery(lon, lat, matches) == "SELECT\n" + select;
    StripPrefixOf("SELECT\n", select);
    ParseSelectListOfQuery(search);
    ParseVectorSearchOfQuery(lon, lat, matches + 1, window);
    ParseLimitOffsetOfQuery(matches);
  }

  /** Distinct points or match counts give distinct query texts. */
  lemma BuildQueryInjective(lon: string, lat: string, matches: nat,
                            lon': string, lat': string, matches': nat)
    requires CoordinateText(lon) && CoordinateText(lat)
    requires CoordinateText(lon') && CoordinateText(lat')
    requires BuildQuery(lon, lat, matches) == BuildQuery(lon', lat', matches')
    ensures lon == lon' && lat == lat' && matches == matches'
  {
    DecodeBuildQuery(lon, lat, matches);
    DecodeBuildQuery(lon', lat', matches');
  }
}
