# Vector search query builder (Earth Engine app), modelled in Dafny

The app is one Earth Engine script, `src/ee_app.js`. A user clicks the map.
The click adds a layer named "Clicked Point", the user picks a number of
matches on a slider, and the "Run Vector Search" button sends BigQuery a
`VECTOR_SEARCH` query that finds the tiles whose embeddings lie closest to
the tile under the click. This project models the logic that the script
itself defines:

- `query.dfy` (module `SearchQuery`): `BuildQuery` joins the same string
  pieces as the script, in the same order, grouped by SQL clause
  (`SelectList`, `VectorSearchCall`, `SeedSubquery`, `LimitOffset`). The
  script's single piece `"LIMIT 1),\n"` is written as `"LIMIT 1)"`, which
  closes the seed subquery, followed by `",\n"` in the enclosing call; the
  text is the same. It uses the fixed table name, the
  160 m seed radius, `top_k => matches + 1`, and the trailing
  `LIMIT matches` / `OFFSET 1;`. Numbers are written the way JavaScript
  writes a whole number below 10^21 inside a string (`decimal.dfy`). `Decode` reads a
  query of this shape back into its parts: the select list, the
  `VECTOR_SEARCH` arguments, the seed subquery, and LIMIT/OFFSET. The
  lemma `DecodeBuildQuery` proves that reading back the built text gives
  exactly the intended search.
- `window.dfy` (module `ResultWindow`): what the outer `LIMIT n OFFSET k`
  keeps from the rows `VECTOR_SEARCH` returns, taken in the order the engine
  returns them. The lemmas show the query drops the first ranked row by
  position only. Because `top_k` is `matches + 1`, every other row comes
  back.
- `search.dfy` (module `Search`): the button handler's guard. The query is
  built only when layer 2 is named "Clicked Point". The module also holds
  the slider's range, step and default, and its identity callback.
- `cloud_mask.dfy` (module `CloudMask`): the QA60 test in `maskS2clouds`, for
  one 16-bit pixel value.
- `scan.dfy`, `decimal.dfy` and `wrappers.dfy` hold the text-scanning steps,
  the decimal numerals and the `Option` type that the reader uses.

Inputs the script gets from outside are parameters. The coordinates come from
`getInfo()` on the clicked geometry, so the model takes them as the text that
JavaScript prints for them. The layer names come from the map. The match
count comes from the slider.

Three things the script does that are easy to misread:
- The seed row is whatever row `LIMIT 1` picks among the rows within 160 m.
  The subquery has no `ORDER BY`, so this is not necessarily the nearest row.
- The query does not always return `matches` rows. Nothing comes back when
  the engine returns at most one row; otherwise the rows after the first
  come back, at most `matches` of them.
- The first row is dropped inside the SQL text by `OFFSET 1`. The script
  does no filtering of its own after the query.

## Model

| member | source | states |
|---|---|---|
| SearchQuery.DecodeBuildQuery | src/ee_app.js:124-148 | Reading back the query text gives six result columns in order (base_id, base_tile, query_id, query_tile, geo, distance). It gives one table that is both searched and used for the seed. It gives the `embedding` column on both sides, a seed of at most one row within 160 of ST_GEOGPOINT(lon, lat) with longitude first, top_k = matches + 1, LIMIT matches and OFFSET 1 |
| SearchQuery.BuildQueryInjective | src/ee_app.js:124-148 | Different points or different match counts always give different query texts |
| SearchQuery.BuildQuery | src/ee_app.js:124-148 | The query text: the script's pieces in order, grouped by clause into `SelectList` (lines 130-136), `VectorSearchCall` (138-146), `SeedSubquery` (141-144) and `LimitOffset` (147-148), with top_k = matches + 1 (line 126). No ensures of its own: its text is pinned down by DecodeBuildQuery and BuildQueryInjective |
| SearchQuery.VectorSearchCall | src/ee_app.js:138-146 | The VECTOR_SEARCH argument list. No ensures of its own: ParseVectorSearchOfQuery states what it reads back as |
| SearchQuery.SeedSubquery | src/ee_app.js:141-144 | The seed subquery. No ensures of its own: ParseSeedOfQuery and ParseWithinOfQuery state what it reads back as |
| SearchQuery.LimitOffset | src/ee_app.js:147-148 | The closing LIMIT and OFFSET lines. No ensures of its own: ParseLimitOffsetOfQuery states what they read back as |
| SearchQuery.CommaBeforeFromRejected | src/ee_app.js:130-137 | The reader rejects a select list whose last item, the one before `FROM`, ends with a comma |
| SearchQuery.MissingCommaRejected | src/ee_app.js:130-136 | The reader rejects a select list where an item followed by more items lacks its comma |
| SearchQuery.ParseSelectListOfQuery | src/ee_app.js:129-137 | The SELECT list reads back as exactly the six projections `base.id as base_id` … `distance`, in that order, ended by `FROM` |
| SearchQuery.ParseVectorSearchOfQuery | src/ee_app.js:138-146 | The VECTOR_SEARCH call searches `TABLE` with the fixed table name and `'embedding'`. Its query side is the seed subquery with `'embedding'`. Its `top_k` is matches + 1 |
| SearchQuery.ParseSeedOfQuery | src/ee_app.js:141-144 | The seed subquery selects id, tile and embedding from the same table and takes at most one row (`LIMIT 1`) |
| SearchQuery.ParseWithinOfQuery | src/ee_app.js:143 | The seed filter is ST_DWITHIN of the geometry and ST_GEOGPOINT(first coordinate, second coordinate), with radius 160 |
| SearchQuery.ParseLimitOffsetOfQuery | src/ee_app.js:147-148 | The text ends with `LIMIT <matches>` and `OFFSET 1;` |
| SearchQuery.TableText | src/ee_app.js:128 | The table name contains no comma and no line break, so it cannot run into the text around it |
| Decimal.NatToString | src/ee_app.js:146-147 | A spliced number is written as a canonical decimal numeral: one or more digits with no leading zero |
| Decimal.ParseNatOf | src/ee_app.js:146-147 | Reading a spliced numeral back gives the number and stops at the next non-digit |
| ResultWindow.Window | src/ee_app.js:147-148 | `LIMIT l OFFSET k` keeps at most l rows. Those rows are rows k, k+1, … of the input, in order. Nothing is kept when k is past the end |
| ResultWindow.Answer | src/ee_app.js:146-150 | The rows a query text returns for the engine's ranked rows: its LIMIT/OFFSET window, or none when the text is not of the search's shape. No ensures of its own: AnswerOfQuery, AnswerDropsOnlyFirst and ZeroMatchesAnswerNothing state what it returns for the built query |
| ResultWindow.AnswerOfQuery | src/ee_app.js:146-148 | For any ranked rows, the search returns the rows after the first, cut to at most `matches`. The first row is skipped by position, never by comparing ids |
| ResultWindow.AnswerDropsOnlyFirst | src/ee_app.js:125-148 | The engine returns at most matches + 1 rows. So every ranked row except the first comes back, and exactly `matches` rows come back when the engine fills top_k |
| ResultWindow.ZeroMatchesAnswerNothing | src/ee_app.js:147-148 | With matches = 0 the text says LIMIT 0 and nothing is returned |
| ResultWindow.FiveMatchesExample | src/ee_app.js:124-148 | For the point (36.8, -1.3) and 5 matches, top_k is 6. Six rows at distances 0, 0.12, 0.12, 0.31, 0.40, 0.55 come back as the last five, with the tie kept in the engine's order |
| Search.RunSearch | src/ee_app.js:109-148 | The query is built if and only if layer 2 exists and is named "Clicked Point". Otherwise the press ends without a query (asking for a click, or failing when there is no layer 2) |
| Search.RunSearchAsks | src/ee_app.js:112-148 | A press past the guard sends the query whose read-back is the intended search for that point and slider value |
| Search.UpdateSlider | src/ee_app.js:103-106 | The slider callback returns its argument unchanged |
| Search.IsSliderValue | src/ee_app.js:205 | The values the slider allows: 0 to 100 in steps of 10. No ensures of its own: SliderDefaultAllowed and SliderBoundsQuery state what follows from it |
| Search.SliderDefaultAllowed | src/ee_app.js:205 | The slider's starting value 10 is one of the values it allows (0 to 100 in steps of 10) |
| Search.SliderBoundsQuery | src/ee_app.js:205 | For every value the slider allows, a built query has top_k between 1 and 101, LIMIT at most 100 and OFFSET 1 |
| CloudMask.Kept | src/ee_app.js:26-31 | A pixel passes the mask when its QA60 value has neither the cloud bit (1 << 10) nor the cirrus bit (1 << 11) set. No ensures of its own: KeptIffFlagsClear, FlagRejects and OtherBitsIgnored state its behaviour |
| CloudMask.KeptIffFlagsClear | src/ee_app.js:26-31 | A pixel is kept if and only if bits 10 and 11 of QA60 are both zero |
| CloudMask.FlagRejects | src/ee_app.js:26-31 | Setting the cloud bit or the cirrus bit rejects the pixel |
| CloudMask.OtherBitsIgnored | src/ee_app.js:26-31 | Flipping any bits other than 10 and 11 does not change whether the pixel is kept |

## Left out

- SearchQuery.DecodeBuildQuery: stated only for coordinate texts that contain no `,` and no `)`. These are the only texts the reader can split unambiguously. JavaScript's printing of a number (digits, `-`, `.`, `e`, `+`) always meets this. The same condition applies to BuildQueryInjective, ParseSeedOfQuery, ParseWithinOfQuery, ParseVectorSearchOfQuery, the ResultWindow lemmas about BuildQuery, RunSearchAsks and SliderBoundsQuery.
- Decimal.NatToString: writes every natural number as plain digits. JavaScript switches to exponent form (`1e+21`) from 10^21 on, and numbers above 2^53 are not exact. The slider limits the spliced numbers to 0..101, so no reachable query is affected.
- `ee.FeatureCollection.runBigQuery` (line 150) is a remote call. The engine's ranking, its order among ties, and which row `LIMIT 1` picks as the seed are not modelled. The window lemmas take the engine's rows as an arbitrary sequence in the order it returns them.
- Buffering each result by 160 and taking its bounds (line 151), the printed aggregates and the `distinct` distances (lines 152-156), and centering on the closest result (line 170) are left out. They are Earth Engine server operations on floating-point geometry.
- The coordinate fetch `coordinates().getInfo()` (line 111) is a blocking server call, and it runs before the guard. The model takes its printed result as input. A failure of that call is not modelled.
- Search.RunSearch: when the layer list has fewer than three entries, the source reads `Map.layers().get(2)` and calls methods on the result. What the toolkit does there is not visible, so the model only reports a `NoLayer` outcome.
- The warning panel and label built on the guard's failing path (lines 113-119) are left out. They are never added to the UI, so the model's `NeedsClick` outcome stands for them.
- `Map.layers().reset()` / `insert(...)` sequences (lines 94-98, 165-169, 245-247), `Map.centerObject`, `Map.onClick`, and every `ui.*` widget and style (lines 179-223) are left out. They are UI state inside a toolkit whose code is not shown.
- `buildS2` compositing (date filter, cloudy-percentage filter, median, division by 10000; lines 36-42) is left out. It is floating-point image processing in Earth Engine. Only the per-pixel bit test of lines 26-31 is modelled, and `updateMask` applying it to an image is not.
- `print` calls (lines 119, 149, 152-156) are left out. They are output only.
