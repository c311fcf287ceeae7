# Parking occupancy collector: a Dafny model

The repository is made of two near-duplicate Streamlit pages that show how
many free places nine car parks in Aix-en-Provence have. Without the UI,
each page holds the same small collector. The collector has four parts:

- a per-facility classifier. It searches the status page of one car park
  with two regular expressions and picks one of four branches: a number of
  free places, a textual status, no data, or a request error.
- a sweep (`scraper_parkings`). It fills one record per configured car park,
  in configuration order.
- a JSON cache file (`load_cache` / `save_cache`) with the page's cold-start
  and refresh logic built on top of it.
- two metrics shown above the cards: total free places and the number of
  open car parks. `test.py` also colours its map markers by occupancy
  (`get_color`).

Modules:

- `Decimal` covers `int(...)` on a run of digits and the f-string rendering of a number.
- `Markup` holds the two patterns:
  - `MatchAt` matches at one start position;
  - `Search` gives the leftmost match, as `re.search` does;
  - `IsMatch` states the regular expression's meaning directly, as a reference for both.
- `Scrape` holds the four-way classifier and the `Places`/`Statut` fields. Both pages share them.
- `Collector` holds the sweep loop both pages share, parameterised by how a page builds its record.
- `Snapshots` models the insertion-ordered dict from car-park name to record.
- `Store` holds the cache class. Its file is absent, corrupt, or holds a snapshot.
- `Summary` computes the two metrics on the `Places`/`Statut` columns.
- `Dashboard` models `dashboard_parking.py`, with 3-field records.
- `MapDashboard` models `test.py`, with 7-field records and marker colours.

The sweep is a `while` loop proved against a recursive specification function,
`SweptWith`. The cache is a class, and the page logic consists of methods that
reassign the cached snapshot and overwrite the cache.

The code has no "FULL" marker, no rule that two places or fewer means full,
no case-insensitive status comparison, no lock serialising sweeps, no atomic
write and no separate last-update timestamp file, so the model has none of
them either. `LOCK_FILE` in `dashboard_parking.py` is declared but never used.

## Model

| member | source | states |
|---|---|---|
| Decimal.NatToString | test.py:73 | the f-string rendering of a count is a non-empty run of digits with no leading zero unless the count is 0 |
| Decimal.ParseDigits | test.py:69 | `int()` of a non-empty run of ASCII digits; it has no contract of its own and is specified by `ParseNatToString` (it reads back every rendered count) and used through `ClassifyCount` |
| Decimal.ParseNatToString | test.py:69-73 | `int()` of the rendered number gives the number back |
| Decimal.NatToStringInjective | test.py:73 | different counts never render alike |
| Markup.SkipTo | test.py:65 | `[^>]*` stops at the first `>` after the opening tag (or at the end of the text) |
| Markup.GroupEnd | test.py:65-66 | the capture group stops at the first character outside its class (a non-digit for `\d+`, a `<` for `[^<]+`) |
| Markup.MatchAt | test.py:65-66 | a capture at one start position is non-empty and made of characters of the group's class |
| Markup.MatchAtCorrect | test.py:65-66 | matching at one position agrees with the regular expression in both directions: what MatchAt reports is a match, and every match at that position is the one it reports, so there is at most one |
| Markup.SearchFrom | test.py:65-66 | the scan reports the first position at or after its start where the pattern matches, and reports None only if no position matches |
| Markup.Search | dashboard_parking.py:65-66 | `re.search` returns the leftmost matching position with its capture, or None when no position matches |
| Markup.SearchCorrect | dashboard_parking.py:65-66 | the search result is a match of the regular expression, no match starts earlier, and None is returned exactly when nothing matches |
| Markup.SearchIsLeftmost | test.py:65-66 | whenever a match is leftmost, `re.search` reports exactly its position and its capture |
| Markup.LeftmostOfSearch | test.py:65-66 | the match the search reports is a leftmost match of the regular expression, and its capture is the group |
| Markup.NumericMatchIsTextual | test.py:65-66 | where the numeric pattern matches, the textual pattern matches at the same position with the same capture |
| Markup.DigitTextIsNumeric | test.py:65-66 | where the textual pattern captures only digits, the numeric pattern matches there with the same capture |
| Markup.NumericSearchIsTextual | test.py:65-68 | a numeric hit implies a textual hit at the same position or earlier |
| Markup.DigitTextSearchIsNumeric | test.py:65-68 | if the leftmost textual capture is all digits, the numeric search returns exactly that match |
| Markup.TextualOnlyCapture | test.py:79-80 | when only the textual pattern matches, its capture is non-empty, contains no `<` and is not all digits |
| Scrape.Classify | dashboard_parking.py:62-94 | the `try`/`if`/`elif`/`else`/`except` dispatch; it has no contract of its own and is specified by `ClassifyAvailable`, `ClassifyCount`, `ClassifyDigitLimit`, `ClassifyMessage`, `ClassifyNoData` and `FailedIsError`, which together say which branch each page takes |
| Scrape.ClassifyAvailable | test.py:65-69 | the numeric branch is taken exactly when the numeric expression has a leftmost match whose group has at most 4300 digits |
| Scrape.ClassifyCount | test.py:68-69 | in the numeric branch the count is `int()` of the digits of the leftmost numeric match |
| Scrape.ClassifyDigitLimit | dashboard_parking.py:65-94 | a fetched page lands in the `except` branch exactly when the group of its leftmost numeric match has more than 4300 digits, so that `int()` raises `ValueError` |
| Scrape.NumericLeftmost | dashboard_parking.py:65-68 | the numeric search misses exactly when the numeric expression has no leftmost match, and otherwise reports that match |
| Scrape.ClassifyMessage | test.py:79-80 | the textual branch is taken exactly when the numeric expression matches nowhere and the textual one somewhere; the phrase is then the leftmost textual capture, non-empty, contains no `<` and is not all digits |
| Scrape.ClassifyNoData | test.py:90-99 | the no-data branch is taken exactly when neither expression matches anywhere |
| Scrape.FailedIsError | test.py:101-110 | a failed request gives the error branch, `Places` 0 and `❌ Erreur`, whatever the page would have contained |
| Scrape.RecoverOutcome | dashboard_parking.py:68-94 | `Places` and `Statut` together determine which of the four branches built the record, including the phrase and the count |
| Scrape.OpenIffAvailable | dashboard_parking.py:68-94 | `Statut` is `✅ Ouvert` exactly in the numeric branch, and `Places` is non-zero only there |
| Scrape.PlacesOf | dashboard_parking.py:71-91 | the `Places` value of each branch; specified by `RecoverOutcome` (with `Statut` it gives the branch back) and `OpenIffAvailable` (non-zero only in the numeric branch) |
| Scrape.StatutOf | dashboard_parking.py:72-92 | the `Statut` value of each branch; specified by `RecoverOutcome` and `OpenIffAvailable` (`✅ Ouvert` exactly in the numeric branch) |
| Snapshots.Names | dashboard_parking.py:61 | the key list of a dict lists its names in insertion order |
| Snapshots.Lookup | dashboard_parking.py:70 | a lookup finds a value exactly when the name is a key |
| Snapshots.Put | dashboard_parking.py:70 | `data[nom] = ...` appends a new key at the end and keeps the key order when the key exists |
| Snapshots.PutDistinct | dashboard_parking.py:70 | assignment keeps the keys distinct |
| Snapshots.LookupPut | dashboard_parking.py:70 | after `data[nom] = v`, `data[nom]` is v and every other key keeps its value |
| Store.Cache.Load | dashboard_parking.py:42-50 | `load_cache` returns the stored snapshot, returns `{}` for a missing or unparsable file, and never fails |
| Store.Cache.Save | dashboard_parking.py:52-55 | `save_cache` replaces the whole file with the given snapshot, whatever it held before |
| Store.SaveThenLoad | test.py:42-55 | a load right after a save returns the saved snapshot |
| Summary.Table | dashboard_parking.py:144 | the table built from a snapshot has one row per entry, in snapshot order, each holding that entry's `Places` and `Statut` |
| Summary.PlacesColumn | dashboard_parking.py:154 | the `Places` column lists every row's places, in row order |
| Summary.TotalPlaces | dashboard_parking.py:154 | `df['Places'].sum()`; specified by `MetricsAppend`, `MetricsPermutation` and `TotalIsOpenTotal` |
| Summary.OpenRows | dashboard_parking.py:158 | the filtered frame has no more rows than the table, and every row it keeps is `✅ Ouvert` |
| Summary.OpenCount | dashboard_parking.py:158 | `len(df[df['Statut'] == '✅ Ouvert'])`; specified by `OpenRowsKeepsOpen`, `MetricsAppend` and `MetricsPermutation` |
| Summary.OpenRowsKeepsOpen | dashboard_parking.py:158 | the filter keeps a row exactly when the row is in the table and its `Statut` is `✅ Ouvert` |
| Summary.SumAppend | dashboard_parking.py:154 | the column sum of two concatenated segments is the sum of their sums |
| Summary.OpenRowsAppend | dashboard_parking.py:158 | filtering a concatenation concatenates the filtered parts |
| Summary.MetricsAppend | dashboard_parking.py:154-158 | both metrics add up over concatenated row segments |
| Summary.MetricsPermutation | dashboard_parking.py:145-158 | reordering the rows (the sort by `Places`) changes neither the total places nor the open count |
| Summary.TotalIsOpenTotal | test.py:161-165 | when only open rows have places, the total equals the total of the open rows |
| Collector.SweptWith | dashboard_parking.py:57-98 | a sweep's snapshot has one entry per configured facility, in configuration order, each built from that facility's tuple and its own probe |
| Collector.SweepWith | dashboard_parking.py:57-98 | the loop returns exactly that snapshot, and its keys are the configured names in configuration order, whatever each request returned |
| Dashboard.Swept | dashboard_parking.py:57-98 | the sweep's snapshot has one entry per configured facility, in configuration order, each built from its own probe |
| Dashboard.Build | dashboard_parking.py:68-94 | the record dict of one iteration; specified by `SweptRecords` and `DictRoundTrip` |
| Dashboard.Sweep | dashboard_parking.py:57-98 | the loop returns exactly that snapshot, whose keys are the configured names in configuration order, whatever each request returned |
| Dashboard.SweptRecords | dashboard_parking.py:68-94 | each record carries its probe's timestamp; its `Places` and `Statut` give back that probe's branch; `Places` is the count in the numeric branch and 0 otherwise; `Statut` is `✅ Ouvert`, `⚠️ ` followed by the phrase, `❓ Pas de données` or `❌ Erreur` according to the branch |
| Dashboard.ColdStart | dashboard_parking.py:124-131 | a non-empty cache is used unchanged; an empty, missing or corrupt cache triggers one sweep that is saved; the result is non-empty for a non-empty configuration |
| Dashboard.Refresh | dashboard_parking.py:136-141 | the button replaces both the cached snapshot and the whole cache file with a fresh sweep |
| Dashboard.BackgroundPass | dashboard_parking.py:106-107 | a background pass overwrites the cache with a fresh sweep and does not merge it with the earlier one |
| Dashboard.Page | dashboard_parking.py:124-141 | after cold start and an optional refresh, the snapshot and the cache file are as above, and the snapshot is non-empty for a non-empty configuration |
| Dashboard.SweptTotals | dashboard_parking.py:154-158 | after a sweep the total counts only open facilities, and the open count is at most the number of configured facilities |
| Dashboard.ParkingsDistinct | dashboard_parking.py:22-32 | the nine configured names are distinct |
| Dashboard.OpenCountOfNine | dashboard_parking.py:158-159 | after a sweep of the configuration, the `f"{open_count}/9"` metric never exceeds nine |
| Dashboard.AsDict | dashboard_parking.py:70-94 | every record dict has exactly the keys `Places`, `Statut` and `Timestamp` |
| Dashboard.DictRoundTrip | dashboard_parking.py:70-94 | the record is recovered from its dict |
| MapDashboard.Swept | test.py:57-114 | the sweep's snapshot has one entry per configured facility, in configuration order, each built from its tuple and its probe |
| MapDashboard.Build | test.py:68-110 | the record dict of one iteration; specified by `SweptRecords` |
| MapDashboard.Display | test.py:73-105 | the `Affichage` value of each branch; specified by `SweptRecords` and `FractionRoundTrip` |
| MapDashboard.Sweep | test.py:57-114 | the loop returns exactly that snapshot, whose keys are the configured names in order, whatever each request returned |
| MapDashboard.FractionRoundTrip | test.py:73 | the display `"n / capacite"` reads back as the pair (n, capacite) |
| MapDashboard.SweptRecords | test.py:61-110 | each record copies its tuple's capacity, latitude and longitude and carries its probe's timestamp; `Places`/`Statut` give back the branch; `Places` is 0 unless open; `Affichage` is exactly `f"{places} / {capacite}"` when open (and reads back as that pair), the phrase for a textual status (with `Statut` `⚠️ ` followed by it), `N/A` with `❓ Pas de données` without data, and `Erreur` with `❌ Erreur` after an error |
| MapDashboard.ColdStart | test.py:137-144 | a non-empty cache is used unchanged; an empty, missing or corrupt cache triggers one sweep that is saved; the result is non-empty for a non-empty configuration |
| MapDashboard.Refresh | test.py:146-153 | the button replaces both the cached snapshot and the whole cache file with a fresh sweep |
| MapDashboard.BackgroundPass | test.py:122-123 | a background pass overwrites the cache with a fresh sweep |
| MapDashboard.Page | test.py:137-153 | after cold start and an optional refresh, the snapshot and the cache file are as above, and the snapshot is non-empty for a non-empty configuration |
| MapDashboard.SweptTotals | test.py:161-165 | after a sweep the total counts only open facilities, and the open count is at most the number of configured facilities |
| MapDashboard.ParkingsShape | test.py:24-34 | the nine configured names are distinct and every configured capacity is positive |
| MapDashboard.GetColor | test.py:196-206 | the colour is one of gray, green, orange, red, and it is gray exactly when the capacity is 0 |
| MapDashboard.ColorThresholds | test.py:196-206 | for a positive capacity: green iff `2*places > capacite`, orange iff `5*places > capacite >= 2*places`, red iff `5*places <= capacite`; exactly one of the three holds |
| MapDashboard.RatioAbove | test.py:200-204 | for a positive capacity, the ratio exceeds a threshold q exactly when places exceeds q times the capacity |
| MapDashboard.SweptMarkersNotGray | test.py:217-218 | no marker of a swept snapshot of the configuration is gray |

## Left out

- HTTP: `requests.get` with its header and 5-second timeout is not modelled. Each facility's request result is an input `Fetch`, either a body text or a failure. The i-th probe stands for the request made for the i-th configured facility.
- Clock: each `Timestamp` is an opaque input string taken per facility. The comment that all timestamps are the same is not guaranteed, and the model does not claim it. `last_update` (the first row's timestamp after the sort) is not modelled.
- Throttling and scheduling: the `time.sleep` calls (0.5 s between facilities, 600 s between background passes) are not modelled.
- Threading: the background thread, its endless loop and the `st.session_state` guard are not modelled. Only one pass of the loop is modelled (`BackgroundPass`). The code has no mutual exclusion, so the model claims nothing about sweeps running one at a time. A background save interleaving with the page's own save is not modelled.
- JSON and files: the cache file is abstract, either absent, unparsable, or holding a snapshot of this page's records. A file holding valid JSON of another shape is not modelled, and neither is a file written by the other page's record format.
- Save failures: `save_cache` always succeeds in the model. In the source, a write error during cold start or refresh propagates out of the page script, while the background loop catches it.
- Exceptions: two exceptions inside the `try` are modelled: the failing request, and the `ValueError` that `int()` raises on a numeral of more than 4300 digits. That limit is CPython's default since 3.11 and the 3.10.7 and 3.9.14 patch releases. Earlier releases have no limit, and under them a longer capture would give the numeric branch instead. Nothing else inside the `try` raises for the modelled inputs.
- `\d`: modelled as the ASCII digits 0-9. Python's `\d` on text also accepts other Unicode decimal digits, and `int()` accepts them too.
- Capacity: modelled as a natural number, because every configured capacity is a positive integer literal.
- `st.rerun()`: the rerun after a refresh is not modelled. The next run's load returns the refreshed cache, per `SaveThenLoad`.
- Rendering: Streamlit, pandas and folium rendering are not modelled. That covers the cards, the map and the table. The sort by `Places` is not modelled, because ties make its order unspecified. `MetricsPermutation` shows that the metrics do not depend on it.
- MapDashboard.GetColor: the ratio is computed over exact reals, not IEEE doubles, so float rounding of `places / capacite` and of the literals 0.5 and 0.2 is not modelled; nor is the `OverflowError` Python raises when the quotient exceeds the largest double (a count of roughly 309 digits or more), which stops the page at test.py:200 where the model answers green. For the configured magnitudes the comparisons agree, but that is not proved.
- Marker percentage: `taux = round(.../...*100)` (test.py:219) is not modelled. It involves float rounding, divides by zero for a zero capacity and overflows like `get_color` for a huge count.
- Record keys in `test.py`: these are given by the fields of `MapDashboard.Record`. Only `dashboard_parking.py`'s record has an explicit dict form (`AsDict`).
