# Environmental dashboard and sustainability report — a Dafny model

This project models two pages of a Next.js environmental-monitoring web app.

**The environmental dashboard** (`app/Mainmaps/page.tsx`) lets a user pick a city. The user can choose from a fixed list of thirteen Indian and Chinese cities, search with a live filter, pick a place through Google Places autocomplete, or use the device's geolocation. The page then:

- shows the city's air-quality reading from the WAQI feed as a coloured circle and a marker on the map;
- grades that reading on the US EPA AQI scale in four places: the circle colour, the badge, the status label and the summary card;
- sends weather, air quality, soil class and coordinates to a tree-prediction service once all three readings are in;
- falls back to a built-in three-tree sample when that service fails.

A slider resizes the coverage circle in place.

**The sustainability report** (`app/dashboard/report/page.jsx`) exports the report data. The export is JSON, a flattened CSV or a PDF placeholder text. The file name is built from the chosen timeframe and the locale date. `ReportStat` shows each metric with an up or down change indicator.

The model has seven modules:

- `Options` is the `Option` type.
- `Aqi` holds the four AQI ladders, each proved equal to one reference banding.
- `Trees` holds the tree record, the sample list and `getOptimumTree`.
- `Cities` holds the city list, `trim`, `toLowerCase`, `includes` and the filter.
- `Dashboard` is the page's state as the class `DashboardPage`. Each React handler or effect is a method, and map circles and markers are objects changed in place.
- `Text` holds line and field joining and splitting, used to state what the CSV round-trips to.
- `Report` holds the CSV export, the export switch and file naming, the `ReportFilter` state as a class, and the `ReportStat` indicator.

Network responses, the map becoming ready, geolocation fixes and the current date are parameters of the methods that consume them.

## Model

| member | source | states |
|---|---|---|
| Aqi.BandMonotone | app/Mainmaps/page.tsx:291-298 | The AQI band never decreases as the AQI rises. |
| Aqi.BandCases | app/Mainmaps/page.tsx:291-298 | The reference band is 0..5 over the inclusive cut-offs 50/100/150/200/300; a value on a cut-off belongs to the lower band. |
| Aqi.AqiColor | app/Mainmaps/page.tsx:291-298 | `getAqiColor` as written returns the colour of the value's band for every AQI value. |
| Aqi.AqiColorBands | app/Mainmaps/page.tsx:291-298 | Each of the six colours is returned exactly on its AQI interval, in both directions. |
| Aqi.BadgeClass | app/Mainmaps/page.tsx:847-854 | The badge class ladder returns the class of the value's band. |
| Aqi.StatusLabel | app/Mainmaps/page.tsx:862-867 | The status label ladder returns the label of the value's band. |
| Aqi.SummaryClass | app/Mainmaps/page.tsx:947-953 | The summary card is grey without a usable reading, a class no band uses; otherwise it shows the band's class. |
| Aqi.TablesDistinct | app/Mainmaps/page.tsx:291-298 | The colour, label, badge and summary tables each have six pairwise different entries. |
| Aqi.LaddersAgree | app/Mainmaps/page.tsx:847-953 | Two AQI values share a colour iff they share a label, iff they share a badge, iff they share a summary class, iff they are in the same band. |
| Trees.FirstHigh | app/Mainmaps/page.tsx:131-134 | `find` stops at the first "High" tree: that tree is "High", none before it is, and there is no result iff no tree is "High". |
| Trees.OptimumTree | app/Mainmaps/page.tsx:131-134 | `getOptimumTree` returns a member of the list: the first "High" tree if there is one, otherwise the first tree. |
| Trees.SampleOptimumIsNeem | app/Mainmaps/page.tsx:124-134 | For the built-in sample the optimum is its first entry, Neem. |
| Cities.Lower | app/Mainmaps/page.tsx:333-335 | Lower-casing keeps the length, turns each ASCII upper-case letter into its lower-case letter and keeps every other character in place. |
| Cities.LowerKeepsBlank | app/Mainmaps/page.tsx:330-333 | A term is all white space iff its lower-cased form is. |
| Cities.TrimBlank | app/Mainmaps/page.tsx:330 | A term trims to "" iff it is all white space. |
| Cities.Filter | app/Mainmaps/page.tsx:333-335 | The filter keeps an order-preserving sub-list, and a city is in it iff it is in the input and its lower-cased name includes the lower-cased term. |
| Cities.FilterAppend | app/Mainmaps/page.tsx:333-335 | Filtering a concatenation is the concatenation of the filtered parts. |
| Cities.FilterCities | app/Mainmaps/page.tsx:329-338 | The dropdown list is always an order-preserving sub-list of all cities. |
| Cities.BlankTermListsAll | app/Mainmaps/page.tsx:330-331 | A blank term lists all thirteen cities in their original order. |
| Cities.TermListsMatches | app/Mainmaps/page.tsx:332-336 | A non-blank term lists exactly the cities that match it. |
| Cities.OwnNameListed | app/Mainmaps/page.tsx:329-338 | Every city of the list is offered when its own name is the search term. |
| Cities.FilterSameLower | app/Mainmaps/page.tsx:333-335 | Two terms with the same lower-cased form keep the same cities. |
| Cities.SearchIgnoresCase | app/Mainmaps/page.tsx:329-338 | Two terms that differ only in letter case give the same dropdown list. |
| Cities.UpperCaseFindsDelhi | app/Mainmaps/page.tsx:333-335 | Typing "DEL" offers Delhi. |
| Dashboard.RecommendationRequest | app/Mainmaps/page.tsx:509-527 | A request is made iff weather, an "ok" air-quality reading and soil are all present; the payload copies temperature, precipitation, AQI, soil class and the city's coordinates. |
| Dashboard.PlaceLabel | app/Mainmaps/page.tsx:483 | A missing or empty place name becomes "Selected Location"; any other name is kept. |
| Dashboard.DisplayedTrees | app/Mainmaps/page.tsx:1024 | The grid shows the recommendations when there are any, otherwise the sample; it is never empty. |
| Dashboard.FallbackShowsSample | app/Mainmaps/page.tsx:555-560 | After the fallback the grid shows the three sample trees and the optimum is Neem. |
| Dashboard.HideMarkers | app/Mainmaps/page.tsx:234 | Every marker is removed from the map. |
| Dashboard.HideCircles | app/Mainmaps/page.tsx:235 | Every circle is removed from the map; radius and colour are kept. |
| Dashboard.SetRadii | app/Mainmaps/page.tsx:691-695 | Every circle gets the new radius; colour and visibility are kept. |
| Dashboard.Circle.constructor | app/Mainmaps/page.tsx:243-252 | A new circle has the given colour and radius and is on the map. |
| Dashboard.Marker.constructor | app/Mainmaps/page.tsx:273-277 | A new marker has the given title and is on the map. |
| Dashboard.DashboardPage.constructor | app/Mainmaps/page.tsx:138-154 | The initial state: Delhi, empty search, all cities listed, nothing loaded, no overlays, radius 10000; both page invariants hold, and the WAQI callback captures this state. |
| Dashboard.DashboardPage.OnMapReady | app/Mainmaps/page.tsx:158-166 | Once the map exists the invariant still holds, and the WAQI callback, memoized on the map, captures the current city, radius and overlays. |
| Dashboard.DashboardPage.SetSearchTerm | app/Mainmaps/page.tsx:329-338 | The term is stored and the list becomes its filter, so the dropdown invariant holds. |
| Dashboard.DashboardPage.OnSearchInput | app/Mainmaps/page.tsx:721-724 | The term is stored, the dropdown opens, and the list becomes the filter of the new term. |
| Dashboard.DashboardPage.OnSearchFocus | app/Mainmaps/page.tsx:725 | Focus opens the dropdown. |
| Dashboard.DashboardPage.OnClickOutside | app/Mainmaps/page.tsx:759-763 | A click on the backdrop closes the dropdown. |
| Dashboard.DashboardPage.ListCity | app/Mainmaps/page.tsx:742 | The term becomes the city's name with its list refiltered, and a city of the list is then listed. |
| Dashboard.DashboardPage.SelectCity | app/Mainmaps/page.tsx:741 | The city is selected; on a map the WAQI callback is re-created over the new selection, otherwise it is kept. The invariant is kept. |
| Dashboard.DashboardPage.OnPickCity | app/Mainmaps/page.tsx:740-748 | The city is selected, its name becomes the term and the dropdown closes; a listed city remains listed. On a map the WAQI callback is re-created over the new selection, otherwise it is kept. |
| Dashboard.DashboardPage.OnPlaceChanged | app/Mainmaps/page.tsx:470-485 | A place without a location changes nothing; otherwise it is selected at its coordinates under its name or "Selected Location", and on a map the WAQI callback is re-created over the new selection. |
| Dashboard.DashboardPage.OnUseMyLocation | app/Mainmaps/page.tsx:387-393 | Without geolocation support nothing changes. Otherwise loading starts, and the pending success callback keeps whether this render has a map and its markers. |
| Dashboard.DashboardPage.OnGeolocationFix | app/Mainmaps/page.tsx:396-455 | "Your Location" is selected at the fix, and on a map the WAQI callback is re-created over the new selection and the markers of that moment. If the click-time render had a map, exactly its markers are removed and one new "Your Location" marker becomes the marker list; every other marker keeps its state. Loading ends. |
| Dashboard.LeftoverMarkerExample | app/Mainmaps/page.tsx:417-446 | A marker drawn for a reading after the click stays on the map but leaves the marker list. |
| Dashboard.DashboardPage.OnGeolocationError | app/Mainmaps/page.tsx:457-461 | Loading ends. |
| Dashboard.DashboardPage.DisplayWaqiOnMap | app/Mainmaps/page.tsx:232-288 | Every overlay handed in is removed. An "ok" reading then shows exactly one new circle, coloured by `getAqiColor` with the radius handed in, and one new marker titled with the city handed in. Any other reading shows nothing. |
| Dashboard.DashboardPage.OnWaqiResponseAsWritten | app/Mainmaps/page.tsx:196-217 | A failed fetch keeps the stored reading and a response is stored. A usable reading on a ready map is drawn with the city and radius the callback captured, and the overlays it captured are removed, and the new circle and marker are fresh. Otherwise no overlay changes: the lists stay, and every captured overlay keeps its visibility, radius and colour. |
| Dashboard.DashboardPage.OnWaqiResponse | app/Mainmaps/page.tsx:206-211 | A failed fetch keeps the stored reading and a response is stored. A usable reading on a ready map is drawn with the selected city and the slider's radius: the old overlays are removed and exactly one new circle and one new marker are shown. Otherwise no overlay changes. The invariant is kept. |
| Dashboard.DashboardPage.DrawCurrent | app/Mainmaps/page.tsx:232-288 | On a ready map a reading is drawn with the current city and radius, removing the current overlays and keeping the invariant. |
| Dashboard.StaleRadiusExample | app/Mainmaps/page.tsx:216 | Map ready, slider moved to 20000, then an "ok" reading: as written the circle is drawn with 10000. |
| Dashboard.SelectedRadiusExample | app/Mainmaps/page.tsx:251 | The same events with the selected radius used: the circle is drawn with 20000, the slider's value. |
| Dashboard.DashboardPage.OnWeatherRequested | app/Mainmaps/page.tsx:359-361 | Weather loading starts. |
| Dashboard.DashboardPage.OnWeatherResponse | app/Mainmaps/page.tsx:359-376 | A response replaces the stored weather and a failure keeps it; loading ends either way. |
| Dashboard.DashboardPage.OnSoilResponse | app/Mainmaps/page.tsx:341-355 | A response replaces the stored soil class and a failure keeps it. |
| Dashboard.DashboardPage.FetchTreeRecommendations | app/Mainmaps/page.tsx:509-561 | The request sent is the gated payload. With no request nothing changes. On success the response's list and optimum are stored; on failure the sample and its optimum are. Loading ends. |
| Dashboard.DashboardPage.OnRadiusChange | app/Mainmaps/page.tsx:686-695 | The radius is stored and every existing circle is resized in place, with its colour and visibility kept. The invariant that each circle shows the slider's radius is preserved. |
| Report.MetricFields | app/dashboard/report/page.jsx:257-270 | There are exactly eight metric rows. |
| Report.ActivityRows | app/dashboard/report/page.jsx:274-276 | There is one row per activity. |
| Report.CarbonTotalRow | app/dashboard/report/page.jsx:257 | The carbon total line is the comma-join of its five fields, ending in the change with "%". |
| Report.CarbonProgressRow | app/dashboard/report/page.jsx:258 | The progress line is the comma-join of its fields, with the value "total/goal" and an empty change. |
| Report.TreesTotalRow | app/dashboard/report/page.jsx:261 | The trees total line is the comma-join of its five fields. |
| Report.SurvivalRow | app/dashboard/report/page.jsx:262 | The survival-rate line has unit "%" and an empty change. |
| Report.IndexRow | app/dashboard/report/page.jsx:265 | The biodiversity index line is the comma-join of its five fields. |
| Report.SpeciesRow | app/dashboard/report/page.jsx:266 | The species line has the value "current/target" and empty unit and change. |
| Report.WaterSavedRow | app/dashboard/report/page.jsx:269 | The water-saved line is the comma-join of its five fields. |
| Report.EfficiencyRow | app/dashboard/report/page.jsx:270 | The efficiency line has unit "% of goal" and an empty change. |
| Report.HeaderText | app/dashboard/report/page.jsx:254 | The initial text is the header line and its line feed. |
| Report.ActivitiesSectionText | app/dashboard/report/page.jsx:273 | The section literal is an empty line, the "Activities" line and the activity header line. |
| Report.ExportAsCsv | app/dashboard/report/page.jsx:251-284 | The text built step by step is exactly the export's lines, each ended by a line feed, and the file is named with ".csv". |
| Report.CsvShape | app/dashboard/report/page.jsx:254-276 | The export has 12 + n lines. The header comes first, then the eight metric rows in order, then the blank line, the title and the activity header, then one row per activity in order. |
| Report.MetricRowLabels | app/dashboard/report/page.jsx:257-270 | Each metric row has five fields with its category and metric. Exactly the four total/index/saved rows carry the change with "%"; the others have an empty change. |
| Report.CsvSplitsIntoLines | app/dashboard/report/page.jsx:254-276 | When no field holds a line feed, splitting the export on line feeds gives back its lines. |
| Report.ActivityRowPieces | app/dashboard/report/page.jsx:275 | An activity row splits into four pieces plus one per comma inside its fields, so into exactly four iff no field holds a comma. |
| Report.CsvRowsSplitIntoFields | app/dashboard/report/page.jsx:257-276 | When no field holds a comma, each metric row splits back into its five fields and each activity row into its four. |
| Report.SampleRowHasFiveFields | app/dashboard/report/page.jsx:407-412 | Fields are not quoted, so the fourth mock activity splits into five fields under the four-column header. |
| Report.SlashesToDashes | app/dashboard/report/page.jsx:218 | Replacing slashes keeps the length, turns each "/" into "-" and keeps every other character in place. |
| Report.SlashesGone | app/dashboard/report/page.jsx:218 | The result holds no "/"; the replacement is idempotent and leaves a slash-free date unchanged. |
| Report.FileBase | app/dashboard/report/page.jsx:218-219 | The base name has the length of prefix, timeframe, dash and date, and holds a "/" iff the timeframe does. |
| Report.ExportKindOf | app/dashboard/report/page.jsx:221-233 | "csv" selects CSV, "pdf" selects the PDF demo, and every other format, "json" included, selects JSON. |
| Report.ExportFileName | app/dashboard/report/page.jsx:219-233 | The download's name extends the base name. |
| Report.FileNameDeterminesKind | app/dashboard/report/page.jsx:221-233 | Two formats give the same file name iff they select the same exporter. |
| Report.ExportDownload | app/dashboard/report/page.jsx:210-237 | The download is named from the format and base. It is CSV text iff the format is "csv", and the PDF demo iff the format is "pdf". The JSON and PDF payloads carry timeframe, ISO date and data. |
| Report.ExportNames | app/dashboard/report/page.jsx:218-233 | The file name is the prefix, timeframe and dashed date, plus ".csv", "-demo.txt" or ".json" by format. |
| Report.RenderedChange | app/dashboard/report/page.jsx:116-120 | As React renders it: no indicator iff the change is absent, the bare text "0" iff the change is 0, otherwise an arrow that points up iff the change is positive, with magnitude \|change\|. |
| Report.ChangeIndicator | app/dashboard/report/page.jsx:116-120 | The intended indicator: none iff the change is absent or 0, otherwise that arrow and magnitude. |
| Report.ZeroChangeRendersDigit | app/dashboard/report/page.jsx:116 | A change of 0 renders "0" where no indicator is meant; every other change renders as intended. |
| Report.IndicatorAntisymmetric | app/dashboard/report/page.jsx:117-118 | Opposite changes show the same magnitude with opposite arrows. |
| Report.IndicatorClass | app/dashboard/report/page.jsx:117 | The span is green iff the change is positive, and red otherwise. |
| Report.ColourMatchesArrow | app/dashboard/report/page.jsx:117-118 | The colour is green iff the arrow points up. |
| Report.NatText | app/dashboard/report/page.jsx:118 | A number prints as at least one decimal digit with no leading zero. |
| Report.NatTextValue | app/dashboard/report/page.jsx:118 | The printed digits read back as the number. |
| Report.IndicatorTextReadsBack | app/dashboard/report/page.jsx:118 | The indicator text is the arrow, a space, digits and "%", and its digits read back as \|change\|. |
| Report.ReportFilter.constructor | app/dashboard/report/page.jsx:183-185 | Initially the timeframe is "monthly", the format "json", and the dropdown is closed. |
| Report.ReportFilter.HandleChange | app/dashboard/report/page.jsx:205-208 | The chosen value is stored as the timeframe and is the value handed to `onFilter`. |
| Report.ReportFilter.SelectFormat | app/dashboard/report/page.jsx:355-381 | A radio button stores its format. |
| Report.ReportFilter.ToggleExportOptions | app/dashboard/report/page.jsx:339 | The Export Report button flips the dropdown. |
| Report.ReportFilter.OnMouseDown | app/dashboard/report/page.jsx:189-194 | A press outside closes the dropdown; a press inside leaves it as it was. |
| Report.ReportFilter.HandleExport | app/dashboard/report/page.jsx:210-237 | The download is what the current timeframe and format select, with CSV text built by `ExportAsCsv`; the dropdown is closed afterwards whatever the format. |

## Left out

- HTTP fetches (WAQI, WeatherAPI, SoilGrids, the `/predict` service) are not modelled as calls. Each completed fetch is a method parameter: `Option` for a response or a failure, and `Prediction` for the POST.
- Asynchrony is not modelled. Responses arriving out of order, the `await` of weather and soil inside the geolocation callback, and React's batching of state updates are outside the model; each event is one atomic method.
- Effects that only trigger fetches are not modelled: refetching on city change, and the recommendation effect's dependency list. The gate they share is `RecommendationRequest`.
- Google Maps script loading, `setCenter`, `InfoWindow`, marker icons, `console` output and `alert` are left out. They are browser side effects with no state the page reads.
- Coordinates, temperature and precipitation are carried as `real` and never computed with. The slider's `parseInt` is taken as already done: the method receives an `int`.
- Cities.Lower: lower-cases ASCII letters only. `toLowerCase` also folds non-ASCII letters, and all the built-in city names are ASCII.
- Cities.IsSpace: covers the usual white-space characters. JavaScript's `trim` also removes the other Unicode space separators (U+1680, U+2000–U+200A, U+202F, U+205F, U+3000).
- `JSON.stringify`, `toISOString`, `toLocaleDateString` and `toLocaleString` are not computed. The JSON and PDF-demo downloads record the payload they are rendered from; the ISO timestamp and locale date are parameters.
- Report.ExportDownload: the PDF-demo text (lines 291-299 of the report page) is not modelled. The download is named `-demo.txt` and records its payload, not the text.
- Blob creation, object URLs and the anchor click of `downloadFile` are left out. A download is its file name and content.
- The map is re-created whenever the selected city changes, because `initMap` is memoized on the city (app/Mainmaps/page.tsx:156-166). The model keeps one map that becomes ready once, and re-creates the WAQI callback in the selection handlers instead. Overlays left on a replaced map, and the fetch the previous callback issues before the new map is set, are not modelled.
- Dashboard.DashboardPage.OnGeolocationFix: the model has one map. In the page, the fix selects a city, which re-creates the map before the awaited weather fetch returns, so the "Your Location" marker is attached to the map the click-time render held, which has by then been replaced. The model shows it on the single map.
- Dashboard.DashboardPage.OnPickCity: re-creates the WAQI callback on every pick. When the picked city is the very object already selected, React skips the update and the map and callback are kept.
- The AQI is a `real`, as the page's `number` is. NaN and the infinities are not modelled; NaN fails every comparison of the ladders and would fall to their last, "Hazardous", entry.
- Report.NatText: prints the decimal digits of every whole number. JavaScript switches to exponent form from 1e21 on.
- Report numbers are carried as the text template literals print them. The CSV is stated over those texts, and the change indicator over integer changes; a fractional or NaN change is not modelled.
- Other UI is not modelled: `ProgressBar`, the recommendations panel, the sidebar, the navbar and its scroll listener, animations, and the static pages.
- The "Very Unhealthy" colour `#99004C` is the one the page uses. The 2018 revision of the EPA AQI technical assistance document gives purple as RGB (143,63,151); the model follows the code.

## Findings

| source | as written | input that shows it | evidently intended | confidence | as-written member | corrected member |
|---|---|---|---|---|---|---|
| app/dashboard/report/page.jsx:116-120 | `{change && (<span>…</span>)}` evaluates to the number 0 for a zero change, and React renders a number child as text | `change = 0` shows a stray "0" after the unit | no indicator for a zero change | high (not executed) | Report.RenderedChange, Report.ZeroChangeRendersDigit | Report.ChangeIndicator |
| app/Mainmaps/page.tsx:196-217 | `fetchWaqiData` is memoized on `[map]` alone, so the `displayWaqiOnMap` it calls reads the circle radius, city, markers and circles of the render in which the map was last set | the map becomes ready, the slider moves to 20000, then an "ok" WAQI reading arrives: the circle is drawn with radius 10000 | the circle uses the selected radius, as the comment on line 251 says, and the selected city | high (not executed) | Dashboard.DashboardPage.OnWaqiResponseAsWritten, Dashboard.StaleRadiusExample | Dashboard.DashboardPage.OnWaqiResponse, Dashboard.SelectedRadiusExample |
