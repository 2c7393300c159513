# covidDash dashboard page, modelled in Dafny

This project models the logic of the dashboard's home page, `src/pages/index.js`:

- **Case-count label** (`countryPointToLayer`). Each country marker shows a short label. The count is turned into its decimal string, which is then cut rather than rounded. Above one million, the last six digits are dropped and "M+" is appended. Above one thousand, the last three digits are dropped and "k+" is appended. Otherwise the plain number is shown. Module `CaseLabel` (`case_label.dfy`) models JavaScript's `${n}` as `Decimal` and `slice(0, -k)` as `DropLast`. It proves that the label equals `Decimal(n / 1000000) + "M+"`, `Decimal(n / 1000) + "k+"` or `Decimal(n)` in the three bands.
- **Country layer** (`MapEffect`'s `run`). The countries response is validated: it must be a non-empty array. Each record then becomes a GeoJSON `Feature` (RFC 7946, sections 3.2 and 3.3) whose properties are the record itself. Its `Point` position is `[long, lat]`, longitude first as section 3.1.1 of RFC 7946 requires. Module `CountriesLayer` (`countries_layer.dfy`) states the outcome of one run for every input. It also proves that the features give back the response array unchanged and in order.
- **Statistic display** (`IndexPage`). The page holds five fixed descriptors, the index of the one shown, and five nullable figures. The class `GlobalStatistics.IndexPage` (`statistics.dfy`) has one method per transition: rotation, manual switch, issuing a fetch, and receiving its result. A ghost field `latest` records the last snapshot received. The invariant `Valid()` ties the five figures to that snapshot, so "Loading..." is shown exactly until the first snapshot arrives.

The HTTP responses are parameters: `Option<Body>` for the countries request and `Option<Snapshot>` for the global one, where `None` is a rejected request. Issuing a request is recorded in the ghost counter `fetchRequests`. Each timer tick is one synchronous call of `RotateStatistics`. Because requests settle asynchronously, receiving a result is a separate method, `ReceiveGlobalStatistics`, that may be called in any order.

In the code, destructuring a `null` array element or a `null` `countryInfo` throws a TypeError inside the async `run` (an unhandled rejection), so no layer is drawn. The model has this as the outcome `TypeError`.

## Model

| member | source | states |
|---|---|---|
| CaseLabel.Decimal | src/pages/index.js:37 | `${n}` of a count is a non-empty string of decimal digits, with a leading zero only for 0 |
| CaseLabel.DecimalRoundTrip | src/pages/index.js:37 | reading the decimal string back gives the count: the string denotes the number |
| CaseLabel.DecimalInjective | src/pages/index.js:37 | different counts have different decimal strings |
| CaseLabel.DropLast | src/pages/index.js:39-40 | for k > 0, `slice(0, -k)` keeps a prefix of length max(len - k, 0) |
| CaseLabel.DropDigits | src/pages/index.js:39-40 | dropping the last k digits of a number with more than k digits gives the decimal string of n / 10^k |
| CaseLabel.CaseLabel | src/pages/index.js:37-40 | over 1,000,000 the label is decimal(n / 1000000) + "M+"; over 1,000 and up to 1,000,000 it is decimal(n / 1000) + "k+"; otherwise it is the plain decimal string |
| CaseLabel.MarkerLabel | src/pages/index.js:29-40 | an absent `cases` is labelled "undefined" without a suffix; a present count gets decimal(n / 1000000) + "M+" over 1,000,000, decimal(n / 1000) + "k+" over 1,000, and its plain decimal string otherwise |
| CaseLabel.LabelShape | src/pages/index.js:39-40 | the label is 4 (M+) or 1 (k+) characters shorter than the count's string and starts with the count's leading digit |
| CaseLabel.MillionsExample | src/pages/index.js:39 | 1,234,567 is labelled "1M+" |
| CaseLabel.MillionBoundaryExample | src/pages/index.js:39-40 | exactly 1,000,000 is labelled "1000k+" |
| CaseLabel.ThousandsExample | src/pages/index.js:40 | 12,345 is labelled "12k+" |
| CaseLabel.PlainExample | src/pages/index.js:37 | 999 is labelled "999" |
| CountriesLayer.ToFeature | src/pages/index.js:118-131 | one record becomes a "Feature" whose properties are the record and whose "Point" position is [long, lat], or [absent, absent] without `countryInfo`; a null element or null `countryInfo` throws |
| CountriesLayer.Features | src/pages/index.js:118-131 | the mapped array has one feature per element, in input order, each the point feature of its record; it exists exactly when no element throws |
| CountriesLayer.MapEffectRun | src/pages/index.js:73-132 | no map or marker: nothing happens; failed request: abandoned; non-array: rejected; empty array: rejected; otherwise a "FeatureCollection" with one feature per element, in order, unless some element throws; the gate is `HasData`, `hasData` at line 110 |
| CountriesLayer.Unpack | src/pages/index.js:123-125 | reading the records back from features keeps their number |
| CountriesLayer.UnpackFeatures | src/pages/index.js:118-131 | the features' properties give back the response array exactly: nothing lost, added or reordered |
| GlobalStatistics.NextIndex | src/pages/index.js:220-222 | rotation moves to the next index and wraps from the last to 0, always within [0, 5) |
| GlobalStatistics.RotatedIsModular | src/pages/index.js:220-229 | k rotations from a valid index give (i + k) mod 5 |
| GlobalStatistics.FiveRotationsReturn | src/pages/index.js:220-229 | five rotations return to the starting index |
| GlobalStatistics.TodayDeathsUnused | src/pages/index.js:199-213 | `todayDeaths` is fetched but no statistic reads it |
| GlobalStatistics.IndexPage.constructor | src/pages/index.js:158-177 | initial state: the five fixed descriptors, index 0, all five figures null, no snapshot, no request issued |
| GlobalStatistics.IndexPage.FetchGlobalStatistics | src/pages/index.js:195-197 | issuing the global request is one more fetch and changes no displayed state |
| GlobalStatistics.IndexPage.ComponentDidMount | src/pages/index.js:180-183 | mounting issues one fetch immediately |
| GlobalStatistics.IndexPage.ReceiveGlobalStatistics | src/pages/index.js:198-217 | a snapshot sets deaths, cases, recovered, fatal = deaths and daily cases = todayCases; a failure leaves all state unchanged; the index never changes |
| GlobalStatistics.IndexPage.RotateStatistics | src/pages/index.js:220-230 | one tick moves the index to (i + 1) mod 5 and issues exactly one fetch |
| GlobalStatistics.IndexPage.SwitchStatistic | src/pages/index.js:232-237 | a click sets only the index, fetching nothing |
| GlobalStatistics.IndexPage.CurrentStatistic | src/pages/index.js:240-241 | the statistic shown is the fixed descriptor at the current index, one of the five |
| GlobalStatistics.IndexPage.Displayed | src/pages/index.js:240-264 | the box shows "Loading..." exactly until the first snapshot arrives, then the current descriptor's reading of the latest snapshot; the field looked up is `Value(key)`, `this.state[key]` at line 242 |
| GlobalStatistics.IndexPage.FiveTicks | src/pages/index.js:185-187 | five timer ticks, each with one result settling in order, issue five fetches, show the same statistic again, and leave the last snapshot that arrived as the latest |

## Left out

- The Leaflet objects (`L.marker`, `L.divIcon`, `L.GeoJSON`, `addTo`): they belong to a foreign library. A drawn layer is modelled only as the `FeatureCollection` in `Rendered`.
- The tooltip HTML and the `updated` date: the HTML is presentation markup, and `toLocaleString()` depends on the host's locale and time zone.
- The locale grouping of the displayed figure (`toLocaleString()`): it depends on the locale. `Displayed` gives the raw figure or "Loading...".
- The axios requests, `getCurrentLocation` with its fallback to the origin, and the delayed fly-to animation: these are network, browser and timer I/O, and `lib/map` is not part of this model. Responses are parameters.
- The `setInterval`/`clearInterval` lifecycle and React's `setState` batching: these are timer and scheduling concerns. A tick is one synchronous call of `RotateStatistics`, and `componentWillUnmount` is not modelled.
- Coordinates are an opaque type, because they are only copied and never computed.
- The button row's `active` class (lines 270-277) is presentation and is not modelled.
- src/components/Footer.js and src/hooks/useSiteMetadata.js: UI rendering and a thin wrapper over the site framework, with no logic of their own.
- Decimal: counts are unbounded naturals rendered as their exact digits, so they are assumed to be below 2^53. Counts above 2^53 are not all representable exactly as JavaScript numbers, and for those `${n}` prints the shortest digits that read back to the same number (2^60 prints as "1152921504606847000"). From 10^21 on it uses exponent form. Neither rendering is modelled.
- MarkerLabel: `cases` is either absent or a natural number. Other JavaScript values are not modelled: `null` is labelled "null"; a non-numeric string is labelled as its own text, because its comparisons are false; a numeric string or a fraction goes through the comparisons as a number and is then sliced from its full text (1500.5 gives "150k+").
- CountriesLayer.ToFeature: array elements are objects or `null`. Other JSON values (numbers, strings, nested arrays) are not modelled.
- GlobalStatistics.IndexPage.ReceiveGlobalStatistics: snapshot fields are natural numbers. A response missing a field would store `undefined`, and `undefined.toLocaleString()` would then throw during rendering; that case is not modelled.
- GlobalStatistics.IndexPage.SwitchStatistic: it requires an index below 5. Its only callers are the buttons built from `statistics.map`, which pass exactly those indices.
