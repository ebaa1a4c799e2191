# Card gallery: search, lookup and navigation, in Dafny

A model of the logic of the "inscryclassmates" card gallery, a single-page
React application (`src/App.jsx`). The gallery shows a bundled dataset of
cards. It filters them by a case-insensitive search on the card name. Clicking
a tile opens `/card/:id`, which looks the card up by id and shows it, with an
optional "Foto originale" section, or a "Carta non trovata" page. Both detail
screens have a button back to `/`.

Everything is pure functions over values, as in the source:

- `wrappers.dfy`: `Option`.
- `text.dfy` (module `Text`): `toLowerCase` / `toUpperCase` restricted to ASCII,
  and `String.prototype.includes` as `Includes`. The contract of `Includes` equates
  it with an independent definition (`Occurs`: some position where the query is a
  prefix).
- `catalog.dfy` (module `Catalog`): the `Card` record, the search filter
  (`Filter`, lines 60-63) and the lookup `Find` (`cards.find`, line 135).
- `routes.dfy` (module `Routes`): the two locations `Root` and `CardRoute(id)`.
  Also the tile target, the back target and the path passed to `navigate`.
- `views.dfy` (module `Views`): the home screen (`Gallery`: tiles plus the
  no-results flag) and the detail screen (`CardView` / `NotFoundView`).
- `app.dfy` (module `App`): the route table (`View`), the only state (the route
  and the home screen's query) and the user events (`Step`).
- `samples.dfy` (module `Samples`): a two-card example worked through search and
  deep links: "Il Professore" (id "1", no photo) and "La Strega" (id "2", with a
  photo). The lemmas hold for every dataset with those ids, names and photos.

Two behaviours of the code that a reader might not expect, both modelled as written:

- The photo section is guarded by `card.photo && …` (line 186), a truthiness
  test. A photo that is the empty string therefore shows no section, just like
  an absent one. `PhotoSection` models exactly that.
- The query is not kept across navigation. Navigating unmounts `Home`, and on
  return `useState("")` (line 57) starts again from the empty query. `Step`
  resets the query on every navigation, and `TileThenBack` states the round trip.

## Model

| member | source | states |
|---|---|---|
| Text.LowerStr | src/App.jsx:61-62 | `toLowerCase` restricted to ASCII: same length, each character lowered |
| Text.UpperStr | src/App.jsx:114 | `toUpperCase` restricted to ASCII: same length, each character upper-cased |
| Text.LowerStrIdempotent | src/App.jsx:61-62 | a lowered string has no upper-case ASCII letter, and lowering it again changes nothing |
| Text.LowerOfUpper | src/App.jsx:114 | under the ASCII-only case mapping, lowering an upper-cased string gives the same as lowering the original |
| Text.Includes | src/App.jsx:62 | `includes` is true exactly when the query occurs in the string at some position (both directions) |
| Text.OccursPastHead | src/App.jsx:62 | a query that is not a prefix occurs in a string exactly when it occurs in its tail: the step that makes the left-to-right search complete |
| Text.IncludesEmptyAndSelf | src/App.jsx:57-62 | every string includes the empty string and itself |
| Text.NotIncludedWithoutFirstChar | src/App.jsx:62 | a non-empty query whose first character is missing from the string is not included |
| Catalog.Keep | src/App.jsx:62 | `Array.filter` with the name test: no longer than the input, and a card is in the result iff it is in the input and its lowered name includes the query |
| Catalog.Filter | src/App.jsx:60-63 | the filtered list holds exactly the dataset cards whose lowered name contains the lowered query, and is no longer than the dataset |
| Catalog.FilterSelectsMatchingPositions | src/App.jsx:60-63 | there is a strictly increasing list of positions, exactly the matching ones, from which the result is read in order: the filter is stable and only removes |
| Catalog.KeepPositions | src/App.jsx:62 | the inductive core of the stability result: the `Array.filter` result is read, in order, from strictly increasing positions of the input, which are exactly the positions whose card passes the name test |
| Catalog.FilterAppend | src/App.jsx:62 | filtering a concatenation is the concatenation of the filtered parts |
| Catalog.KeepAllMatching | src/App.jsx:62 | a list whose every card matches is returned unchanged |
| Catalog.EmptyQueryKeepsAll | src/App.jsx:57-62 | the initial empty query yields the whole dataset, unchanged and in order |
| Catalog.FilterIdempotent | src/App.jsx:60-63 | filtering the filtered list again with the same query returns it unchanged |
| Catalog.QueryCaseIgnored | src/App.jsx:61 | under the ASCII-only case mapping, a query gives the same list as its lowered and its upper-cased form |
| Catalog.FirstWithId | src/App.jsx:135 | the first position at or after `from` whose id equals the requested id exactly, or none when no later position has it |
| Catalog.Find | src/App.jsx:135 | `cards.find`: none exactly when no card has the id; otherwise a dataset card with that id and no earlier card with it |
| Catalog.FindOwnId | src/App.jsx:135 | with unique ids, looking up the id of any dataset card returns that very card |
| Routes.TileTarget | src/App.jsx:101 | a tile navigates to `/card/` followed by its card's id |
| Routes.Back | src/App.jsx:144 | a back button navigates to `/` (the button at line 200 uses the same target) |
| Routes.Path | src/App.jsx:101 | every `navigate` path starts with `/`, and it is `/` exactly for the gallery route |
| Routes.PathInjective | src/App.jsx:101 | different routes produce different `navigate` paths |
| Routes.TileTargetsDistinct | src/App.jsx:101 | two tiles navigate to the same path iff their cards have the same id |
| Views.TileFor | src/App.jsx:98-116 | a tile shows the card's illustration and its upper-cased name as caption (which lowers to the same text as the name), and navigates to `/card/` followed by the id |
| Views.TileCaptionFindsCard | src/App.jsx:114 | under the ASCII-only case mapping, typing the caption shown on a card's tile keeps that card in the gallery |
| Views.RenderHome | src/App.jsx:97-126 | one tile per filtered card, in order; "Nessuna carta trovata." is shown iff there are no tiles, iff no dataset card matches the query |
| Views.PhotoSection | src/App.jsx:186-197 | the "Foto originale" section is present iff the card's photo is present and non-empty, and then it shows that photo |
| Views.RenderCardPage | src/App.jsx:135-152 | not-found page iff no card has the id; otherwise the first card with that id, with its photo section; the back control always targets `/` |
| App.Open | src/App.jsx:57 | a freshly mounted screen starts at the given route with the empty query |
| App.View | src/App.jsx:214-217 | the route table: `/` shows the home screen for the current query, `/card/:id` the detail page for that id, and nothing else |
| App.Step | src/App.jsx:91-101 | on the gallery, typing makes the typed text the query (elsewhere it changes nothing); a route change always resets the query; a new detail route is only reached from the gallery, by the tile of a card matching the current query; `/` is only re-entered by a back button; a tile click with no such tile, and a back click on the gallery, change nothing |
| App.ClickTileOpensItsCard | src/App.jsx:215-216 | with unique ids, clicking the k-th tile goes to that tile's target and the route table shows the detail page of that same card |
| App.BackShowsWholeGallery | src/App.jsx:199-200 | back from a found or not-found detail page returns to `/` with an empty query, showing one tile per dataset card, and "no results" only for an empty dataset |
| App.TypingShowsItsFilter | src/App.jsx:91 | after typing on the gallery the screen is the gallery filtered by the typed text, and of two edits the last one wins |
| App.OpenRootShowsWholeGallery | src/App.jsx:57-63 | the gallery as first opened shows one tile per dataset card in order, and "no results" only for an empty dataset |
| App.TileThenBack | src/App.jsx:57 | opening a tile and then going back lands on `/` with the query cleared |
| Samples.FirstSampleHasProf | src/App.jsx:62 | a card named "Il Professore" matches the lowered query "prof" |
| Samples.SampleNamesLack | src/App.jsx:62 | "Il Professore" lacks "xyz"; "La Strega" lacks "prof" and "xyz" |
| Samples.SearchProf | src/App.jsx:60-63 | on the two-card example, the query "prof" keeps only card "1" |
| Samples.SearchXyz | src/App.jsx:122-126 | on the two-card example, the query "xyz" shows the no-results message |
| Samples.SampleDetailPages | src/App.jsx:135-197 | on the two-card example, `/card/2` shows card "2" with its photo section, `/card/1` has no photo section, and `/card/999` is the not-found page |

## Left out

- `useGlobalDecor` (lines 24-41): it injects a font link and a style element into `document.head`. This is DOM work and a network fetch, with no data contract.
- Animations, `Hover3DTilt`, glow effects and Tailwind classes: presentation only.
- Loading `./data/cards.json` (line 20): the dataset is a parameter `cards: seq<Card>`. Id uniqueness is a hypothesis (`UniqueIds`) of the lemmas that need it.
- Card ids are assumed to be strings (`Card.id: string`). If the dataset held a numeric id, the tile (line 101) would still build `/card/1`, but the `===` comparison with the string route parameter (line 135) would never match, and every detail page would be the not-found page.
- React state handling and `useMemo`: only the computed values are modelled. The memoised list is `Filter` of the current query.
- react-router URL matching, history and `useParams` decoding: routes are the abstract `Route` variant, and `ClickTileOpensItsCard` holds for every id. In the source the tile-to-detail round trip breaks for ids the URL cannot carry: an id containing `/` does not match `/card/:id`; an empty id gives `/card/`, which matches no route; `?` or `#` in an id is split off by `navigate` as search or hash; a `%xx` sequence is decoded by `useParams`. A location matching neither route renders nothing, since the route table (lines 214-217) has no catch-all.
- Unicode case mapping of `toLowerCase` / `toUpperCase`: only ASCII letters change case.
- LowerOfUpper, QueryCaseIgnored, TileCaptionFindsCard (in `Views`): hold only under the ASCII-only case mapping. In JavaScript `"ß".toUpperCase()` is `"SS"`, so a card named "Straße" gets the caption "STRASSE", which lowers to "strasse" and does not find the card; `ı` and ligatures such as `ﬁ` behave alike.
- Image loading, `alt` text and the `whitespace-pre-line` layout of `meaning`: the detail view carries the card record as is.
