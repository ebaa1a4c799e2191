/** The application: the route table, the one piece of state (the search
    query of the home screen) and the user events that change it. */
module App {
  import opened Wrappers
  import opened Text
  import opened Catalog
  import opened Routes
  import opened Views

  /** What is on screen. */
  datatype Screen = HomeScreen(gallery: Gallery) | CardScreen(page: CardPage)

  /** The current location and the query held by the home screen. */
  datatype Session = Session(route: Route, query: string)

  /** Typing in the search box, clicking the k-th tile, or clicking a back
      button. */
  datatype Event = TypeQuery(text: string) | ClickTile(k: nat) | ClickBack

  /** Opening the application at a location: the home screen mounts with
      the empty query. */
  function Open(route: Route): (s: Session)
    ensures s.route == route && s.query == ""
  {
    Session(route, "")
  }

  /** The route table: `/` shows the home screen, `/card/:id` the detail
      page for that id. */
  function View(cards: seq<Card>, s: Session): (v: Screen)
    ensures v.HomeScreen? <==> s.route == Root
    ensures v.HomeScreen? ==> v.gallery == RenderHome(cards, s.query)
    ensures v.CardScreen? ==> v.page == RenderCardPage(cards, s.route.id)
  {
    match s.route
    case Root => HomeScreen(RenderHome(cards, s.query))
    case CardRoute(id) => CardScreen(RenderCardPage(cards, id))
  }

  /** One user event. A control that is not on the current screen does
      nothing. Navigating unmounts the home screen, so a later return to it
      starts again from the empty query. */
  function Step(cards: seq<Card>, s: Session, e: Event): (t: Session)
    ensures e.TypeQuery? && s.route == Root ==> t == Session(Root, e.text)
    ensures e.TypeQuery? && s.route != Root ==> t == s
    ensures e.ClickTile? && !(s.route == Root && e.k < |Filter(cards, s.query)|) ==> t == s
    ensures e.ClickBack? && s.route == Root ==> t == s
    ensures t.route != s.route ==> t.query == ""
    ensures t.route.CardRoute? && t.route != s.route ==>
              s.route == Root && exists c :: c in cards && Matches(c, s.query) && t.route == TileTarget(c)
    ensures t.route == Root && s.route != Root ==> e == ClickBack
  {
    match e
    case TypeQuery(text) =>
      if s.route == Root then Session(Root, text) else s
    case ClickTile(k) =>
      var f := Filter(cards, s.query);
      if s.route == Root && k < |f| then
        assert f[k] in f;
        Session(TileTarget(f[k]), "")
      else s
    case ClickBack =>
      if s.route.CardRoute? then Session(Back(), "") else s
  }

  /** Clicking a tile opens the detail page of that tile's own card, with
      its photo section decided by that card. */
  lemma ClickTileOpensItsCard(cards: seq<Card>, s: Session, k: nat)
    requires UniqueIds(cards)
    requires s.route == Root
    requires k < |Filter(cards, s.query)|
    ensures Step(cards, s, ClickTile(k)).route == RenderHome(cards, s.query).tiles[k].target
    ensures View(cards, Step(cards, s, ClickTile(k)))
            == CardScreen(CardView(Filter(cards, s.query)[k], PhotoSection(Filter(cards, s.query)[k]), Root))
  {
    var c := Filter(cards, s.query)[k];
    assert c in Filter(cards, s.query);
    FindOwnId(cards, c);
  }

  /** Back from the detail page, whether the card was found or not, shows
      the whole dataset again: the query has been reset. */
  lemma BackShowsWholeGallery(cards: seq<Card>, s: Session)
    requires s.route.CardRoute?
    ensures Step(cards, s, ClickBack) == Open(Root)
    ensures View(cards, Step(cards, s, ClickBack)).gallery.tiles
            == seq(|cards|, k requires 0 <= k < |cards| => TileFor(cards[k]))
    ensures View(cards, Step(cards, s, ClickBack)).gallery.noResults <==> cards == []
  {
    OpenRootShowsWholeGallery(cards);
  }

  /** Opening a tile and coming back lands on the gallery with the query
      cleared, whatever had been typed. */
  lemma TileThenBack(cards: seq<Card>, s: Session, k: nat)
    requires s.route == Root
    requires k < |Filter(cards, s.query)|
    ensures Step(cards, Step(cards, s, ClickTile(k)), ClickBack) == Open(Root)
  {
  }

  /** On the gallery, what is shown after typing depends only on the text
      typed, whatever the query was before: the last edit wins. */
  lemma TypingShowsItsFilter(cards: seq<Card>, s: Session, earlier: string, text: string)
    requires s.route == Root
    ensures View(cards, Step(cards, s, TypeQuery(text))) == HomeScreen(RenderHome(cards, text))
    ensures Step(cards, Step(cards, s, TypeQuery(earlier)), TypeQuery(text)) == Step(cards, s, TypeQuery(text))
  {
  }

  /** Opening the gallery shows every card of the dataset, in order, and the
      no-results message only for an empty dataset. */
  lemma OpenRootShowsWholeGallery(cards: seq<Card>)
    ensures View(cards, Open(Root)).gallery.tiles
            == seq(|cards|, k requires 0 <= k < |cards| => TileFor(cards[k]))
    ensures View(cards, Open(Root)).gallery.noResults <==> cards == []
  {
    EmptyQueryKeepsAll(cards);
  }
}
