/** The two locations of the application and the navigation targets of
    its controls. */
module Routes {
  import opened Catalog

  /** `/` (the gallery) or `/card/:id` (the detail page of one card). */
  datatype Route = Root | CardRoute(id: string)

  /** Where a gallery tile navigates: the detail route of its card. */
  function TileTarget(c: Card): (r: Route)
    ensures Path(r) == "/card/" + c.id
  {
    CardRoute(c.id)
  }

  /** Where both back buttons of the detail page navigate. */
  function Back(): (r: Route)
    ensures Path(r) == "/"
  {
    Root
  }

  /** The path handed to `navigate`: always absolute, and `/` only for the
      gallery. */
  function Path(r: Route): (p: string)
    ensures |p| >= 1 && p[0] == '/'
    ensures p == "/" <==> r == Root
  {
    match r
    case Root => "/"
    case CardRoute(id) => "/card/" + id
  }

  /** Distinct routes have distinct paths, so cards with distinct ids have
      tiles that navigate to distinct locations. */
  lemma PathInjective(r1: Route, r2: Route)
    requires Path(r1) == Path(r2)
    ensures r1 == r2
  {
    if r1.CardRoute? && r2.CardRoute? {
      assert r1.id == Path(r1)[6..];
      assert r2.id == Path(r2)[6..];
    }
  }

  /** Tile navigation is determined by, and determines, the card's id. */
  lemma TileTargetsDistinct(c1: Card, c2: Card)
    ensures Path(TileTarget(c1)) == Path(TileTarget(c2)) <==> c1.id == c2.id
  {
    if Path(TileTarget(c1)) == Path(TileTarget(c2)) {
      PathInjective(TileTarget(c1), TileTarget(c2));
    }
  }
}
