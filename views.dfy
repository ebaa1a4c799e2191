/** What the two screens show, as values: the gallery of the home screen
    and the detail page of one card. */
module Views {
  import opened Wrappers
  import opened Text
  import opened Catalog
  import opened Routes

  /** One clickable gallery tile: illustration, upper-cased name, target. */
  datatype Tile = Tile(img: string, caption: string, target: Route)

  /** The home screen: one tile per filtered card, and whether the
      "Nessuna carta trovata." message is shown. */
  datatype Gallery = Gallery(tiles: seq<Tile>, noResults: bool)

  /** The detail screen: the found card with its optional "Foto originale"
      section, or the "Carta non trovata" state; both carry a back control. */
  datatype CardPage =
    | CardView(card: Card, photoSection: Option<string>, back: Route)
    | NotFoundView(back: Route)

  /** The tile of a card: its illustration, its upper-cased name as caption
      (which searches like the name), and a click target of `/card/`
      followed by the card's id. */
  function TileFor(c: Card): (t: Tile)
    ensures t.img == c.img
    ensures t.caption == UpperStr(c.name)
    ensures |t.caption| == |c.name| && LowerStr(t.caption) == LowerStr(c.name)
    ensures Path(t.target) == "/card/" + c.id
  {
    LowerOfUpper(c.name);
    Tile(c.img, UpperStr(c.name), TileTarget(c))
  }

  /** Typing the caption shown on a card's tile as the query keeps that card. */
  lemma TileCaptionFindsCard(cards: seq<Card>, c: Card)
    requires c in cards
    ensures c in Filter(cards, TileFor(c).caption)
  {
    IncludesEmptyAndSelf(LowerStr(c.name));
  }

  /** The home screen for a dataset and the current query. */
  function RenderHome(cards: seq<Card>, query: string): (g: Gallery)
    ensures |g.tiles| == |Filter(cards, query)|
    ensures forall k :: 0 <= k < |g.tiles| ==> g.tiles[k] == TileFor(Filter(cards, query)[k])
    ensures g.noResults <==> g.tiles == []
    ensures g.noResults <==> forall c :: c in cards ==> !Matches(c, query)
  {
    var f := Filter(cards, query);
    assert f != [] ==> f[0] in f;
    Gallery(seq(|f|, k requires 0 <= k < |f| => TileFor(f[k])), |f| == 0)
  }

  /** `card.photo && ...`: the section is rendered when the photo is present
      and truthy, that is, not the empty string. */
  function PhotoSection(c: Card): (r: Option<string>)
    ensures r.Some? <==> c.photo.Some? && c.photo.value != ""
    ensures r.Some? ==> r == c.photo
  {
    if c.photo.Some? && c.photo.value != "" then c.photo else None
  }

  /** The detail screen for the id taken from the route. */
  function RenderCardPage(cards: seq<Card>, id: string): (p: CardPage)
    ensures p.back == Root
    ensures p.NotFoundView? <==> forall i :: 0 <= i < |cards| ==> cards[i].id != id
    ensures p.CardView? ==> exists i :: 0 <= i < |cards| && cards[i] == p.card
                                        && p.card.id == id
                                        && forall j :: 0 <= j < i ==> cards[j].id != id
    ensures p.CardView? ==> p.photoSection == PhotoSection(p.card)
  {
    match Find(cards, id)
    case None => NotFoundView(Back())
    case Some(c) => CardView(c, PhotoSection(c), Back())
  }
}
