/** The two-card example dataset ("Il Professore" without a photo, "La
    Strega" with one), exercised through the screens. The lemmas hold for
    any dataset with these ids, names and photos. */
module Samples {
  import opened Wrappers
  import opened Text
  import opened Catalog
  import opened Routes
  import opened Views
  import opened App

  predicate IsSample(d: seq<Card>)
  {
    && |d| == 2
    && d[0].id == "1" && d[0].name == "Il Professore" && d[0].photo == None
    && d[1].id == "2" && d[1].name == "La Strega" && d[1].photo == Some("ph2.jpg")
  }

  /** "Il Professore", lowered, contains "prof". */
  lemma FirstSampleHasProf(c: Card)
    requires c.name == "Il Professore"
    ensures NameHas(c, "prof")
  {
    var n := LowerStr(c.name);
    assert n == "il professore";
    assert n[3..] == "professore";
    assert OccursAt("prof", n, 3);
  }

  /** "Il Professore" lacks "xyz"; "La Strega" lacks "prof" and "xyz". */
  lemma SampleNamesLack(d: seq<Card>)
    requires IsSample(d)
    ensures !NameHas(d[0], "xyz")
    ensures !NameHas(d[1], "prof") && !NameHas(d[1], "xyz")
  {
    assert LowerStr(d[0].name) == "il professore";
    assert LowerStr(d[1].name) == "la strega";
    NotIncludedWithoutFirstChar(LowerStr(d[0].name), "xyz");
    NotIncludedWithoutFirstChar(LowerStr(d[1].name), "prof");
    NotIncludedWithoutFirstChar(LowerStr(d[1].name), "xyz");
  }

  /** Filtering a two-card list, card by card. */
  lemma KeepPair(d: seq<Card>, q: string)
    requires |d| == 2
    ensures Keep(d, q) == (if NameHas(d[0], q) then [d[0]] else []) + (if NameHas(d[1], q) then [d[1]] else [])
  {
    assert d[1..][1..] == [];
  }

  /** Searching "prof" keeps only the first card. */
  lemma SearchProf(d: seq<Card>)
    requires IsSample(d)
    ensures Filter(d, "prof") == [d[0]]
  {
    FirstSampleHasProf(d[0]);
    SampleNamesLack(d);
    assert LowerStr("prof") == "prof";
    KeepPair(d, "prof");
  }

  /** Searching "xyz" keeps nothing, so the no-results message shows. */
  lemma SearchXyz(d: seq<Card>)
    requires IsSample(d)
    ensures RenderHome(d, "xyz").noResults
  {
    SampleNamesLack(d);
    assert LowerStr("xyz") == "xyz";
    KeepPair(d, "xyz");
  }

  /** Deep links: card "2" has a photo section, card "1" has none, and an
      unknown id gives the not-found page. */
  lemma SampleDetailPages(d: seq<Card>)
    requires IsSample(d)
    ensures View(d, Open(CardRoute("2"))) == CardScreen(CardView(d[1], Some("ph2.jpg"), Root))
    ensures View(d, Open(CardRoute("1"))).page.photoSection == None
    ensures View(d, Open(CardRoute("999"))) == CardScreen(NotFoundView(Root))
  {
    assert d[0].id != "2";
    assert Find(d, "2") == Some(d[1]);
    assert Find(d, "1") == Some(d[0]);
    assert d[0].id != "999" && d[1].id != "999";
  }
}
