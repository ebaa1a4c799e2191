/** The card dataset and the two computations made over it: the search
    filter of the gallery and the lookup by id of the detail page. */
module Catalog {
  import opened Wrappers
  import opened Text

  /** One record of the bundled dataset. `photo` is optional. */
  datatype Card = Card(id: string, name: string, img: string, photo: Option<string>, meaning: string)

  /** Ids are a primary key: no two positions of the dataset share one. */
  ghost predicate UniqueIds(cards: seq<Card>)
  {
    forall i, j :: 0 <= i < |cards| && 0 <= j < |cards| && cards[i].id == cards[j].id ==> i == j
  }

  /** The filter's test with the query already lowered:
      `c.name.toLowerCase().includes(q)`. */
  predicate NameHas(c: Card, q: string)
  {
    Includes(LowerStr(c.name), q)
  }

  /** A card matches a query as typed when its lowered name contains the
      lowered query. */
  predicate Matches(c: Card, query: string)
  {
    NameHas(c, LowerStr(query))
  }

  /** `Array.filter` with the `NameHas` test, front to back. */
  function Keep(cards: seq<Card>, q: string): (r: seq<Card>)
    ensures |r| <= |cards|
    ensures forall c :: c in r <==> c in cards && NameHas(c, q)
  {
    if cards == [] then []
    else if NameHas(cards[0], q) then [cards[0]] + Keep(cards[1..], q)
    else Keep(cards[1..], q)
  }

  /** The gallery's `filtered` list: the query is lowered once, then the
      dataset is filtered. */
  function Filter(cards: seq<Card>, query: string): (r: seq<Card>)
    ensures |r| <= |cards|
    ensures forall c :: c in r <==> c in cards && Matches(c, query)
  {
    Keep(cards, LowerStr(query))
  }

  /** `idx` lists, in strictly increasing order, the positions of `s` that
      `r` was taken from. */
  ghost predicate SubsequenceAt(r: seq<Card>, s: seq<Card>, idx: seq<int>)
  {
    && |idx| == |r|
    && (forall k :: 0 <= k < |idx| ==> 0 <= idx[k] < |s| && r[k] == s[idx[k]])
    && (forall k, l :: 0 <= k < l < |idx| ==> idx[k] < idx[l])
  }

  /** The filter keeps exactly the matching positions of the dataset, in
      their original order, and nothing else. */
  lemma {:induction false} FilterSelectsMatchingPositions(cards: seq<Card>, query: string)
    returns (idx: seq<int>)
    ensures SubsequenceAt(Filter(cards, query), cards, idx)
    ensures forall i :: 0 <= i < |cards| ==> (i in idx <==> Matches(cards[i], query))
  {
    idx := KeepPositions(cards, LowerStr(query));
  }

  lemma {:induction false} KeepPositions(cards: seq<Card>, q: string) returns (idx: seq<int>)
    ensures SubsequenceAt(Keep(cards, q), cards, idx)
    ensures forall i :: 0 <= i < |cards| ==> (i in idx <==> NameHas(cards[i], q))
  {
    if cards == [] {
      idx := [];
    } else {
      var tail := KeepPositions(cards[1..], q);
      ShiftPositions(Keep(cards[1..], q), cards, tail);
      var shifted := Shift(tail);
      if NameHas(cards[0], q) {
        idx := [0] + shifted;
      } else {
        idx := shifted;
      }
    }
  }

  /** Every position moved one place to the right. */
  function Shift(idx: seq<int>): (r: seq<int>)
    ensures |r| == |idx|
    ensures forall k :: 0 <= k < |idx| ==> r[k] == idx[k] + 1
  {
    seq(|idx|, k requires 0 <= k < |idx| => idx[k] + 1)
  }

  /** Positions in the tail of `s` become positions in `s` once shifted, and
      the head may be put in front of them. */
  lemma ShiftPositions(r: seq<Card>, s: seq<Card>, tail: seq<int>)
    requires s != []
    requires SubsequenceAt(r, s[1..], tail)
    ensures SubsequenceAt(r, s, Shift(tail))
    ensures SubsequenceAt([s[0]] + r, s, [0] + Shift(tail))
    ensures 0 !in Shift(tail)
    ensures forall i :: 1 <= i < |s| ==> (i in Shift(tail) <==> i - 1 in tail)
  {
    var shifted := Shift(tail);
    forall i | 1 <= i < |s| && i - 1 in tail
      ensures i in shifted
    {
      var k :| 0 <= k < |tail| && tail[k] == i - 1;
      assert shifted[k] == i;
    }
    var whole := [0] + shifted;
    assert forall k :: 1 <= k < |whole| ==> whole[k] == shifted[k - 1];
  }

  /** Filtering distributes over concatenation: each part is filtered on
      its own and the results are kept in order. */
  lemma {:induction false} FilterAppend(a: seq<Card>, b: seq<Card>, query: string)
    ensures Filter(a + b, query) == Filter(a, query) + Filter(b, query)
  {
    KeepAppend(a, b, LowerStr(query));
  }

  lemma {:induction false} KeepAppend(a: seq<Card>, b: seq<Card>, q: string)
    ensures Keep(a + b, q) == Keep(a, q) + Keep(b, q)
  {
    if a != [] {
      assert (a + b)[1..] == a[1..] + b;
      KeepAppend(a[1..], b, q);
    } else {
      assert a + b == b;
    }
  }

  /** A list whose every card already matches is returned unchanged. */
  lemma {:induction false} KeepAllMatching(cards: seq<Card>, q: string)
    requires forall c :: c in cards ==> NameHas(c, q)
    ensures Keep(cards, q) == cards
  {
    if cards != [] {
      KeepAllMatching(cards[1..], q);
    }
  }

  /** The initial, empty query shows the whole dataset, in order. */
  lemma EmptyQueryKeepsAll(cards: seq<Card>)
    ensures Filter(cards, "") == cards
  {
    forall c | c in cards
      ensures NameHas(c, "")
    {
      IncludesEmptyAndSelf(LowerStr(c.name));
    }
    KeepAllMatching(cards, "");
  }

  /** Filtering a filtered list again with the same query changes nothing. */
  lemma FilterIdempotent(cards: seq<Card>, query: string)
    ensures Filter(Filter(cards, query), query) == Filter(cards, query)
  {
    KeepAllMatching(Filter(cards, query), LowerStr(query));
  }

  /** The case of the typed query does not matter. */
  lemma QueryCaseIgnored(cards: seq<Card>, query: string)
    ensures Filter(cards, LowerStr(query)) == Filter(cards, query)
    ensures Filter(cards, UpperStr(query)) == Filter(cards, query)
  {
    LowerStrIdempotent(query);
    LowerOfUpper(query);
  }

  /** `Array.find` by index: the first position at or after `from` whose id
      equals `id` exactly. */
  function FirstWithId(cards: seq<Card>, id: string, from: nat): (r: Option<nat>)
    requires from <= |cards|
    ensures r.Some? ==> from <= r.value < |cards| && cards[r.value].id == id
    ensures r.Some? ==> forall j :: from <= j < r.value ==> cards[j].id != id
    ensures r.None? ==> forall j :: from <= j < |cards| ==> cards[j].id != id
    decreases |cards| - from
  {
    if from == |cards| then None
    else if cards[from].id == id then Some(from)
    else FirstWithId(cards, id, from + 1)
  }

  /** `cards.find((c) => c.id === id)`: the first card with that id, or
      nothing when no card has it. */
  function Find(cards: seq<Card>, id: string): (r: Option<Card>)
    ensures r.None? <==> forall i :: 0 <= i < |cards| ==> cards[i].id != id
    ensures r.Some? ==> exists i :: 0 <= i < |cards| && cards[i] == r.value
                                    && r.value.id == id
                                    && forall j :: 0 <= j < i ==> cards[j].id != id
  {
    var k := FirstWithId(cards, id, 0);
    if k.Some? then Some(cards[k.value]) else None
  }

  /** With unique ids, looking up the id of any dataset card gives that card. */
  lemma FindOwnId(cards: seq<Card>, c: Card)
    requires UniqueIds(cards)
    requires c in cards
    ensures Find(cards, c.id) == Some(c)
  {
    var m :| 0 <= m < |cards| && cards[m] == c;
    var i :| 0 <= i < |cards| && cards[i] == Find(cards, c.id).value && cards[i].id == c.id;
    assert i == m;
  }
}
