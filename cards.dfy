/** The card records the dashboard holds and how the collection is rebuilt
    from the four parallel arrays of the read query `getMyNFTsWithData`. */
module Cards {

  datatype Option<+T> = None | Some(value: T)

  /** One owned card as the dashboard keeps it. `name` is `None` when the
      query's `names` array had no entry at the card's index: indexing past
      the end of a JavaScript array yields `undefined` without throwing. */
  datatype Card = Card(tokenId: int, rarity: int, name: Option<string>, attackDamage: int)

  /** What `getMyNFTsWithData()` delivered: a rejection, or the four arrays
      `[tokenIds, rarities, names, attackDamages]`. Their lengths are not
      tied together by anything on the client side. */
  datatype QueryResult =
    | QueryRejected
    | QueryResolved(tokenIds: seq<int>, rarities: seq<int>, names: seq<string>, attackDamages: seq<int>)

  /** Zips the arrays by the index of `tokenIds`, as `tokenIds.map((tokenId, i) => …)`
      does. A missing `rarities[i]` or `attackDamages[i]` makes `.toString()`
      throw, so the whole conversion fails; a missing `names[i]` does not. */
  function Zip(tokenIds: seq<int>, rarities: seq<int>, names: seq<string>, attackDamages: seq<int>): (r: Option<seq<Card>>)
    ensures r.Some? <==> |tokenIds| <= |rarities| && |tokenIds| <= |attackDamages|
    ensures r.Some? ==> |r.value| == |tokenIds|
    ensures r.Some? ==> forall i :: 0 <= i < |tokenIds| ==>
      r.value[i] == Card(tokenIds[i], rarities[i], if i < |names| then Some(names[i]) else None, attackDamages[i])
  {
    if tokenIds == [] then Some([])
    else if rarities == [] || attackDamages == [] then None
    else
      var name := if names == [] then None else Some(names[0]);
      var rest := Zip(tokenIds[1..], rarities[1..], if names == [] then [] else names[1..], attackDamages[1..]);
      if rest.None? then None
      else Some([Card(tokenIds[0], rarities[0], name, attackDamages[0])] + rest.value)
  }

  /** The conversion step of `loadNFTs`: `None` when the query rejected or
      the conversion threw. */
  function Convert(q: QueryResult): (r: Option<seq<Card>>)
    ensures r.Some? <==>
      q.QueryResolved? && |q.tokenIds| <= |q.rarities| && |q.tokenIds| <= |q.attackDamages|
    ensures r.Some? ==> |r.value| == |q.tokenIds|
  {
    match q
    case QueryRejected => None
    case QueryResolved(ids, rs, ns, ads) => Zip(ids, rs, ns, ads)
  }

  /** The value of `nfts` after `loadNFTs`: the converted list replaces the
      current one wholesale, and any error leaves the current one in place. */
  function Reloaded(current: seq<Card>, q: QueryResult): (r: seq<Card>)
    ensures q.QueryRejected? ==> r == current
    ensures q.QueryResolved? && (|q.rarities| < |q.tokenIds| || |q.attackDamages| < |q.tokenIds|) ==> r == current
    ensures q.QueryResolved? && |q.tokenIds| <= |q.rarities| && |q.tokenIds| <= |q.attackDamages| ==>
      && |r| == |q.tokenIds|
      && forall i :: 0 <= i < |r| ==> r[i].tokenId == q.tokenIds[i] && r[i].rarity == q.rarities[i]
  {
    match Convert(q)
    case None => current
    case Some(cards) => cards
  }

  /** Every card has a name: the collection could have come from arrays of
      equal length. */
  predicate Named(cards: seq<Card>)
  {
    forall i :: 0 <= i < |cards| ==> cards[i].name.Some?
  }

  /** The four columns of a fully named collection, the inverse of `Zip`. */
  function Columns(cards: seq<Card>): (q: QueryResult)
    requires Named(cards)
    ensures q.QueryResolved?
    ensures |q.tokenIds| == |q.rarities| == |q.names| == |q.attackDamages| == |cards|
    ensures forall i :: 0 <= i < |cards| ==>
      && q.tokenIds[i] == cards[i].tokenId && q.rarities[i] == cards[i].rarity
      && Some(q.names[i]) == cards[i].name && q.attackDamages[i] == cards[i].attackDamage
  {
    if cards == [] then QueryResolved([], [], [], [])
    else
      var rest := Columns(cards[1..]);
      QueryResolved([cards[0].tokenId] + rest.tokenIds, [cards[0].rarity] + rest.rarities,
                    [cards[0].name.value] + rest.names, [cards[0].attackDamage] + rest.attackDamages)
  }

  /** Converting the columns of a named collection gives that collection back. */
  lemma ConvertColumns(cards: seq<Card>)
    requires Named(cards)
    ensures Convert(Columns(cards)) == Some(cards)
  {
    var q := Columns(cards);
    var r := Zip(q.tokenIds, q.rarities, q.names, q.attackDamages);
    assert r.Some? && |r.value| == |cards|;
    forall i | 0 <= i < |cards| ensures r.value[i] == cards[i] {
      var c := cards[i];
      assert r.value[i] == Card(q.tokenIds[i], q.rarities[i], Some(q.names[i]), q.attackDamages[i]);
      assert c == Card(c.tokenId, c.rarity, c.name, c.attackDamage);
    }
    assert r.value == cards;
  }

  /** A query whose four arrays have one length converts to a collection
      whose columns are exactly those arrays: nothing is lost or reordered. */
  lemma ColumnsConvert(ids: seq<int>, rs: seq<int>, ns: seq<string>, ads: seq<int>)
    requires |ids| == |rs| == |ns| == |ads|
    ensures Convert(QueryResolved(ids, rs, ns, ads)).Some?
    ensures Named(Convert(QueryResolved(ids, rs, ns, ads)).value)
    ensures Columns(Convert(QueryResolved(ids, rs, ns, ads)).value) == QueryResolved(ids, rs, ns, ads)
  {
  }

  /** A successful reload does not depend on the previous collection (no
      merge), and a failed one returns the previous collection unchanged. */
  lemma ReloadIsWholesale(a: seq<Card>, b: seq<Card>, q: QueryResult)
    ensures Convert(q).Some? ==> Reloaded(a, q) == Reloaded(b, q) == Convert(q).value
    ensures Convert(q).None? ==> Reloaded(a, q) == a
  {
  }

  /** After a reload from arrays that convert, the collection has one card
      per token id, in the order of `tokenIds`, each taking the entries of
      the other arrays at its own index. */
  lemma ReloadedCards(current: seq<Card>, ids: seq<int>, rs: seq<int>, ns: seq<string>, ads: seq<int>)
    requires |ids| <= |rs| && |ids| <= |ads|
    ensures var r := Reloaded(current, QueryResolved(ids, rs, ns, ads));
      && |r| == |ids|
      && forall i :: 0 <= i < |ids| ==>
        && r[i].tokenId == ids[i] && r[i].rarity == rs[i] && r[i].attackDamage == ads[i]
        && r[i].name == (if i < |ns| then Some(ns[i]) else None)
  {
  }

  /** Reloading twice from the same ledger view gives the same collection as
      reloading once. */
  lemma ReloadIdempotent(current: seq<Card>, q: QueryResult)
    ensures Reloaded(Reloaded(current, q), q) == Reloaded(current, q)
  {
  }
}
