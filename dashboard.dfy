/** The dashboard component: its state, the collection reload and the mint
    flow. Each reply the ledger gives (through the contract object) is an
    input, so every success and failure path can be stated. */
module Dashboard {
  import opened Cards
  import opened Display

  /** How an awaited contract call settled. */
  datatype Reply<+T> = Resolved(value: T) | Rejected

  /** What `getNFTAttributes(id)` resolves to: `[rarity, name, attackDamage]`. */
  datatype Attributes = Attributes(rarity: int, name: string, attackDamage: int)

  /** The replies one run of `mintNFT` receives, in the order it awaits them. */
  datatype LedgerReplies = LedgerReplies(
    price: Reply<nat>,                      // contract.mintPrice()
    submits: nat -> bool,                   // contract.mintNFT({ value }) resolves for this value
    confirms: bool,                         // tx.wait() resolves
    counter: Reply<int>,                    // contract._tokenIdCounter()
    attributes: int -> Reply<Attributes>,   // contract.getNFTAttributes(id)
    reload: QueryResult)                    // getMyNFTsWithData() inside loadNFTs

  /** The awaited step of `mintNFT` that threw. */
  datatype Stage = PriceQuery | Submission | Confirmation | CounterQuery | AttributesQuery

  /** How one run of `mintNFT` ends: the first step that threw, or the card it
      read back. The reload that follows a mint never makes it fail, since
      `loadNFTs` catches its own errors. */
  datatype MintStep = Failed(at: Stage) | Minted(card: Card)

  /** The card record `mintNFT` builds from the token counter and the
      attributes it reads. */
  function NewCard(tokenId: int, a: Attributes): (c: Card)
    ensures c.tokenId == tokenId && c.name == Some(a.name)
    ensures c.rarity == a.rarity && c.attackDamage == a.attackDamage
  {
    Card(tokenId, a.rarity, Some(a.name), a.attackDamage)
  }

  /** The outcome of the chain of awaits in `mintNFT`. */
  function MintChain(o: LedgerReplies): (m: MintStep)
    ensures m.Minted? <==>
      && o.price.Resolved? && o.submits(o.price.value) && o.confirms
      && o.counter.Resolved? && o.attributes(o.counter.value - 1).Resolved?
    ensures m.Minted? ==>
      && m.card.tokenId == o.counter.value - 1
      && m.card == NewCard(o.counter.value - 1, o.attributes(o.counter.value - 1).value)
    ensures m == Failed(PriceQuery) <==> o.price.Rejected?
    ensures m == Failed(Submission) <==> o.price.Resolved? && !o.submits(o.price.value)
    ensures m == Failed(Confirmation) <==> o.price.Resolved? && o.submits(o.price.value) && !o.confirms
    ensures m == Failed(CounterQuery) <==>
      o.price.Resolved? && o.submits(o.price.value) && o.confirms && o.counter.Rejected?
    ensures m == Failed(AttributesQuery) <==>
      && o.price.Resolved? && o.submits(o.price.value) && o.confirms
      && o.counter.Resolved? && o.attributes(o.counter.value - 1).Rejected?
  {
    match o.price
    case Rejected => Failed(PriceQuery)
    case Resolved(price) =>
      if !o.submits(price) then Failed(Submission)
      else if !o.confirms then Failed(Confirmation)
      else match o.counter
        case Rejected => Failed(CounterQuery)
        case Resolved(counter) =>
          match o.attributes(counter - 1)
          case Rejected => Failed(AttributesQuery)
          case Resolved(a) => Minted(NewCard(counter - 1, a))
  }

  /** How many awaits a run of `mintNFT` passes: one per step up to the one
      that threw, and six (the reload included) when the mint succeeds. */
  function Awaits(m: MintStep): nat
  {
    match m
    case Failed(PriceQuery) => 1
    case Failed(Submission) => 2
    case Failed(Confirmation) => 3
    case Failed(CounterQuery) => 4
    case Failed(AttributesQuery) => 5
    case Minted(_) => 6
  }

  /** The mint button: disabled, with a spinner and "Minting...", while a
      mint is in flight. */
  datatype MintButton = MintButton(disabled: bool, caption: string)

  class Dashboard {
    var nfts: seq<Card>
    var isMinting: bool
    var showNewCard: bool
    var newCard: Option<Card>

    /** The panel flag is only ever raised after a card has been stored. */
    predicate Valid()
      reads this
    {
      showNewCard ==> newCard.Some?
    }

    /** The initial state of the component, before its mount effect runs. */
    constructor ()
      ensures nfts == [] && !isMinting && !showNewCard && newCard == None
      ensures Valid()
    {
      nfts := [];
      isMinting := false;
      showNewCard := false;
      newCard := None;
    }

    /** `loadNFTs`: rebuild the collection from one read query, or keep it
        when the query or the conversion throws. */
    method LoadNFTs(q: QueryResult)
      modifies this`nfts
      ensures nfts == Reloaded(old(nfts), q)
    {
      match Convert(q)
      case None =>
      case Some(cards) => nfts := cards;
    }

    /** `mintNFT`. `alerted` says whether the error alert was raised; `paid` is
        the value sent with the mint transaction, if it was sent; `busy` holds
        the value of `isMinting` at each await it passed. */
    method MintNFT(o: LedgerReplies) returns (alerted: bool, paid: Option<nat>, ghost busy: seq<bool>)
      requires Valid()
      modifies this
      ensures Valid()
      ensures !isMinting && !Button().disabled
      ensures alerted <==> MintChain(o).Failed?
      ensures paid == if o.price.Resolved? then Some(o.price.value) else None
      ensures |busy| == Awaits(MintChain(o)) && forall i :: 0 <= i < |busy| ==> busy[i]
      ensures MintChain(o).Failed? ==>
        newCard == old(newCard) && showNewCard == old(showNewCard) && nfts == old(nfts)
      ensures MintChain(o).Minted? ==>
        newCard == Some(MintChain(o).card) && showNewCard && nfts == Reloaded(old(nfts), o.reload)
      ensures MintChain(o).Minted? ==> NewCardPanel() == Some(Render(MintChain(o).card))
    {
      isMinting := true;
      var thrown := false;
      paid := None;

      busy := [isMinting];                        // await contract.mintPrice()
      var price := 0;
      match o.price {
        case Rejected => thrown := true;
        case Resolved(p) => price := p;
      }

      if !thrown {
        paid := Some(price);
        busy := busy + [isMinting];               // await contract.mintNFT({ value: mintPrice })
        thrown := !o.submits(price);
      }

      if !thrown {
        busy := busy + [isMinting];               // await tx.wait()
        thrown := !o.confirms;
      }

      var newTokenId := 0;
      if !thrown {
        busy := busy + [isMinting];               // await contract._tokenIdCounter()
        match o.counter {
          case Rejected => thrown := true;
          case Resolved(counter) => newTokenId := counter - 1;
        }
      }

      if !thrown {
        busy := busy + [isMinting];               // await contract.getNFTAttributes(newTokenId)
        match o.attributes(newTokenId) {
          case Rejected => thrown := true;
          case Resolved(a) =>
            newCard := Some(NewCard(newTokenId, a));
            showNewCard := true;
            busy := busy + [isMinting];           // await loadNFTs(contract)
            LoadNFTs(o.reload);
        }
      }

      alerted := thrown;
      isMinting := false;                         // finally
    }

    /** The button's state: `disabled={isMinting}` and the matching label. */
    function Button(): (b: MintButton)
      reads this
      ensures b.disabled <==> isMinting
      ensures b.caption == "Minting..." <==> b.disabled
    {
      MintButton(isMinting, if isMinting then "Minting..." else "Mint NFT")
    }

    /** The panel for the newly minted card, drawn only while `showNewCard`
        holds and a card has been read. */
    function NewCardPanel(): (f: Option<CardFace>)
      reads this
      ensures f.Some? <==> showNewCard && newCard.Some?
      ensures f.Some? ==> f.value == Render(newCard.value)
    {
      if showNewCard && newCard.Some? then Some(Render(newCard.value)) else None
    }
  }

  /** A successful mint read back at counter 8 yields card 7, drawn with the
      Legendary colour and label and an attack of 8.50. */
  lemma MintedCardScenario(o: LedgerReplies)
    requires o.price.Resolved? && o.submits(o.price.value) && o.confirms
    requires o.counter == Resolved(8)
    requires o.attributes(7) == Resolved(Attributes(3, "Dragonblade", 850))
    ensures MintChain(o) == Minted(Card(7, 3, Some("Dragonblade"), 850))
    ensures Render(MintChain(o).card) ==
      CardFace("#ff8c00", "Dragonblade", "Rarity: Legendary", "Attack: 8.50", "Token ID: 7")
  {
    var card := Card(7, 3, Some("Dragonblade"), 850);
    assert MintChain(o) == Minted(card);
    AttackTextExample();
    assert IntegerText(7) == "7";
    assert RarityLabel(3) == Some("Legendary");
    assert Render(card).attackLine == "Attack: " + AttackText(850);
  }
}
