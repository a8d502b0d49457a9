# Kingdom of Lagaflare dashboard, modelled in Dafny

This project models the logic of the dashboard in the Kingdom of Lagaflare card
game client. The dashboard shows the cards the connected wallet owns, mints new
ones from the game's smart contract, and displays each card's rarity, attack
and token id. The model has three modules:

- `Cards` (cards.dfy): the card record. Also the collection rebuild done by
  `loadNFTs`. That function zips the four parallel arrays of the read query
  `getMyNFTsWithData` into card records, then replaces `nfts` wholesale. When
  the query or the conversion throws, `nfts` keeps its old value.
- `Display` (display.dfy): the text and colours drawn for each card. This
  covers the `Rarity` label table, `getRarityColor`, `formatAddress`, the
  two-decimal attack text and the token id line.
- `Dashboard` (dashboard.dfy): the component state.
  - It is a class with the same fields as the component: `nfts`, `isMinting`,
    `showNewCard` and `newCard`.
  - Its methods are `LoadNFTs` and `MintNFT`.
  - `MintNFT` gets every contract reply as an input value. These are
    `mintPrice`, the mint submission, `tx.wait()`, `_tokenIdCounter`,
    `getNFTAttributes` and the reload query. Each reply may resolve or reject.
  - The pure function `MintChain` states the outcome of that chain of awaits:
    the first step that threw, or the card read back.

The component mounts in two steps: the constructor sets up the initial state,
then `LoadNFTs` runs for the mount effect's first query.

Two behaviours of the code worth knowing:
- Arrays of different lengths are not rejected as a whole. Only a missing
  `rarities[i]` or `attackDamages[i]` throws, because `.toString()` is called
  on `undefined`, and then `nfts` keeps its old value.
  - A missing `names[i]` gives a card with no name. `Card.name` is therefore an
    `Option`.
  - Entries past the length of `tokenIds` are dropped.
- A failed reload after a successful mint raises no alert, because `loadNFTs`
  catches its own errors. The minted card is still shown.

## Model

| member | source | states |
|---|---|---|
| Cards.Zip | src/Dashboard.jsx:28-34 | the conversion succeeds exactly when `rarities` and `attackDamages` both have at least one entry per token id. It then gives one card per token id, in order. Card i takes `rarities[i]`, `names[i]` (absent past the end of `names`) and `attackDamages[i]` |
| Cards.Convert | src/Dashboard.jsx:27-34 | the query and the conversion together succeed exactly when the query resolved and `rarities` and `attackDamages` cover every token id, and then give one card per token id |
| Cards.Reloaded | src/Dashboard.jsx:27-38 | a rejected query or a conversion that throws leaves `nfts` as it was. Otherwise `nfts` holds one card per token id in order, with the token id and rarity at the same index |
| Cards.Columns | src/Dashboard.jsx:28-34 | splits a collection whose cards all have names back into four arrays of equal length, index by index |
| Cards.ConvertColumns | src/Dashboard.jsx:28-34 | converting the arrays of a named collection gives that collection back |
| Cards.ColumnsConvert | src/Dashboard.jsx:28-34 | four arrays of equal length always convert, and splitting the result gives those arrays back unchanged, so nothing is lost or reordered |
| Cards.ReloadedCards | src/Dashboard.jsx:27-35 | after a reload from arrays that convert, `nfts` holds exactly one card per token id, in the order of `tokenIds`, with the other fields taken at the same index |
| Cards.ReloadIsWholesale | src/Dashboard.jsx:25-39 | a successful reload does not depend on the previous `nfts`, so nothing is merged. A rejected query or a failed conversion leaves `nfts` as it was |
| Cards.ReloadIdempotent | src/Dashboard.jsx:25-39 | reloading twice from the same query result gives the same collection as reloading once |
| Display.RarityLabel | src/Dashboard.jsx:13 | `Rarity[r]` has a label exactly for r in 0..3: Common for 0, Rare for 1, Epic for 2, Legendary for 3. Any other index gives nothing |
| Display.RarityColor | src/Dashboard.jsx:41-49 | the colour is `#000` exactly when the rarity is outside 0..3. Each of the four tiers gets a seven-character colour |
| Display.TiersAreDistinct | src/Dashboard.jsx:41-49 | two different tiers in 0..3 get different labels and different colours |
| Display.Take | src/Dashboard.jsx:88 | `substring(0, n)` keeps min(n, length) characters and is a prefix of the string |
| Display.Last | src/Dashboard.jsx:88 | `substring(length - n)` keeps min(n, length) characters, which are the string's final ones |
| Display.FormatAddress | src/Dashboard.jsx:87-89 | the result starts with "Knight ". Its length is ten plus the kept prefix and the kept suffix |
| Display.FormatAddressShape | src/Dashboard.jsx:87-89 | for an address of ten or more characters the result is 20 long: "Knight ", the first six characters, "...", the last four |
| Display.FormatAddressHexPrefix | src/Dashboard.jsx:88 | an address of ten or more characters that begins with "0x" is shown beginning with "Knight 0x" |
| Display.FormatAddressSameIff | src/Dashboard.jsx:88 | two addresses of ten or more characters are shown alike if and only if they agree on their first six and last four characters |
| Display.FormatAddressShort | src/Dashboard.jsx:88 | an address shorter than four characters appears whole on both sides of the dots, because both substring bounds are clamped |
| Display.DecimalText | src/Dashboard.jsx:157 | the numeral has at least one digit, only digits, and no leading zero unless it is "0" |
| Display.DecimalRoundTrip | src/Dashboard.jsx:157 | reading back the numeral printed for n gives n |
| Display.FixedText | src/Dashboard.jsx:157 | the two-decimal text of a non-negative value has no sign, a point three characters from the end, and before it exactly the canonical numeral of the whole part m / 100 |
| Display.AttackText | src/Dashboard.jsx:157 | the attack text `(raw / 100).toFixed(2)` is at least four characters long with the point three from the end, and starts with "-" exactly for a negative raw value |
| Display.FixedRoundTrip | src/Dashboard.jsx:157 | the whole part before the point and the two digits after it read back to the raw value |
| Display.AttackRoundTrip | src/Dashboard.jsx:175 | the attack text of any raw value, negative ones included, reads back to that raw value |
| Display.AttackTextInjective | src/Dashboard.jsx:175 | two different raw attack values never show the same text |
| Display.AttackTextExample | src/Dashboard.jsx:157 | 850 shows as "8.50", 5 as "0.05" and -5 as "-0.05" |
| Display.IntegerText | src/Dashboard.jsx:158 | the token id text is non-empty, starts with "-" exactly for a negative id, and after any sign is the canonical numeral of the id's magnitude |
| Display.IntegerRoundTrip | src/Dashboard.jsx:158 | the token id text reads back to the token id |
| Display.Render | src/Dashboard.jsx:148-160 | a drawn card's background is `getRarityColor` of its rarity, black exactly outside 0..3. Its title is the name, or empty when there is none. Its rarity line is "Rarity: " plus the tier label, and bare "Rarity: " exactly outside 0..3. Its attack line is "Attack: " followed by a text that reads back to the raw attack. Its token line is "Token ID: " followed by a text that reads back to the token id |
| Dashboard.MintChain | src/Dashboard.jsx:52-81 | a mint succeeds exactly when the price, the submission, the confirmation, the counter and the attributes all resolve. The new card then has token id counter − 1 and the attributes read for that id. Otherwise the failure is the first step that rejected |
| Dashboard.NewCard | src/Dashboard.jsx:69-74 | the new card takes the token id it is given (counter − 1 in `MintChain`) and the rarity, name and attack that `getNFTAttributes` returned |
| Dashboard.MintedCardScenario | src/Dashboard.jsx:64-77 | with counter 8 and attributes (3, "Dragonblade", 850), the minted card is token 7. It is drawn with colour #ff8c00, "Rarity: Legendary", "Attack: 8.50" and "Token ID: 7" |
| Dashboard.Dashboard.constructor | src/Dashboard.jsx:8-11 | the component starts with no cards, not minting, no new-card panel and no new card |
| Dashboard.Dashboard.LoadNFTs | src/Dashboard.jsx:25-39 | `nfts` becomes the reload of its old value by the query result, and no other field changes |
| Dashboard.Dashboard.MintNFT | src/Dashboard.jsx:51-85 | `isMinting` is false on exit (the button is enabled again), and it is true at every await the run passes. The mint is sent with exactly the price read. The alert is raised exactly when a step up to `getNFTAttributes` throws, and then `newCard`, `showNewCard` and `nfts` keep their old values. On success `newCard` is the card read back, `showNewCard` is true, the panel draws exactly that card's face and `nfts` is reloaded. The flag `showNewCard` is never set without a card |
| Dashboard.Dashboard.Button | src/Dashboard.jsx:129-137 | the mint button is disabled exactly while `isMinting` holds, and it reads "Minting..." exactly then |
| Dashboard.Dashboard.NewCardPanel | src/Dashboard.jsx:141-160 | the new-card panel is drawn exactly when `showNewCard` holds and a new card exists, and it shows that card's face |

## Left out

- src/App.jsx is not part of this model. It covers wallet detection, `eth_requestAccounts`, the provider, routing and styling, all browser I/O with no logic of the dashboard's.
- Building the ethers `Contract`, `getSigner` and the RPC calls themselves (src/Dashboard.jsx:15-23) are foreign calls. Their replies are inputs (`LedgerReplies`, `QueryResult`). Calling `mintNFT` before the contract object is set makes `contract.mintPrice()` throw, which is the `PriceQuery` failure.
- React re-render timing and async interleaving: each handler runs as one sequential step. The values `isMinting` has while a run is suspended appear only as the ghost record `busy` of `MintNFT`. A second click during a run is not modelled, because the button is disabled then.
- `console.log`, `console.error` and the text of `alert` are output only. The alert is a boolean result.
- JSX layout, MUI components and framer-motion animation (src/Dashboard.jsx:91-184) are left out. Only the content of one card face is modelled.
- Display.AttackText: the source divides a double by 100 and calls `toFixed(2)`. The model renders the integer value with div and mod, which gives the same text only while the magnitude is below 2^52. Beyond that (and from 10^21 on, where `toFixed` switches to exponent notation) it does not model the floating-point result.
- Dashboard.MintChain: `mintNFT` stores `newNFT[0]`, `newNFT[2]` and `_tokenIdCounter() - 1` as they come back, without the `Number(…)` conversion `loadNFTs` applies. The model takes them as integers. This assumes the contract's ABI makes the library decode the rarity to a JavaScript number, as ethers v5 does for small integer types. If the rarity came back as a BigNumber object, the strict-equality `switch` of `getRarityColor` would fall to `'#000'` for the new card, while the `Rarity[…]` lookup would still find its label. The ABI is not part of this model.
- Cards.Zip: `Number(x.toString())` rounds values above 2^53 to the nearest double. The model keeps them as exact integers.
- Display.FormatAddress: JavaScript counts string length in UTF-16 code units and Dafny counts characters. These agree for the ASCII hex addresses wallets return.
- Fight creation, joining and resolution, the card selection toggle, receipt polling and event-log decoding do not appear in src/Dashboard.jsx or src/App.jsx, so none of them is modelled.
