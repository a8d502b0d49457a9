/** The text and colours the dashboard derives from a card and from the
    user's address. */
module Display {
  import opened Cards

  /** The `Rarity` label table, indexed by a card's rarity. */
  const RarityNames: seq<string> := ["Common", "Rare", "Epic", "Legendary"]

  /** `Rarity[rarity]`: the label, or `None` (JavaScript's `undefined`, which
      renders as nothing) outside the table. */
  function RarityLabel(rarity: int): (r: Option<string>)
    ensures r.Some? <==> 0 <= rarity < 4
    ensures rarity == 0 ==> r == Some("Common")
    ensures rarity == 1 ==> r == Some("Rare")
    ensures rarity == 2 ==> r == Some("Epic")
    ensures rarity == 3 ==> r == Some("Legendary")
  {
    if 0 <= rarity < |RarityNames| then Some(RarityNames[rarity]) else None
  }

  /** `getRarityColor`: one colour per rarity tier, black for anything else. */
  function RarityColor(rarity: int): (c: string)
    ensures c == "#000" <==> !(0 <= rarity < 4)
    ensures |c| == 7 <==> 0 <= rarity < 4
  {
    if rarity == 0 then "#808080"
    else if rarity == 1 then "#007bff"
    else if rarity == 2 then "#800080"
    else if rarity == 3 then "#ff8c00"
    else "#000"
  }

  /** The four tiers have four different labels and four different colours. */
  lemma TiersAreDistinct(i: int, j: int)
    requires 0 <= i < 4 && 0 <= j < 4 && i != j
    ensures RarityLabel(i) != RarityLabel(j)
    ensures RarityColor(i) != RarityColor(j)
  {
  }

  // ---------------------------------------------------------------------------
  // formatAddress

  /** `s.substring(0, n)` for `n >= 0`: an end past the string is clamped. */
  function Take(s: string, n: nat): (r: string)
    ensures |r| == if n <= |s| then n else |s|
    ensures r <= s
  {
    if n <= |s| then s[..n] else s
  }

  /** `s.substring(s.length - n)`: a negative start is clamped to 0. */
  function Last(s: string, n: nat): (r: string)
    ensures |r| == if n <= |s| then n else |s|
    ensures forall i :: 0 <= i < |r| ==> r[i] == s[|s| - |r| + i]
  {
    if n <= |s| then s[|s| - n..] else s
  }

  /** `formatAddress`: "Knight ", the first six characters, "...", the last four. */
  function FormatAddress(address: string): (r: string)
    ensures |r| == 10 + |Take(address, 6)| + |Last(address, 4)|
    ensures r[..7] == "Knight "
  {
    "Knight " + Take(address, 6) + "..." + Last(address, 4)
  }

  /** For an address of at least ten characters the result is twenty long:
      the first six characters and the last four, in place. */
  lemma FormatAddressShape(address: string)
    requires |address| >= 10
    ensures var r := FormatAddress(address);
      && |r| == 20
      && r[..7] == "Knight " && r[7..13] == address[..6]
      && r[13..16] == "..." && r[16..] == address[|address| - 4..]
  {
  }

  /** A `0x` address comes out as "Knight 0x…". */
  lemma FormatAddressHexPrefix(address: string)
    requires |address| >= 10 && address[..2] == "0x"
    ensures FormatAddress(address)[..9] == "Knight 0x"
  {
  }

  /** Two long addresses are shown alike exactly when they agree on their
      first six and their last four characters. */
  lemma FormatAddressSameIff(a: string, b: string)
    requires |a| >= 10 && |b| >= 10
    ensures FormatAddress(a) == FormatAddress(b) <==> a[..6] == b[..6] && a[|a| - 4..] == b[|b| - 4..]
  {
    FormatAddressShape(a);
    FormatAddressShape(b);
  }

  /** An address shorter than four characters is repeated whole on both
      sides of the dots, since neither substring has anything to cut. */
  lemma FormatAddressShort(address: string)
    requires |address| < 4
    ensures FormatAddress(address) == "Knight " + address + "..." + address
  {
  }

  // ---------------------------------------------------------------------------
  // Decimal text of integers

  predicate IsDigit(c: char) { '0' <= c <= '9' }

  predicate AllDigits(s: string) { forall i :: 0 <= i < |s| ==> IsDigit(s[i]) }

  function Digit(d: nat): (c: char)
    requires d < 10
    ensures IsDigit(c) && c as int - '0' as int == d
  {
    (('0' as int) + d) as char
  }

  /** The shortest decimal numeral of `n`, as JavaScript prints an integer. */
  function DecimalText(n: nat): (s: string)
    ensures |s| >= 1 && AllDigits(s)
    ensures s[0] == '0' <==> n == 0
    ensures s[0] == '0' ==> |s| == 1
  {
    if n < 10 then [Digit(n)] else DecimalText(n / 10) + [Digit(n % 10)]
  }

  /** The number a string of digits denotes. */
  function DecimalValue(s: string): nat
    requires AllDigits(s)
  {
    if s == [] then 0
    else DecimalValue(s[..|s| - 1]) * 10 + (s[|s| - 1] as int - '0' as int)
  }

  /** Reading back the numeral printed for `n` gives `n`. */
  lemma {:induction false} DecimalRoundTrip(n: nat)
    ensures DecimalValue(DecimalText(n)) == n
  {
    if n >= 10 {
      var s := DecimalText(n);
      assert s[..|s| - 1] == DecimalText(n / 10);
      DecimalRoundTrip(n / 10);
    }
  }

  // ---------------------------------------------------------------------------
  // Fixed-point attack damage

  /** The text of a non-negative fixed-point value `m`: the whole part
      `m / 100`, a point, and `m % 100` as two digits. */
  function FixedText(m: nat): (s: string)
    ensures |s| >= 4 && s[0] != '-' && s[|s| - 3] == '.'
    ensures s[..|s| - 3] == DecimalText(m / 100)
  {
    DecimalText(m / 100) + "." + [Digit(m % 100 / 10), Digit(m % 10)]
  }

  /** `(raw / 100).toFixed(2)` for an integer `raw`: a minus sign for a
      negative value, then the fixed-point text of its magnitude. */
  function AttackText(raw: int): (s: string)
    ensures |s| >= 4 && s[|s| - 3] == '.'
    ensures s[0] == '-' <==> raw < 0
  {
    if raw < 0 then "-" + FixedText(-raw) else FixedText(raw)
  }

  /** Reads the fixed-point text of a non-negative value back, or `None`
      when the text is not digits, a point and two digits. */
  function FixedValue(s: string): Option<nat>
  {
    if |s| < 4 || s[|s| - 3] != '.' then None
    else
      var whole, hundredths := s[..|s| - 3], s[|s| - 2..];
      if !AllDigits(whole) || !AllDigits(hundredths) then None
      else Some(DecimalValue(whole) * 100 + DecimalValue(hundredths))
  }

  /** Reads an attack text back into the raw value, or `None` when the text
      does not have the shape `AttackText` produces. */
  function AttackValue(s: string): Option<int>
  {
    if |s| > 0 && s[0] == '-' then
      match FixedValue(s[1..])
      case None => None
      case Some(v) => Some(-(v as int))
    else
      match FixedValue(s)
      case None => None
      case Some(v) => Some(v)
  }

  /** Two digits read back as a number below one hundred. */
  lemma TwoDigitValue(tens: nat, units: nat)
    requires tens < 10 && units < 10
    ensures DecimalValue([Digit(tens), Digit(units)]) == tens * 10 + units
  {
    var h := [Digit(tens), Digit(units)];
    assert h[..1] == [Digit(tens)] && [Digit(tens)][..0] == [];
    assert DecimalValue([Digit(tens)]) == tens;
    assert DecimalValue(h) == DecimalValue(h[..1]) * 10 + units;
  }

  lemma FixedRoundTrip(m: nat)
    ensures FixedValue(FixedText(m)) == Some(m)
  {
    var w := DecimalText(m / 100);
    var tens, units := m % 100 / 10, m % 10;
    var h := [Digit(tens), Digit(units)];
    var s := FixedText(m);
    assert s == w + "." + h;
    assert s[..|s| - 3] == w;
    assert s[|s| - 2..] == h;
    DecimalRoundTrip(m / 100);
    TwoDigitValue(tens, units);
    assert tens * 10 + units == m % 100;
    assert (m / 100) * 100 + m % 100 == m;
  }

  /** The displayed attack text determines the raw value: nothing of the
      fixed-point number is lost by showing it with two decimals. */
  lemma AttackRoundTrip(raw: int)
    ensures AttackValue(AttackText(raw)) == Some(raw)
  {
    if raw < 0 {
      var t := FixedText(-raw);
      FixedRoundTrip(-raw);
      var s := "-" + t;
      assert s[0] == '-' && s[1..] == t;
      assert AttackText(raw) == s;
    } else {
      var t := FixedText(raw);
      FixedRoundTrip(raw);
      assert t[0] != '-';
      assert AttackText(raw) == t;
    }
  }

  /** Two different raw values never show the same attack text. */
  lemma AttackTextInjective(a: int, b: int)
    requires AttackText(a) == AttackText(b)
    ensures a == b
  {
    AttackRoundTrip(a);
    AttackRoundTrip(b);
  }

  /** Three sample values: 850 shows as "8.50", 5 as "0.05" and -5 as "-0.05". */
  lemma AttackTextExample()
    ensures AttackText(850) == "8.50"
    ensures AttackText(5) == "0.05"
    ensures AttackText(-5) == "-0.05"
  {
  }

  /** The JavaScript text of an integer such as a token id. */
  function IntegerText(n: int): (s: string)
    ensures |s| >= 1
    ensures s[0] == '-' <==> n < 0
    ensures (if n < 0 then s[1..] else s) == DecimalText(if n < 0 then -n else n)
  {
    if n < 0 then "-" + DecimalText(-n) else DecimalText(n)
  }

  /** Reads an integer text back, or `None` when it is not an optional
      minus sign followed by digits. */
  function IntegerValue(s: string): Option<int>
  {
    if |s| > 0 && s[0] == '-' then
      if |s| > 1 && AllDigits(s[1..]) then Some(-(DecimalValue(s[1..]) as int)) else None
    else if |s| > 0 && AllDigits(s) then Some(DecimalValue(s))
    else None
  }

  /** The token id text reads back to the token id. */
  lemma IntegerRoundTrip(n: int)
    ensures IntegerValue(IntegerText(n)) == Some(n)
  {
    if n < 0 {
      DecimalRoundTrip(-n);
      assert IntegerText(n)[1..] == DecimalText(-n);
    } else {
      DecimalRoundTrip(n);
    }
  }

  // ---------------------------------------------------------------------------
  // One card as the dashboard draws it

  /** The visible content of a card: its background and its four lines. */
  datatype CardFace = CardFace(background: string, title: string, rarityLine: string, attackLine: string, tokenLine: string)

  /** The card body used both for the newly minted card and for each entry
      of the collection grid. */
  function Render(card: Card): (f: CardFace)
    ensures f.background == RarityColor(card.rarity)
    ensures f.background == "#000" <==> !(0 <= card.rarity < 4)
    ensures f.title == if card.name.Some? then card.name.value else ""
    ensures 0 <= card.rarity < 4 ==> f.rarityLine == "Rarity: " + RarityNames[card.rarity]
    ensures f.rarityLine == "Rarity: " <==> !(0 <= card.rarity < 4)
    ensures |f.attackLine| > 8 && f.attackLine[..8] == "Attack: "
    ensures AttackValue(f.attackLine[8..]) == Some(card.attackDamage)
    ensures |f.tokenLine| > 10 && f.tokenLine[..10] == "Token ID: "
    ensures IntegerValue(f.tokenLine[10..]) == Some(card.tokenId)
  {
    var tier := RarityLabel(card.rarity);
    AttackRoundTrip(card.attackDamage);
    IntegerRoundTrip(card.tokenId);
    CardFace(
      RarityColor(card.rarity),
      (match card.name case Some(n) => n case None => ""),
      "Rarity: " + (match tier case Some(l) => l case None => ""),
      "Attack: " + AttackText(card.attackDamage),
      "Token ID: " + IntegerText(card.tokenId))
  }
}
