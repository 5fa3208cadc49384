/**
 * The hand shown to the local player.  This component carries its own filename mapping,
 * which differs from the shared one in module Cards: here 14 is the ace, and 1 and 10
 * keep their digits.
 */
module PlayerCards {
  import opened Wrappers
  import opened Text
  import Cards

  /** The game state number under which the hand is shown. */
  const ShowHandState := 20

  /** Rank part of the filename: 11 -> J, 12 -> Q, 13 -> K, 14 -> A. */
  function RankName(value: string): string {
    match value
    case "11" => "J"
    case "12" => "Q"
    case "13" => "K"
    case "14" => "A"
    case _ => value
  }

  /** The renamed ranks are exactly the four listed ones; "1" and "10" pass through. */
  lemma RankNameTable(value: string)
    ensures RankName(value) != value <==> value in ["11", "12", "13", "14"]
    ensures value == "11" ==> RankName(value) == "J"
    ensures value == "12" ==> RankName(value) == "Q"
    ensures value == "13" ==> RankName(value) == "K"
    ensures value == "14" ==> RankName(value) == "A"
  {
  }

  function CardFilename(cardCode: string): string {
    var value := AllButLast(cardCode);
    var cardSuit := ToUpperCase(Last(cardCode));
    RankName(value) + cardSuit + ".svg"
  }

  /** The filename ends in ".svg", preceded by the upper-cased last character of the code. */
  lemma CardFilenameShape(cardCode: string)
    requires cardCode != []
    ensures var r := CardFilename(cardCode);
      && |r| >= 5
      && r[|r| - 4..] == ".svg"
      && r[|r| - 5] == UpperChar(cardCode[|cardCode| - 1])
      && r[..|r| - 5] == RankName(cardCode[..|cardCode| - 1])
  {
    var rank := RankName(cardCode[..|cardCode| - 1]);
    var suit := ToUpperCase(Last(cardCode));
    var r := CardFilename(cardCode);
    assert r == rank + suit + ".svg";
    assert |suit| == 1 && suit[0] == UpperChar(cardCode[|cardCode| - 1]);
    assert r[..|r| - 5] == rank;
  }

  lemma CardFilenameExamples()
    ensures CardFilename("10d") == "10D.svg"
    ensures CardFilename("1h") == "1H.svg"
    ensures CardFilename("14s") == "AS.svg"
    ensures CardFilename("11d") == "JD.svg"
  {
    assert AllButLast("10d") == "10" && Last("10d") == "d";
    ToUpperCaseSingle('d');
    assert AllButLast("1h") == "1" && Last("1h") == "h";
    ToUpperCaseSingle('h');
    assert AllButLast("14s") == "14" && Last("14s") == "s";
    ToUpperCaseSingle('s');
    assert AllButLast("11d") == "11" && Last("11d") == "d";
    ToUpperCaseSingle('d');
  }

  /** The two filename mappings agree on a card exactly when its rank is not 1, 10 or 14. */
  lemma FilenamesAgreeExceptOneTenFourteen(cardCode: string)
    ensures Cards.CardFilename(cardCode) == CardFilename(cardCode)
        <==> AllButLast(cardCode) !in ["1", "10", "14"]
  {
    var value := AllButLast(cardCode);
    var tail := ToUpperCase(Last(cardCode)) + ".svg";
    assert Cards.CardFilename(cardCode) == Cards.RankName(value) + tail;
    assert CardFilename(cardCode) == RankName(value) + tail;
    if Cards.RankName(value) + tail == RankName(value) + tail {
      assert Cards.RankName(value) == (Cards.RankName(value) + tail)[..|Cards.RankName(value)|];
      assert RankName(value) == (RankName(value) + tail)[..|RankName(value)|];
    }
  }

  /** One card as rendered: list key, image source, alt text and the hidden fallback label. */
  datatype CardImage = CardImage(key: nat, src: string, alt: string, fallback: string)

  /**
   * What the component renders: nothing (`None`) unless the game is in state 20 and the
   * hand is non-empty; otherwise one image per card, in hand order.
   */
  function Render(cards: seq<string>, gameState: int): (r: Option<seq<CardImage>>)
    ensures r.None? <==> gameState != ShowHandState || cards == []
    ensures r.Some? ==> |r.value| == |cards|
    ensures r.Some? ==> forall i :: 0 <= i < |cards| ==>
      r.value[i] == CardImage(i, "/cards/" + CardFilename(cards[i]), "Card " + cards[i], cards[i])
  {
    if gameState != ShowHandState || |cards| == 0 then None
    else Some(seq(|cards|, i requires 0 <= i < |cards| =>
      CardImage(i, "/cards/" + CardFilename(cards[i]), "Card " + cards[i], cards[i])))
  }
}
