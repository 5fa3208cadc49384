/**
 * Card-code helpers shared by the game screens.  A card code is a rank followed by one
 * suit letter, e.g. "11d" (jack of diamonds) or "7h".
 */
module Cards {
  import opened Text

  /** The rank part of an image filename: 1 -> A, 10 -> T, 11 -> J, 12 -> Q, 13 -> K. */
  function RankName(value: string): string {
    match value
    case "1" => "A"
    case "10" => "T"
    case "11" => "J"
    case "12" => "Q"
    case "13" => "K"
    case _ => value
  }

  /** The renamed ranks are exactly the five listed ones; every other rank passes through. */
  lemma RankNameTable(value: string)
    ensures RankName(value) != value <==> value in ["1", "10", "11", "12", "13"]
    ensures value == "1" ==> RankName(value) == "A"
    ensures value == "10" ==> RankName(value) == "T"
    ensures value == "11" ==> RankName(value) == "J"
    ensures value == "12" ==> RankName(value) == "Q"
    ensures value == "13" ==> RankName(value) == "K"
  {
  }

  /** Image filename of a card: mapped rank, upper-cased suit letter, ".svg". */
  function CardFilename(cardCode: string): string {
    var value := AllButLast(cardCode);
    var suit := ToUpperCase(Last(cardCode));
    RankName(value) + suit + ".svg"
  }

  /** The filename ends in ".svg", preceded by the upper-cased last character of the code. */
  lemma CardFilenameShape(cardCode: string)
    requires cardCode != []
    ensures var r := CardFilename(cardCode);
      && |r| >= 5
      && r[|r| - 4..] == ".svg"
      && r[|r| - 5] == UpperChar(cardCode[|cardCode| - 1])
      && r[..|r| - 5] == RankName(cardCode[..|cardCode| - 1])
  {
    var rank := RankName(cardCode[..|cardCode| - 1]);
    var suit := ToUpperCase(Last(cardCode));
    var r := CardFilename(cardCode);
    assert r == rank + suit + ".svg";
    assert |suit| == 1 && suit[0] == UpperChar(cardCode[|cardCode| - 1]);
    assert r[..|r| - 5] == rank;
  }

  /** The expected outputs that the repository's unit test states for `getCardFilename`. */
  lemma CardFilenameExamples()
    ensures CardFilename("1h") == "AH.svg"
    ensures CardFilename("10d") == "TD.svg"
    ensures CardFilename("11s") == "JS.svg"
    ensures CardFilename("12c") == "QC.svg"
    ensures CardFilename("13h") == "KH.svg"
    ensures CardFilename("9s") == "9S.svg"
  {
    assert AllButLast("1h") == "1" && Last("1h") == "h";
    ToUpperCaseSingle('h');
    assert AllButLast("10d") == "10" && Last("10d") == "d";
    ToUpperCaseSingle('d');
    assert AllButLast("11s") == "11" && Last("11s") == "s";
    ToUpperCaseSingle('s');
    assert AllButLast("12c") == "12" && Last("12c") == "c";
    ToUpperCaseSingle('c');
    assert AllButLast("13h") == "13" && Last("13h") == "h";
    ToUpperCaseSingle('h');
    assert AllButLast("9s") == "9" && Last("9s") == "s";
    ToUpperCaseSingle('s');
  }

  /** The rank of a card code: the code without its last character; `""` for `""`. */
  function ExtractRank(cardCode: string): (r: string)
    ensures cardCode == [] ==> r == []
    ensures cardCode != [] ==> |r| == |cardCode| - 1 && r + [cardCode[|cardCode| - 1]] == cardCode
  {
    if cardCode == [] then [] else AllButLast(cardCode)
  }

  /** `cards.every(c => extractRank(c) === rank)`, scanning from the left. */
  function EveryHasRank(cards: seq<string>, rank: string): (r: bool)
    ensures r <==> forall i :: 0 <= i < |cards| ==> ExtractRank(cards[i]) == rank
  {
    if cards == [] then true
    else ExtractRank(cards[0]) == rank && EveryHasRank(cards[1..], rank)
  }

  /** True for an empty list; otherwise whether every card has the rank of the first one. */
  function AreAllSameRank(cards: seq<string>): (r: bool)
    ensures cards == [] ==> r
    ensures cards != [] ==> (r <==> forall i :: 0 <= i < |cards| ==> ExtractRank(cards[i]) == ExtractRank(cards[0]))
  {
    if cards == [] then true else EveryHasRank(cards, ExtractRank(cards[0]))
  }

  /** Same rank is symmetric in the cards: any card may serve as the reference. */
  lemma SameRankAnyReference(cards: seq<string>, k: nat)
    requires k < |cards|
    ensures AreAllSameRank(cards) <==> forall i :: 0 <= i < |cards| ==> ExtractRank(cards[i]) == ExtractRank(cards[k])
  {
  }

  /** The expected outputs that the repository's unit test states for `areAllSameRank`. */
  lemma AreAllSameRankExamples()
    ensures AreAllSameRank(["7h", "7s", "7d"])
    ensures !AreAllSameRank(["7h", "8s"])
  {
    assert ExtractRank("7h") == "7" && ExtractRank("7s") == "7" && ExtractRank("7d") == "7";
    var mixed := ["7h", "8s"];
    assert ExtractRank(mixed[1]) == "8" != ExtractRank(mixed[0]);
  }
}
