/**
 * The spot-number helpers of src/utils/parkingUtils.ts: which lot a spot
 * number such as "A-001" belongs to, and filtering spot choices by lot.
 */
module ParkingUtils {
  import opened Common
  import opened Seqs

  /** `s.split(c)[0]`: the part of s before its first c, or all of s when it has none. */
  function BeforeFirst(s: string, c: char): (r: string)
    ensures r <= s
    ensures c !in r
    ensures c in s ==> |r| < |s| && s[|r|] == c
    ensures c !in s ==> r == s
  {
    if s == [] then []
    else if s[0] == c then []
    else
      var rest := BeforeFirst(s[1..], c);
      assert s == [s[0]] + s[1..];
      [s[0]] + rest
  }

  /** `s.charAt(i)`: the one-character string at i, or "" out of range. */
  function CharAt(s: string, i: nat): string {
    if i < |s| then [s[i]] else ""
  }

  /**
   * `extractLotIdentifier(spotNumber)`: null for "", otherwise the part
   * before the first '-' (possibly empty) or, without a '-', the first
   * character. The identifier is always a prefix of the spot number.
   */
  function ExtractLotIdentifier(spotNumber: string): (r: Option<string>)
    ensures r.None? <==> spotNumber == ""
    ensures r.Some? ==> r.value <= spotNumber
    ensures r.Some? && '-' in spotNumber ==>
      '-' !in r.value && |r.value| < |spotNumber| && spotNumber[|r.value|] == '-'
    ensures r.Some? && '-' !in spotNumber ==> |r.value| == 1
  {
    if spotNumber == "" then None
    else if '-' in spotNumber then Some(BeforeFirst(spotNumber, '-'))
    else Some(CharAt(spotNumber, 0))
  }

  /** An option `{label, value}` of a select control (a spot or a lot); `text` is its `label`. */
  datatype Choice = Choice(text: string, value: int)

  /** A spot option after association, with the `lotId` it may have gained. */
  datatype SpotOption = SpotOption(text: string, value: int, lotId: Option<int>)

  function LotIdOf(o: SpotOption): Option<int> { o.lotId }

  /** The `find` test: the lot label starts with the identifier or its first character equals it. */
  predicate LotMatches(lot: Choice, identifier: string) {
    identifier <= lot.text || CharAt(lot.text, 0) == identifier
  }

  /** For a non-empty identifier the `charAt` test adds nothing to `startsWith`. */
  lemma CharAtTestImpliesPrefix(lot: Choice, identifier: string)
    requires identifier != ""
    ensures LotMatches(lot, identifier) <==> identifier <= lot.text
  {
    if CharAt(lot.text, 0) == identifier {
      assert |identifier| == 1 && identifier[0] == lot.text[0];
    }
  }

  /** The position of the first lot that matches, or |lots| when none does. */
  function FirstMatch(lots: seq<Choice>, identifier: string): (k: nat)
    ensures k <= |lots|
    ensures k < |lots| ==> LotMatches(lots[k], identifier)
    ensures forall j :: 0 <= j < k ==> !LotMatches(lots[j], identifier)
  {
    if lots == [] then 0
    else if LotMatches(lots[0], identifier) then 0
    else 1 + FirstMatch(lots[1..], identifier)
  }

  /** `lots.find(...)?.value`. */
  function FindLotId(lots: seq<Choice>, identifier: string): (r: Option<int>)
    ensures r.Some? <==> FirstMatch(lots, identifier) < |lots|
    ensures r.Some? ==> r.value == lots[FirstMatch(lots, identifier)].value
  {
    var k := FirstMatch(lots, identifier);
    if k < |lots| then Some(lots[k].value) else None
  }

  /**
   * The `lotId` one spot receives: none for an empty or missing identifier;
   * otherwise the value of the first lot whose label starts with the
   * identifier, and none when no lot does.
   */
  function LotIdFor(spot: Choice, lots: seq<Choice>): (r: Option<int>)
    ensures r.Some? <==>
      Truthy(ExtractLotIdentifier(spot.text)) &&
      exists k :: 0 <= k < |lots| && ExtractLotIdentifier(spot.text).value <= lots[k].text
    ensures r.Some? ==>
      var identifier := ExtractLotIdentifier(spot.text).value;
      var k := FirstMatch(lots, identifier);
      && k < |lots| && r.value == lots[k].value && identifier <= lots[k].text
      && forall j :: 0 <= j < k ==> !(identifier <= lots[j].text)
  {
    var identifier := ExtractLotIdentifier(spot.text);
    if !Truthy(identifier) then None
    else
      forall j | 0 <= j < |lots| ensures LotMatches(lots[j], identifier.value) <==> identifier.value <= lots[j].text {
        CharAtTestImpliesPrefix(lots[j], identifier.value);
      }
      FindLotId(lots, identifier.value)
  }

  /**
   * `associateSpotsWithLots(spots, lots)`: every spot kept in place with its
   * label and value, with the value of the first lot whose label starts with
   * the spot's lot identifier attached as `lotId`.
   */
  function AssociateSpotsWithLots(spots: seq<Choice>, lots: seq<Choice>): (r: seq<SpotOption>)
    ensures |r| == |spots|
    ensures forall i :: 0 <= i < |r| ==> r[i].text == spots[i].text && r[i].value == spots[i].value
    ensures lots == [] ==> forall i :: 0 <= i < |r| ==> r[i].lotId.None?
    ensures forall i :: 0 <= i < |r| && !Truthy(ExtractLotIdentifier(spots[i].text)) ==> r[i].lotId.None?
    ensures forall i :: 0 <= i < |r| && lots != [] && Truthy(ExtractLotIdentifier(spots[i].text)) ==>
      r[i].lotId == FindLotId(lots, ExtractLotIdentifier(spots[i].text).value)
    ensures forall i :: 0 <= i < |r| && r[i].lotId.Some? ==>
      ExtractLotIdentifier(spots[i].text).Some? &&
      var identifier := ExtractLotIdentifier(spots[i].text).value;
      var k := FirstMatch(lots, identifier);
      && identifier != "" && k < |lots|
      && lots[k].value == r[i].lotId.value
      && identifier <= lots[k].text
  {
    if spots == [] || lots == [] then
      seq(|spots|, i requires 0 <= i < |spots| => SpotOption(spots[i].text, spots[i].value, None))
    else
      var r := seq(|spots|, i requires 0 <= i < |spots| => SpotOption(spots[i].text, spots[i].value, LotIdFor(spots[i], lots)));
      assert forall i :: 0 <= i < |r| && r[i].lotId.Some? ==>
        var identifier := ExtractLotIdentifier(spots[i].text).value;
        identifier != "" && identifier <= lots[FirstMatch(lots, identifier)].text
      by {
        forall i | 0 <= i < |r| && r[i].lotId.Some?
          ensures var identifier := ExtractLotIdentifier(spots[i].text).value;
            identifier != "" && identifier <= lots[FirstMatch(lots, identifier)].text
        {
          var identifier := ExtractLotIdentifier(spots[i].text).value;
          CharAtTestImpliesPrefix(lots[FirstMatch(lots, identifier)], identifier);
        }
      }
      r
  }

  /**
   * `filterSpotsByLot(spots, selectedLotId, showAllIfEmpty = true)`: without
   * a (truthy) selection the input; otherwise the spots of that lot in input
   * order, or the whole input when there are none and showAllIfEmpty holds.
   */
  function FilterSpotsByLot(spots: seq<SpotOption>, selectedLotId: Option<int>, showAllIfEmpty: bool := true)
    : (r: seq<SpotOption>)
    ensures !Selected(selectedLotId) ==> r == spots
    ensures r == spots || r == FilterKey(spots, LotIdOf, selectedLotId)
    ensures Selected(selectedLotId) && r != spots ==>
      forall i :: 0 <= i < |r| ==> r[i].lotId == selectedLotId
    ensures Selected(selectedLotId) ==>
      forall i :: 0 <= i < |spots| && spots[i].lotId == selectedLotId ==> spots[i] in r
    ensures Selected(selectedLotId) && r == spots && spots != [] && !(forall i :: 0 <= i < |spots| ==> spots[i].lotId == selectedLotId) ==>
      showAllIfEmpty && forall i :: 0 <= i < |spots| ==> spots[i].lotId != selectedLotId
    ensures showAllIfEmpty && spots != [] ==> r != []
  {
    if !Selected(selectedLotId) then spots
    else
      var filtered := FilterKey(spots, LotIdOf, selectedLotId);
      if |filtered| == 0 && showAllIfEmpty then spots
      else
        assert forall i :: 0 <= i < |spots| && spots[i].lotId == selectedLotId ==> LotIdOf(spots[i]) == selectedLotId;
        assert (forall i :: 0 <= i < |spots| ==> spots[i].lotId == selectedLotId) ==> filtered == spots by {
          if forall i :: 0 <= i < |spots| ==> spots[i].lotId == selectedLotId {
            FilterKeyAll(spots, LotIdOf, selectedLotId);
          }
        }
        filtered
  }
}
