/**
 * The result card's decisions: the three-way verdict on the stored overprice
 * percentage and everything derived from it (status pill, emotional label,
 * marker icon and colour), the region-keyed cultural insight, and the
 * typewriter that reveals the item's name one UTF-16 code unit per tick.
 */
module ResultCard {
  import opened ScanTypes
  import opened JsString

  /* ---------------------------------------------------------------- */
  /* Verdict                                                          */
  /* ---------------------------------------------------------------- */

  /** `isOverpriced`: more than 20 % above the local price. */
  predicate IsOverpriced(p: int) { p > 20 }

  /** `isFairDeal`: from 10 % below up to 20 % above, both ends included. */
  predicate IsFairDeal(p: int) { p <= 20 && p >= -10 }

  /** `isUnderpriced`: more than 10 % below the local price. */
  predicate IsUnderpriced(p: int) { p < -10 }

  datatype Verdict = Underpriced | Fair | Overpriced

  /**
   * The card's decision chain: underpriced first, then fair, otherwise
   * overpriced. Each verdict is chosen exactly when its own predicate holds,
   * so the three predicates partition the integers.
   */
  function Classify(p: int): (v: Verdict)
    ensures v == Underpriced <==> IsUnderpriced(p)
    ensures v == Fair <==> IsFairDeal(p)
    ensures v == Overpriced <==> IsOverpriced(p)
  {
    if IsUnderpriced(p) then Underpriced
    else if IsFairDeal(p) then Fair
    else Overpriced
  }

  /** The boundary values: 20 and -10 are still fair. */
  lemma Thresholds()
    ensures Classify(20) == Fair && Classify(-10) == Fair
    ensures Classify(21) == Overpriced && Classify(-11) == Underpriced
  {}

  const CheckIcon: string := "✅"
  const WarningIcon: string := "⚠️"

  datatype StatusConfig = StatusConfig(
    icon: string, text: string, bgColor: string, textColor: string, borderColor: string)

  /** `getStatusConfig`: the pill shown under the price. */
  function GetStatusConfig(p: int): (c: StatusConfig)
    ensures c.text == "Great Deal" <==> IsUnderpriced(p)
    ensures c.text == "Fair Deal" <==> IsFairDeal(p)
    ensures c.text == "Overpriced" <==> IsOverpriced(p)
    ensures c.icon == WarningIcon <==> IsOverpriced(p)
  {
    if IsUnderpriced(p) then
      StatusConfig(CheckIcon, "Great Deal", "bg-emerald-50", "text-emerald-700", "border-emerald-200")
    else if IsFairDeal(p) then
      StatusConfig(CheckIcon, "Fair Deal", "bg-green-50", "text-green-700", "border-green-200")
    else
      StatusConfig(WarningIcon, "Overpriced", "bg-orange-50", "text-orange-700", "border-orange-200")
  }

  const UnderpricedLabel: string := "Excellent find — local insider price 🎯"
  const FairLabel: string := "Right on target — street smart 🧠"
  const OverpricedLabel: string := "Tourist pricing detected — negotiate down ⚡"

  /** `getEmotionalLabel`: the same three-way split, worded for the user. */
  function GetEmotionalLabel(p: int): (s: string)
    ensures s == UnderpricedLabel <==> IsUnderpriced(p)
    ensures s == FairLabel <==> IsFairDeal(p)
    ensures s == OverpricedLabel <==> IsOverpriced(p)
  {
    if IsUnderpriced(p) then UnderpricedLabel
    else if IsFairDeal(p) then FairLabel
    else OverpricedLabel
  }

  /** The icon inside the price marker on the comparison bar. */
  function MarkerIcon(p: int): (s: string)
    ensures s == WarningIcon <==> IsOverpriced(p)
    ensures s == CheckIcon <==> !IsOverpriced(p)
  {
    if IsOverpriced(p) then WarningIcon else CheckIcon
  }

  /** The marker's colour class, tested in the order overpriced, underpriced, fair. */
  function MarkerColor(p: int): (s: string)
    ensures s == "bg-orange-600" <==> Classify(p) == Overpriced
    ensures s == "bg-emerald-600" <==> Classify(p) == Underpriced
    ensures s == "bg-green-600" <==> Classify(p) == Fair
  {
    if IsOverpriced(p) then "bg-orange-600"
    else if IsUnderpriced(p) then "bg-emerald-600"
    else "bg-green-600"
  }

  /**
   * The pill, the label and the marker are written as three separate chains
   * of tests; they never disagree about the verdict.
   */
  lemma {:induction false} IndicatorsAgree(p: int)
    ensures GetStatusConfig(p).icon == MarkerIcon(p)
    ensures (GetStatusConfig(p).text == "Overpriced") == (MarkerColor(p) == "bg-orange-600")
    ensures (GetEmotionalLabel(p) == UnderpricedLabel) == (MarkerColor(p) == "bg-emerald-600")
    ensures (GetEmotionalLabel(p) == FairLabel) == (GetStatusConfig(p).text == "Fair Deal")
  {
    match Classify(p)
    case Underpriced =>
    case Fair =>
    case Overpriced =>
  }

  /* ---------------------------------------------------------------- */
  /* Cultural insight                                                 */
  /* ---------------------------------------------------------------- */

  /** A city's price band: the quoted range is `local*low .. local*high`, rounded. */
  datatype CityBand = CityBand(phrase: string, low: real, high: real)

  /** The regions with a templated band. */
  const CityBands: map<string, CityBand> := map[
    "Mumbai" := CityBand("Street vendors in Colaba charge ", 0.9, 1.1),
    "Goa" := CityBand("Vendors near Anjuna charge ", 0.85, 1.05),
    "Bangkok" := CityBand("Local street stalls price this at ", 0.9, 1.1),
    "Jaipur" := CityBand("Bazaar vendors typically ask ", 0.8, 1.2),
    "Varanasi" := CityBand("Near the ghats, locals pay ", 0.9, 1.1)
  ]

  const DefaultInsight: string := "Local market analysis"

  /** Every city band quotes a lower multiplier below its upper one. */
  lemma CityBandsOrdered()
    ensures forall r :: r in CityBands ==> 0.0 < CityBands[r].low < CityBands[r].high
  {}

  function QuotedLow(local: int, band: CityBand): int
  {
    RoundHalfUp(local as real * band.low)
  }

  function QuotedHigh(local: int, band: CityBand): int
  {
    RoundHalfUp(local as real * band.high)
  }

  /**
   * For a non-negative local price the quoted band never runs backwards,
   * whichever city quotes it.
   */
  lemma {:induction false} QuotedBandOrdered(region: string, local: int)
    requires region in CityBands && local >= 0
    ensures QuotedLow(local, CityBands[region]) <= QuotedHigh(local, CityBands[region])
  {
    CityBandsOrdered();
    var band := CityBands[region];
    ScaleMonotone(local as real, band.low, band.high);
    RoundMonotone(local as real * band.low, local as real * band.high);
  }

  lemma ScaleMonotone(x: real, a: real, b: real)
    requires x >= 0.0 && a <= b
    ensures x * a <= x * b
  {}

  lemma RoundMonotone(x: real, y: real)
    requires x <= y
    ensures RoundHalfUp(x) <= RoundHalfUp(y)
  {}

  /** A decimal digit. */
  function DigitChar(d: int): char
    requires 0 <= d < 10
  {
    "0123456789"[d]
  }

  function NatString(n: nat): (s: string)
    ensures |s| > 0
  {
    if n < 10 then [DigitChar(n)] else NatString(n / 10) + [DigitChar(n % 10)]
  }

  /** JavaScript's rendering of a whole number inside a template string. */
  function IntString(n: int): (s: string)
    ensures |s| > 0
  {
    if n < 0 then "-" + NatString(-n) else NatString(n)
  }

  /** The templated sentence for a city: phrase, then `cur low – cur high`. */
  function BandSentence(band: CityBand, item: ScanItem): (s: string)
  {
    band.phrase + item.currency + IntString(QuotedLow(item.localPrice, band))
      + "–" + item.currency + IntString(QuotedHigh(item.localPrice, band))
  }

  /**
   * `getCulturalInsight`: a templated band for the five known regions,
   * otherwise the result's own insight, or the default when that is empty.
   * The card therefore never shows an empty insight line.
   */
  function GetCulturalInsight(item: ScanItem): (s: string)
    ensures |s| > 0
    ensures item.region in CityBands ==>
      s == BandSentence(CityBands[item.region], item)
    ensures item.region !in CityBands && item.insight != "" ==> s == item.insight
    ensures item.region !in CityBands && item.insight == "" ==> s == DefaultInsight
  {
    var baseInsight := if item.insight != "" then item.insight else DefaultInsight;
    if item.region in CityBands then
      var sentence := BandSentence(CityBands[item.region], item);
      if sentence != "" then sentence else baseInsight
    else baseInsight
  }

  /* ---------------------------------------------------------------- */
  /* Typewriter and skeleton timers                                   */
  /* ---------------------------------------------------------------- */

  function Min(a: int, b: int): int { if a <= b then a else b }

  function Max(a: int, b: int): int { if a >= b then a else b }

  /** `text.slice(0, k)`: the first `k` code units, or all of them. */
  function Prefix(text: seq<CodeUnit>, k: nat): (s: seq<CodeUnit>)
    ensures |s| == Min(k, |text|)
    ensures s <= text
  {
    text[..Min(k, |text|)]
  }

  /**
   * The interval fires at least once, even for an empty name, and then once
   * per remaining code unit of the name.
   */
  function TickCount(name: string): nat
  {
    Max(|Utf16(name)|, 1)
  }

  /** The state a mounted result card keeps for its two timers. */
  class ResultCardView {
    const result: ScanItem
    /** `typewriterText`, as the code units JavaScript stores. */
    var typewriterText: seq<CodeUnit>
    /** The interval's captured `index`. */
    var index: nat
    /** Whether the 40 ms interval is still registered. */
    var typing: bool
    /** Whether the 400 ms timer is still to fire. */
    var skeletonPending: bool
    /** Set by the 400 ms timer; the price and bar replace their skeletons. */
    var showSkeletons: bool

    ghost predicate Valid()
      reads this
    {
      && index <= TickCount(result.name)
      && typewriterText == Prefix(Utf16(result.name), index)
      && (typing <==> index < TickCount(result.name))
      && (skeletonPending <==> !showSkeletons)
    }

    /** Mounting resets the text and starts both timers. */
    constructor Mount(result: ScanItem)
      ensures Valid()
      ensures this.result == result
      ensures typewriterText == [] && index == 0 && typing
      ensures skeletonPending && !showSkeletons
    {
      this.result := result;
      typewriterText := [];
      index := 0;
      typing := true;
      skeletonPending := true;
      showSkeletons := false;
    }

    /** One firing of the 40 ms interval. */
    method TypewriterTick()
      requires Valid() && typing
      modifies this`typewriterText, this`index, this`typing
      ensures Valid()
      ensures index == old(index) + 1
      ensures typewriterText == Prefix(Utf16(result.name), index)
      ensures typing <==> index < |Utf16(result.name)|
    {
      typewriterText := Prefix(Utf16(result.name), index + 1);
      index := index + 1;
      if index >= |Utf16(result.name)| {
        typing := false;
      }
    }

    /** The 400 ms timer fires once, and the skeletons give way. */
    method SkeletonTimerFired()
      requires Valid() && skeletonPending
      modifies this`skeletonPending, this`showSkeletons
      ensures Valid()
      ensures showSkeletons && !skeletonPending
    {
      skeletonPending := false;
      showSkeletons := true;
    }
  }

  /**
   * Runs the typewriter of a freshly mounted card until its interval clears
   * and returns the text after each tick. Tick k shows the first k code
   * units and every frame is a prefix of the name's code units. The last
   * frame is the whole name, which reads back as the name itself.
   */
  method TypeOut(result: ScanItem) returns (frames: seq<seq<CodeUnit>>)
    ensures |frames| == TickCount(result.name)
    ensures forall k :: 0 <= k < |frames| ==> frames[k] == Prefix(Utf16(result.name), k + 1)
    ensures forall k :: 0 <= k < |frames| ==> frames[k] <= Utf16(result.name)
    ensures frames[|frames| - 1] == Utf16(result.name)
    ensures Decode(frames[|frames| - 1]) == Some(result.name)
  {
    var card := new ResultCardView.Mount(result);
    frames := [];
    while card.typing
      invariant card.Valid() && card.result == result
      invariant |frames| == card.index
      invariant forall k :: 0 <= k < |frames| ==> frames[k] == Prefix(Utf16(result.name), k + 1)
      decreases TickCount(result.name) - card.index
    {
      card.TypewriterTick();
      frames := frames + [card.typewriterText];
    }
    DecodeUtf16(result.name);
  }

  /**
   * A name that starts with an emoji: "😀ab" is three characters but four
   * code units, so the interval ticks four times, and the first frame is a
   * lone high surrogate that is not a character.
   */
  lemma EmojiNameTicks()
    ensures TickCount("\U{1F600}ab") == 4
    ensures Decode(Prefix(Utf16("\U{1F600}ab"), 1)) == None
  {
    var name := "\U{1F600}ab";
    assert IsAstral(name[0]);
    assert AstralCount(name) == 1 by {
      assert name[1..] == "ab" && "ab"[1..] == "b" && "b"[1..] == [];
    }
    assert Utf16(name)[..1] == EncodeChar(name[0])[..1];
  }
}
