/**
 * The keyboard's state: the imported categories, the text typed so far, the
 * per-symbol usage counts and the last import error. Taps append to the
 * text and bump a counter; backspace removes one character; an import
 * replaces the categories with what the reader produced, or clears them and
 * records the error.
 */
module KeyboardViewModels {
  import opened Wrappers
  import opened SymbolModels
  import opened XmlSymbolParsing

  /** What a tap on `item` appends: its left and right halves when pairing is on and both exist, else its text. */
  function Typed(item: SymbolItem, pairMode: bool): string {
    if pairMode && item.left.Some? && item.right.Some? then item.left.value + item.right.value
    else item.text
  }

  /** The name a tap is counted under: the symbol's key, or its text when it has none. */
  function StatsKey(item: SymbolItem): string {
    item.key.GetOr(item.text)
  }

  /** The usage counts after one more use of `k`; an empty name is not counted. */
  function Counted(stats: map<string, int>, k: string): (r: map<string, int>)
    ensures k != "" ==> k in r && r[k] == (if k in stats then stats[k] else 0) + 1
    ensures forall j :: j != k ==> (j in r <==> j in stats)
    ensures forall j :: j != k && j in r ==> r[j] == stats[j]
    ensures k == "" ==> r == stats
  {
    if k == "" then stats else stats[k := (if k in stats then stats[k] else 0) + 1]
  }

  /** The order of two taps does not matter to the counts. */
  lemma CountedCommutes(stats: map<string, int>, a: string, b: string)
    ensures Counted(Counted(stats, a), b) == Counted(Counted(stats, b), a)
  {
    var x, y := Counted(Counted(stats, a), b), Counted(Counted(stats, b), a);
    assert x.Keys == y.Keys;
  }

  /** `n` uses of a name raise its count by `n` from wherever it stood. */
  function CountedTimes(stats: map<string, int>, k: string, n: nat): map<string, int> {
    if n == 0 then stats else Counted(CountedTimes(stats, k, n - 1), k)
  }

  lemma {:induction false} CountedTimesAdds(stats: map<string, int>, k: string, n: nat)
    requires k != ""
    ensures var r := CountedTimes(stats, k, n);
      && (n > 0 ==> k in r)
      && (k in r ==> r[k] == (if k in stats then stats[k] else 0) + n)
      && (forall j :: j != k ==> (j in r <==> j in stats) && (j in r ==> r[j] == stats[j]))
  {
    if n > 0 {
      CountedTimesAdds(stats, k, n - 1);
    }
  }

  /** The text with its last character removed; empty text stays empty. */
  function DropLast(s: string): (r: string)
    ensures |s| == 0 ==> r == s
    ensures |s| > 0 ==> r + [s[|s| - 1]] == s
  {
    if |s| == 0 then s else s[..|s| - 1]
  }

  /** Backspace after typing one character gives back the text as it was. */
  lemma BackspaceUndoesOneChar(s: string, c: char)
    ensures DropLast(s + [c]) == s
  {
    assert (s + [c])[..|s|] == s;
  }

  /** Backspace removes exactly what a tap on a one-character symbol added. */
  lemma BackspaceUndoesTap(s: string, item: SymbolItem, pairMode: bool)
    requires |Typed(item, pairMode)| == 1
    ensures DropLast(s + Typed(item, pairMode)) == s
  {
    var t := Typed(item, pairMode);
    assert t == [t[0]];
    BackspaceUndoesOneChar(s, t[0]);
  }

  class KeyboardViewModel {
    var categories: seq<SymbolCategory>
    var currentIndex: int
    var importedURL: Option<string>
    var text: string
    var parseError: Option<string>
    var pairModeEnabled: bool
    var repeatEnabled: bool
    var stats: map<string, int>
    const parser: XmlSymbolParser

    /** Nothing imported, nothing typed, pairing and repeat on. */
    constructor ()
      ensures categories == [] && currentIndex == 0 && importedURL == None
      ensures text == "" && parseError == None && stats == map[]
      ensures pairModeEnabled && repeatEnabled
      ensures fresh(parser)
    {
      categories := [];
      currentIndex := 0;
      importedURL := None;
      text := "";
      parseError := None;
      pairModeEnabled := true;
      repeatEnabled := true;
      stats := map[];
      parser := new XmlSymbolParser();
    }

    /**
     * A tap on `item`: nothing for a symbol with empty text; otherwise its
     * typed form is appended and its usage count raised.
     */
    method Insert(item: SymbolItem)
      modifies this
      ensures item.text == "" ==> text == old(text) && stats == old(stats)
      ensures item.text != "" ==> text == old(text) + Typed(item, pairModeEnabled)
      ensures item.text != "" ==> stats == Counted(old(stats), StatsKey(item))
      ensures categories == old(categories) && currentIndex == old(currentIndex)
      ensures importedURL == old(importedURL) && parseError == old(parseError)
      ensures pairModeEnabled == old(pairModeEnabled) && repeatEnabled == old(repeatEnabled)
    {
      if item.text == "" {
        return;
      }
      if pairModeEnabled && item.left.Some? && item.right.Some? {
        text := text + item.left.value;
        text := text + item.right.value;
      } else {
        text := text + item.text;
      }
      var k := if item.key.Some? then item.key.value else item.text;
      if k != "" {
        var count := if k in stats then stats[k] else 0;
        stats := stats[k := count + 1];
      }
    }

    /** Removes the last character typed, if any. */
    method Backspace()
      modifies this
      ensures text == DropLast(old(text))
      ensures stats == old(stats) && categories == old(categories) && currentIndex == old(currentIndex)
      ensures importedURL == old(importedURL) && parseError == old(parseError)
      ensures pairModeEnabled == old(pairModeEnabled) && repeatEnabled == old(repeatEnabled)
    {
      if text == "" {
        return;
      }
      text := text[..|text| - 1];
    }

    /**
     * Imports the document at `url`, whose reader notifications are `events`
     * and whose tokenizer ended with `outcome`: on success the categories are
     * replaced and the error cleared, on failure the categories are emptied
     * and the error's message kept. The selected index is left alone.
     */
    method ImportXml(url: string, events: seq<Event>, outcome: TokenizerOutcome)
      modifies this, parser
      ensures ParseEvents(events, outcome).Success? ==>
        categories == ParseEvents(events, outcome).value && importedURL == Some(url) && parseError == None
      ensures ParseEvents(events, outcome).Failure? ==>
        categories == [] && importedURL == old(importedURL)
        && parseError == Some(ErrorMessage(ParseEvents(events, outcome).error))
      ensures parseError == None ==> |categories| > 0
      ensures AllColumnsInRange(categories)
      ensures currentIndex == old(currentIndex) && text == old(text) && stats == old(stats)
      ensures pairModeEnabled == old(pairModeEnabled) && repeatEnabled == old(repeatEnabled)
    {
      var parsed := parser.Parse(events, outcome);
      match parsed {
        case Success(cats) =>
          categories := cats;
          importedURL := Some(url);
          parseError := None;
        case Failure(e) =>
          categories := [];
          parseError := Some(ErrorMessage(e));
      }
    }
  }
}
