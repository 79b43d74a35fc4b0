/**
 * The display rules of the keyboard preview: which text a header or a key
 * shows, which symbols fill the grid, how many columns the grid has and how
 * many of them a long key spans, and which category is on screen.
 */
module KeyboardPreview {
  import opened Wrappers
  import opened SymbolModels
  import opened KeyboardViewModels

  /** Whether stored text begins with a backslash, which marks it as not to be shown literally. */
  predicate Marked(text: string) {
    |text| > 0 && text[0] == '\\'
  }

  /** The text shown for stored text: one leading backslash dropped, anything else as stored. */
  function Display(text: string): (r: string)
    ensures "\\" + r == text || r == text
    ensures r == text <==> !Marked(text)
    ensures Marked(text) ==> |r| == |text| - 1
  {
    if Marked(text) then text[1..] else text
  }

  /** Only one backslash is dropped: a doubled one shows as a single one. */
  lemma DisplayDropsOnlyOne(rest: string)
    ensures Display("\\\\" + rest) == "\\" + rest
  {
    assert ("\\\\" + rest)[1..] == "\\" + rest;
  }

  /** The header above the grid: the first symbol's displayed text, when there is one and it is not empty. */
  function Header(cat: SymbolCategory): (r: Option<string>)
    ensures r.Some? <==> |cat.symbols| > 0 && Display(cat.symbols[0].text) != ""
    ensures r.Some? ==> r.value == Display(cat.symbols[0].text) && |r.value| > 0
  {
    if |cat.symbols| == 0 then None
    else
      var header := Display(cat.symbols[0].text);
      if header == "" then None else Some(header)
  }

  /** The symbols laid out as keys: every one but the first, in order. */
  function GridCells(cat: SymbolCategory): (r: seq<SymbolItem>)
    ensures |r| == if |cat.symbols| == 0 then 0 else |cat.symbols| - 1
    ensures forall k :: 0 <= k < |r| ==> r[k] == cat.symbols[k + 1]
  {
    if |cat.symbols| == 0 then [] else cat.symbols[1..]
  }

  /** The first symbol, shown as the header, and the keys together are exactly the category's symbols. */
  lemma HeaderAndCellsPartition(cat: SymbolCategory)
    requires |cat.symbols| > 0
    ensures [cat.symbols[0]] + GridCells(cat) == cat.symbols
  {
    assert [cat.symbols[0]] + GridCells(cat) == [cat.symbols[0]] + cat.symbols[1..];
  }

  /** The number of grid columns: the category's column count, at least one. */
  function GridColumns(cat: SymbolCategory): (r: int)
    ensures r >= 1
    ensures cat.column < 1 ==> r == 1
    ensures cat.column >= 1 ==> r == cat.column
  {
    if cat.column > 1 then cat.column else 1
  }

  /** A key whose displayed text is longer than five characters is drawn wide. */
  predicate IsWide(display: string) {
    |display| > 5
  }

  /** The number of grid columns a key spans: up to four for a wide key, else one. */
  function CellSpan(item: SymbolItem, cat: SymbolCategory): (r: int)
    ensures 1 <= r <= 4
    ensures r <= GridColumns(cat)
    ensures !IsWide(Display(item.text)) ==> r == 1
    ensures IsWide(Display(item.text)) ==> r == 4 || r == GridColumns(cat)
  {
    if IsWide(Display(item.text)) then
      var columns := GridColumns(cat);
      if columns < 4 then columns else 4
    else 1
  }

  /** The category on screen: the one at the selected index, or none when the index is out of range. */
  function CurrentCategory(categories: seq<SymbolCategory>, currentIndex: int): (r: Option<SymbolCategory>)
    ensures r.None? <==> !(0 <= currentIndex < |categories|)
    ensures r.Some? ==> r.value == categories[currentIndex]
  {
    if 0 <= currentIndex < |categories| then Some(categories[currentIndex]) else None
  }

  /** Tapping the tab of category `idx` selects it; only the selection changes. */
  method SelectTab(vm: KeyboardViewModel, idx: int)
    requires 0 <= idx < |vm.categories|
    modifies vm
    ensures vm.categories == old(vm.categories) && vm.text == old(vm.text) && vm.stats == old(vm.stats)
    ensures vm.currentIndex == idx
    ensures CurrentCategory(vm.categories, vm.currentIndex) == Some(vm.categories[idx])
    ensures vm.importedURL == old(vm.importedURL) && vm.parseError == old(vm.parseError)
    ensures vm.pairModeEnabled == old(vm.pairModeEnabled) && vm.repeatEnabled == old(vm.repeatEnabled)
  {
    vm.currentIndex := idx;
  }

  /** The label of a category's tab: its name, or a placeholder when the name is empty. */
  function TabLabel(cat: SymbolCategory): (r: string)
    ensures |r| > 0
    ensures cat.name != "" ==> r == cat.name
    ensures cat.name == "" ==> r == "无名"
  {
    if cat.name == "" then "无名" else cat.name
  }
}
