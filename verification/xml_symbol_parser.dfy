/**
 * The markup reader and writer for a keyboard layout. Reading is driven by
 * the element start and end notifications of an XML tokenizer; the handler
 * object keeps the categories read so far, the attributes of the category
 * being read and its symbols so far. Writing turns a layout into the markup
 * text line by line.
 */
module XmlSymbolParsing {
  import opened Wrappers
  import opened SymbolModels
  import opened TextConversions
  import opened Escaping

  /** An attribute dictionary as the tokenizer reports it: names to decoded values. */
  type Attributes = map<string, string>

  /** One notification from the tokenizer. */
  datatype Event =
    | StartElement(elementName: string, attributes: Attributes)
    | EndElement(elementName: string)

  /** Whether the tokenizer reached the end of the document or stopped on an error. */
  datatype TokenizerOutcome = Completed | Aborted(error: Option<string>)

  /** Why reading failed: the tokenizer stopped, or no category was found. */
  datatype ParseError = Malformed(detail: Option<string>) | NoCategories

  /**
   * The description the thrown error carries: the tokenizer's own error when
   * it supplied one, else one of the two fixed texts.
   */
  function ErrorMessage(e: ParseError): (m: string)
    ensures e.Malformed? && e.detail.Some? ==> m == e.detail.value
    ensures !(e.Malformed? && e.detail.Some?) ==> |m| > 0
  {
    match e
    case Malformed(detail) =>
      if detail.Some? then detail.value else "XML 解析失败"
    case NoCategories => "未解析到任何分栏（检查 <Symbols>/<Category> 结构）"
  }

  function Lookup(attributes: Attributes, name: string): (r: Option<string>)
    ensures r.Some? <==> name in attributes
    ensures r.Some? ==> r.value == attributes[name]
  {
    if name in attributes then Some(attributes[name]) else None
  }

  /** A boolean attribute: true exactly when its value, lowercased, is `true`; absent means false. */
  predicate FlagValue(value: Option<string>) {
    Lowercased(value.GetOr("false")) == "true"
  }

  lemma FlagSpelling(value: Option<string>)
    ensures value == Some("true") ==> FlagValue(value)
    ensures value == Some("TRUE") ==> FlagValue(value)
    ensures value == Some("True") ==> FlagValue(value)
    ensures value == Some("false") ==> !FlagValue(value)
    ensures value == Some("yes") ==> !FlagValue(value)
    ensures value == None ==> !FlagValue(value)
  {
    if value == Some("false") || value == None {
      assert Lowercased("false")[0] == 'f';
    } else if value == Some("yes") {
      assert Lowercased("yes")[0] == 'y';
    } else if value == Some("TRUE") {
      assert Lowercased("TRUE") == "true";
    } else if value == Some("True") {
      assert Lowercased("True") == "true";
    } else if value == Some("true") {
      assert Lowercased("true") == "true";
    }
  }

  /** A flag is set by `true` in any mix of upper and lower case, and by nothing else. */
  lemma FlagAnyCase(x: string)
    ensures FlagValue(Some(x)) <==>
      |x| == 4 && LowerChar(x[0]) == 't' && LowerChar(x[1]) == 'r' && LowerChar(x[2]) == 'u' && LowerChar(x[3]) == 'e'
  {
    if FlagValue(Some(x)) {
      assert Lowercased(x) == "true";
    } else if |x| == 4 {
      assert Lowercased(x) != "true";
      var k :| 0 <= k < 4 && Lowercased(x)[k] != "true"[k];
    }
  }

  /** The symbol a `Symbol` start notification describes. */
  function SymbolFromAttributes(attributes: Attributes): SymbolItem {
    SymbolItem(
      Lookup(attributes, "text").GetOr(""),
      Lookup(attributes, "left"),
      Lookup(attributes, "right"),
      Lookup(attributes, "hint"),
      FlagValue(Lookup(attributes, "repeatable")),
      Lookup(attributes, "key"))
  }

  function Clamp(v: int): int {
    if v < MinColumn then MinColumn else if v > MaxColumn then MaxColumn else v
  }

  /** The column count of a category: its `column` attribute read as an integer, 4 if that fails, clamped to [1, 8]. */
  function ColumnValue(attributes: Attributes): (r: int)
    ensures MinColumn <= r <= MaxColumn
    ensures "column" !in attributes ==> r == 4
    ensures "column" in attributes && ParseInt(attributes["column"]).None? ==> r == 4
    ensures "column" in attributes && ParseInt(attributes["column"]).Some? ==>
      var v := ParseInt(attributes["column"]).value;
      (v < MinColumn ==> r == MinColumn) && (v > MaxColumn ==> r == MaxColumn)
      && (MinColumn <= v <= MaxColumn ==> r == v)
  {
    Clamp(ParseInt(Lookup(attributes, "column").GetOr("4")).GetOr(4))
  }

  lemma ColumnExamples()
    ensures ColumnValue(map["column" := "0"]) == 1
    ensures ColumnValue(map["column" := "99"]) == 8
    ensures ColumnValue(map["column" := "abc"]) == 4
    ensures ColumnValue(map["column" := "-3"]) == 1
    ensures ColumnValue(map[]) == 4
  {
    assert ParseInt("0") == Some(0) by {
      assert "0"[..0] == "";
    }
    assert ParseInt("99") == Some(99) by {
      assert "99"[..1] == "9";
      assert "9"[..0] == "";
    }
    assert "abc"[0] == 'a';
    assert ParseInt("-3") == Some(-3) by {
      assert "-3"[1..] == "3";
      assert "3"[..0] == "";
    }
  }

  /** The category a `Category` end notification closes, from the saved attributes and the symbols read. */
  function CategoryFromAttributes(attributes: Attributes, symbols: seq<SymbolItem>): (c: SymbolCategory)
    ensures ColumnInRange(c)
  {
    SymbolCategory(
      Lookup(attributes, "name").GetOr(""),
      Lookup(attributes, "comment"),
      ColumnValue(attributes),
      FlagValue(Lookup(attributes, "lock")),
      symbols)
  }

  /** The three fields of the handler object. */
  datatype ParserState = ParserState(
    categories: seq<SymbolCategory>,
    currentAttrs: Attributes,
    currentSymbols: seq<SymbolItem>)

  const Initial: ParserState := ParserState([], map[], [])

  /** What one notification does to the handler's fields. */
  function Step(s: ParserState, e: Event): ParserState {
    match e
    case StartElement(name, attributes) =>
      if name == "Category" then s.(currentAttrs := attributes, currentSymbols := [])
      else if name == "Symbol" then s.(currentSymbols := s.currentSymbols + [SymbolFromAttributes(attributes)])
      else s
    case EndElement(name) =>
      if name == "Category" then
        ParserState(s.categories + [CategoryFromAttributes(s.currentAttrs, s.currentSymbols)], map[], [])
      else s
  }

  /** The handler's fields after the notifications `events`, in order, starting from `s`. */
  function Fold(s: ParserState, events: seq<Event>): ParserState {
    if |events| == 0 then s else Step(Fold(s, events[..|events| - 1]), events[|events| - 1])
  }

  /** The handler's fields after a whole document, starting from the reset state. */
  function Run(events: seq<Event>): ParserState {
    Fold(Initial, events)
  }

  /** The number of `Category` end notifications. */
  function CategoryEnds(events: seq<Event>): nat {
    if |events| == 0 then 0
    else CategoryEnds(events[..|events| - 1]) + (if events[|events| - 1] == EndElement("Category") then 1 else 0)
  }

  /** A `Symbol` start adds exactly one symbol, read field by field from the attributes. */
  lemma SymbolStartAppendsOne(s: ParserState, attributes: Attributes)
    ensures var t := Step(s, StartElement("Symbol", attributes));
      && t.categories == s.categories && t.currentAttrs == s.currentAttrs
      && |t.currentSymbols| == |s.currentSymbols| + 1
      && t.currentSymbols[..|s.currentSymbols|] == s.currentSymbols
      && var item := t.currentSymbols[|s.currentSymbols|];
      && item.text == (if "text" in attributes then attributes["text"] else "")
      && (item.left.Some? <==> "left" in attributes)
      && (item.left.Some? ==> item.left.value == attributes["left"])
      && (item.right.Some? <==> "right" in attributes)
      && (item.right.Some? ==> item.right.value == attributes["right"])
      && (item.hint.Some? <==> "hint" in attributes)
      && (item.hint.Some? ==> item.hint.value == attributes["hint"])
      && (item.key.Some? <==> "key" in attributes)
      && (item.key.Some? ==> item.key.value == attributes["key"])
      && (item.repeatable <==> "repeatable" in attributes && Lowercased(attributes["repeatable"]) == "true")
  {
    if "repeatable" !in attributes {
      assert Lowercased("false")[0] == 'f';
    }
  }

  /** A `Category` start forgets the symbols gathered so far and keeps the categories. */
  lemma CategoryStartResets(s: ParserState, attributes: Attributes)
    ensures Step(s, StartElement("Category", attributes)) == ParserState(s.categories, attributes, [])
  {
  }

  /** A `Category` end adds exactly one category, built from the saved attributes and the symbols in order, and resets both. */
  lemma CategoryEndAppendsOne(s: ParserState)
    ensures var t := Step(s, EndElement("Category"));
      && |t.categories| == |s.categories| + 1
      && t.categories[..|s.categories|] == s.categories
      && var c := t.categories[|s.categories|];
      && c.symbols == s.currentSymbols
      && c.name == (if "name" in s.currentAttrs then s.currentAttrs["name"] else "")
      && (c.comment.Some? <==> "comment" in s.currentAttrs)
      && (c.comment.Some? ==> c.comment.value == s.currentAttrs["comment"])
      && (c.locked <==> "lock" in s.currentAttrs && Lowercased(s.currentAttrs["lock"]) == "true")
      && c.column == ColumnValue(s.currentAttrs)
      && ColumnInRange(c)
      && t.currentAttrs == map[] && t.currentSymbols == []
  {
    if "lock" !in s.currentAttrs {
      assert Lowercased("false")[0] == 'f';
    }
  }

  lemma {:induction false} FoldAppend(s: ParserState, a: seq<Event>, b: seq<Event>)
    ensures Fold(s, a + b) == Fold(Fold(s, a), b)
  {
    if |b| == 0 {
      assert a + b == a;
    } else {
      assert (a + b)[..|a + b| - 1] == a + b[..|b| - 1];
      FoldAppend(s, a, b[..|b| - 1]);
    }
  }

  /**
   * Only the categories survive a `Category` start: whatever symbols or
   * attributes were gathered before it cannot reach the result.
   */
  lemma CategoryStartForgets(s1: ParserState, s2: ParserState, attributes: Attributes, rest: seq<Event>)
    requires s1.categories == s2.categories
    ensures Fold(s1, [StartElement("Category", attributes)] + rest)
         == Fold(s2, [StartElement("Category", attributes)] + rest)
  {
    var start := [StartElement("Category", attributes)];
    FoldAppend(s1, start, rest);
    FoldAppend(s2, start, rest);
    assert Fold(s1, start) == Fold(s2, start) by {
      assert start[..0] == [];
    }
  }

  /** Categories already read are kept, in order; one is added per `Category` end. */
  lemma {:induction false} FoldKeepsCategories(s: ParserState, events: seq<Event>)
    ensures var t := Fold(s, events);
      && |t.categories| == |s.categories| + CategoryEnds(events)
      && t.categories[..|s.categories|] == s.categories
  {
    if |events| > 0 {
      FoldKeepsCategories(s, events[..|events| - 1]);
    }
  }

  predicate AllColumnsInRange(categories: seq<SymbolCategory>) {
    forall i :: 0 <= i < |categories| ==> ColumnInRange(categories[i])
  }

  /** Every category the handler builds has a column count in [1, 8]. */
  lemma {:induction false} FoldColumnsInRange(s: ParserState, events: seq<Event>)
    requires AllColumnsInRange(s.categories)
    ensures AllColumnsInRange(Fold(s, events).categories)
  {
    if |events| > 0 {
      FoldColumnsInRange(s, events[..|events| - 1]);
    }
  }

  /**
   * The result of reading a document: an error when the tokenizer stopped or
   * no category was read, else the categories in document order.
   */
  function ParseEvents(events: seq<Event>, outcome: TokenizerOutcome): (r: Result<seq<SymbolCategory>, ParseError>)
    ensures r.Success? ==> |r.value| > 0 && AllColumnsInRange(r.value)
    ensures r.Success? ==> |r.value| == CategoryEnds(events)
    ensures r.Failure? <==> outcome.Aborted? || CategoryEnds(events) == 0
    ensures outcome.Aborted? ==> r == Failure(Malformed(outcome.error))
    ensures outcome.Completed? && CategoryEnds(events) == 0 ==> r == Failure(NoCategories)
    ensures r.Success? ==> r.value == Run(events).categories
  {
    FoldColumnsInRange(Initial, events);
    FoldKeepsCategories(Initial, events);
    if outcome.Aborted? then Failure(Malformed(outcome.error))
    else
      var categories := Run(events).categories;
      if |categories| == 0 then Failure(NoCategories) else Success(categories)
  }

  // ---------------------------------------------------------------------
  // Writing

  const XmlDeclaration: string := "<?xml version=\"1.0\" encoding=\"utf-8\"?>"
  const RootOpen: string := "<Symbols>"
  const RootClose: string := "</Symbols>"
  const CategoryClose: string := "    </Category>"

  /** An attribute as written: its name and its value text, already escaped. */
  datatype Attribute = Attribute(name: string, value: string)

  function RenderAttribute(a: Attribute): string {
    a.name + "=\"" + a.value + "\""
  }

  function RenderAttributes(attrs: seq<Attribute>): (r: seq<string>)
    ensures |r| == |attrs|
  {
    seq(|attrs|, i requires 0 <= i < |attrs| => RenderAttribute(attrs[i]))
  }

  function Names(attrs: seq<Attribute>): (r: seq<string>)
    ensures |r| == |attrs|
  {
    seq(|attrs|, i requires 0 <= i < |attrs| => attrs[i].name)
  }

  function BoolText(b: bool): string {
    if b then "true" else "false"
  }

  /** The attributes written for a category, in their fixed order; the comment only when present. */
  function CategoryAttributes(c: SymbolCategory): seq<Attribute> {
    [Attribute("class", "1"), Attribute("column", IntToDecimal(c.column))]
    + (if c.comment.Some? then [Attribute("comment", Escape(c.comment.value))] else [])
    + [Attribute("lock", BoolText(c.locked)), Attribute("name", Escape(c.name))]
  }

  function OptionalAttribute(name: string, value: Option<string>): seq<Attribute> {
    if value.Some? then [Attribute(name, Escape(value.value))] else []
  }

  /** The attributes written for a symbol, in their fixed order; optional ones only when present, `repeatable` only when true. */
  function SymbolAttributes(s: SymbolItem): seq<Attribute> {
    [Attribute("text", Escape(s.text))]
    + OptionalAttribute("left", s.left)
    + OptionalAttribute("right", s.right)
    + OptionalAttribute("hint", s.hint)
    + (if s.repeatable then [Attribute("repeatable", "true")] else [])
    + OptionalAttribute("key", s.key)
  }

  lemma RenderAttributesPair(x: Attribute, y: Attribute)
    ensures RenderAttributes([x]) == [RenderAttribute(x)]
    ensures RenderAttributes([x, y]) == [RenderAttribute(x), RenderAttribute(y)]
  {
  }

  lemma RenderAttributesAppend(a: seq<Attribute>, b: seq<Attribute>)
    ensures RenderAttributes(a + b) == RenderAttributes(a) + RenderAttributes(b)
    ensures Names(a + b) == Names(a) + Names(b)
  {
  }

  /** Category attributes come in the order class, column, comment (when present), lock, name. */
  lemma CategoryAttributeOrder(c: SymbolCategory)
    ensures Names(CategoryAttributes(c))
         == ["class", "column"] + (if c.comment.Some? then ["comment"] else []) + ["lock", "name"]
    ensures RenderAttributes(CategoryAttributes(c))
         == ["class=\"1\"", "column=\"" + IntToDecimal(c.column) + "\""]
          + (if c.comment.Some? then ["comment=\"" + Escape(c.comment.value) + "\""] else [])
          + ["lock=\"" + BoolText(c.locked) + "\"", "name=\"" + Escape(c.name) + "\""]
  {
    var head := [Attribute("class", "1"), Attribute("column", IntToDecimal(c.column))];
    var middle := if c.comment.Some? then [Attribute("comment", Escape(c.comment.value))] else [];
    var tail := [Attribute("lock", BoolText(c.locked)), Attribute("name", Escape(c.name))];
    RenderAttributesAppend(head, middle);
    RenderAttributesAppend(head + middle, tail);
    RenderAttributesPair(head[0], head[1]);
    RenderAttributesPair(tail[0], tail[1]);
    if c.comment.Some? {
      RenderAttributesPair(middle[0], middle[0]);
      assert RenderAttribute(middle[0]) == "comment=\"" + Escape(c.comment.value) + "\"";
    } else {
      assert |RenderAttributes(middle)| == 0;
    }
    assert RenderAttribute(head[0]) == "class=\"1\"";
    assert RenderAttribute(head[1]) == "column=\"" + IntToDecimal(c.column) + "\"";
    assert RenderAttribute(tail[0]) == "lock=\"" + BoolText(c.locked) + "\"";
    assert RenderAttribute(tail[1]) == "name=\"" + Escape(c.name) + "\"";
    assert RenderAttributes(head) == ["class=\"1\"", "column=\"" + IntToDecimal(c.column) + "\""];
    assert RenderAttributes(middle) == (if c.comment.Some? then ["comment=\"" + Escape(c.comment.value) + "\""] else []);
    assert RenderAttributes(tail) == ["lock=\"" + BoolText(c.locked) + "\"", "name=\"" + Escape(c.name) + "\""];
  }

  /**
   * Symbol attributes come in the order text, left, right, hint (each when
   * present), repeatable (when true), key (when present).
   */
  lemma SymbolAttributeOrder(s: SymbolItem)
    ensures Names(SymbolAttributes(s)) == ["text"]
      + (if s.left.Some? then ["left"] else [])
      + (if s.right.Some? then ["right"] else [])
      + (if s.hint.Some? then ["hint"] else [])
      + (if s.repeatable then ["repeatable"] else [])
      + (if s.key.Some? then ["key"] else [])
  {
    var p0, p1, p2, p3 := [Attribute("text", Escape(s.text))], OptionalAttribute("left", s.left),
      OptionalAttribute("right", s.right), OptionalAttribute("hint", s.hint);
    var p4: seq<Attribute> := if s.repeatable then [Attribute("repeatable", "true")] else [];
    var p5 := OptionalAttribute("key", s.key);
    OptionalAttributeRendered("left", s.left);
    OptionalAttributeRendered("right", s.right);
    OptionalAttributeRendered("hint", s.hint);
    OptionalAttributeRendered("key", s.key);
    assert Names(p0) == ["text"];
    assert Names(p4) == if s.repeatable then ["repeatable"] else [];
    RenderAttributesAppend(p0, p1);
    RenderAttributesAppend(p0 + p1, p2);
    RenderAttributesAppend(p0 + p1 + p2, p3);
    RenderAttributesAppend(p0 + p1 + p2 + p3, p4);
    RenderAttributesAppend(p0 + p1 + p2 + p3 + p4, p5);
  }

  /** The text each symbol attribute is written as. */
  lemma SymbolAttributesRendered(s: SymbolItem)
    ensures RenderAttributes(SymbolAttributes(s)) == ["text=\"" + Escape(s.text) + "\""]
      + (if s.left.Some? then ["left=\"" + Escape(s.left.value) + "\""] else [])
      + (if s.right.Some? then ["right=\"" + Escape(s.right.value) + "\""] else [])
      + (if s.hint.Some? then ["hint=\"" + Escape(s.hint.value) + "\""] else [])
      + (if s.repeatable then ["repeatable=\"true\""] else [])
      + (if s.key.Some? then ["key=\"" + Escape(s.key.value) + "\""] else [])
  {
    var p0, p1, p2, p3 := [Attribute("text", Escape(s.text))], OptionalAttribute("left", s.left),
      OptionalAttribute("right", s.right), OptionalAttribute("hint", s.hint);
    var p4: seq<Attribute> := if s.repeatable then [Attribute("repeatable", "true")] else [];
    var p5 := OptionalAttribute("key", s.key);
    var r0: seq<string> := ["text=\"" + Escape(s.text) + "\""];
    var r1: seq<string> := if s.left.Some? then ["left=\"" + Escape(s.left.value) + "\""] else [];
    var r2: seq<string> := if s.right.Some? then ["right=\"" + Escape(s.right.value) + "\""] else [];
    var r3: seq<string> := if s.hint.Some? then ["hint=\"" + Escape(s.hint.value) + "\""] else [];
    var r4: seq<string> := if s.repeatable then ["repeatable=\"true\""] else [];
    var r5: seq<string> := if s.key.Some? then ["key=\"" + Escape(s.key.value) + "\""] else [];
    assert RenderAttributes(p0) == r0 by {
      RenderAttributesPair(p0[0], p0[0]);
      assert "text" + "=\"" == "text=\"";
    }
    assert RenderAttributes(p1) == r1 by {
      OptionalAttributeRendered("left", s.left);
      assert "left" + "=\"" == "left=\"";
    }
    assert RenderAttributes(p2) == r2 by {
      OptionalAttributeRendered("right", s.right);
      assert "right" + "=\"" == "right=\"";
    }
    assert RenderAttributes(p3) == r3 by {
      OptionalAttributeRendered("hint", s.hint);
      assert "hint" + "=\"" == "hint=\"";
    }
    assert RenderAttributes(p4) == r4 by {
      if s.repeatable {
        RenderAttributesPair(p4[0], p4[0]);
        assert RenderAttribute(p4[0]) == "repeatable=\"true\"";
      } else {
        assert |RenderAttributes(p4)| == 0;
      }
    }
    assert RenderAttributes(p5) == r5 by {
      OptionalAttributeRendered("key", s.key);
      assert "key" + "=\"" == "key=\"";
    }
    RenderAttributesAppend(p0, p1);
    RenderAttributesAppend(p0 + p1, p2);
    RenderAttributesAppend(p0 + p1 + p2, p3);
    RenderAttributesAppend(p0 + p1 + p2 + p3, p4);
    RenderAttributesAppend(p0 + p1 + p2 + p3 + p4, p5);
  }

  lemma OptionalAttributeRendered(name: string, value: Option<string>)
    ensures Names(OptionalAttribute(name, value)) == if value.Some? then [name] else []
    ensures RenderAttributes(OptionalAttribute(name, value))
         == if value.Some? then [name + "=\"" + Escape(value.value) + "\""] else []
  {
    var a := OptionalAttribute(name, value);
    if value.Some? {
      RenderAttributesPair(a[0], a[0]);
    } else {
      assert |RenderAttributes(a)| == 0 && |Names(a)| == 0;
    }
  }

  function CategoryOpenLine(c: SymbolCategory): string {
    "    <Category " + Join(RenderAttributes(CategoryAttributes(c)), " ") + ">"
  }

  function SymbolLine(s: SymbolItem): string {
    "        <Symbol " + Join(RenderAttributes(SymbolAttributes(s)), " ") + " />"
  }

  /** One line per symbol, in order. */
  function SymbolLines(symbols: seq<SymbolItem>): (r: seq<string>)
    ensures |r| == |symbols|
  {
    seq(|symbols|, k requires 0 <= k < |symbols| => SymbolLine(symbols[k]))
  }

  lemma SymbolLinesStep(symbols: seq<SymbolItem>, i: int)
    requires 0 <= i < |symbols|
    ensures SymbolLines(symbols[..i + 1]) == SymbolLines(symbols[..i]) + [SymbolLine(symbols[i])]
  {
  }

  function CategoryLines(c: SymbolCategory): seq<string> {
    [CategoryOpenLine(c)] + SymbolLines(c.symbols) + [CategoryClose]
  }

  /** The blocks of `blocks`, one after the other. */
  function Flatten<T>(blocks: seq<seq<T>>): seq<T> {
    if |blocks| == 0 then [] else Flatten(blocks[..|blocks| - 1]) + blocks[|blocks| - 1]
  }

  lemma {:induction false} FlattenAppend<T>(a: seq<seq<T>>, b: seq<seq<T>>)
    ensures Flatten(a + b) == Flatten(a) + Flatten(b)
  {
    if |b| == 0 {
      assert a + b == a;
    } else {
      assert (a + b)[..|a + b| - 1] == a + b[..|b| - 1];
      FlattenAppend(a, b[..|b| - 1]);
    }
  }

  lemma AppendAssoc<T>(a: seq<T>, b: seq<T>, c: seq<T>)
    ensures a + (b + c) == (a + b) + c
  {
  }

  lemma Regroup<T>(head: seq<T>, open: T, body: seq<T>, close: T)
    ensures head + [open] + body + [close] == head + ([open] + body + [close])
  {
  }

  /** The lines of the categories, one block per category, in order. */
  function CategoriesLines(categories: seq<SymbolCategory>): seq<string> {
    Flatten(seq(|categories|, i requires 0 <= i < |categories| => CategoryLines(categories[i])))
  }

  /** Every line of the written document. */
  function DocumentLines(categories: seq<SymbolCategory>): seq<string> {
    [XmlDeclaration, RootOpen] + CategoriesLines(categories) + [RootClose]
  }

  lemma CategoriesLinesAppend(a: seq<SymbolCategory>, b: seq<SymbolCategory>)
    ensures CategoriesLines(a + b) == CategoriesLines(a) + CategoriesLines(b)
  {
    var blocksA := seq(|a|, i requires 0 <= i < |a| => CategoryLines(a[i]));
    var blocksB := seq(|b|, i requires 0 <= i < |b| => CategoryLines(b[i]));
    assert seq(|a + b|, i requires 0 <= i < |a + b| => CategoryLines((a + b)[i])) == blocksA + blocksB;
    FlattenAppend(blocksA, blocksB);
  }

  lemma CategoriesLinesSnoc(categories: seq<SymbolCategory>, c: SymbolCategory)
    ensures CategoriesLines(categories + [c]) == CategoriesLines(categories) + CategoryLines(c)
  {
    CategoriesLinesAppend(categories, [c]);
    var one := [c];
    var blocks := seq(|one|, i requires 0 <= i < |one| => CategoryLines(one[i]));
    assert blocks == [CategoryLines(c)];
    assert blocks[..0] == [];
    assert Flatten(blocks) == Flatten(blocks[..0]) + CategoryLines(c);
    assert CategoriesLines(one) == CategoryLines(c);
  }

  lemma CategoriesLinesStep(categories: seq<SymbolCategory>, i: int)
    requires 0 <= i < |categories|
    ensures CategoriesLines(categories[..i + 1]) == CategoriesLines(categories[..i]) + CategoryLines(categories[i])
  {
    CategoriesLinesSnoc(categories[..i], categories[i]);
    assert categories[..i + 1] == categories[..i] + [categories[i]];
  }

  /**
   * The written document is the declaration, the root, then for each
   * category in order its opening line, its symbols' lines in order and its
   * closing line, then the root's end.
   */
  lemma DocumentOrder(categories: seq<SymbolCategory>, i: int)
    requires 0 <= i < |categories|
    ensures DocumentLines(categories)
         == [XmlDeclaration, RootOpen] + CategoriesLines(categories[..i])
          + [CategoryOpenLine(categories[i])] + SymbolLines(categories[i].symbols) + [CategoryClose]
          + CategoriesLines(categories[i + 1..]) + [RootClose]
  {
    assert categories == categories[..i] + [categories[i]] + categories[i + 1..];
    CategoriesLinesAppend(categories[..i] + [categories[i]], categories[i + 1..]);
    CategoriesLinesSnoc(categories[..i], categories[i]);
  }

  /** The number of lines written: three plus, per category, its symbols and two. */
  lemma {:induction false} CategoriesLineCount(categories: seq<SymbolCategory>)
    ensures |CategoriesLines(categories)| == LineCount(categories)
  {
    if |categories| > 0 {
      var front := categories[..|categories| - 1];
      CategoriesLineCount(front);
      CategoriesLinesSnoc(front, categories[|categories| - 1]);
      assert front + [categories[|categories| - 1]] == categories;
    }
  }

  function LineCount(categories: seq<SymbolCategory>): nat {
    if |categories| == 0 then 0
    else LineCount(categories[..|categories| - 1]) + |categories[|categories| - 1].symbols| + 2
  }

  /** The handler object of the reader. */
  class XmlSymbolParser {
    var categories: seq<SymbolCategory>
    var currentAttrs: Attributes
    var currentSymbols: seq<SymbolItem>

    function State(): ParserState
      reads this
    {
      ParserState(categories, currentAttrs, currentSymbols)
    }

    constructor ()
      ensures State() == Initial
    {
      categories := [];
      currentAttrs := map[];
      currentSymbols := [];
    }

    /** The start-of-element notification. */
    method DidStartElement(elementName: string, attributeDict: Attributes)
      modifies this
      ensures State() == Step(old(State()), StartElement(elementName, attributeDict))
    {
      if elementName == "Category" {
        currentAttrs := attributeDict;
        currentSymbols := [];
      } else if elementName == "Symbol" {
        var text := Lookup(attributeDict, "text").GetOr("");
        var left := Lookup(attributeDict, "left");
        var right := Lookup(attributeDict, "right");
        var hint := Lookup(attributeDict, "hint");
        var repeatable := Lowercased(Lookup(attributeDict, "repeatable").GetOr("false")) == "true";
        var key := Lookup(attributeDict, "key");
        var item := SymbolItem(text, left, right, hint, repeatable, key);
        currentSymbols := currentSymbols + [item];
      }
    }

    /** The end-of-element notification. */
    method DidEndElement(elementName: string)
      modifies this
      ensures State() == Step(old(State()), EndElement(elementName))
    {
      if elementName == "Category" {
        var name := Lookup(currentAttrs, "name").GetOr("");
        var comment := Lookup(currentAttrs, "comment");
        var column := ParseInt(Lookup(currentAttrs, "column").GetOr("4")).GetOr(4);
        var locked := Lowercased(Lookup(currentAttrs, "lock").GetOr("false")) == "true";
        var category := SymbolCategory(name, comment, Clamp(column), locked, currentSymbols);
        categories := categories + [category];
        currentAttrs := map[];
        currentSymbols := [];
      }
    }

    /**
     * Reads a document: resets the fields, lets the tokenizer deliver its
     * notifications, then fails if it stopped early or no category was read.
     */
    method Parse(events: seq<Event>, outcome: TokenizerOutcome) returns (r: Result<seq<SymbolCategory>, ParseError>)
      modifies this
      ensures State() == Run(events)
      ensures r == ParseEvents(events, outcome)
    {
      categories := [];
      currentAttrs := map[];
      currentSymbols := [];
      var i := 0;
      while i < |events|
        invariant 0 <= i <= |events|
        invariant State() == Run(events[..i])
      {
        assert events[..i + 1][..i] == events[..i];
        match events[i] {
          case StartElement(name, attributes) => DidStartElement(name, attributes);
          case EndElement(name) => DidEndElement(name);
        }
        i := i + 1;
      }
      assert events[..i] == events;
      if outcome.Aborted? {
        return Failure(Malformed(outcome.error));
      }
      if |categories| == 0 {
        return Failure(NoCategories);
      }
      return Success(categories);
    }

    /** Writes a layout as markup text, one line per element, joined by line feeds. */
    static method Serialize(categories: seq<SymbolCategory>) returns (r: string)
      ensures r == Join(DocumentLines(categories), "\n")
    {
      var out: seq<string> := [];
      out := out + [XmlDeclaration];
      out := out + [RootOpen];
      for ci := 0 to |categories|
        invariant out == [XmlDeclaration, RootOpen] + CategoriesLines(categories[..ci])
      {
        var cat := categories[ci];
        ghost var head := out;
        var open := CategoryElement(cat);
        out := out + [open];
        ghost var before := out;
        for si := 0 to |cat.symbols|
          invariant out == before + SymbolLines(cat.symbols[..si])
        {
          var line := SymbolElement(cat.symbols[si]);
          SymbolLinesStep(cat.symbols, si);
          AppendAssoc(before, SymbolLines(cat.symbols[..si]), [line]);
          out := out + [line];
        }
        assert cat.symbols[..|cat.symbols|] == cat.symbols;
        out := out + [CategoryClose];
        Regroup(head, open, SymbolLines(cat.symbols), CategoryClose);
        CategoriesLinesStep(categories, ci);
        AppendAssoc([XmlDeclaration, RootOpen], CategoriesLines(categories[..ci]), CategoryLines(cat));
      }
      assert categories[..|categories|] == categories;
      out := out + [RootClose];
      r := Join(out, "\n");
    }

    /** The `<Category …>` line the writer emits before a category's symbols. */
    static method CategoryElement(cat: SymbolCategory) returns (line: string)
      ensures line == CategoryOpenLine(cat)
    {
      var attrs: seq<string> := [];
      attrs := attrs + ["class=\"1\""];
      attrs := attrs + ["column=\"" + IntToDecimal(cat.column) + "\""];
      if cat.comment.Some? {
        attrs := attrs + ["comment=\"" + Escape(cat.comment.value) + "\""];
      }
      attrs := attrs + ["lock=\"" + BoolText(cat.locked) + "\""];
      attrs := attrs + ["name=\"" + Escape(cat.name) + "\""];
      assert attrs == RenderAttributes(CategoryAttributes(cat)) by {
        CategoryAttributeOrder(cat);
      }
      line := "    <Category " + Join(attrs, " ") + ">";
    }

    /** The `<Symbol … />` line the writer emits for one symbol of a category. */
    static method SymbolElement(s: SymbolItem) returns (line: string)
      ensures line == SymbolLine(s)
    {
      // The attribute texts written so far, one group per optional attribute.
      ghost var t0: seq<string> := ["text=\"" + Escape(s.text) + "\""];
      ghost var t1: seq<string> := if s.left.Some? then ["left=\"" + Escape(s.left.value) + "\""] else [];
      ghost var t2: seq<string> := if s.right.Some? then ["right=\"" + Escape(s.right.value) + "\""] else [];
      ghost var t3: seq<string> := if s.hint.Some? then ["hint=\"" + Escape(s.hint.value) + "\""] else [];
      ghost var t4: seq<string> := if s.repeatable then ["repeatable=\"true\""] else [];
      ghost var t5: seq<string> := if s.key.Some? then ["key=\"" + Escape(s.key.value) + "\""] else [];
      var sAttrs: seq<string> := [];
      sAttrs := sAttrs + ["text=\"" + Escape(s.text) + "\""];
      if s.left.Some? {
        sAttrs := sAttrs + ["left=\"" + Escape(s.left.value) + "\""];
      }
      assert sAttrs == t0 + t1;
      if s.right.Some? {
        sAttrs := sAttrs + ["right=\"" + Escape(s.right.value) + "\""];
      }
      assert sAttrs == t0 + t1 + t2;
      if s.hint.Some? {
        sAttrs := sAttrs + ["hint=\"" + Escape(s.hint.value) + "\""];
      }
      assert sAttrs == t0 + t1 + t2 + t3;
      if s.repeatable {
        sAttrs := sAttrs + ["repeatable=\"true\""];
      }
      assert sAttrs == t0 + t1 + t2 + t3 + t4;
      if s.key.Some? {
        sAttrs := sAttrs + ["key=\"" + Escape(s.key.value) + "\""];
      }
      assert sAttrs == t0 + t1 + t2 + t3 + t4 + t5;
      SymbolAttributesRendered(s);
      line := "        <Symbol " + Join(sAttrs, " ") + " />";
    }
  }
}
