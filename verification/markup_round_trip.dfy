/**
 * Reading back what the writer wrote. The tokenizer is not modelled; instead
 * the notifications a conforming XML reader delivers for the writer's output
 * are built from the very attribute lists the writer renders, each value
 * decoded as section 3.3.3 of XML 1.0 prescribes. Fed to the reader's
 * handlers, they rebuild every category and symbol, provided the column count
 * lies in [1, 8] (the reader clamps any other) and every value is made of
 * characters XML allows (a reader rejects a document with any other) other
 * than tab and line breaks (the escaper leaves those literal, and a reader
 * turns them into spaces).
 */
module MarkupRoundTrip {
  import opened Wrappers
  import opened SymbolModels
  import opened TextConversions
  import opened Escaping
  import opened XmlSymbolParsing

  /**
   * The dictionary a reader reports for an element whose attributes are
   * written as `attrs`: each name maps to its value as read back (a later
   * attribute of the same name would win; the writer never repeats one).
   */
  function ReadAttributes(attrs: seq<Attribute>): Attributes {
    if |attrs| == 0 then map[]
    else
      var last := attrs[|attrs| - 1];
      ReadAttributes(attrs[..|attrs| - 1])[last.name := DecodeAttributeValue(last.value)]
  }

  /** A dictionary with an optional value recorded under `name`. */
  function Put(m: Attributes, name: string, v: Option<string>): Attributes {
    if v.Some? then m[name := v.value] else m
  }

  lemma LookupPut(m: Attributes, name: string, v: Option<string>, n: string)
    ensures Lookup(Put(m, name, v), n) == if n == name && v.Some? then v else Lookup(m, n)
  {
  }

  /**
   * Text that survives the trip through an attribute: only characters XML
   * allows (the escaper passes the others through, and a reader rejects the
   * document), and no tab or line break (a reader turns those into spaces).
   */
  predicate ReadableText(s: string) {
    XmlText(s) && NoLineBreaksOrTabs(s)
  }

  predicate Readable(v: Option<string>) {
    v.Some? ==> ReadableText(v.value)
  }

  /** A symbol whose every value survives the trip through an attribute. */
  predicate SymbolReadable(s: SymbolItem) {
    ReadableText(s.text) && Readable(s.left) && Readable(s.right) && Readable(s.hint) && Readable(s.key)
  }

  /** A category the reader rebuilds exactly from what the writer wrote. */
  predicate CategoryReadable(c: SymbolCategory) {
    && ColumnInRange(c)
    && ReadableText(c.name)
    && Readable(c.comment)
    && forall k :: 0 <= k < |c.symbols| ==> SymbolReadable(c.symbols[k])
  }

  /** The notifications for one symbol line. */
  function SymbolLineEvents(s: SymbolItem): seq<Event> {
    [StartElement("Symbol", ReadAttributes(SymbolAttributes(s))), EndElement("Symbol")]
  }

  /** The notifications for the symbol lines of a category, in order. */
  function SymbolEvents(symbols: seq<SymbolItem>): seq<Event> {
    if |symbols| == 0 then []
    else SymbolEvents(symbols[..|symbols| - 1]) + SymbolLineEvents(symbols[|symbols| - 1])
  }

  /** The notifications for one category: its start, its symbols, its end. */
  function CategoryEvents(c: SymbolCategory): seq<Event> {
    [StartElement("Category", ReadAttributes(CategoryAttributes(c)))] + SymbolEvents(c.symbols) + [EndElement("Category")]
  }

  function CategoriesEvents(categories: seq<SymbolCategory>): seq<Event> {
    if |categories| == 0 then []
    else CategoriesEvents(categories[..|categories| - 1]) + CategoryEvents(categories[|categories| - 1])
  }

  /** The notifications for the whole written document. */
  function DocumentEvents(categories: seq<SymbolCategory>): seq<Event> {
    [StartElement("Symbols", map[])] + CategoriesEvents(categories) + [EndElement("Symbols")]
  }

  lemma {:induction false} DecodeEntitiesPlain(s: string)
    requires forall i :: 0 <= i < |s| ==> s[i] != '&'
    ensures DecodeEntities(s) == s
  {
    if |s| > 0 {
      DecodePlainStep(s);
      DecodeEntitiesPlain(s[1..]);
    }
  }

  /** Text with no `&` and no tab or line break reads back unchanged. */
  lemma DecodePlain(s: string)
    requires forall i :: 0 <= i < |s| ==> s[i] != '&' && !IsLineBreakOrTab(s[i])
    ensures DecodeAttributeValue(s) == s
  {
    NormalizeIdentity(s);
    DecodeEntitiesPlain(s);
  }

  /** One more attribute written overrides what was read before it under its name. */
  lemma ReadAfter(attrs: seq<Attribute>, a: Attribute)
    ensures ReadAttributes(attrs + [a]) == ReadAttributes(attrs)[a.name := DecodeAttributeValue(a.value)]
  {
    assert (attrs + [a])[..|attrs|] == attrs;
  }

  /** An escaped optional value reads back as the value itself. */
  lemma ReadOptional(attrs: seq<Attribute>, name: string, v: Option<string>)
    requires Readable(v)
    ensures ReadAttributes(attrs + OptionalAttribute(name, v)) == Put(ReadAttributes(attrs), name, v)
  {
    if v.Some? {
      ReadAfter(attrs, Attribute(name, Escape(v.value)));
      DecodeAttributeOfEscape(v.value);
    } else {
      assert attrs + OptionalAttribute(name, v) == attrs;
    }
  }

  lemma ReadTrue()
    ensures DecodeAttributeValue("true") == "true"
  {
    DecodePlain("true");
  }

  lemma ReadFalse()
    ensures DecodeAttributeValue("false") == "false"
  {
    DecodePlain("false");
  }

  /** The `repeatable` flag as it reads back: present, as `true`, only when set. */
  function RepeatableValue(s: SymbolItem): Option<string> {
    if s.repeatable then Some("true") else None
  }

  /** The dictionary read back for a symbol holds exactly its fields, `repeatable` only when set. */
  lemma ReadSymbolAttributes(s: SymbolItem)
    requires SymbolReadable(s)
    ensures ReadAttributes(SymbolAttributes(s))
      == Put(Put(Put(Put(Put(map["text" := s.text], "left", s.left), "right", s.right), "hint", s.hint),
             "repeatable", RepeatableValue(s)), "key", s.key)
  {
    var p0 := [Attribute("text", Escape(s.text))];
    var p1, p2, p3 := OptionalAttribute("left", s.left), OptionalAttribute("right", s.right), OptionalAttribute("hint", s.hint);
    var p4: seq<Attribute> := if s.repeatable then [Attribute("repeatable", "true")] else [];
    var p5 := OptionalAttribute("key", s.key);
    assert SymbolAttributes(s) == p0 + p1 + p2 + p3 + p4 + p5;
    assert ReadAttributes(p0) == map["text" := s.text] by {
      assert p0[..0] == [];
      DecodeAttributeOfEscape(s.text);
    }
    ReadOptional(p0, "left", s.left);
    ReadOptional(p0 + p1, "right", s.right);
    ReadOptional(p0 + p1 + p2, "hint", s.hint);
    if s.repeatable {
      ReadAfter(p0 + p1 + p2 + p3, Attribute("repeatable", "true"));
      ReadTrue();
    } else {
      assert p0 + p1 + p2 + p3 + p4 == p0 + p1 + p2 + p3;
    }
    ReadOptional(p0 + p1 + p2 + p3 + p4, "key", s.key);
  }

  /** Every field of a symbol comes back from the attributes written for it. */
  lemma ReadSymbol(s: SymbolItem)
    requires SymbolReadable(s)
    ensures SymbolFromAttributes(ReadAttributes(SymbolAttributes(s))) == s
  {
    ReadSymbolAttributes(s);
    var m0 := map["text" := s.text];
    var m1 := Put(m0, "left", s.left);
    var m2 := Put(m1, "right", s.right);
    var m3 := Put(m2, "hint", s.hint);
    var m4 := Put(m3, "repeatable", RepeatableValue(s));
    var m5 := Put(m4, "key", s.key);
    FlagSpelling(RepeatableValue(s));
    LookupPut(m4, "key", s.key, "key");
    LookupPut(m4, "key", s.key, "repeatable");
    LookupPut(m3, "repeatable", RepeatableValue(s), "repeatable");
    assert Lookup(m5, "repeatable") == RepeatableValue(s);
    LookupPut(m4, "key", s.key, "hint");
    LookupPut(m3, "repeatable", RepeatableValue(s), "hint");
    LookupPut(m2, "hint", s.hint, "hint");
    assert Lookup(m5, "hint") == s.hint;
    LookupPut(m4, "key", s.key, "right");
    LookupPut(m3, "repeatable", RepeatableValue(s), "right");
    LookupPut(m2, "hint", s.hint, "right");
    LookupPut(m1, "right", s.right, "right");
    assert Lookup(m5, "right") == s.right;
    LookupPut(m4, "key", s.key, "left");
    LookupPut(m3, "repeatable", RepeatableValue(s), "left");
    LookupPut(m2, "hint", s.hint, "left");
    LookupPut(m1, "right", s.right, "left");
    LookupPut(m0, "left", s.left, "left");
    assert Lookup(m5, "left") == s.left;
    LookupPut(m4, "key", s.key, "text");
    LookupPut(m3, "repeatable", RepeatableValue(s), "text");
    LookupPut(m2, "hint", s.hint, "text");
    LookupPut(m1, "right", s.right, "text");
    LookupPut(m0, "left", s.left, "text");
    assert Lookup(m5, "text") == Some(s.text);
  }

  /** The dictionary read back for a category holds its column, lock flag, name and comment. */
  lemma ReadCategoryAttributes(c: SymbolCategory)
    requires ColumnInRange(c) && NoLineBreaksOrTabs(c.name) && Readable(c.comment)
    ensures ReadAttributes(CategoryAttributes(c))
      == Put(map["class" := "1", "column" := IntToDecimal(c.column)], "comment", c.comment)
         ["lock" := BoolText(c.locked)]["name" := c.name]
  {
    var digits := IntToDecimal(c.column);
    var p0 := [Attribute("class", "1"), Attribute("column", digits)];
    var p1 := OptionalAttribute("comment", c.comment);
    var lock, name := Attribute("lock", BoolText(c.locked)), Attribute("name", Escape(c.name));
    assert CategoryAttributes(c) == p0 + p1 + [lock] + [name];
    assert ReadAttributes(p0) == map["class" := "1", "column" := digits] by {
      assert p0 == [Attribute("class", "1")] + [Attribute("column", digits)];
      ReadAfter([], Attribute("class", "1"));
      ReadAfter([Attribute("class", "1")], Attribute("column", digits));
      DecodePlain("1");
      assert digits == [DigitChar(c.column)];
      DecodePlain(digits);
    }
    ReadOptional(p0, "comment", c.comment);
    ReadAfter(p0 + p1, lock);
    if c.locked { ReadTrue(); } else { ReadFalse(); }
    ReadAfter(p0 + p1 + [lock], name);
    DecodeAttributeOfEscape(c.name);
  }

  /** Every field but the symbols comes back from the attributes written for a category. */
  lemma ReadCategory(c: SymbolCategory, symbols: seq<SymbolItem>)
    requires ColumnInRange(c) && NoLineBreaksOrTabs(c.name) && Readable(c.comment)
    ensures CategoryFromAttributes(ReadAttributes(CategoryAttributes(c)), symbols) == c.(symbols := symbols)
  {
    ReadCategoryAttributes(c);
    ParseIntOfDecimal(c.column);
    if c.locked {
      assert Lowercased("true") == "true";
    } else {
      assert Lowercased("false")[0] == 'f';
    }
  }

  lemma FoldPair(s: ParserState, e1: Event, e2: Event)
    ensures Fold(s, [e1, e2]) == Step(Step(s, e1), e2)
  {
    FoldOne(s, e1);
    assert [e1, e2][..1] == [e1];
  }

  lemma FoldOne(s: ParserState, e: Event)
    ensures Fold(s, [e]) == Step(s, e)
  {
    assert [e][..0] == [];
  }

  lemma StepSymbolStart(t: ParserState, attributes: Attributes)
    ensures Step(t, StartElement("Symbol", attributes))
      == t.(currentSymbols := t.currentSymbols + [SymbolFromAttributes(attributes)])
  {
  }

  lemma StepSymbolEnd(t: ParserState)
    ensures Step(t, EndElement("Symbol")) == t
  {
  }

  /** One written symbol line, read back, appends exactly that symbol. */
  lemma FoldSymbolLine(t: ParserState, item: SymbolItem)
    requires SymbolReadable(item)
    ensures Fold(t, SymbolLineEvents(item)) == t.(currentSymbols := t.currentSymbols + [item])
  {
    var attrs := ReadAttributes(SymbolAttributes(item));
    var e1, e2 := StartElement("Symbol", attrs), EndElement("Symbol");
    FoldPair(t, e1, e2);
    StepSymbolStart(t, attrs);
    StepSymbolEnd(Step(t, e1));
    ReadSymbol(item);
  }

  /** The symbol lines of a category, read in order, append exactly those symbols. */
  lemma {:induction false} FoldSymbolEvents(s: ParserState, symbols: seq<SymbolItem>)
    requires forall k :: 0 <= k < |symbols| ==> SymbolReadable(symbols[k])
    ensures Fold(s, SymbolEvents(symbols)) == s.(currentSymbols := s.currentSymbols + symbols)
  {
    if |symbols| == 0 {
      assert s.currentSymbols + symbols == s.currentSymbols;
    } else {
      var init, last := symbols[..|symbols| - 1], symbols[|symbols| - 1];
      assert symbols == init + [last];
      SymbolsReadableSplit(symbols, init);
      FoldSymbolEvents(s, init);
      var mid := s.(currentSymbols := s.currentSymbols + init);
      assert SymbolEvents(symbols) == SymbolEvents(init) + SymbolLineEvents(last);
      FoldAppend(s, SymbolEvents(init), SymbolLineEvents(last));
      assert Fold(s, SymbolEvents(symbols)) == Fold(mid, SymbolLineEvents(last));
      FoldSymbolLine(mid, last);
      assert mid.currentSymbols + [last] == s.currentSymbols + symbols;
    }
  }

  lemma StepCategoryStart(t: ParserState, attributes: Attributes)
    ensures Step(t, StartElement("Category", attributes)) == t.(currentAttrs := attributes, currentSymbols := [])
  {
  }

  lemma StepCategoryEnd(t: ParserState)
    ensures Step(t, EndElement("Category"))
      == ParserState(t.categories + [CategoryFromAttributes(t.currentAttrs, t.currentSymbols)], map[], [])
  {
  }

  /** One written category, read back, is appended whole and leaves nothing pending. */
  lemma FoldCategoryEvents(s: ParserState, c: SymbolCategory)
    requires CategoryReadable(c)
    ensures Fold(s, CategoryEvents(c)) == ParserState(s.categories + [c], map[], [])
  {
    var attrs := ReadAttributes(CategoryAttributes(c));
    var start, end := StartElement("Category", attrs), EndElement("Category");
    var body := SymbolEvents(c.symbols);
    assert CategoryEvents(c) == [start] + body + [end];
    FoldAppend(s, [start] + body, [end]);
    FoldAppend(s, [start], body);
    FoldOne(s, start);
    StepCategoryStart(s, attrs);
    var t := ParserState(s.categories, attrs, []);
    assert Fold(s, [start]) == t;
    FoldSymbolEvents(t, c.symbols);
    var u := t.(currentSymbols := c.symbols);
    assert Fold(s, [start] + body) == u;
    FoldOne(u, end);
    StepCategoryEnd(u);
    ReadCategory(c, c.symbols);
  }

  lemma ReadableSplit(categories: seq<SymbolCategory>, init: seq<SymbolCategory>)
    requires |categories| > 0 && init == categories[..|categories| - 1]
    requires forall k :: 0 <= k < |categories| ==> CategoryReadable(categories[k])
    ensures forall k :: 0 <= k < |init| ==> CategoryReadable(init[k])
    ensures CategoryReadable(categories[|categories| - 1])
  {
  }

  lemma SymbolsReadableSplit(symbols: seq<SymbolItem>, init: seq<SymbolItem>)
    requires |symbols| > 0 && init == symbols[..|symbols| - 1]
    requires forall k :: 0 <= k < |symbols| ==> SymbolReadable(symbols[k])
    ensures forall k :: 0 <= k < |init| ==> SymbolReadable(init[k])
    ensures SymbolReadable(symbols[|symbols| - 1])
  {
  }

  /** The written categories, read back in order, are appended in that order. */
  lemma {:induction false} FoldCategoriesEvents(s: ParserState, categories: seq<SymbolCategory>)
    requires s.currentAttrs == map[] && s.currentSymbols == []
    requires forall k :: 0 <= k < |categories| ==> CategoryReadable(categories[k])
    ensures Fold(s, CategoriesEvents(categories)) == ParserState(s.categories + categories, map[], [])
  {
    if |categories| == 0 {
      assert s.categories + categories == s.categories;
    } else {
      var init, last := categories[..|categories| - 1], categories[|categories| - 1];
      assert categories == init + [last];
      ReadableSplit(categories, init);
      FoldCategoriesEvents(s, init);
      var mid := ParserState(s.categories + init, map[], []);
      assert CategoriesEvents(categories) == CategoriesEvents(init) + CategoryEvents(last);
      FoldAppend(s, CategoriesEvents(init), CategoryEvents(last));
      assert Fold(s, CategoriesEvents(categories)) == Fold(mid, CategoryEvents(last));
      FoldCategoryEvents(mid, last);
      assert mid.categories + [last] == s.categories + categories;
    }
  }

  /**
   * Round trip: reading what the writer wrote gives back the same categories,
   * or the no-category error when there were none to write.
   */
  lemma ReadBackDocument(categories: seq<SymbolCategory>)
    requires forall k :: 0 <= k < |categories| ==> CategoryReadable(categories[k])
    ensures ParseEvents(DocumentEvents(categories), Completed)
      == if |categories| == 0 then Failure(NoCategories) else Success(categories)
  {
    var open, close := [StartElement("Symbols", map[])], [EndElement("Symbols")];
    var events := DocumentEvents(categories);
    assert events == open + CategoriesEvents(categories) + close;
    FoldAppend(Initial, open + CategoriesEvents(categories), close);
    FoldAppend(Initial, open, CategoriesEvents(categories));
    FoldOne(Initial, StartElement("Symbols", map[]));
    FoldCategoriesEvents(Initial, categories);
    FoldOne(ParserState(categories, map[], []), EndElement("Symbols"));
    assert Run(events).categories == categories;
  }
}
