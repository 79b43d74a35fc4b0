# DevTool_XTC symbol keyboard — a verified model

DevTool_XTC previews a custom on-screen symbol keyboard. The keyboard is
described by an XML document: a `<Symbols>` root holding `<Category>`
elements. Each category has a name, an optional comment, a column count and
a lock flag. Its `<Symbol>` children carry a text, optional left and right
halves, a hint, a repeat flag and a usage key.

This project models the core of the app in Dafny:

- **The value types** (`symbol_models.dfy`): a symbol and a category, without their UUIDs.
- **The reader's handlers** (`xml_symbol_parser.dfy`, class `XmlSymbolParser`).
  - `DidStartElement` and `DidEndElement` update the three handler fields.
  - `Parse` runs them over a sequence of reader notifications and then applies the two error rules.
  - Each handler is proved equal to one step of a pure fold, `Step`/`Fold`.
- **The writer** (`Serialize`). It keeps the source's nested loops and is proved to produce exactly the `DocumentLines` of the categories, joined by newlines.
- **The escaper** (`escaping.dfy`): the chain of four replace-all steps.
- **Round trip** (`markup_round_trip.dfy`). The notifications a conforming XML reader delivers for the writer's output give back the categories, for every value made of XML characters other than tab, line feed and carriage return, and every column count in [1, 8].
- **The keyboard view model** (`keyboard_view_model.dfy`, class `KeyboardViewModel`): `Insert`, `Backspace` and the state commit of `ImportXml`.
- **The preview's display rules** (`keyboard_preview.dfy`): the shown text, the header, the grid cells, the column count, the span of a wide key, the current category and tab selection.

Supporting modules:

- `wrappers.dfy`: `Option` and `Result`.
- `text_conversions.dfy`: ASCII `lowercased()`, `Int(String)`, integer interpolation and `joined(separator:)`.

## Model

| member | source | states |
|---|---|---|
| XmlSymbolParsing.XmlSymbolParser.DidStartElement | DevTool_XTC/Services/XMLSymbolParser.swift:25-39 | a `Category` start saves the attributes and clears the symbols; a `Symbol` start appends one symbol read from the attributes; anything else changes nothing (new state is `Step` of the old) |
| XmlSymbolParsing.XmlSymbolParser.DidEndElement | DevTool_XTC/Services/XMLSymbolParser.swift:41-51 | a `Category` end appends the category built from the saved attributes and symbols and resets both; other ends change nothing |
| XmlSymbolParsing.XmlSymbolParser.Parse | DevTool_XTC/Services/XMLSymbolParser.swift:8-23 | resets the fields, feeds every notification in order (loop invariant: state is the fold of the prefix), and returns `ParseEvents`: the reader's error, the no-category error, or the categories |
| XmlSymbolParsing.ParseEvents | DevTool_XTC/Services/XMLSymbolParser.swift:8-23 | failure exactly when the tokenizer stopped (carrying its error) or no category ended (the no-category error); success gives exactly the categories the handlers gathered, one per `Category` end, non-empty, every column in [1, 8] |
| XmlSymbolParsing.ErrorMessage | DevTool_XTC/Services/XMLSymbolParser.swift:16-21 | the message shown is the reader's own error description whenever it supplied one, else the fixed parse-failure text; the no-category case shows its fixed text; a fixed text is never empty |
| XmlSymbolParsing.Lookup | DevTool_XTC/Services/XMLSymbolParser.swift:29-33 | an attribute is present exactly when its name is in the dictionary, with that value |
| XmlSymbolParsing.FlagSpelling | DevTool_XTC/Services/XMLSymbolParser.swift:34 | a flag is true for `true`, `TRUE` and `True`, false for `false`, `yes` or absence |
| XmlSymbolParsing.FlagAnyCase | DevTool_XTC/Services/XMLSymbolParser.swift:34 | a flag is true exactly when its value has four characters that fold to `t`, `r`, `u`, `e`: `true` in any mix of cases, and nothing else |
| XmlSymbolParsing.ColumnValue | DevTool_XTC/Services/XMLSymbolParser.swift:45-47 | the column lies in [1, 8]; absent or unparsable means 4; a parsed value is clamped to 1 or 8 or kept |
| XmlSymbolParsing.ColumnExamples | DevTool_XTC/Services/XMLSymbolParser.swift:45-47 | `0` gives 1, `99` gives 8, `abc` gives 4, `-3` gives 1, absent gives 4 |
| XmlSymbolParsing.CategoryFromAttributes | DevTool_XTC/Services/XMLSymbolParser.swift:43-47 | every category the reader builds has its column in [1, 8] |
| XmlSymbolParsing.SymbolStartAppendsOne | DevTool_XTC/Services/XMLSymbolParser.swift:29-37 | a `Symbol` start keeps the earlier symbols and adds exactly one, each field read from its attribute, `text` defaulting to empty |
| XmlSymbolParsing.CategoryStartResets | DevTool_XTC/Services/XMLSymbolParser.swift:26-28 | a `Category` start keeps the categories, saves the attributes and empties the symbols |
| XmlSymbolParsing.CategoryEndAppendsOne | DevTool_XTC/Services/XMLSymbolParser.swift:42-50 | a `Category` end keeps the earlier categories and adds one holding the gathered symbols in order, with name, comment and lock read from the saved attributes and the column equal to `ColumnValue` of them (so in [1, 8]), then clears both |
| XmlSymbolParsing.FoldAppend | DevTool_XTC/Services/XMLSymbolParser.swift:13-15 | reading two runs of notifications equals reading the first, then the second from where it left off |
| XmlSymbolParsing.CategoryStartForgets | DevTool_XTC/Services/XMLSymbolParser.swift:26-28 | whatever attributes or symbols were pending before a `Category` start cannot affect the outcome |
| XmlSymbolParsing.FoldKeepsCategories | DevTool_XTC/Services/XMLSymbolParser.swift:48 | categories already read are never changed or dropped; exactly one is added per `Category` end |
| XmlSymbolParsing.FoldColumnsInRange | DevTool_XTC/Services/XMLSymbolParser.swift:47 | every category read has a column count in [1, 8] |
| XmlSymbolParsing.XmlSymbolParser.Serialize | DevTool_XTC/Services/XMLSymbolParser.swift:54-80 | the nested loops produce exactly the declaration, the root, each category's opening line, symbol lines and closing line in order, and the root's end, joined by newlines |
| XmlSymbolParsing.XmlSymbolParser.CategoryElement | DevTool_XTC/Services/XMLSymbolParser.swift:59-65 | the category line built attribute by attribute equals `CategoryOpenLine` |
| XmlSymbolParsing.XmlSymbolParser.SymbolElement | DevTool_XTC/Services/XMLSymbolParser.swift:67-74 | the symbol line built attribute by attribute equals `SymbolLine` |
| XmlSymbolParsing.CategoryAttributeOrder | DevTool_XTC/Services/XMLSymbolParser.swift:59-64 | category attributes come as class, column, comment (only when present), lock, name, with their written values |
| XmlSymbolParsing.SymbolAttributeOrder | DevTool_XTC/Services/XMLSymbolParser.swift:67-73 | symbol attributes come as text, then left, right, hint, repeatable, key, each only when present or set |
| XmlSymbolParsing.SymbolAttributesRendered | DevTool_XTC/Services/XMLSymbolParser.swift:68-73 | each symbol attribute is written as `name="escaped value"`; `repeatable` only as `"true"` |
| XmlSymbolParsing.OptionalAttributeRendered | DevTool_XTC/Services/XMLSymbolParser.swift:69-71 | an optional attribute is written once when present and not at all when absent |
| XmlSymbolParsing.RenderAttributesAppend | DevTool_XTC/Services/XMLSymbolParser.swift:59-64 | writing attributes distributes over concatenation |
| XmlSymbolParsing.SymbolLines | DevTool_XTC/Services/XMLSymbolParser.swift:66-75 | one line per symbol |
| XmlSymbolParsing.SymbolLinesStep | DevTool_XTC/Services/XMLSymbolParser.swift:66-75 | the lines of a longer prefix of the symbols extend the shorter prefix's lines by one line |
| XmlSymbolParsing.CategoriesLinesAppend | DevTool_XTC/Services/XMLSymbolParser.swift:58-77 | the lines of two runs of categories are the first run's lines, then the second's |
| XmlSymbolParsing.CategoriesLinesStep | DevTool_XTC/Services/XMLSymbolParser.swift:58-77 | one more category adds exactly its block of lines at the end |
| XmlSymbolParsing.DocumentOrder | DevTool_XTC/Services/XMLSymbolParser.swift:54-80 | every category's block sits between the blocks of the categories before it and after it, in input order |
| XmlSymbolParsing.CategoriesLineCount | DevTool_XTC/Services/XMLSymbolParser.swift:58-77 | a category contributes its symbol count plus two lines |
| Escaping.Escape | DevTool_XTC/Services/XMLSymbolParser.swift:82-89 | the four replace-all steps in the order `&`, `"`, `<`, `>`; what they amount to is stated by the lemmas below |
| Escaping.EscapeIsPerCharacter | DevTool_XTC/Services/XMLSymbolParser.swift:82-89 | the four replace-all steps equal replacing each character by its entity independently, so a `&` produced by an earlier step is never escaped again |
| Escaping.EscapeOneChar | DevTool_XTC/Services/XMLSymbolParser.swift:82-89 | a single character escapes to its entity, or to itself when it is none of `&"<>` |
| Escaping.ReplaceCharAppend | DevTool_XTC/Services/XMLSymbolParser.swift:84-87 | a replace-all step distributes over concatenation |
| Escaping.ReplaceCharAbsent | DevTool_XTC/Services/XMLSymbolParser.swift:84-87 | a replace-all step leaves text without that character unchanged |
| Escaping.DecodeEscape | DevTool_XTC/Services/XMLSymbolParser.swift:82-89 | decoding the four predefined entities gives back exactly the escaped text |
| Escaping.EscapeSafe | DevTool_XTC/Services/XMLSymbolParser.swift:82-89 | escaped text holds no `"`, `<` or `>`, and every `&` starts an entity |
| Escaping.EscapeEachKeepsNoLineBreaks | DevTool_XTC/Services/XMLSymbolParser.swift:82-89 | escaping introduces no tab or line break |
| Escaping.DecodeAttributeOfEscape | DevTool_XTC/Services/XMLSymbolParser.swift:82-89 | text without tabs or line breaks, escaped and written as an attribute, reads back unchanged |
| Escaping.LineBreakReadsAsSpace | DevTool_XTC/Services/XMLSymbolParser.swift:82-89 | a line break is written literally, and a reader reads it back as a space |
| TextConversions.Lowercased | DevTool_XTC/Services/XMLSymbolParser.swift:34 | length is kept and each character is folded to lower case |
| TextConversions.ParseInt | DevTool_XTC/Services/XMLSymbolParser.swift:45 | reading an integer fails on empty text and on a stray character, and never yields a value outside 64 bits |
| TextConversions.ParseIntOfDecimal | DevTool_XTC/Services/XMLSymbolParser.swift:45 | reading back the written decimal of any 64-bit value gives that value |
| MarkupRoundTrip.ReadAfter | DevTool_XTC/Services/XMLSymbolParser.swift:59-74 | one more attribute written adds its name with its value as read back, over whatever was read before |
| MarkupRoundTrip.ReadOptional | DevTool_XTC/Services/XMLSymbolParser.swift:69-73 | an optional value, escaped and written, reads back as the value itself when present and adds nothing when absent |
| MarkupRoundTrip.ReadSymbolAttributes | DevTool_XTC/Services/XMLSymbolParser.swift:67-73 | the dictionary read for a written symbol holds its text and each present field, and `repeatable` only when set |
| MarkupRoundTrip.ReadSymbol | DevTool_XTC/Services/XMLSymbolParser.swift:29-37 | the `Symbol` handler rebuilds the written symbol field for field |
| MarkupRoundTrip.ReadCategoryAttributes | DevTool_XTC/Services/XMLSymbolParser.swift:59-64 | the dictionary read for a written category holds its column, comment (when present), lock and name |
| MarkupRoundTrip.ReadCategory | DevTool_XTC/Services/XMLSymbolParser.swift:43-47 | for a column in [1, 8], the `Category` end handler rebuilds name, comment, column and lock |
| MarkupRoundTrip.FoldSymbolEvents | DevTool_XTC/Services/XMLSymbolParser.swift:29-37 | a category's written symbols, read in order, are appended in order |
| MarkupRoundTrip.FoldCategoryEvents | DevTool_XTC/Services/XMLSymbolParser.swift:25-51 | one written category, read back, is appended whole and nothing is left pending |
| MarkupRoundTrip.FoldCategoriesEvents | DevTool_XTC/Services/XMLSymbolParser.swift:25-51 | the written categories, read back, are appended in the same order |
| MarkupRoundTrip.ReadBackDocument | DevTool_XTC/Services/XMLSymbolParser.swift:8-80 | reading what the writer wrote gives the same categories, or the no-category error when there were none |
| KeyboardViewModels.KeyboardViewModel.constructor | DevTool_XTC/ViewModels/KeyboardViewModel.swift:6-16 | nothing imported or typed, no counts, pairing and repeat on |
| KeyboardViewModels.KeyboardViewModel.Insert | DevTool_XTC/ViewModels/KeyboardViewModel.swift:36-48 | empty text changes nothing; otherwise appends left and right (pair mode with both halves) or the text, and counts one use of `key ?? text` |
| KeyboardViewModels.Counted | DevTool_XTC/ViewModels/KeyboardViewModel.swift:44-47 | a non-empty name's count rises by exactly one from 0 if missing; every other entry is unchanged; an empty name changes nothing |
| KeyboardViewModels.CountedCommutes | DevTool_XTC/ViewModels/KeyboardViewModel.swift:44-47 | the order of two taps does not affect the counts |
| KeyboardViewModels.CountedTimesAdds | DevTool_XTC/ViewModels/KeyboardViewModel.swift:44-47 | n taps on one name raise its count by n and leave every other entry alone |
| KeyboardViewModels.KeyboardViewModel.Backspace | DevTool_XTC/ViewModels/KeyboardViewModel.swift:50-53 | empty text stays empty; otherwise exactly the last character goes |
| KeyboardViewModels.DropLast | DevTool_XTC/ViewModels/KeyboardViewModel.swift:50-53 | the result followed by the removed character is the old text |
| KeyboardViewModels.BackspaceUndoesOneChar | DevTool_XTC/ViewModels/KeyboardViewModel.swift:50-53 | backspace after typing one character restores the text |
| KeyboardViewModels.BackspaceUndoesTap | DevTool_XTC/ViewModels/KeyboardViewModel.swift:36-53 | backspace undoes the text change of a tap that typed one character |
| KeyboardViewModels.KeyboardViewModel.ImportXml | DevTool_XTC/ViewModels/KeyboardViewModel.swift:24-33 | success replaces the categories (non-empty, columns in [1, 8]), records the URL and clears the error; failure empties the categories and records the message; the selection, text and counts are untouched |
| KeyboardPreview.Display | DevTool_XTC/Views/KeyboardPreviewView.swift:21 | the shown text is the stored text minus one leading backslash, and unchanged exactly when there is none |
| KeyboardPreview.DisplayDropsOnlyOne | DevTool_XTC/Views/KeyboardPreviewView.swift:43 | of two leading backslashes only one is dropped |
| KeyboardPreview.Header | DevTool_XTC/Views/KeyboardPreviewView.swift:20-22 | a header shows exactly when there is a first symbol whose shown text is not empty, and it shows that text |
| KeyboardPreview.GridCells | DevTool_XTC/Views/KeyboardPreviewView.swift:39 | the keys are all symbols but the first, in order: `max(0, n - 1)` of them |
| KeyboardPreview.HeaderAndCellsPartition | DevTool_XTC/Views/KeyboardPreviewView.swift:20-39 | header symbol and keys together are exactly the category's symbols |
| KeyboardPreview.GridColumns | DevTool_XTC/Views/KeyboardPreviewView.swift:38 | `max(1, column)`: one column for a count below 1, else exactly the count; so exactly the count of every category read from a document |
| KeyboardPreview.CellSpan | DevTool_XTC/Views/KeyboardPreviewView.swift:44-53 | a key spans 1 to 4 columns, never more than the grid has; one unless its shown text is longer than five |
| KeyboardPreview.CurrentCategory | DevTool_XTC/Views/KeyboardPreviewView.swift:98-101 | none exactly when the selection is out of range, else the selected category |
| KeyboardPreview.SelectTab | DevTool_XTC/Views/KeyboardPreviewView.swift:11-13 | tapping tab `idx` makes that category the current one and changes nothing else |
| KeyboardPreview.TabLabel | DevTool_XTC/Views/KeyboardPreviewView.swift:12 | a tab label is never empty; a named category shows its name, an unnamed one the placeholder `无名` |

## Left out

- Identity: the UUID of each symbol and category is not modelled. Equality in the model is equality of every other field.
- Tokenisation: `XMLParser` and its well-formedness checks are a foreign library. The reader is modelled as the sequence of start and end notifications it delivers, plus the outcome: finished or stopped with an optional error. A file that cannot be read is a stopped outcome.
- Attribute decoding: the reader's decoding of attribute values is modelled as XML 1.0, section 3.3.3: line breaks and tabs become spaces, then the four entities the writer produces are decoded. Other entities and character references are not modelled.
- MarkupRoundTrip.ReadBackDocument: holds only for values made of XML characters (the Char production, section 2.2 of XML 1.0) other than tab, line feed and carriage return. The escaper leaves every character but `&"<>` literal. A reader turns a tab or line break into a space, as `Escaping.LineBreakReadsAsSpace` shows. It stops with a fatal error at U+0000–U+0008, U+000B, U+000C, U+000E–U+001F, U+FFFE or U+FFFF, so importing such a document fails; the tokenizer's rejection itself is not modelled. It also holds only for column counts in [1, 8]; the reader clamps any other count. It is also not promised for a `&`, `"` or `<` followed by a combining mark; see the `Escaping.Escape` line.
- File I/O and OS plumbing: reading the file, security-scoped access, bookmarks and `UserDefaults` are not modelled. The imported URL is an opaque string.
- Key repeat: the long-press repeat timer is asynchronous and is not modelled.
- SwiftUI rendering: gestures, the popover, the context menu, colours and fonts are not modelled. The same holds for the onboarding, right-pane and content views.
- Unicode: `lowercased()` is ASCII case folding. Strings are sequences of code points, so `popLast`, `count`, `hasPrefix("\\")` and `dropFirst()` act on code points, not grapheme clusters.
- Escaping.Escape: each replace step matches single code points. Swift's `replacingOccurrences(of:with:)` without the `.literal` option matches whole characters, so a markup character followed by a combining mark (the decomposed `"<\u{338}"`, say) is very likely left raw by the program, and a reader then rejects the document. The model escapes it, so for such values `Escaping.EscapeSafe` and `MarkupRoundTrip.ReadBackDocument` hold of the model but are not promised of the program.
- KeyboardViewModels.Counted: counts are unbounded; the Swift `Int` overflow trap after 2^63 - 1 taps is not modelled.
- XmlSymbolParsing.XmlSymbolParser.Serialize: the building of one category line and one symbol line sits in the helper methods `CategoryElement` and `SymbolElement`. The source writes it inline in the loop body.
