// Line-oriented edits of a YAML configuration: adding and removing the provider
// of a local rule list without re-encoding the rest. The parsed document is an
// input, given by the lines of its keys.

module RuleLists {
  import opened Types

  newtype Byte = x: int | 0 <= x < 256
  type Bytes = seq<Byte>

  const NL: Byte := 10
  const CR: Byte := 13

  // ------------------------------------------------------------------ lines

  function Newlines(s: Bytes): nat {
    if s == [] then 0 else (if s[0] == NL then 1 else 0) + Newlines(s[1..])
  }

  predicate EndsLine(s: Bytes) { s != [] && s[|s| - 1] == NL }

  function LineCount(s: Bytes): nat {
    if s == [] then 0 else Newlines(s) + (if EndsLine(s) then 0 else 1)
  }

  // Where line k (counted from one) begins; one line past the end is the end.
  function OffsetAt(s: Bytes, k: int): (r: Option<nat>)
    ensures r.Some? ==> r.value <= |s|
  {
    if k <= 0 then None
    else if k == 1 then Some(0)
    else if s == [] then (if k == 2 then Some(0) else None)
    else Shift(OffsetAt(s[1..], if s[0] == NL then k - 1 else k), 1)
  }

  function Shift(offset: Option<nat>, distance: nat): Option<nat> {
    if offset.None? then None else Some(offset.value + distance)
  }

  method OffsetAtLine(source: Bytes, oneBased: int) returns (offset: Option<nat>)
    ensures offset == OffsetAt(source, oneBased)
  {
    if oneBased <= 0 { return None; }
    if oneBased == 1 { return Some(0); }
    var line := 1;
    for index := 0 to |source|
      invariant line < oneBased
      invariant Shift(OffsetAt(source[index..], oneBased - line + 1), index) == OffsetAt(source, oneBased)
    {
      assert source[index..][1..] == source[index + 1..];
      if source[index] == NL {
        line := line + 1;
        if line == oneBased { return Some(index + 1); }
      }
    }
    if oneBased == line + 1 { return Some(|source|); }
    offset := None;
  }

  // Exactly these lines have an offset.
  lemma {:induction false} OffsetExists(s: Bytes, k: int)
    ensures OffsetAt(s, k).Some? <==> 1 <= k <= Newlines(s) + 2
  {
    if k > 1 && s != [] { OffsetExists(s[1..], if s[0] == NL then k - 1 else k); }
  }

  lemma {:induction false} NewlinesConcat(a: Bytes, b: Bytes)
    ensures Newlines(a + b) == Newlines(a) + Newlines(b)
  {
    if a == [] {
      assert a + b == b;
    } else {
      assert (a + b)[1..] == a[1..] + b;
      NewlinesConcat(a[1..], b);
    }
  }

  // A whole number of lines.
  predicate Lines(s: Bytes) { s == [] || EndsLine(s) }

  // After a whole number of lines the next one begins.
  lemma {:induction false} OffsetAfter(a: Bytes, b: Bytes)
    requires Lines(a)
    ensures OffsetAt(a + b, Newlines(a) + 1) == Some(|a|)
  {
    if a != [] {
      assert (a + b)[1..] == a[1..] + b;
      SomeNewline(a);
      OffsetAfter(a[1..], b);
    }
  }

  lemma {:induction false} SomeNewline(a: Bytes)
    requires EndsLine(a)
    ensures Newlines(a) >= 1
  {
    if |a| > 1 { SomeNewline(a[1..]); }
  }

  // The meaning of an offset: all earlier lines end before it.
  lemma {:induction false} OffsetMeaning(s: Bytes, k: int)
    requires 1 <= k <= Newlines(s) + 2
    ensures OffsetAt(s, k).Some?
    ensures var o := OffsetAt(s, k).value;
      if k == Newlines(s) + 2 then o == |s| else Lines(s[..o]) && Newlines(s[..o]) == k - 1
  {
    if k > 1 && s != [] {
      var rest := s[1..];
      var k' := if s[0] == NL then k - 1 else k;
      OffsetMeaning(rest, k');
      var o := OffsetAt(rest, k').value;
      assert s[..o + 1][1..] == rest[..o];
    }
  }

  // For every byte string the line after the last one begins at its end.
  lemma OffsetOfEnd(s: Bytes)
    ensures OffsetAt(s, LineCount(s) + 1) == Some(|s|)
  {
    var k := LineCount(s) + 1;
    if s == [] {
      assert k == 1;
    } else if EndsLine(s) {
      assert k == Newlines(s) + 1;
      EndAfterLines(s);
    } else {
      assert k == Newlines(s) + 2;
      EndOfOpenLine(s);
    }
  }

  lemma EndAfterLines(s: Bytes)
    requires EndsLine(s)
    ensures OffsetAt(s, Newlines(s) + 1) == Some(|s|)
  {
    OffsetAfter(s, []);
    assert s + [] == s;
  }

  lemma EndOfOpenLine(s: Bytes)
    ensures OffsetAt(s, Newlines(s) + 2) == Some(|s|)
  {
    OffsetMeaning(s, Newlines(s) + 2);
  }

  // The first line break at or after position i, or the end.
  function IndexNewline(s: Bytes, i: nat): (n: nat)
    requires i <= |s|
    ensures i <= n <= |s|
    decreases |s| - i
  {
    if i == |s| || s[i] == NL then i else IndexNewline(s, i + 1)
  }

  // The end of line k without its line break.
  function ContentEnd(s: Bytes, k: int): (r: Option<nat>)
    ensures r.Some? ==> r.value <= |s|
  {
    var start := OffsetAt(s, k);
    if start.None? then None
    else
      var end := IndexNewline(s, start.value);
      Some(if end > start.value && s[end - 1] == CR then end - 1 else end)
  }

  // ------------------------------------------------------------- documents

  datatype Key = Key(name: Bytes, line: nat)

  // A configuration as parsed: the keys of its root mapping, and what stands
  // under rule-providers. `managed` says that the provider asked for, where it
  // exists, is the local list's own.
  datatype Document =
    | Unreadable
    | Document(root: seq<Key>, keyIndent: nat, block: bool, providers: seq<Key>, indent: nat, managed: bool)

  datatype Edit = Edited(text: Bytes) | Conflict | Unsupported

  function Find(keys: seq<Key>, name: Bytes): (r: Option<nat>)
    ensures r.Some? ==> r.value < |keys| && keys[r.value].name == name
    ensures r.Some? ==> forall i | 0 <= i < r.value :: keys[i].name != name
    ensures r.None? ==> forall i | 0 <= i < |keys| :: keys[i].name != name
  {
    if keys == [] then None
    else if keys[0].name == name then Some(0)
    else Shift(Find(keys[1..], name), 1)
  }

  method MappingEntry(keys: seq<Key>, name: Bytes) returns (r: Option<nat>)
    ensures r == Find(keys, name)
  {
    for index := 0 to |keys|
      invariant forall i | 0 <= i < index :: keys[i].name != name
    {
      if keys[index].name == name { return Some(index); }
    }
    r := None;
  }

  function Ascii(s: string): (r: Bytes)
    requires forall c | c in s :: c < 128 as char
    ensures |r| == |s| && forall i | 0 <= i < |s| :: r[i] as int == s[i] as int
  {
    seq(|s|, i requires 0 <= i < |s| => assert s[i] in s; s[i] as int as Byte)
  }

  function Spaces(n: nat): (r: Bytes)
    ensures |r| == n && forall i | 0 <= i < n :: r[i] == 32
  {
    seq(n, i => 32 as Byte)
  }

  function LineEnding(s: Bytes): Bytes {
    if exists i | 0 <= i < |s| - 1 :: s[i] == CR && s[i + 1] == NL then [CR, NL] else [NL]
  }

  function Row(indent: nat, text: Bytes, eol: Bytes): Bytes { Spaces(indent) + text + eol }

  function Render(provider: Bytes, list: Bytes, indent: nat, eol: Bytes): Bytes {
    Row(indent, provider + Ascii(":"), eol)
    + Row(indent + 2, Ascii("type: file"), eol)
    + Row(indent + 2, Ascii("behavior: classical"), eol)
    + Row(indent + 2, Ascii("format: text"), eol)
    + Row(indent + 2, Ascii("path: ./local-rules/") + list + Ascii(".txt"), eol)
  }

  const BLOCK_LINES := 5

  function RuleProviders(): Bytes { Ascii("rule-providers") }

  function Header(): Bytes { RuleProviders() + Ascii(":") }

  predicate InConfig(doc: Document, provider: Bytes) {
    doc.Document? && Find(doc.root, RuleProviders()).Some? && Find(doc.providers, provider).Some? && doc.managed
  }

  predicate Taken(doc: Document, provider: Bytes) {
    doc.Document? && Find(doc.root, RuleProviders()).Some? && Find(doc.providers, provider).Some? && !doc.managed
  }

  // The line before which the rule-providers section ends.
  function SectionEnd(source: Bytes, root: seq<Key>, pair: nat): nat {
    if pair + 1 < |root| then root[pair + 1].line else LineCount(source) + 1
  }

  // White space in a file that has no root mapping yet.
  predicate Blank(s: Bytes) { forall b | b in s :: b == 32 || 9 <= b <= 13 }

  // The source closed by a line break and, unless blank, an empty line.
  function Closed(source: Bytes): Bytes {
    var eol := LineEnding(source);
    var closed := if source != [] && !EndsLine(source) then source + eol else source;
    if Blank(closed) then closed else closed + eol
  }

  // ------------------------------------------------------------------ edits

  function Inserted(source: Bytes, doc: Document, provider: Bytes, list: Bytes): Edit {
    if InConfig(doc, provider) then Edited(source)
    else if Taken(doc, provider) then Conflict
    else if doc.Unreadable? then Unsupported
    else
      var eol := LineEnding(source);
      var pair := Find(doc.root, RuleProviders());
      if pair.None? then Edited(Closed(source) + Header() + eol + Render(provider, list, 2, eol))
      else if !doc.block then Unsupported
      else
        var indent := if doc.providers == [] then doc.keyIndent + 2 else doc.indent;
        var offset := OffsetAt(source, SectionEnd(source, doc.root, pair.value));
        if offset.None? then Unsupported
        else Edited(source[..offset.value] + Render(provider, list, indent, eol) + source[offset.value..])
  }

  function Removed(source: Bytes, doc: Document, provider: Bytes): Edit {
    if !InConfig(doc, provider) then Edited(source)
    else if !doc.block then Unsupported
    else
      var pair, entry := Find(doc.root, RuleProviders()).value, Find(doc.providers, provider).value;
      var sectionEnd := SectionEnd(source, doc.root, pair);
      if |doc.providers| == 1 then
        var from, to := ContentEnd(source, doc.root[pair].line), OffsetAt(source, sectionEnd);
        if from.None? || to.None? || from.value > to.value then Unsupported
        else Edited(source[..from.value] + Ascii(" {}") + LineEnding(source) + source[to.value..])
      else
        var endLine := if entry + 1 < |doc.providers| then doc.providers[entry + 1].line else sectionEnd;
        var from, to := OffsetAt(source, doc.providers[entry].line), OffsetAt(source, endLine);
        if from.None? || to.None? || to.value < from.value then Unsupported
        else Edited(source[..from.value] + source[to.value..])
  }

  method InsertLocalRuleProvider(source: Bytes, doc: Document, provider: Bytes, list: Bytes) returns (r: Edit)
    ensures r == Inserted(source, doc, provider, list)
  {
    if InConfig(doc, provider) { return Edited(source); }
    if Taken(doc, provider) { return Conflict; }
    if doc.Unreadable? { return Unsupported; }
    var eol := LineEnding(source);
    var pair := MappingEntry(doc.root, RuleProviders());
    if pair.None? {
      return Edited(Closed(source) + Header() + eol + Render(provider, list, 2, eol));
    }
    if !doc.block { return Unsupported; }
    var indent := doc.keyIndent + 2;
    if |doc.providers| > 0 { indent := doc.indent; }
    var beforeLine := LineCount(source) + 1;
    if pair.value + 1 < |doc.root| { beforeLine := doc.root[pair.value + 1].line; }
    var offset := OffsetAtLine(source, beforeLine);
    if offset.None? { return Unsupported; }
    r := Edited(source[..offset.value] + Render(provider, list, indent, eol) + source[offset.value..]);
  }

  method RemoveLocalRuleProvider(source: Bytes, doc: Document, provider: Bytes) returns (r: Edit)
    ensures r == Removed(source, doc, provider)
  {
    if !InConfig(doc, provider) { return Edited(source); }
    if !doc.block { return Unsupported; }
    var pair := MappingEntry(doc.root, RuleProviders());
    var entry := MappingEntry(doc.providers, provider);
    var endLine := LineCount(source) + 1;
    if pair.value + 1 < |doc.root| { endLine := doc.root[pair.value + 1].line; }
    if |doc.providers| == 1 {
      var keyLineEnd := ContentEnd(source, doc.root[pair.value].line);
      var endOffset := OffsetAtLine(source, endLine);
      if keyLineEnd.None? || endOffset.None? || keyLineEnd.value > endOffset.value { return Unsupported; }
      return Edited(source[..keyLineEnd.value] + Ascii(" {}") + LineEnding(source) + source[endOffset.value..]);
    }
    if entry.value + 1 < |doc.providers| { endLine := doc.providers[entry.value + 1].line; }
    var startOffset := OffsetAtLine(source, doc.providers[entry.value].line);
    var endOffset := OffsetAtLine(source, endLine);
    if startOffset.None? || endOffset.None? || endOffset.value < startOffset.value { return Unsupported; }
    r := Edited(source[..startOffset.value] + source[endOffset.value..]);
  }

  // ------------------------------------------------------------- properties

  // What a parser reports of a document with block-style rule-providers: its
  // keys stand on increasing lines of the source, the providers between the
  // section's key and the next root key.
  ghost predicate Describes(doc: Document, source: Bytes) {
    && doc.Document? && doc.block && doc.providers != []
    && Find(doc.root, RuleProviders()).Some?
    && (forall i, j | 0 <= i < j < |doc.root| :: doc.root[i].line < doc.root[j].line)
    && (forall i | 0 <= i < |doc.root| :: 1 <= doc.root[i].line <= Newlines(source) + 1)
    && (forall i, j | 0 <= i < j < |doc.providers| :: doc.providers[i].line < doc.providers[j].line)
    && var pair := Find(doc.root, RuleProviders()).value;
      forall i | 0 <= i < |doc.providers| ::
        doc.root[pair].line < doc.providers[i].line < SectionEnd(source, doc.root, pair)
  }

  // The line the new provider's key is put on, and whether it begins a line.
  function InsertionLine(source: Bytes, doc: Document): nat
    requires doc.Document? && Find(doc.root, RuleProviders()).Some?
  {
    SectionEnd(source, doc.root, Find(doc.root, RuleProviders()).value)
  }

  predicate HasNextKey(doc: Document)
    requires doc.Document? && Find(doc.root, RuleProviders()).Some?
  {
    Find(doc.root, RuleProviders()).value + 1 < |doc.root|
  }

  // The document after the insertion: the provider is the last of its section
  // and the later root keys moved down.
  function AfterInsert(source: Bytes, doc: Document, provider: Bytes): Document
    requires doc.Document? && Find(doc.root, RuleProviders()).Some?
  {
    var pair := Find(doc.root, RuleProviders()).value;
    doc.(
      root := seq(|doc.root|, i requires 0 <= i < |doc.root| =>
        if i <= pair then doc.root[i] else doc.root[i].(line := doc.root[i].line + BLOCK_LINES)),
      providers := doc.providers + [Key(provider, InsertionLine(source, doc))],
      managed := true)
  }

  predicate NoBreak(s: Bytes) { NL !in s }

  lemma {:induction false} NoBreakCount(s: Bytes)
    requires NoBreak(s)
    ensures Newlines(s) == 0
  {
    if s != [] { NoBreakCount(s[1..]); }
  }

  predicate IsLineEnding(eol: Bytes) { eol == [NL] || eol == [CR, NL] }

  lemma RowLine(indent: nat, text: Bytes, eol: Bytes)
    requires NoBreak(text) && IsLineEnding(eol)
    ensures Newlines(Row(indent, text, eol)) == 1 && EndsLine(Row(indent, text, eol))
  {
    NoBreakCount(Spaces(indent) + text);
    NewlinesConcat(Spaces(indent) + text, eol);
    assert Newlines([NL]) == 1;
    assert [CR, NL][1..] == [NL];
  }

  lemma LinesConcat(a: Bytes, b: Bytes)
    requires EndsLine(b)
    ensures EndsLine(a + b) && Newlines(a + b) == Newlines(a) + Newlines(b)
  {
    NewlinesConcat(a, b);
  }

  predicate OneLine(s: Bytes) { EndsLine(s) && Newlines(s) == 1 }

  lemma FiveLines(a: Bytes, b: Bytes, c: Bytes, d: Bytes, e: Bytes)
    requires OneLine(a) && OneLine(b) && OneLine(c) && OneLine(d) && OneLine(e)
    ensures EndsLine(a + b + c + d + e) && Newlines(a + b + c + d + e) == 5
  {
    LinesConcat(a, b);
    LinesConcat(a + b, c);
    LinesConcat(a + b + c, d);
    LinesConcat(a + b + c + d, e);
  }

  // A rendered provider is five whole lines.
  lemma RenderLines(provider: Bytes, list: Bytes, indent: nat, eol: Bytes)
    requires NoBreak(provider) && NoBreak(list) && IsLineEnding(eol)
    ensures Newlines(Render(provider, list, indent, eol)) == BLOCK_LINES
    ensures EndsLine(Render(provider, list, indent, eol))
  {
    var path := Ascii("path: ./local-rules/") + list + Ascii(".txt");
    RowLine(indent, provider + Ascii(":"), eol);
    RowLine(indent + 2, Ascii("type: file"), eol);
    RowLine(indent + 2, Ascii("behavior: classical"), eol);
    RowLine(indent + 2, Ascii("format: text"), eol);
    RowLine(indent + 2, path, eol);
    FiveLines(Row(indent, provider + Ascii(":"), eol), Row(indent + 2, Ascii("type: file"), eol),
              Row(indent + 2, Ascii("behavior: classical"), eol), Row(indent + 2, Ascii("format: text"), eol),
              Row(indent + 2, path, eol));
  }

  // Inserting into an existing section always succeeds and adds one contiguous
  // span. The span begins a line exactly when another root key follows the
  // section or the source ends its last line.
  lemma InsertionPlace(source: Bytes, doc: Document, provider: Bytes, list: Bytes) returns (o: nat, block: Bytes)
    requires Describes(doc, source) && Find(doc.providers, provider).None?
    ensures o <= |source| && OffsetAt(source, InsertionLine(source, doc)) == Some(o)
    ensures block == Render(provider, list, doc.indent, LineEnding(source))
    ensures Inserted(source, doc, provider, list) == Edited(source[..o] + block + source[o..])
    ensures Lines(source[..o]) <==> HasNextKey(doc) || EndsLine(source)
    ensures Lines(source[..o]) ==> Newlines(source[..o]) + 1 == InsertionLine(source, doc)
    ensures !HasNextKey(doc) ==> o == |source|
  {
    OffsetOfEnd(source);
    var line := InsertionLine(source, doc);
    OffsetExists(source, line);
    o := OffsetAt(source, line).value;
    block := Render(provider, list, doc.indent, LineEnding(source));
    if HasNextKey(doc) {
      OffsetMeaning(source, line);
    } else {
      assert source[..o] == source;
      assert source != [];
    }
  }

  lemma {:induction false} FindAppended(keys: seq<Key>, last: Key)
    requires Find(keys, last.name).None?
    ensures Find(keys + [last], last.name) == Some(|keys|)
  {
    if keys != [] {
      assert (keys + [last])[1..] == keys[1..] + [last];
      FindAppended(keys[1..], last);
    }
  }

  lemma {:induction false} FindSameNames(a: seq<Key>, b: seq<Key>, name: Bytes)
    requires |a| == |b| && forall i | 0 <= i < |a| :: a[i].name == b[i].name
    ensures Find(a, name) == Find(b, name)
  {
    if a != [] { FindSameNames(a[1..], b[1..], name); }
  }

  // What Remove sees after the insertion.
  lemma AfterInsertLayout(source: Bytes, doc: Document, provider: Bytes, text: Bytes)
    requires Describes(doc, source) && Find(doc.providers, provider).None?
    ensures var doc' := AfterInsert(source, doc, provider);
      && InConfig(doc', provider) && doc'.block && |doc'.providers| == |doc.providers| + 1 > 1
      && Find(doc'.root, RuleProviders()) == Find(doc.root, RuleProviders())
      && Find(doc'.providers, provider) == Some(|doc.providers|)
      && doc'.providers[|doc.providers|].line == InsertionLine(source, doc)
      && InsertionLine(text, doc')
         == if HasNextKey(doc) then InsertionLine(source, doc) + BLOCK_LINES else LineCount(text) + 1
  {
    var doc' := AfterInsert(source, doc, provider);
    FindSameNames(doc'.root, doc.root, RuleProviders());
    FindAppended(doc.providers, Key(provider, InsertionLine(source, doc)));
  }

  // Removing one of several providers deletes one span of whole lines, from its
  // key to the next key or the end of the section.
  lemma RemovalSpan(source: Bytes, doc: Document, provider: Bytes, from: nat, to: nat)
    requires InConfig(doc, provider) && doc.block && |doc.providers| > 1
    requires var entry := Find(doc.providers, provider).value;
      && OffsetAt(source, doc.providers[entry].line) == Some(from)
      && OffsetAt(source, if entry + 1 < |doc.providers| then doc.providers[entry + 1].line
                          else InsertionLine(source, doc)) == Some(to)
    requires from <= to
    ensures Removed(source, doc, provider) == Edited(source[..from] + source[to..])
  {
  }

  lemma {:induction false} OffsetMonotone(s: Bytes, k: int, m: int)
    requires 1 <= k <= m <= Newlines(s) + 2
    ensures OffsetAt(s, k).Some? && OffsetAt(s, m).Some? && OffsetAt(s, k).value <= OffsetAt(s, m).value
  {
    OffsetExists(s, k);
    OffsetExists(s, m);
    if k > 1 && s != [] {
      if s[0] == NL { OffsetMonotone(s[1..], k - 1, m - 1); } else { OffsetMonotone(s[1..], k, m); }
    }
  }

  // In a document as parsed that always succeeds: the span begins with the line
  // of the provider's key and ends where the line of the next key begins, or with
  // the source.
  lemma RemovalDeletesLines(source: Bytes, doc: Document, provider: Bytes) returns (from: nat, to: nat)
    requires Describes(doc, source) && InConfig(doc, provider) && |doc.providers| > 1
    ensures from <= to <= |source| && Removed(source, doc, provider) == Edited(source[..from] + source[to..])
    ensures var entry := Find(doc.providers, provider).value;
      var end := if entry + 1 < |doc.providers| then doc.providers[entry + 1].line else InsertionLine(source, doc);
      && Lines(source[..from]) && Newlines(source[..from]) == doc.providers[entry].line - 1
      && (to == |source| || (Lines(source[..to]) && Newlines(source[..to]) == end - 1))
  {
    var entry := Find(doc.providers, provider).value;
    var line := doc.providers[entry].line;
    var end := if entry + 1 < |doc.providers| then doc.providers[entry + 1].line else InsertionLine(source, doc);
    assert 1 <= line < end <= Newlines(source) + 2;
    assert line <= Newlines(source) + 1;
    OffsetMonotone(source, line, end);
    OffsetMeaning(source, line);
    OffsetMeaning(source, end);
    from, to := OffsetAt(source, line).value, OffsetAt(source, end).value;
    RemovalSpan(source, doc, provider, from, to);
  }

  // Inserting a provider that is there already changes nothing.
  lemma InsertTwice(source: Bytes, doc: Document, provider: Bytes, list: Bytes)
    requires Describes(doc, source) && Find(doc.providers, provider).None?
    ensures Inserted(source, doc, provider, list).Edited?
    ensures var text := Inserted(source, doc, provider, list).text;
      Inserted(text, AfterInsert(source, doc, provider), provider, list) == Edited(text)
  {
    var o, block := InsertionPlace(source, doc, provider, list);
    AfterInsertLayout(source, doc, provider, source[..o] + block + source[o..]);
  }

  // A provider of that name that is someone else's is never touched.
  lemma ForeignProvider(source: Bytes, doc: Document, provider: Bytes, list: Bytes)
    requires Taken(doc, provider)
    ensures Inserted(source, doc, provider, list) == Conflict
    ensures Removed(source, doc, provider) == Edited(source)
  {
  }

  lemma OffsetsAround(before: Bytes, block: Bytes, after: Bytes)
    requires Lines(before) && EndsLine(block)
    ensures OffsetAt(before + block + after, Newlines(before) + 1) == Some(|before|)
    ensures OffsetAt(before + block + after, Newlines(before) + Newlines(block) + 1) == Some(|before| + |block|)
  {
    OffsetAfter(before, block + after);
    assert before + (block + after) == before + block + after;
    LinesConcat(before, block);
    OffsetAfter(before + block, after);
  }

  lemma SpanRemoved(before: Bytes, block: Bytes, after: Bytes, doc: Document, provider: Bytes)
    requires InConfig(doc, provider) && doc.block && |doc.providers| > 1
    requires Find(doc.providers, provider) == Some(|doc.providers| - 1)
    requires OffsetAt(before + block + after, doc.providers[|doc.providers| - 1].line) == Some(|before|)
    requires OffsetAt(before + block + after, InsertionLine(before + block + after, doc)) == Some(|before| + |block|)
    ensures Removed(before + block + after, doc, provider) == Edited(before + after)
  {
    var text := before + block + after;
    RemovalSpan(text, doc, provider, |before|, |before| + |block|);
    assert text[..|before|] == before;
    assert text[|before| + |block|..] == after;
  }

  // The whole edit and its undoing, around the place of the insertion.
  lemma UndoneAt(before: Bytes, block: Bytes, after: Bytes, doc: Document, provider: Bytes)
    requires Lines(before) && EndsLine(block) && Newlines(block) == BLOCK_LINES
    requires InConfig(doc, provider) && doc.block && |doc.providers| > 1
    requires Find(doc.providers, provider) == Some(|doc.providers| - 1)
    requires doc.providers[|doc.providers| - 1].line == Newlines(before) + 1
    requires var stop := InsertionLine(before + block + after, doc);
      stop == Newlines(before) + BLOCK_LINES + 1 || (after == [] && stop == LineCount(before + block + after) + 1)
    ensures Removed(before + block + after, doc, provider) == Edited(before + after)
  {
    OffsetsAround(before, block, after);
    OffsetOfEnd(before + block + after);
    SpanRemoved(before, block, after, doc, provider);
  }

  // Removing the inserted provider gives back the source byte for byte.
  lemma RoundTrip(source: Bytes, doc: Document, provider: Bytes, list: Bytes)
    requires Describes(doc, source) && Find(doc.providers, provider).None?
    requires HasNextKey(doc) || EndsLine(source)
    requires NoBreak(provider) && NoBreak(list)
    ensures Inserted(source, doc, provider, list).Edited?
    ensures Removed(Inserted(source, doc, provider, list).text, AfterInsert(source, doc, provider), provider)
         == Edited(source)
  {
    var o, block := InsertionPlace(source, doc, provider, list);
    var before, after := source[..o], source[o..];
    AfterInsertLayout(source, doc, provider, before + block + after);
    RenderLines(provider, list, doc.indent, LineEnding(source));
    UndoneAt(before, block, after, AfterInsert(source, doc, provider), provider);
    assert before + after == source;
  }

  // ------------------------------------------------------- a fresh section

  lemma ClosedLines(source: Bytes)
    ensures Lines(Closed(source))
  {
  }

  lemma {:induction false} FirstNewline(s: Bytes, i: nat, n: nat)
    requires i <= n < |s| && s[n] == NL && forall j | i <= j < n :: s[j] != NL
    ensures IndexNewline(s, i) == n
    decreases n - i
  {
    if i < n { FirstNewline(s, i + 1, n); }
  }

  // The content of a line runs to its line break, whichever style that has.
  lemma ContentEndPlace(s: Bytes, k: int, start: nat, end: nat, n: nat)
    requires OffsetAt(s, k) == Some(start) && start <= end <= n < |s| && s[n] == NL
    requires n == end || (n == end + 1 && s[end] == CR)
    requires forall j | start <= j < end :: s[j] != NL && s[j] != CR
    ensures ContentEnd(s, k) == Some(end)
  {
    FirstNewline(s, start, n);
  }

  // Where a new section begins: after the source and, unless that is blank, an
  // empty line.
  function SectionLine(source: Bytes): nat { LineCount(source) + if AllSpace(source) then 1 else 2 }

  // Nothing but white space, character by character.
  predicate AllSpace(s: Bytes) { forall b | b in s :: b in {9, 10, 11, 12, 13, 32} }

  lemma BlankSpace(s: Bytes)
    ensures Blank(s) <==> AllSpace(s)
  {
  }

  lemma BlankClosed(source: Bytes, eol: Bytes)
    requires IsLineEnding(eol)
    ensures Blank(source + eol) <==> Blank(source)
  {
    assert forall b | b in source :: b in source + eol;
  }

  lemma LineEndingCounts(source: Bytes, eol: Bytes)
    requires IsLineEnding(eol)
    ensures Newlines(source + eol) == Newlines(source) + 1
  {
    NewlinesConcat(source, eol);
    RowLine(0, [], eol);
    assert Row(0, [], eol) == eol;
  }

  // What closing a source adds.
  lemma ClosedShape(source: Bytes) returns (whole: Bytes)
    ensures Newlines(Closed(source)) + 1 == SectionLine(source)
    ensures Lines(whole) && Newlines(whole) == LineCount(source) && source <= whole
    ensures Closed(source) == if AllSpace(source) then whole else whole + LineEnding(source)
  {
    var eol := LineEnding(source);
    whole := if source != [] && !EndsLine(source) then source + eol else source;
    BlankSpace(source);
    BlankClosed(source, eol);
    LineEndingCounts(source, eol);
    LineEndingCounts(whole, eol);
  }

  lemma HeaderPlain()
    ensures Plain(Header()) && Header() != []
  {
    AsciiPlain("rule-providers");
    AsciiPlain(":");
  }

  lemma SectionKeyLine(source: Bytes, eol: Bytes, block: Bytes, text: Bytes)
    requires eol == LineEnding(source) && text == Closed(source) + Header() + eol + block
    ensures LineIs(text, SectionLine(source), Ascii("rule-providers") + Ascii(":"), eol)
  {
    var whole := ClosedShape(source);
    ClosedLines(source);
    HeaderPlain();
    LineIsThere(Closed(source), Header(), eol, block);
  }

  lemma SectionKeyEnds(source: Bytes, eol: Bytes)
    requires eol == LineEnding(source)
    ensures Lines(Closed(source) + Header() + eol)
    ensures Newlines(Closed(source) + Header() + eol) == SectionLine(source)
  {
    var whole := ClosedShape(source);
    ClosedLines(source);
    HeaderPlain();
    OneMoreLine(Closed(source), Header(), eol);
  }

  lemma EmptyLineThere(whole: Bytes, eol: Bytes, rest: Bytes)
    requires Lines(whole) && IsLineEnding(eol)
    ensures LineIs(whole + eol + rest, Newlines(whole) + 1, [], eol)
  {
    LineIsThere(whole, [], eol, rest);
    assert whole + [] == whole;
  }

  lemma EmptyLineBefore(source: Bytes, eol: Bytes, rest: Bytes, text: Bytes)
    requires eol == LineEnding(source) && text == Closed(source) + rest
    ensures !AllSpace(source) ==> LineIs(text, LineCount(source) + 1, [], eol)
  {
    var whole := ClosedShape(source);
    if !AllSpace(source) { EmptyLineThere(whole, eol, rest); }
  }

  lemma Regroup(a: Bytes, b: Bytes, c: Bytes, d: Bytes)
    ensures a + b + c + d == a + (b + c + d)
  {
  }

  lemma DefinitionBelow(source: Bytes, provider: Bytes, list: Bytes, eol: Bytes, text: Bytes)
    requires eol == LineEnding(source) && Plain(provider) && Plain(list)
    requires text == Closed(source) + Header() + eol + Render(provider, list, 2, eol)
    ensures Defines(text, SectionLine(source) + 1, provider, list, 2, eol)
  {
    var before, block := Closed(source) + Header() + eol, Render(provider, list, 2, eol);
    SectionKeyEnds(source, eol);
    assert text == before + block + [];
    DefinedAfter(before, provider, list, 2, eol, [], text, SectionLine(source) + 1);
  }

  // What an insertion without a section appends: the section's key on a line of
  // its own, and the definition below it.
  lemma AppendedLines(source: Bytes, doc: Document, provider: Bytes, list: Bytes) returns (text: Bytes, eol: Bytes)
    requires doc.Document? && Find(doc.root, RuleProviders()).None? && Plain(provider) && Plain(list)
    ensures Inserted(source, doc, provider, list) == Edited(text) && source <= text
    ensures eol == if Windows(source) then [CR, NL] else [NL]
    ensures LineIs(text, SectionLine(source), Ascii("rule-providers") + Ascii(":"), eol)
    ensures Defines(text, SectionLine(source) + 1, provider, list, 2, eol)
    ensures !AllSpace(source) ==> LineIs(text, LineCount(source) + 1, [], eol)
  {
    eol := LineEnding(source);
    var block := Render(provider, list, 2, eol);
    text := Closed(source) + Header() + eol + block;
    OwnLineEnding(source);
    SectionKeyLine(source, eol, block, text);
    Regroup(Closed(source), Header(), eol, block);
    EmptyLineBefore(source, eol, Header() + eol + block, text);
    assert source <= text by { var whole := ClosedShape(source); }
    DefinitionBelow(source, provider, list, eol, text);
  }

  lemma OwnLineEnding(source: Bytes)
    ensures LineEnding(source) == if Windows(source) then [CR, NL] else [NL]
  {
  }

  // The document after a section was appended: one provider, on the line below
  // the section's key.
  function AfterAppend(source: Bytes, doc: Document, provider: Bytes): Document
    requires doc.Document?
  {
    var line := Newlines(Closed(source)) + 1;
    doc.(root := doc.root + [Key(RuleProviders(), line)], block := true,
         providers := [Key(provider, line + 1)], managed := true)
  }

  // Appending a section and removing its only provider leaves the source, closed,
  // with an empty section.
  lemma FreshRoundTrip(source: Bytes, doc: Document, provider: Bytes, list: Bytes)
    requires doc.Document? && Find(doc.root, RuleProviders()).None?
    ensures var text := Closed(source) + Header() + LineEnding(source) + Render(provider, list, 2, LineEnding(source));
      && Inserted(source, doc, provider, list) == Edited(text)
      && Removed(text, AfterAppend(source, doc, provider), provider)
         == Edited(Closed(source) + Header() + Ascii(" {}") + LineEnding(text))
  {
    var before, eol := Closed(source), LineEnding(source);
    ClosedLines(source);
    FindAppended(doc.root, Key(RuleProviders(), Newlines(before) + 1));
    FreshRemoved(before, eol, Render(provider, list, 2, eol), AfterAppend(source, doc, provider), provider);
  }

  lemma FreshRemoved(before: Bytes, eol: Bytes, block: Bytes, doc: Document, provider: Bytes)
    requires Lines(before) && IsLineEnding(eol)
    requires doc.Document? && Find(doc.root, RuleProviders()) == Some(|doc.root| - 1)
    requires doc.root[|doc.root| - 1].line == Newlines(before) + 1
    requires doc.block && doc.managed && |doc.providers| == 1 && doc.providers[0].name == provider
    ensures Removed(before + Header() + eol + block, doc, provider)
         == Edited(before + Header() + Ascii(" {}") + LineEnding(before + Header() + eol + block))
  {
    HeaderPlain();
    LineAfter(before, Header(), eol, block);
    EmptiedSection(before + Header() + eol + block, doc, provider, before + Header());
  }

  // Line k of the text, at o, is this content, with this line break.
  predicate LineAt(text: Bytes, k: nat, o: nat, content: Bytes, eol: Bytes) {
    && o + |content| + |eol| <= |text|
    && OffsetAt(text, k) == Some(o) && ContentEnd(text, k) == Some(o + |content|)
    && text[o..o + |content|] == content && text[o + |content|..o + |content| + |eol|] == eol
  }

  ghost predicate LineIs(text: Bytes, k: nat, content: Bytes, eol: Bytes) {
    exists o: nat :: LineAt(text, k, o, content, eol)
  }

  // Without a break of its own.
  predicate Plain(s: Bytes) { NL !in s && CR !in s }

  lemma Slices(a: Bytes, b: Bytes, c: Bytes, d: Bytes)
    ensures (a + b + c + d)[|a|..|a| + |b|] == b && (a + b + c + d)[|a| + |b|..|a| + |b| + |c|] == c
  {
  }

  lemma LineBegins(before: Bytes, content: Bytes, eol: Bytes, after: Bytes)
    requires Lines(before)
    ensures OffsetAt(before + content + eol + after, Newlines(before) + 1) == Some(|before|)
  {
    OffsetAfter(before, content + eol + after);
    assert before + content + eol + after == before + (content + eol + after);
  }

  lemma LineIsThere(before: Bytes, content: Bytes, eol: Bytes, after: Bytes)
    requires Lines(before) && Plain(content) && IsLineEnding(eol)
    ensures LineAt(before + content + eol + after, Newlines(before) + 1, |before|, content, eol)
  {
    LineBegins(before, content, eol, after);
    LineEnds(before, content, eol, after);
    Slices(before, content, eol, after);
  }

  lemma LineEnds(before: Bytes, content: Bytes, eol: Bytes, after: Bytes)
    requires Lines(before) && Plain(content) && IsLineEnding(eol)
    ensures ContentEnd(before + content + eol + after, Newlines(before) + 1) == Some(|before| + |content|)
  {
    LineBegins(before, content, eol, after);
    LinePlace(before, content, eol, after, before + content + eol + after);
  }

  lemma OneMoreLine(before: Bytes, content: Bytes, eol: Bytes)
    requires Lines(before) && Plain(content) && IsLineEnding(eol)
    ensures Lines(before + content + eol) && Newlines(before + content + eol) == Newlines(before) + 1
  {
    RowLine(0, content, eol);
    assert Row(0, content, eol) == content + eol;
    LinesConcat(before, content + eol);
    assert before + (content + eol) == before + content + eol;
  }

  function Joined(rows: seq<Bytes>, eol: Bytes): Bytes {
    if rows == [] then [] else rows[0] + eol + Joined(rows[1..], eol)
  }

  predicate AllPlain(rows: seq<Bytes>) { forall k | 0 <= k < |rows| :: Plain(rows[k]) }

  lemma TailPlain(rows: seq<Bytes>)
    requires rows != [] && AllPlain(rows)
    ensures Plain(rows[0]) && AllPlain(rows[1..])
  {
  }

  lemma RowsSplit(before: Bytes, row: Bytes, eol: Bytes, rest: Bytes, after: Bytes)
    ensures before + (row + eol + rest) + after == before + row + eol + (rest + after)
    ensures before + (row + eol + rest) + after == (before + row + eol) + rest + after
  {
  }

  // Rows between whole lines and anything are lines of the text, in order.
  lemma {:induction false} RowsAre(before: Bytes, rows: seq<Bytes>, eol: Bytes, after: Bytes, text: Bytes, n: nat,
                                   i: nat)
    requires Lines(before) && IsLineEnding(eol) && AllPlain(rows) && i < |rows|
    requires text == before + Joined(rows, eol) + after && n == Newlines(before) + 1
    ensures LineIs(text, n + i, rows[i], eol)
    decreases i
  {
    var row, rest := rows[0], Joined(rows[1..], eol);
    TailPlain(rows);
    if i == 0 {
      FirstRow(before, row, eol, rest, after, text);
    } else {
      var next := before + row + eol;
      assert text == next + rest + after by { RowsSplit(before, row, eol, rest, after); }
      assert Lines(next) && n + 1 == Newlines(next) + 1 by { OneMoreLine(before, row, eol); }
      RowsAre(next, rows[1..], eol, after, text, n + 1, i - 1);
    }
  }

  lemma FirstRow(before: Bytes, row: Bytes, eol: Bytes, rest: Bytes, after: Bytes, text: Bytes)
    requires Lines(before) && Plain(row) && IsLineEnding(eol) && text == before + (row + eol + rest) + after
    ensures LineIs(text, Newlines(before) + 1, row, eol)
  {
    RowsSplit(before, row, eol, rest, after);
    LineIsThere(before, row, eol, rest + after);
  }

  // From line n on the text has these lines.
  ghost predicate LinesAre(text: Bytes, n: nat, rows: seq<Bytes>, eol: Bytes) {
    forall i | 0 <= i < |rows| :: LineIs(text, n + i, rows[i], eol)
  }

  lemma AllRows(before: Bytes, rows: seq<Bytes>, eol: Bytes, after: Bytes, text: Bytes, n: nat)
    requires Lines(before) && IsLineEnding(eol) && AllPlain(rows)
    requires text == before + Joined(rows, eol) + after && n == Newlines(before) + 1
    ensures LinesAre(text, n, rows, eol)
  {
    forall i | 0 <= i < |rows| ensures LineIs(text, n + i, rows[i], eol) {
      RowsAre(before, rows, eol, after, text, n, i);
    }
  }

  // The lines that define a local rule list.
  function Definition(provider: Bytes, list: Bytes, indent: nat): seq<Bytes> {
    [
      Spaces(indent) + provider + Ascii(":"),
      Spaces(indent + 2) + Ascii("type: file"),
      Spaces(indent + 2) + Ascii("behavior: classical"),
      Spaces(indent + 2) + Ascii("format: text"),
      Spaces(indent + 2) + (Ascii("path: ./local-rules/") + list + Ascii(".txt"))
    ]
  }

  lemma AsciiPlain(s: string)
    requires forall c | c in s :: ' ' <= c < 128 as char
    ensures Plain(Ascii(s))
  {
    forall b | b in Ascii(s) ensures b >= 32 {
      var i :| 0 <= i < |Ascii(s)| && Ascii(s)[i] == b;
      assert s[i] in s;
    }
  }

  lemma DefinitionPlain(provider: Bytes, list: Bytes, indent: nat)
    requires Plain(provider) && Plain(list)
    ensures AllPlain(Definition(provider, list, indent))
  {
    AsciiPlain(":");
    AsciiPlain("type: file");
    AsciiPlain("behavior: classical");
    AsciiPlain("format: text");
    AsciiPlain("path: ./local-rules/");
    AsciiPlain(".txt");
  }

  lemma RenderJoins(provider: Bytes, list: Bytes, indent: nat, eol: Bytes)
    ensures Render(provider, list, indent, eol) == Joined(Definition(provider, list, indent), eol)
  {
    var d := Definition(provider, list, indent);
    assert Joined(d[5..], eol) == [];
    assert Joined(d[4..], eol) == d[4] + eol;
    assert Joined(d[3..], eol) == d[3] + eol + (d[4] + eol);
    assert Joined(d[2..], eol) == d[2] + eol + (d[3] + eol + (d[4] + eol));
    assert Joined(d[1..], eol) == d[1] + eol + (d[2] + eol + (d[3] + eol + (d[4] + eol)));
    assert d[0..] == d;
  }

  // A source with a carriage return before some line feed.
  predicate Windows(s: Bytes) { exists i | 0 <= i < |s| - 1 :: s[i] == CR && s[i + 1] == NL }

  // From line n on the text defines the list under that provider name.
  ghost predicate Defines(text: Bytes, n: nat, provider: Bytes, list: Bytes, indent: nat, eol: Bytes) {
    LinesAre(text, n, Definition(provider, list, indent), eol)
  }

  lemma DefinedAfter(before: Bytes, provider: Bytes, list: Bytes, indent: nat, eol: Bytes, after: Bytes,
                     text: Bytes, n: nat)
    requires Lines(before) && IsLineEnding(eol) && Plain(provider) && Plain(list)
    requires text == before + Render(provider, list, indent, eol) + after && n == Newlines(before) + 1
    ensures Defines(text, n, provider, list, indent, eol)
  {
    RenderJoins(provider, list, indent, eol);
    DefinitionPlain(provider, list, indent);
    AllRows(before, Definition(provider, list, indent), eol, after, text, n);
  }

  // A section whose only provider stands on an open line.
  lemma OpenSource() returns (doc: Document, last: Bytes)
    ensures Plain(last) && Describes(doc, Header() + [NL] + last) && !Lines(Header() + [NL] + last)
    ensures doc.indent == 1 && doc.providers == [Key([97], 2)] && !HasNextKey(doc)
    ensures Lines(Header() + [NL]) && Newlines(Header() + [NL]) == 1
  {
    var first := Header() + [NL];
    last := [32, 97, 58, 32, 98];
    doc := Document([Key(RuleProviders(), 1)], 0, true, [Key([97], 2)], 1, false);
    HeaderPlain();
    OneMoreLine([], Header(), [NL]);
    assert [] + Header() + [NL] == first;
    NewlinesConcat(first, last);
  }

  // A source whose last line is open: the provider's key continues that line.
  lemma OpenLineMerges(provider: Bytes, list: Bytes) returns (source: Bytes, doc: Document, last: Bytes, text: Bytes)
    requires provider != [97] && Plain(provider)
    ensures Describes(doc, source) && Find(doc.providers, provider).None? && !Lines(source)
    ensures last != [] && source == Ascii("rule-providers") + Ascii(":") + [NL] + last
    ensures Inserted(source, doc, provider, list) == Edited(text)
    ensures LineIs(text, 2, last + Spaces(1) + provider + Ascii(":"), [NL])
  {
    doc, last := OpenSource();
    source := Header() + [NL] + last;
    HeaderBreak(last);
    text := AtEnd(source, doc, provider, list);
    MergedLine(Header() + [NL], last, provider, list, text);
  }

  lemma AtEnd(source: Bytes, doc: Document, provider: Bytes, list: Bytes) returns (text: Bytes)
    requires Describes(doc, source) && Find(doc.providers, provider).None? && !HasNextKey(doc)
    ensures text == source + Render(provider, list, doc.indent, LineEnding(source))
    ensures Inserted(source, doc, provider, list) == Edited(text)
  {
    var o, block := InsertionPlace(source, doc, provider, list);
    text := source + block;
    assert source[..o] == source && source[o..] == [];
    assert text + [] == text;
  }

  lemma HeaderBreak(last: Bytes)
    requires CR !in last
    ensures LineEnding(Header() + [NL] + last) == [NL]
  {
    HeaderPlain();
  }

  lemma MergedLine(first: Bytes, last: Bytes, provider: Bytes, list: Bytes, text: Bytes)
    requires Lines(first) && Plain(last) && Plain(provider)
    requires text == first + last + Render(provider, list, 1, [NL])
    ensures LineIs(text, Newlines(first) + 1, last + Spaces(1) + provider + Ascii(":"), [NL])
  {
    var rest := FirstRendered(provider, list, 1, [NL]);
    var key := last + Spaces(1) + provider + Ascii(":");
    RegroupKey(first, last, Spaces(1), provider, Ascii(":"), [NL], rest);
    AsciiPlain(":");
    LineIsThere(first, key, [NL], rest);
  }

  lemma FirstRendered(provider: Bytes, list: Bytes, indent: nat, eol: Bytes) returns (rest: Bytes)
    ensures Render(provider, list, indent, eol) == Spaces(indent) + provider + Ascii(":") + eol + rest
  {
    var d := Definition(provider, list, indent);
    RenderJoins(provider, list, indent, eol);
    rest := Joined(d[1..], eol);
  }

  lemma RegroupKey(a: Bytes, b: Bytes, c: Bytes, d: Bytes, e: Bytes, f: Bytes, g: Bytes)
    ensures a + b + (c + d + e + f + g) == a + (b + c + d + e) + f + g
  {
  }

  // What an insertion writes into the section: the provider's key and four
  // entries below it, in the line breaks of the source.
  lemma InsertedLines(source: Bytes, doc: Document, provider: Bytes, list: Bytes) returns (text: Bytes, eol: Bytes)
    requires Describes(doc, source) && Find(doc.providers, provider).None?
    requires HasNextKey(doc) || EndsLine(source)
    requires Plain(provider) && Plain(list)
    ensures Inserted(source, doc, provider, list) == Edited(text)
    ensures eol == if Windows(source) then [CR, NL] else [NL]
    ensures Defines(text, InsertionLine(source, doc), provider, list, doc.indent, eol)
  {
    eol := LineEnding(source);
    var o, block := InsertionPlace(source, doc, provider, list);
    text := source[..o] + block + source[o..];
    DefinedAfter(source[..o], provider, list, doc.indent, eol, source[o..], text, InsertionLine(source, doc));
  }

  lemma LineAfter(before: Bytes, content: Bytes, eol: Bytes, after: Bytes)
    requires Lines(before) && Plain(content) && IsLineEnding(eol)
    ensures ContentEnd(before + content + eol + after, Newlines(before) + 1) == Some(|before + content|)
    ensures (before + content + eol + after)[..|before + content|] == before + content
  {
    LineEnds(before, content, eol, after);
  }

  lemma LinePlace(before: Bytes, content: Bytes, eol: Bytes, after: Bytes, text: Bytes)
    requires Lines(before) && NoBreak(content) && CR !in content && IsLineEnding(eol)
    requires text == before + content + eol + after
    requires OffsetAt(text, Newlines(before) + 1) == Some(|before|)
    ensures ContentEnd(text, Newlines(before) + 1) == Some(|before| + |content|)
  {
    var start, end := |before|, |before| + |content|;
    var n := end + |eol| - 1;
    assert text[n] == eol[|eol| - 1];
    assert |eol| == 2 ==> text[end] == eol[0];
    forall j | start <= j < end ensures text[j] != NL && text[j] != CR { assert text[j] == content[j - start]; }
    ContentEndPlace(text, Newlines(before) + 1, start, end, n);
  }

  lemma EmptiedSection(text: Bytes, doc: Document, provider: Bytes, kept: Bytes)
    requires doc.Document? && Find(doc.root, RuleProviders()) == Some(|doc.root| - 1)
    requires doc.block && doc.managed && |doc.providers| == 1 && doc.providers[0].name == provider
    requires ContentEnd(text, doc.root[|doc.root| - 1].line) == Some(|kept|) && text[..|kept|] == kept
    ensures Removed(text, doc, provider) == Edited(kept + Ascii(" {}") + LineEnding(text))
  {
    OffsetOfEnd(text);
    var result := kept + Ascii(" {}") + LineEnding(text);
    assert text[|text|..] == [];
    assert result + [] == result;
  }
}
