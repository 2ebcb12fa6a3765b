/** Search results as text: the renderer, the line parser, and the round trip between them. */
module SearchText {
  import opened Text

  datatype SearchResult = SearchResult(title: string, url: string, snippet: string, source: string, published: string)

  // Lines.

  /** The characters `str.splitlines` breaks at; a carriage return with its line feed is one break. */
  predicate IsBreak(c: char) {
    '\n' <= c <= '\r' || '\U{1c}' <= c <= '\U{1e}' || c == '\U{85}' || c == '\U{2028}' || c == '\U{2029}'
  }

  predicate OneLine(s: string) { forall i :: 0 <= i < |s| ==> !IsBreak(s[i]) }

  function BreakAt(s: string): (k: nat)
    ensures k <= |s| && OneLine(s[..k]) && (k < |s| ==> IsBreak(s[k]))
  {
    if s == "" || IsBreak(s[0]) then 0
    else
      var k := BreakAt(s[1..]);
      assert s[..k + 1] == [s[0]] + s[1..][..k];
      k + 1
  }

  function AfterBreak(s: string, k: nat): nat
    requires k < |s|
  {
    if s[k] == '\r' && k + 1 < |s| && s[k + 1] == '\n' then k + 2 else k + 1
  }

  function SplitLines(s: string): seq<string>
    decreases |s|
  {
    if s == "" then []
    else
      var k := BreakAt(s);
      if k == |s| then [s] else [s[..k]] + SplitLines(s[AfterBreak(s, k)..])
  }

  // Recognising lines.

  function LeadingDigits(s: string): (k: nat)
    ensures k <= |s|
  {
    if s != "" && IsDigit(s[0]) then 1 + LeadingDigits(s[1..]) else 0
  }

  /** The title of a numbered line: digits, a dot or bracket, white space, text. */
  function Numbered(line: string): Option<string> {
    var k := LeadingDigits(line);
    if k == 0 || k == |line| || (line[k] != '.' && line[k] != ')') then None
    else
      var rest := line[k + 1..];
      if rest == "" || !IsSpace(rest[0]) || Strip(rest) == "" then None else Some(Strip(rest))
  }

  datatype Field = TitleField | UrlField | SnippetField | PublishedField

  /** The value after `key`, white space and a colon, in any case of letters. */
  function ValueOf(line: string, key: string): Option<string> {
    if |line| < |key| || Lower(line[..|key|]) != key then None
    else
      var rest := StripLeft(line[|key|..]);
      if rest != "" && rest[0] == ':' then Some(Strip(rest[1..])) else None
  }

  function FieldOf(line: string): Option<(Field, string)> {
    if ValueOf(line, "title").Some? then Some((TitleField, ValueOf(line, "title").value))
    else if ValueOf(line, "url").Some? then Some((UrlField, ValueOf(line, "url").value))
    else if ValueOf(line, "summary").Some? then Some((SnippetField, ValueOf(line, "summary").value))
    else if ValueOf(line, "snippet").Some? then Some((SnippetField, ValueOf(line, "snippet").value))
    else if ValueOf(line, "description").Some? then Some((SnippetField, ValueOf(line, "description").value))
    else if ValueOf(line, "published").Some? then Some((PublishedField, ValueOf(line, "published").value))
    else if ValueOf(line, "date").Some? then Some((PublishedField, ValueOf(line, "date").value))
    else None
  }

  // The parser.

  /** The result being collected, if any, and those already complete. */
  datatype State = State(current: Option<SearchResult>, results: seq<SearchResult>)

  function Flush(s: State): State {
    if s.current.Some? && (s.current.value.title != "" || s.current.value.url != "")
    then State(None, s.results + [s.current.value])
    else State(None, s.results)
  }

  function Titled(title: string, source: string): SearchResult { SearchResult(title, "", "", source, "") }

  function Read(s: State, raw: string, source: string): State {
    var line := Strip(raw);
    if line == "" then Flush(s)
    else
      match Numbered(line)
      case Some(title) => Flush(s).(current := Some(Titled(title, source)))
      case None =>
        match FieldOf(line)
        case None => s
        case Some((TitleField, value)) => Flush(s).(current := Some(Titled(value, source)))
        case Some((UrlField, value)) => s.(current := Some(s.current.GetOr(Titled("", source)).(url := value)))
        case Some((SnippetField, value)) => s.(current := Some(s.current.GetOr(Titled("", source)).(snippet := value)))
        case Some((PublishedField, value)) => s.(current := Some(s.current.GetOr(Titled("", source)).(published := value)))
  }

  function ReadAll(s: State, lines: seq<string>, source: string): State
    decreases |lines|
  {
    if lines == [] then s else ReadAll(Read(s, lines[0], source), lines[1..], source)
  }

  function Parsed(text: string, source: string): seq<SearchResult> {
    Flush(ReadAll(State(None, []), SplitLines(text), source)).results
  }

  /** `parse_search_results`: one pass over the lines, with a draft that is flushed at titles, blanks and the end. */
  method ParseSearchResults(text: string, source: string) returns (results: seq<SearchResult>)
    ensures results == Parsed(text, source)
  {
    var lines := SplitLines(text);
    var current: Option<SearchResult> := None;
    results := [];
    for i := 0 to |lines|
      invariant ReadAll(State(current, results), lines[i..], source) == ReadAll(State(None, []), lines, source)
    {
      assert lines[i..][0] == lines[i] && lines[i..][1..] == lines[i + 1..];
      hide Numbered, FieldOf, Strip;
      var line := Strip(lines[i]);
      ghost var before := State(current, results);
      if line == "" {
        current, results := FlushDraft(current, results);
      } else {
        var title := Numbered(line);
        var field := FieldOf(line);
        if title.Some? {
          current, results := FlushDraft(current, results);
          current := Some(Titled(title.value, source));
        } else if field.Some? {
          var value := field.value.1;
          if field.value.0 == TitleField {
            current, results := FlushDraft(current, results);
            current := Some(Titled(value, source));
          } else {
            var draft := current.GetOr(Titled("", source));
            match field.value.0
            case TitleField =>
            case UrlField => current := Some(draft.(url := value));
            case SnippetField => current := Some(draft.(snippet := value));
            case PublishedField => current := Some(draft.(published := value));
          }
        }
      }
      assert State(current, results) == Read(before, lines[i], source);
    }
    current, results := FlushDraft(current, results);
  }

  method FlushDraft(draft: Option<SearchResult>, complete: seq<SearchResult>) returns (current: Option<SearchResult>, results: seq<SearchResult>)
    ensures State(current, results) == Flush(State(draft, complete))
  {
    current, results := None, complete;
    if draft.Some? && (draft.value.title != "" || draft.value.url != "") {
      results := complete + [draft.value];
    }
  }

  // The renderer.

  function Headline(r: SearchResult): string { if Strip(r.title) != "" then Strip(r.title) else Strip(r.url) }

  function Meta(r: SearchResult): string {
    var source := if Strip(r.source) != "" then ["Source: " + Strip(r.source)] else [];
    var published := if Strip(r.published) != "" then ["Published: " + Strip(r.published)] else [];
    Join(" · ", source + published)
  }

  function UrlLines(r: SearchResult): seq<string> { if Strip(r.url) != "" then ["   URL: " + Strip(r.url)] else [] }

  function SummaryLines(r: SearchResult): seq<string> { if Strip(r.snippet) != "" then ["   Summary: " + Strip(r.snippet)] else [] }

  function MetaLines(r: SearchResult): seq<string> { if Meta(r) != "" then ["   " + Meta(r)] else [] }

  /** The lines of one entry, as they are indented in the text. */
  function EntryLines(index: nat, r: SearchResult): seq<string> {
    [Decimal(index) + ". " + Headline(r)] + UrlLines(r) + SummaryLines(r) + MetaLines(r)
  }

  function EntriesFrom(index: nat, results: seq<SearchResult>): seq<string>
    decreases |results|
  {
    if results == [] then [] else EntryLines(index, results[0]) + EntriesFrom(index + 1, results[1..])
  }

  /** The rendered text: the notice if there is one, then every entry, each on lines of its own. */
  function Rendered(results: seq<SearchResult>, notice: string): string {
    Join("\n", NoticeLines(notice) + EntriesFrom(1, results))
  }

  method RenderEntry(index: nat, r: SearchResult) returns (entry: string)
    ensures entry == Join("\n", EntryLines(index, r))
  {
    entry := Decimal(index) + ". " + Headline(r);
    ghost var lines := [entry];
    if Strip(r.url) != "" {
      JoinSnoc("\n", lines, "   URL: " + Strip(r.url));
      lines := lines + ["   URL: " + Strip(r.url)];
      entry := entry + "\n" + ("   URL: " + Strip(r.url));
    }
    if Strip(r.snippet) != "" {
      JoinSnoc("\n", lines, "   Summary: " + Strip(r.snippet));
      lines := lines + ["   Summary: " + Strip(r.snippet)];
      entry := entry + "\n" + ("   Summary: " + Strip(r.snippet));
    }
    var meta := Meta(r);
    if meta != "" {
      JoinSnoc("\n", lines, "   " + meta);
      lines := lines + ["   " + meta];
      entry := entry + "\n" + ("   " + meta);
    }
    assert lines == EntryLines(index, r);
  }

  function NoticeLines(notice: string): seq<string> {
    if notice != "" then [StripTrailing(notice, '\n')] else []
  }

  lemma MoreEntries(lines: seq<string>, index: nat, results: seq<SearchResult>, i: nat)
    requires i < |results|
    ensures lines + EntriesFrom(index, results[i..]) ==
            lines + EntryLines(index, results[i]) + EntriesFrom(index + 1, results[i + 1..])
    ensures EntryLines(index, results[i]) != []
  {
    assert results[i..][0] == results[i] && results[i..][1..] == results[i + 1..];
  }

  /** `render_search_results`: appends one entry after another and joins them. */
  method RenderSearchResults(results: seq<SearchResult>, notice: string) returns (text: string)
    ensures text == Rendered(results, notice)
  {
    var entries := NoticeLines(notice);
    ghost var lines := entries;
    hide EntryLines, Join, NoticeLines;
    for i := 0 to |results|
      invariant Join("\n", entries) == Join("\n", lines) && (entries == [] <==> lines == [])
      invariant lines + EntriesFrom(i + 1, results[i..]) == NoticeLines(notice) + EntriesFrom(1, results)
    {
      MoreEntries(lines, i + 1, results, i);
      var entry := RenderEntry(i + 1, results[i]);
      JoinSnoc("\n", entries, entry);
      JoinAppend("\n", lines, EntryLines(i + 1, results[i]));
      entries := entries + [entry];
      lines := lines + EntryLines(i + 1, results[i]);
    }
    assert results[|results|..] == [] && lines + [] == lines;
    return Join("\n", entries);
  }

  lemma {:induction false} JoinSnoc(separator: string, parts: seq<string>, last: string)
    ensures Join(separator, parts + [last]) == if parts == [] then last else Join(separator, parts) + separator + last
  {
    if |parts| > 0 {
      JoinSnoc(separator, parts[1..], last);
      assert (parts + [last])[1..] == parts[1..] + [last];
    }
  }

  lemma {:induction false} JoinAppend(separator: string, a: seq<string>, b: seq<string>)
    requires b != []
    ensures Join(separator, a + b) == if a == [] then Join(separator, b) else Join(separator, a) + separator + Join(separator, b)
  {
    if a == [] {
      assert a + b == b;
    } else {
      JoinAppend(separator, a[1..], b);
      assert (a + b)[1..] == a[1..] + b;
      if |a| > 1 {
        assert a[0] + separator + (Join(separator, a[1..]) + separator + Join(separator, b)) ==
               a[0] + separator + Join(separator, a[1..]) + separator + Join(separator, b);
      }
    }
  }

  // Splitting what was joined.

  lemma BreakAfter(line: string, tail: string)
    requires OneLine(line) && tail != "" && IsBreak(tail[0])
    ensures BreakAt(line + tail) == |line|
  {
    assert (line + tail)[|line|] == tail[0];
  }

  lemma SplitBefore(line: string, tail: string)
    requires OneLine(line) && tail != "" && IsBreak(tail[0])
    ensures SplitLines(line + tail) == [line] + SplitLines(tail[AfterBreak(tail, 0)..])
  {
    BreakAfter(line, tail);
    var s, n := line + tail, AfterBreak(line + tail, |line|);
    assert s[..|line|] == line && n == |line| + AfterBreak(tail, 0) && s[n..] == tail[AfterBreak(tail, 0)..];
  }

  lemma SplitFirst(line: string, rest: string)
    requires OneLine(line)
    ensures SplitLines(line + "\n" + rest) == [line] + SplitLines(rest)
  {
    SplitBefore(line, "\n" + rest);
    assert line + "\n" + rest == line + ("\n" + rest) && ("\n" + rest)[1..] == rest;
  }

  lemma SplitOneLine(line: string)
    requires OneLine(line)
    ensures SplitLines(line) == if line == "" then [] else [line]
  {
  }

  predicate OneLineEach(lines: seq<string>) { forall i :: 0 <= i < |lines| ==> OneLine(lines[i]) && lines[i] != "" }

  lemma {:induction false} SplitJoined(lines: seq<string>)
    requires OneLineEach(lines)
    ensures SplitLines(Join("\n", lines)) == lines
  {
    if |lines| == 1 {
      SplitOneLine(lines[0]);
    } else if |lines| > 1 {
      SplitJoined(lines[1..]);
      SplitFirst(lines[0], Join("\n", lines[1..]));
    }
  }

  /** What is left behind a break, with a line feed and more text after it. */
  lemma LeftAfterBreak(rest: string, b: string)
    requires rest != ""
    ensures var n := AfterBreak(rest + "\n", 0);
            && AfterBreak(rest + "\n" + b, 0) == n <= |rest| + 1
            && (n == |rest| + 1 ==> (rest + "\n" + b)[n..] == b && (rest + "\n")[n..] == "")
            && (n <= |rest| ==>
                  AfterBreak(rest, 0) == n && (rest + "\n" + b)[n..] == rest[n..] + "\n" + b && (rest + "\n")[n..] == rest[n..] + "\n")
  {
  }

  /** A line feed after a text ends its last line and no other. */
  lemma {:induction false} SplitAtFeed(a: string, b: string)
    ensures SplitLines(a + "\n" + b) == SplitLines(a + "\n") + SplitLines(b)
    decreases |a|
  {
    hide *;
    NothingSplits();
    var k := BreakAt(a);
    if k == |a| {
      assert a[..k] == a;
      SplitFirst(a, b);
      SplitFirst(a, "");
      assert a + "\n" + "" == a + "\n";
    } else {
      var line, rest := a[..k], a[k..];
      SplitBefore(line, rest + "\n" + b);
      SplitBefore(line, rest + "\n");
      assert a + "\n" + b == line + (rest + "\n" + b) && a + "\n" == line + (rest + "\n");
      LeftAfterBreak(rest, b);
      var n := AfterBreak(rest + "\n", 0);
      if n <= |rest| {
        SplitAtFeed(rest[n..], b);
      }
    }
  }

  lemma NothingSplits()
    ensures SplitLines("") == []
  {
  }

  lemma {:induction false} FeedAddsNoText(a: string, line: string)
    requires line in SplitLines(a + "\n")
    ensures line == "" || line in SplitLines(a)
    decreases |a|
  {
    hide *;
    NothingSplits();
    var k := BreakAt(a);
    if k == |a| {
      assert a[..k] == a;
      SplitFirst(a, "");
      SplitOneLine(a);
      assert a + "\n" + "" == a + "\n";
    } else {
      var first, rest := a[..k], a[k..];
      SplitBefore(first, rest + "\n");
      SplitBefore(first, rest);
      assert a + "\n" == first + (rest + "\n") && a == first + rest;
      LeftAfterBreak(rest, "");
      var n := AfterBreak(rest + "\n", 0);
      if n <= |rest| && line != first {
        FeedAddsNoText(rest[n..], line);
      }
    }
  }

  // Notices.

  /** Neither blank, numbered nor a field line: the parser passes over it. */
  predicate Silent(line: string) {
    Strip(line) != "" ==> Numbered(Strip(line)).None? && FieldOf(Strip(line)).None?
  }

  /** No line of the notice is numbered or a field line. */
  predicate QuietNotice(notice: string) {
    forall line :: line in SplitLines(StripTrailing(notice, '\n')) ==> Silent(line)
  }

  lemma {:induction false} ReadSilent(lines: seq<string>, source: string)
    requires forall line :: line in lines ==> Silent(line)
    ensures ReadAll(State(None, []), lines, source) == State(None, [])
  {
    if lines != [] {
      assert lines[0] in lines;
      hide Strip, Numbered, FieldOf;
      assert Read(State(None, []), lines[0], source) == State(None, []);
      ReadSilent(lines[1..], source);
    }
  }

  lemma {:induction false} ReadInTwoParts(s: State, a: seq<string>, b: seq<string>, source: string)
    ensures ReadAll(s, a + b, source) == ReadAll(ReadAll(s, a, source), b, source)
    decreases |a|
  {
    hide Read;
    if a == [] {
      assert a + b == b;
    } else {
      ReadInTwoParts(Read(s, a[0], source), a[1..], b, source);
      assert (a + b)[0] == a[0] && (a + b)[1..] == a[1..] + b;
    }
  }

  // Reading an entry back.

  lemma {:induction false} DecimalIsDigits(n: nat)
    ensures Decimal(n) != "" && forall i :: 0 <= i < |Decimal(n)| ==> IsDigit(Decimal(n)[i])
  {
    if n >= 10 { DecimalIsDigits(n / 10); }
  }

  lemma {:induction false} DigitsThen(digits: string, tail: string)
    requires (forall i :: 0 <= i < |digits| ==> IsDigit(digits[i])) && (tail == "" || !IsDigit(tail[0]))
    ensures LeadingDigits(digits + tail) == |digits|
  {
    if digits != "" {
      DigitsThen(digits[1..], tail);
      assert (digits + tail)[1..] == digits[1..] + tail;
    } else {
      assert digits + tail == tail;
    }
  }

  lemma StripSpaceBefore(s: string)
    requires Trimmed(s)
    ensures Strip(" " + s) == s
  {
    assert (" " + s)[1..] == s;
    TrimmedStays(s);
  }

  lemma StripIndent(s: string)
    ensures Strip("   " + s) == Strip(s)
  {
    assert StripLeft(" " + s) == StripLeft(s) by { assert (" " + s)[1..] == s; }
    assert StripLeft("  " + s) == StripLeft(" " + s) by { assert ("  " + s)[1..] == " " + s; }
    assert StripLeft("   " + s) == StripLeft("  " + s) by { assert ("   " + s)[1..] == "  " + s; }
  }

  lemma Numbering(digits: string, title: string)
    requires digits != "" && (forall i :: 0 <= i < |digits| ==> IsDigit(digits[i])) && title != "" && Trimmed(title)
    ensures var line := digits + ". " + title;
            Trimmed(line) && Numbered(line) == Some(title)
  {
    hide Strip, LeadingDigits;
    var line := digits + ". " + title;
    assert line == digits + (". " + title);
    DigitsThen(digits, ". " + title);
    assert line[0] == digits[0] && line[|line| - 1] == title[|title| - 1];
    assert line[|digits| + 1..] == " " + title;
    StripSpaceBefore(title);
  }

  lemma NumberedLine(index: nat, title: string)
    requires title != "" && Trimmed(title)
    ensures var line := Decimal(index) + ". " + title;
            line != "" && Strip(line) == line && Numbered(line) == Some(title)
  {
    hide Strip, Decimal, LeadingDigits;
    var digits := Decimal(index);
    DecimalIsDigits(index);
    Numbering(digits, title);
    TrimmedStays(digits + ". " + title);
  }

  lemma ReadHeadline(s: State, index: nat, title: string, source: string)
    requires title != "" && Trimmed(title)
    ensures Read(s, Decimal(index) + ". " + title, source) == Flush(s).(current := Some(Titled(title, source)))
  {
    hide Strip, Numbered, FieldOf, Decimal;
    NumberedLine(index, title);
  }

  lemma NoValue(line: string, key: string, i: nat)
    requires i < |key| && (i < |line| ==> Lower(line)[i] != key[i])
    ensures ValueOf(line, key) == None
  {
    if |line| >= |key| { assert Lower(line[..|key|])[i] == Lower(line)[i]; }
  }

  lemma HasValue(tag: string, key: string, value: string)
    requires Lower(tag) == key && Trimmed(value)
    ensures ValueOf(tag + ": " + value, key) == Some(value)
  {
    var line := tag + ": " + value;
    assert line[..|key|] == tag && line[|key|..] == ": " + value;
    assert (": " + value)[1..] == " " + value;
    StripSpaceBefore(value);
  }

  /** The tags the renderer writes. */
  datatype Tag = UrlTag | SummaryTag | PublishedTag | SourceTag

  function TagText(tag: Tag): string {
    match tag
    case UrlTag => "URL"
    case SummaryTag => "Summary"
    case PublishedTag => "Published"
    case SourceTag => "Source"
  }

  function FieldFor(tag: Tag): Option<Field> {
    match tag
    case UrlTag => Some(UrlField)
    case SummaryTag => Some(SnippetField)
    case PublishedTag => Some(PublishedField)
    case SourceTag => None
  }

  lemma OtherKeys(tag: Tag, tail: string)
    ensures var line := TagText(tag) + tail;
            && ValueOf(line, "title") == None
            && (tag != UrlTag ==> ValueOf(line, "url") == None)
            && (tag != SummaryTag ==> ValueOf(line, "summary") == None)
            && ValueOf(line, "snippet") == None && ValueOf(line, "description") == None
            && (tag != PublishedTag ==> ValueOf(line, "published") == None)
            && ValueOf(line, "date") == None
  {
    var line := TagText(tag) + tail;
    assert line[0] == TagText(tag)[0] && line[1] == TagText(tag)[1];
    hide ValueOf;
    NoValue(line, "title", 0);
    if tag != UrlTag { NoValue(line, "url", 0); }
    if tag != SummaryTag { NoValue(line, "summary", if tag == SourceTag then 1 else 0); }
    NoValue(line, "snippet", if tag == SourceTag || tag == SummaryTag then 1 else 0);
    NoValue(line, "description", 0);
    if tag != PublishedTag { NoValue(line, "published", 0); }
    NoValue(line, "date", 0);
  }

  lemma TaggedField(tag: Tag, value: string)
    requires Trimmed(value)
    ensures FieldOf(TagText(tag) + ": " + value) == match FieldFor(tag) case Some(f) => Some((f, value)) case None => None
  {
    var line := TagText(tag) + ": " + value;
    assert line == TagText(tag) + (": " + value);
    OtherKeys(tag, ": " + value);
    LowerTags();
    hide ValueOf, Lower;
    match tag
    case UrlTag => HasValue("URL", "url", value);
    case SummaryTag => HasValue("Summary", "summary", value);
    case PublishedTag => HasValue("Published", "published", value);
    case SourceTag =>
  }

  lemma LowerTags()
    ensures Lower("URL") == "url" && Lower("Summary") == "summary" && Lower("Published") == "published"
  {
  }

  /** An indented line `tag: value` strips to itself without the indent and is no numbered line. */
  lemma TaggedLine(tag: Tag, value: string)
    requires value != "" && Trimmed(value)
    ensures var line := TagText(tag) + ": " + value;
            line != "" && Strip("   " + line) == line && Numbered(line) == None
  {
    var line := TagText(tag) + ": " + value;
    assert line[0] == TagText(tag)[0] && line[|line| - 1] == value[|value| - 1];
    TrimmedStays(line);
    StripIndent(line);
  }

  lemma ReadTagged(s: State, d: SearchResult, tag: Tag, value: string, source: string)
    requires s.current == Some(d) && value != "" && Trimmed(value)
    ensures Read(s, "   " + (TagText(tag) + ": " + value), source) ==
            match tag
            case UrlTag => s.(current := Some(d.(url := value)))
            case SummaryTag => s.(current := Some(d.(snippet := value)))
            case PublishedTag => s.(current := Some(d.(published := value)))
            case SourceTag => s
  {
    TaggedLine(tag, value);
    TaggedField(tag, value);
    hide Strip, Numbered, FieldOf, TagText;
  }

  /** What an entry reads back as: the source is the parser's, and the date survives only without a source before it. */
  function ReadBack(r: SearchResult, source: string): SearchResult {
    SearchResult(Headline(r), Strip(r.url), Strip(r.snippet), source, if Strip(r.source) == "" then Strip(r.published) else "")
  }

  lemma ReadOne(s: State, line: string, source: string)
    ensures ReadAll(s, [line], source) == Read(s, line, source) && ReadAll(s, [], source) == s
  {
    hide Read;
    assert [line][1..] == [];
  }

  lemma ReadUrl(s: State, d: SearchResult, r: SearchResult, source: string)
    requires s.current == Some(d) && d.url == ""
    ensures ReadAll(s, UrlLines(r), source) == s.(current := Some(d.(url := Strip(r.url))))
  {
    hide Read, ReadAll, Strip;
    var line := "   URL: " + Strip(r.url);
    ReadOne(s, line, source);
    if Strip(r.url) != "" {
      StripIsTrimmed(r.url);
      ReadTagged(s, d, UrlTag, Strip(r.url), source);
      assert line == "   " + ("URL" + ": " + Strip(r.url));
    }
  }

  lemma ReadSummary(s: State, d: SearchResult, r: SearchResult, source: string)
    requires s.current == Some(d) && d.snippet == ""
    ensures ReadAll(s, SummaryLines(r), source) == s.(current := Some(d.(snippet := Strip(r.snippet))))
  {
    hide Read, ReadAll, Strip;
    var line := "   Summary: " + Strip(r.snippet);
    ReadOne(s, line, source);
    if Strip(r.snippet) != "" {
      StripIsTrimmed(r.snippet);
      ReadTagged(s, d, SummaryTag, Strip(r.snippet), source);
      assert line == "   " + ("Summary" + ": " + Strip(r.snippet));
    }
  }

  lemma JoinFew(sep: string, a: string)
    ensures Join(sep, [a]) == a && Join(sep, []) == ""
  {
  }

  lemma JoinTwo(sep: string, a: string, b: string)
    ensures Join(sep, [a] + [b]) == a + sep + b
  {
    assert ([a] + [b])[1..] == [b];
  }

  lemma Regroup(tag: string, from: string, dot: string, published: string, date: string)
    ensures (tag + from) + dot + (published + date) == tag + (from + (dot + published) + date)
  {
  }

  lemma MetaText(r: SearchResult)
    ensures var from, date := Strip(r.source), Strip(r.published);
            Meta(r) ==
            if from == "" then (if date == "" then "" else "Published" + ": " + date)
            else "Source" + ": " + (if date == "" then from else from + " · Published: " + date)
  {
    hide Strip, Join;
    var from, date := Strip(r.source), Strip(r.published);
    assert "Source: " == "Source" + ": " && "Published: " == "Published" + ": ";
    if from != "" && date != "" {
      JoinTwo(" · ", "Source: " + from, "Published: " + date);
      assert " · " + "Published: " == " · Published: ";
      Regroup("Source: ", from, " · ", "Published: ", date);
    } else {
      var part := if from != "" then "Source: " + from else "Published: " + date;
      JoinFew(" · ", part);
      assert [part] + [] == [part] && [] + [part] == [part] && [] + [] == part[..0];
    }
  }

  /** The line of source and date: a line naming the source first is passed over whole. */
  lemma ReadMeta(s: State, d: SearchResult, r: SearchResult, source: string)
    requires s.current == Some(d) && d.published == ""
    ensures ReadAll(s, MetaLines(r), source) == s.(current := Some(d.(published := if Strip(r.source) == "" then Strip(r.published) else "")))
  {
    hide Read, ReadAll, Strip, Meta;
    var from, date := Strip(r.source), Strip(r.published);
    StripIsTrimmed(r.source);
    StripIsTrimmed(r.published);
    MetaText(r);
    ReadOne(s, "   " + Meta(r), source);
    if from != "" {
      ReadTagged(s, d, SourceTag, if date == "" then from else from + " · Published: " + date, source);
    } else if date != "" {
      ReadTagged(s, d, PublishedTag, date, source);
    }
  }

  lemma EntryParts(index: nat, r: SearchResult)
    ensures EntryLines(index, r) == (([Decimal(index) + ". " + Headline(r)] + UrlLines(r)) + SummaryLines(r)) + MetaLines(r)
  {
  }

  lemma ReadEntry(s: State, index: nat, r: SearchResult, source: string)
    requires Headline(r) != ""
    ensures ReadAll(s, EntryLines(index, r), source) == Flush(s).(current := Some(ReadBack(r, source)))
  {
    StripIsTrimmed(r.title);
    StripIsTrimmed(r.url);
    assert Trimmed(Headline(r));
    hide Read, ReadAll, Strip, Meta, Decimal, Headline, EntryLines, UrlLines, SummaryLines, MetaLines;
    var head := [Decimal(index) + ". " + Headline(r)];
    ReadHeadline(s, index, Headline(r), source);
    ReadOne(s, head[0], source);
    EntryParts(index, r);
    ReadInTwoParts(s, head, UrlLines(r), source);
    ReadInTwoParts(s, head + UrlLines(r), SummaryLines(r), source);
    ReadInTwoParts(s, (head + UrlLines(r)) + SummaryLines(r), MetaLines(r), source);
    var s0 := Flush(s).(current := Some(Titled(Headline(r), source)));
    var d0 := Titled(Headline(r), source);
    ReadUrl(s0, d0, r, source);
    var d1 := d0.(url := Strip(r.url));
    ReadSummary(s0.(current := Some(d1)), d1, r, source);
    var d2 := d1.(snippet := Strip(r.snippet));
    ReadMeta(s0.(current := Some(d2)), d2, r, source);
  }

  function ReadBackAll(results: seq<SearchResult>, source: string): seq<SearchResult> {
    seq(|results|, i requires 0 <= i < |results| => ReadBack(results[i], source))
  }

  lemma {:induction false} ReadEntries(s: State, index: nat, results: seq<SearchResult>, source: string)
    requires forall i :: 0 <= i < |results| ==> Headline(results[i]) != ""
    ensures Flush(ReadAll(s, EntriesFrom(index, results), source)).results == Flush(s).results + ReadBackAll(results, source)
    decreases |results|
  {
    hide Read, ReadAll, EntryLines, Headline, Strip;
    if results == [] {
      ReadOne(s, "", source);
    } else {
      var r, rest := results[0], results[1..];
      ReadEntry(s, index, r, source);
      var t := Flush(s).(current := Some(ReadBack(r, source)));
      ReadInTwoParts(s, EntryLines(index, r), EntriesFrom(index + 1, rest), source);
      ReadEntries(t, index + 1, rest, source);
      assert ReadBackAll(results, source) == [ReadBack(r, source)] + ReadBackAll(rest, source);
      assert Flush(t).results == Flush(s).results + [ReadBack(r, source)] by { assert ReadBack(r, source).title != ""; }
    }
  }

  // The round trip.

  /** Once stripped, every field is a single line. */
  predicate OneLineFields(r: SearchResult) {
    OneLine(Strip(r.title)) && OneLine(Strip(r.url)) && OneLine(Strip(r.snippet)) && OneLine(Strip(r.source)) && OneLine(Strip(r.published))
  }

  lemma OneLineAppend(a: string, b: string)
    requires OneLine(a) && OneLine(b)
    ensures OneLine(a + b)
  {
  }

  lemma LabelsAreOneLine()
    ensures OneLine("   URL: ") && OneLine("   Summary: ") && OneLine("Published: ") && OneLine("Source: ")
    ensures OneLine(" · Published: ") && OneLine("   ") && OneLine("")
  {
  }

  lemma MetaIsOneLine(r: SearchResult)
    requires OneLineFields(r)
    ensures OneLine("   " + Meta(r))
  {
    hide Strip, Meta, OneLine;
    MetaText(r);
    LabelsAreOneLine();
    assert "Source: " == "Source" + ": " && "Published: " == "Published" + ": ";
    OneLineAppend("Published: ", Strip(r.published));
    OneLineAppend("Source: ", Strip(r.source));
    OneLineAppend(Strip(r.source), " · Published: ");
    OneLineAppend(Strip(r.source) + " · Published: ", Strip(r.published));
    OneLineAppend("Source: ", Strip(r.source) + " · Published: " + Strip(r.published));
    OneLineAppend("   ", Meta(r));
  }

  lemma HeadIsOneLine(index: nat, text: string)
    requires OneLine(text)
    ensures OneLine(Decimal(index) + ". " + text)
  {
    DecimalIsDigits(index);
    hide Decimal;
  }

  lemma OneLineEachAppend(a: seq<string>, b: seq<string>)
    requires OneLineEach(a) && OneLineEach(b)
    ensures OneLineEach(a + b)
  {
    hide OneLine;
  }

  lemma FieldLinesAreOneLine(r: SearchResult)
    requires OneLineFields(r)
    ensures OneLineEach(UrlLines(r)) && OneLineEach(SummaryLines(r)) && OneLineEach(MetaLines(r))
  {
    hide Strip, Meta, OneLine;
    MetaIsOneLine(r);
    LabelsAreOneLine();
    OneLineAppend("   URL: ", Strip(r.url));
    OneLineAppend("   Summary: ", Strip(r.snippet));
  }

  lemma EntryIsOneLineEach(index: nat, r: SearchResult)
    requires OneLineFields(r)
    ensures OneLineEach(EntryLines(index, r))
  {
    FieldLinesAreOneLine(r);
    HeadIsOneLine(index, Headline(r));
    hide *;
    EntryParts(index, r);
    var head := [Decimal(index) + ". " + Headline(r)];
    OneLineEachSingle(head[0]);
    OneLineEachAppend(head, UrlLines(r));
    OneLineEachAppend(head + UrlLines(r), SummaryLines(r));
    OneLineEachAppend(head + UrlLines(r) + SummaryLines(r), MetaLines(r));
  }

  lemma OneLineEachSingle(line: string)
    requires OneLine(line) && line != ""
    ensures OneLineEach([line])
  {
  }

  lemma {:induction false} EntriesAreOneLineEach(index: nat, results: seq<SearchResult>)
    requires forall i :: 0 <= i < |results| ==> OneLineFields(results[i])
    ensures OneLineEach(EntriesFrom(index, results))
    decreases |results|
  {
    if results != [] {
      EntryIsOneLineEach(index, results[0]);
      EntriesAreOneLineEach(index + 1, results[1..]);
      hide OneLine, EntryLines;
    }
  }

  /** A quiet notice does not change what the lines under it read as. */
  lemma QuietNoticeIsSkipped(notice: string, lines: seq<string>, source: string)
    requires QuietNotice(notice) && OneLineEach(lines)
    ensures ReadAll(State(None, []), SplitLines(Join("\n", NoticeLines(notice) + lines)), source) == ReadAll(State(None, []), lines, source)
  {
    var start, said := State(None, []), StripTrailing(notice, '\n');
    hide StripTrailing, SplitLines, Read, Silent, OneLine;
    SplitJoined(lines);
    if notice == "" {
      assert NoticeLines(notice) + lines == lines;
    } else if lines == [] {
      assert NoticeLines(notice) + lines == [said];
      ReadSilent(SplitLines(said), source);
    } else {
      JoinAppend("\n", [said], lines);
      SplitAtFeed(said, Join("\n", lines));
      forall line | line in SplitLines(said + "\n") ensures Silent(line) {
        FeedAddsNoText(said, line);
        BlankIsSilent();
      }
      ReadSilent(SplitLines(said + "\n"), source);
      ReadInTwoParts(start, SplitLines(said + "\n"), lines, source);
    }
  }

  lemma BlankIsSilent()
    ensures Silent("")
  {
  }

  /**
   * Rendering results and parsing the text gives the results back, in order, under any quiet notice:
   * title (or URL), URL and snippet as they were, and the parser's own source.
   */
  lemma RoundTrip(results: seq<SearchResult>, notice: string, source: string)
    requires QuietNotice(notice) && forall i :: 0 <= i < |results| ==> OneLineFields(results[i]) && Headline(results[i]) != ""
    ensures Parsed(Rendered(results, notice), source) == ReadBackAll(results, source)
  {
    hide OneLineFields, QuietNotice, EntriesFrom, ReadAll, SplitLines, Headline;
    EntriesAreOneLineEach(1, results);
    QuietNoticeIsSkipped(notice, EntriesFrom(1, results), source);
    ReadEntries(State(None, []), 1, results, source);
  }

  // Entries with neither title nor URL.

  function Headed(results: seq<SearchResult>): nat {
    if results == [] then 0 else Headed(results[..|results| - 1]) + if Headline(results[|results| - 1]) != "" then 1 else 0
  }

  predicate Open(s: State) { s.current.Some? && (s.current.value.title != "" || s.current.value.url != "") }

  lemma ReadLoose(s: State, tag: Tag, value: string, source: string)
    requires tag != UrlTag && value != "" && Trimmed(value)
    ensures var t := Read(s, "   " + (TagText(tag) + ": " + value), source);
            t.results == s.results && (Open(t) <==> Open(s))
  {
    TaggedLine(tag, value);
    TaggedField(tag, value);
    hide Strip, Numbered, FieldOf, TagText;
  }

  lemma BareNumberIsSilent(index: nat)
    ensures Silent(Decimal(index) + ". ")
  {
    var digits := Decimal(index);
    DecimalIsDigits(index);
    var line := digits + ".";
    assert Strip(digits + ". ") == line by {
      StripLeftMeaning(digits + ". ");
      assert (digits + ". ")[..|digits| + 1] == line;
      StripRightMeaning(line);
    }
    DigitsThen(digits, ".");
    assert Lower(line)[0] == digits[0];
    hide ValueOf, Strip, Decimal, Lower;
    NoValue(line, "title", 0);
    NoValue(line, "url", 0);
    NoValue(line, "summary", 0);
    NoValue(line, "snippet", 0);
    NoValue(line, "description", 0);
    NoValue(line, "published", 0);
    NoValue(line, "date", 0);
  }

  lemma BareNumberIsSkipped(s: State, index: nat, source: string)
    ensures ReadAll(s, [Decimal(index) + ". " + ""], source) == s
  {
    var line := Decimal(index) + ". " + "";
    BareNumberIsSilent(index);
    assert line == Decimal(index) + ". ";
    hide Numbered, FieldOf, Decimal, Strip;
    ReadOne(s, line, source);
    BareNumberIsNotBlank(index);
  }

  lemma BareNumberIsNotBlank(index: nat)
    ensures Strip(Decimal(index) + ". ") != ""
  {
    var line := Decimal(index) + ". ";
    DecimalIsDigits(index);
    StripLeftMeaning(line);
    StripRightMeaning(line);
  }

  /** A later text replaces an earlier one unless it is blank. */
  function LastText(earlier: string, later: string): string { if Strip(later) != "" then Strip(later) else earlier }

  function NewDate(earlier: string, r: SearchResult): string {
    if Strip(r.source) == "" then LastText(earlier, r.published) else earlier
  }

  lemma LooseSummary(s: State, r: SearchResult, source: string)
    ensures var t := ReadAll(s, SummaryLines(r), source);
            t.results == s.results && (Open(t) <==> Open(s))
            && (s.current.Some? ==> t.current == Some(s.current.value.(snippet := LastText(s.current.value.snippet, r.snippet))))
  {
    hide Read, ReadAll, Strip;
    ReadOne(s, "   Summary: " + Strip(r.snippet), source);
    if Strip(r.snippet) != "" {
      StripIsTrimmed(r.snippet);
      ReadLoose(s, SummaryTag, Strip(r.snippet), source);
      if s.current.Some? { ReadTagged(s, s.current.value, SummaryTag, Strip(r.snippet), source); }
      assert "   Summary: " + Strip(r.snippet) == "   " + ("Summary" + ": " + Strip(r.snippet));
    }
  }

  lemma LooseMeta(s: State, r: SearchResult, source: string)
    ensures var t := ReadAll(s, MetaLines(r), source);
            t.results == s.results && (Open(t) <==> Open(s))
            && (s.current.Some? ==> t.current == Some(s.current.value.(published := NewDate(s.current.value.published, r))))
  {
    hide Read, ReadAll, Strip, Meta;
    StripIsTrimmed(r.source);
    StripIsTrimmed(r.published);
    MetaText(r);
    ReadOne(s, "   " + Meta(r), source);
    var from, date := Strip(r.source), Strip(r.published);
    if from != "" {
      var value := if date == "" then from else from + " · Published: " + date;
      ReadLoose(s, SourceTag, value, source);
      if s.current.Some? { ReadTagged(s, s.current.value, SourceTag, value, source); }
    } else if date != "" {
      ReadLoose(s, PublishedTag, date, source);
      if s.current.Some? { ReadTagged(s, s.current.value, PublishedTag, date, source); }
    }
  }

  /** An entry without title and URL adds no result; its snippet and date fall to the result being collected before it. */
  lemma UnheadedEntryIsLost(s: State, index: nat, r: SearchResult, source: string)
    requires Headline(r) == ""
    ensures var t := ReadAll(s, EntryLines(index, r), source);
            t.results == s.results && (Open(t) <==> Open(s))
            && (s.current.Some? ==>
                  var d := s.current.value;
                  t.current == Some(d.(snippet := LastText(d.snippet, r.snippet), published := NewDate(d.published, r))))
  {
    var head := [Decimal(index) + ". " + Headline(r)];
    assert UrlLines(r) == [];
    EntryParts(index, r);
    hide Read, ReadAll, Strip, Meta, Decimal, Headline, EntryLines, SummaryLines, MetaLines;
    BareNumberIsSkipped(s, index, source);
    assert head + UrlLines(r) == head;
    ReadInTwoParts(s, head, SummaryLines(r), source);
    ReadInTwoParts(s, head + SummaryLines(r), MetaLines(r), source);
    LooseSummary(s, r, source);
    LooseMeta(ReadAll(s, SummaryLines(r), source), r, source);
  }

  lemma HeadedCons(r: SearchResult, rest: seq<SearchResult>)
    ensures Headed([r] + rest) == (if Headline(r) != "" then 1 else 0) + Headed(rest)
  {
    hide Headline;
    if rest == [] {
      assert [r] + rest == [r] && [r][..0] == [];
    } else {
      HeadedCons(r, rest[..|rest| - 1]);
      assert ([r] + rest)[..|rest|] == [r] + rest[..|rest| - 1];
    }
  }

  lemma {:induction false} EntriesReadAsMany(s: State, index: nat, results: seq<SearchResult>, source: string)
    ensures |Flush(ReadAll(s, EntriesFrom(index, results), source)).results| == |Flush(s).results| + Headed(results)
    decreases |results|
  {
    hide Read, ReadAll, EntryLines, Headline;
    if results == [] {
      ReadOne(s, "", source);
    } else {
      var r, rest := results[0], results[1..];
      assert results == [r] + rest;
      HeadedCons(r, rest);
      ReadInTwoParts(s, EntryLines(index, r), EntriesFrom(index + 1, rest), source);
      EntriesReadAsMany(ReadAll(s, EntryLines(index, r), source), index + 1, rest, source);
      if Headline(r) != "" { ReadEntry(s, index, r, source); } else { UnheadedEntryIsLost(s, index, r, source); }
    }
  }

  /** Of entries with single-line fields, as many are parsed as have a title or a URL. */
  lemma HeadedAreParsed(results: seq<SearchResult>, notice: string, source: string)
    requires QuietNotice(notice) && forall i :: 0 <= i < |results| ==> OneLineFields(results[i])
    ensures |Parsed(Rendered(results, notice), source)| == Headed(results)
  {
    hide OneLineFields, QuietNotice, EntriesFrom, ReadAll, SplitLines, Headed;
    EntriesAreOneLineEach(1, results);
    QuietNoticeIsSkipped(notice, EntriesFrom(1, results), source);
    EntriesReadAsMany(State(None, []), 1, results, source);
  }

  // What parsing can give back at all.

  lemma {:induction false} StripLeftChars(s: string)
    ensures forall c :: c in StripLeft(s) ==> c in s
  {
    if s != "" && IsSpace(s[0]) { StripLeftChars(s[1..]); }
  }

  lemma OneLineStrip(s: string)
    requires OneLine(s)
    ensures OneLine(StripLeft(s)) && OneLine(Strip(s))
  {
    StripLeftChars(s);
    StripRightMeaning(StripLeft(s));
    hide StripLeft, StripRight;
    var left := StripLeft(s);
    forall i | 0 <= i < |left| ensures !IsBreak(left[i]) { assert left[i] in s; }
  }

  lemma OneLineRest(s: string, k: nat)
    requires OneLine(s) && k <= |s|
    ensures OneLine(s[k..])
  {
  }

  lemma NumberedIsOneLine(line: string)
    requires OneLine(line) && Numbered(line).Some?
    ensures OneLine(Numbered(line).value)
  {
    hide Strip, LeadingDigits, OneLine;
    var rest := line[LeadingDigits(line) + 1..];
    OneLineRest(line, LeadingDigits(line) + 1);
    OneLineStrip(rest);
  }

  lemma ValueIsOneLine(line: string, key: string)
    requires OneLine(line) && ValueOf(line, key).Some?
    ensures OneLine(ValueOf(line, key).value)
  {
    hide Strip, StripLeft, OneLine, Lower;
    var rest := StripLeft(line[|key|..]);
    OneLineRest(line, |key|);
    OneLineStrip(line[|key|..]);
    OneLineRest(rest, 1);
    OneLineStrip(rest[1..]);
  }

  lemma FieldIsOneLine(line: string)
    requires OneLine(line) && FieldOf(line).Some?
    ensures OneLine(FieldOf(line).value.1)
  {
    hide OneLine, ValueOf;
    var key :| key in ["title", "url", "summary", "snippet", "description", "published", "date"]
               && ValueOf(line, key).Some? && FieldOf(line).value.1 == ValueOf(line, key).value;
    ValueIsOneLine(line, key);
  }

  predicate Parseable(r: SearchResult) {
    OneLine(r.title) && OneLine(r.url) && OneLine(r.snippet) && OneLine(r.published)
  }

  /** A result the parser may give back: single-line texts, and a title or a URL. */
  predicate Listed(r: SearchResult) { Parseable(r) && (r.title != "" || r.url != "") }

  predicate Clean(s: State) {
    (s.current.Some? ==> Parseable(s.current.value)) && forall r :: r in s.results ==> Listed(r)
  }

  lemma FlushStaysClean(s: State)
    requires Clean(s)
    ensures Clean(Flush(s))
  {
    hide OneLine;
  }

  lemma ReadStaysClean(s: State, raw: string, source: string)
    requires Clean(s) && OneLine(raw)
    ensures Clean(Read(s, raw, source))
  {
    hide Strip, Numbered, FieldOf, Flush, OneLine;
    OneLineStrip(raw);
    LabelsAreOneLine();
    FlushStaysClean(s);
    var line := Strip(raw);
    if Numbered(line).Some? { NumberedIsOneLine(line); }
    if FieldOf(line).Some? { FieldIsOneLine(line); }
  }

  lemma {:induction false} ReadAllStaysClean(s: State, lines: seq<string>, source: string)
    requires Clean(s) && forall line :: line in lines ==> OneLine(line)
    ensures Clean(ReadAll(s, lines, source))
    decreases |lines|
  {
    hide Read, Clean, OneLine;
    if lines != [] {
      ReadStaysClean(s, lines[0], source);
      ReadAllStaysClean(Read(s, lines[0], source), lines[1..], source);
    }
  }

  lemma {:induction false} LinesAreOneLine(s: string)
    ensures forall line :: line in SplitLines(s) ==> OneLine(line)
    decreases |s|
  {
    hide OneLine, BreakAt;
    if s != "" {
      var k := BreakAt(s);
      if k == |s| { assert s[..k] == s; } else { LinesAreOneLine(s[AfterBreak(s, k)..]); }
    }
  }

  /** Whatever text is parsed, every result has single-line texts, and a title or a URL. */
  lemma ParsedIsListed(text: string, source: string)
    ensures forall r :: r in Parsed(text, source) ==> Listed(r)
  {
    hide SplitLines, ReadAll, Flush, Listed;
    LinesAreOneLine(text);
    ReadAllStaysClean(State(None, []), SplitLines(text), source);
    FlushStaysClean(ReadAll(State(None, []), SplitLines(text), source));
  }

  /** A result that can come back: a title or a URL, and no line break in what comes back. */
  predicate Returnable(r: SearchResult) {
    && Headline(r) != "" && OneLine(Strip(r.title)) && OneLine(Strip(r.url)) && OneLine(Strip(r.snippet))
    && (Strip(r.source) == "" ==> OneLine(Strip(r.published)))
  }

  /** The line of source and date is one line wherever it starts with a source, which is not read back. */
  predicate OneLineOrigin(r: SearchResult) {
    Strip(r.source) != "" ==> OneLine(Strip(r.source)) && OneLine(Strip(r.published))
  }

  lemma ReturnableIsOneLine(r: SearchResult)
    requires Returnable(r) && OneLineOrigin(r)
    ensures OneLineFields(r)
  {
    hide Strip;
  }

  lemma ListedIsReturnable(r: SearchResult, source: string)
    requires Listed(ReadBack(r, source))
    ensures Returnable(r)
  {
    hide Strip;
  }

  /**
   * The round trip holds exactly when every result has a title or a URL and no line break in what comes back.
   * The one thing asked for is that a source, which does not come back, and its date hold no line break.
   */
  lemma RoundTripExactly(results: seq<SearchResult>, notice: string, source: string)
    requires QuietNotice(notice) && forall i :: 0 <= i < |results| ==> OneLineOrigin(results[i])
    ensures Parsed(Rendered(results, notice), source) == ReadBackAll(results, source) <==>
            forall i :: 0 <= i < |results| ==> Returnable(results[i])
  {
    hide OneLineFields, QuietNotice, Parsed, Rendered, Headline, Returnable, OneLineOrigin, Listed, ReadBack, ReadBackAll;
    if forall i :: 0 <= i < |results| ==> Returnable(results[i]) {
      forall i | 0 <= i < |results| ensures OneLineFields(results[i]) && Headline(results[i]) != "" {
        ReturnableIsOneLine(results[i]);
        ReturnableIsHeaded(results[i]);
      }
      RoundTrip(results, notice, source);
    }
    if Parsed(Rendered(results, notice), source) == ReadBackAll(results, source) {
      ReturnedAreReturnable(results, Rendered(results, notice), source);
    }
  }

  lemma ReturnableIsHeaded(r: SearchResult)
    requires Returnable(r)
    ensures Headline(r) != ""
  {
  }

  /** No text at all parses to a result that cannot come back. */
  lemma ReturnedAreReturnable(results: seq<SearchResult>, text: string, source: string)
    requires Parsed(text, source) == ReadBackAll(results, source)
    ensures forall i :: 0 <= i < |results| ==> Returnable(results[i])
  {
    hide Parsed, Returnable, Listed, ReadBack;
    ParsedIsListed(text, source);
    forall i | 0 <= i < |results| ensures Returnable(results[i]) {
      assert ReadBackAll(results, source)[i] == ReadBack(results[i], source);
      ListedIsReturnable(results[i], source);
    }
  }

  /** A source that plants a numbered line of its own. */
  function Planting(title: string, planted: string): SearchResult {
    SearchResult(title, "", "", "s\n1. " + planted, "")
  }

  function PlantedLines(title: string, planted: string): seq<string> {
    [Decimal(1) + ". " + title, "   " + ("Source" + ": " + "s"), Decimal(1) + ". " + planted]
  }

  lemma PlantedMeta(title: string, planted: string)
    requires planted != "" && Trimmed(planted)
    ensures Meta(Planting(title, planted)) == "Source" + ": " + ("s\n1. " + planted)
  {
    var from := "s\n1. " + planted;
    assert from[0] == 's' && from[|from| - 1] == planted[|planted| - 1];
    TrimmedStays(from);
    TrimmedStays("");
    hide Strip, Meta;
    MetaText(Planting(title, planted));
  }

  /** A line with a break in it is two lines. */
  lemma BrokenLine(head: string, a: string, b: string)
    ensures Join("\n", [head] + [a + "\n" + b]) == Join("\n", [head, a, b])
  {
    hide Join;
    JoinTwo("\n", head, a + "\n" + b);
    JoinTwo("\n", a, b);
    JoinAppend("\n", [head], [a] + [b]);
    JoinFew("\n", head);
    assert [head] + ([a] + [b]) == [head, a, b];
  }

  lemma PlantedLine(planted: string)
    ensures "   " + ("Source" + ": " + ("s\n1. " + planted)) == "   " + ("Source" + ": " + "s") + "\n" + ("1" + ". " + planted)
  {
    assert "s\n1. " == "s" + "\n" + "1" + ". ";
  }

  lemma PlantedEntry(title: string, planted: string)
    requires title != "" && Trimmed(title)
    requires Meta(Planting(title, planted)) != ""
    ensures EntriesFrom(1, [Planting(title, planted)]) ==
            [Decimal(1) + ". " + title] + ["   " + Meta(Planting(title, planted))]
  {
    TrimmedStays(title);
    TrimmedStays("");
    hide Strip, Meta, Decimal;
    assert [Planting(title, planted)][1..] == [];
  }

  lemma PlantedText(title: string, planted: string)
    requires title != "" && Trimmed(title) && planted != "" && Trimmed(planted)
    ensures Rendered([Planting(title, planted)], "") == Join("\n", PlantedLines(title, planted))
  {
    hide Strip, Meta, Decimal, Join, EntriesFrom, Trimmed;
    PlantedMeta(title, planted);
    PlantedEntry(title, planted);
    PlantedLine(planted);
    OneIsDecimal();
    BrokenLine(Decimal(1) + ". " + title, "   " + ("Source" + ": " + "s"), Decimal(1) + ". " + planted);
    assert NoticeLines("") + EntriesFrom(1, [Planting(title, planted)]) == EntriesFrom(1, [Planting(title, planted)]);
  }

  lemma OneIsDecimal()
    ensures Decimal(1) == "1"
  {
  }

  /** Why: a line break in a source can put a result of its own after the one it belongs to. */
  lemma SourceInjectsResult(title: string, planted: string, source: string)
    requires title != "" && Trimmed(title) && OneLine(title) && planted != "" && Trimmed(planted) && OneLine(planted)
    ensures Parsed(Rendered([Planting(title, planted)], ""), source) == [Titled(title, source), Titled(planted, source)]
  {
    hide Read, ReadAll, SplitLines, Strip, Decimal, Rendered, Join, OneLine;
    var lines, start := PlantedLines(title, planted), State(None, []);
    PlantedText(title, planted);
    PlantedAreOneLine(title, planted);
    SplitJoined(lines);
    ReadHeadline(start, 1, title, source);
    var first := start.(current := Some(Titled(title, source)));
    ReadTagged(first, Titled(title, source), SourceTag, "s", source);
    ReadHeadline(first, 1, planted, source);
    ReadOne(start, lines[0], source);
    ReadOne(first, lines[1], source);
    ReadOne(first, lines[2], source);
    assert lines == [lines[0]] + [lines[1]] + [lines[2]];
    ReadInTwoParts(start, [lines[0]], [lines[1]], source);
    ReadInTwoParts(start, [lines[0]] + [lines[1]], [lines[2]], source);
  }

  lemma PlantedAreOneLine(title: string, planted: string)
    requires OneLine(title) && OneLine(planted)
    ensures OneLineEach(PlantedLines(title, planted))
  {
    HeadIsOneLine(1, title);
    HeadIsOneLine(1, planted);
    assert OneLine("   " + ("Source" + ": " + "s"));
    hide OneLine, Decimal;
  }
}
