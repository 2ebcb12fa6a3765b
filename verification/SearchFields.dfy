/** Which characters break lines and which keys open fields in the text of search results. */
module SearchFields {
  import opened Text
  import opened SearchText

  // Lines.

  /** The ten characters that break a line, by their code points. */
  lemma BreaksExactly(c: char)
    ensures IsBreak(c) <==> c as int in {10, 11, 12, 13, 28, 29, 30, 133, 8232, 8233}
  {
  }

  /** A text splits behind each break, where a carriage return takes its line feed along. */
  lemma SplitsAt(line: string, c: char, rest: string)
    requires OneLine(line) && IsBreak(c)
    ensures c == '\r' && rest != "" && rest[0] == '\n' ==> SplitLines(line + [c] + rest) == [line] + SplitLines(rest[1..])
    ensures !(c == '\r' && rest != "" && rest[0] == '\n') ==> SplitLines(line + [c] + rest) == [line] + SplitLines(rest)
  {
    var tail := [c] + rest;
    assert line + [c] + rest == line + tail;
    assert tail[1..] == rest && (rest != "" ==> tail[1] == rest[0] && tail[2..] == rest[1..]);
    hide IsBreak, SplitLines;
    SplitBefore(line, tail);
  }

  // Keys.

  /** The keys a field line may start with, in any case of letters. */
  datatype FieldKey = Title | Url | Summary | Snippet | Description | PublishedKey | Date

  function KeyText(key: FieldKey): string {
    match key
    case Title => "title"
    case Url => "url"
    case Summary => "summary"
    case Snippet => "snippet"
    case Description => "description"
    case PublishedKey => "published"
    case Date => "date"
  }

  predicate Fills(key: FieldKey, field: Field) {
    match key
    case Title => field == TitleField
    case Url => field == UrlField
    case Summary => field == SnippetField
    case Snippet => field == SnippetField
    case Description => field == SnippetField
    case PublishedKey => field == PublishedField
    case Date => field == PublishedField
  }

  lemma KeysDiffer(key: FieldKey, other: FieldKey)
    requires key != other
    ensures KeyText(key)[0] != KeyText(other)[0] || KeyText(key)[1] != KeyText(other)[1]
    ensures |KeyText(key)| > 1 && |KeyText(other)| > 1
  {
  }

  lemma BlanksBefore(blanks: string, rest: string)
    requires IsBlank(blanks) && (rest == "" || !IsSpace(rest[0]))
    ensures StripLeft(blanks + rest) == rest
    decreases |blanks|
  {
    if blanks == "" {
      assert blanks + rest == rest;
    } else {
      BlanksBefore(blanks[1..], rest);
      assert (blanks + rest)[1..] == blanks[1..] + rest;
    }
  }

  lemma OwnValue(written: string, key: string, blanks: string, value: string)
    requires Lower(written) == key && IsBlank(blanks)
    ensures ValueOf(written + blanks + ":" + value, key) == Some(Strip(value))
  {
    var line, rest := written + blanks + ":" + value, ":" + value;
    assert |written| == |key| && line[..|key|] == written && line[|key|..] == blanks + rest;
    BlanksBefore(blanks, rest);
    assert rest[1..] == value;
    hide StripLeft, Strip;
  }

  lemma OtherValue(written: string, key: FieldKey, other: FieldKey, tail: string)
    requires Lower(written) == KeyText(key) && other != key
    ensures ValueOf(written + tail, KeyText(other)) == None
  {
    var line := written + tail;
    KeysDiffer(key, other);
    hide KeyText, ValueOf;
    assert Lower(line)[0] == Lower(written)[0] && Lower(line)[1] == Lower(written)[1];
    if KeyText(key)[0] != KeyText(other)[0] { NoValue(line, KeyText(other), 0); } else { NoValue(line, KeyText(other), 1); }
  }

  /** A line that is a key in any case, blanks, a colon and a value fills the key's field with the trimmed value. */
  lemma KeyedLineFills(written: string, key: FieldKey, blanks: string, value: string)
    requires Lower(written) == KeyText(key) && IsBlank(blanks)
    ensures var found := FieldOf(written + blanks + ":" + value);
            found.Some? && Fills(key, found.value.0) && found.value.1 == Strip(value)
  {
    var line := written + blanks + ":" + value;
    assert line == written + (blanks + ":" + value);
    OwnValue(written, KeyText(key), blanks, value);
    forall other | other != key ensures ValueOf(line, KeyText(other)) == None { OtherValue(written, key, other, blanks + ":" + value); }
    ByKey(line);
    hide ValueOf, Strip;
  }

  /** A line fills no field unless one of the keys has a value in it. */
  lemma ByKey(line: string)
    ensures FieldOf(line) == None <==> forall key: FieldKey :: ValueOf(line, KeyText(key)) == None
    ensures FieldOf(line) != None ==>
              exists key: FieldKey :: ValueOf(line, KeyText(key)) == Some(FieldOf(line).value.1) && Fills(key, FieldOf(line).value.0)
  {
    hide ValueOf;
    assert KeyText(Title) == "title" && KeyText(Url) == "url" && KeyText(Summary) == "summary" && KeyText(Snippet) == "snippet";
    assert KeyText(Description) == "description" && KeyText(PublishedKey) == "published" && KeyText(Date) == "date";
  }

  // The printed entry.

  /** How a result with all its fields is printed. */
  lemma EntryPrinted(index: nat, r: SearchResult)
    requires Strip(r.title) != "" && Strip(r.url) != "" && Strip(r.snippet) != "" && Strip(r.source) != "" && Strip(r.published) != ""
    ensures EntryLines(index, r) == [
              Decimal(index) + ". " + Strip(r.title),
              "   URL: " + Strip(r.url),
              "   Summary: " + Strip(r.snippet),
              "   " + ("Source: " + Strip(r.source) + " · " + ("Published: " + Strip(r.published)))]
  {
    hide Strip, Decimal;
    var source, published := "Source: " + Strip(r.source), "Published: " + Strip(r.published);
    JoinTwo(" · ", source, published);
    assert [source] + [published] == [source, published];
    assert Meta(r) == source + " · " + published;
  }

  /** A result without a title is headed by its URL, and a field that is blank has no line. */
  lemma BareEntryPrinted(index: nat, r: SearchResult)
    requires Strip(r.title) == "" && Strip(r.snippet) == "" && Strip(r.source) == "" && Strip(r.published) == ""
    ensures EntryLines(index, r) ==
            [Decimal(index) + ". " + Strip(r.url)] + if Strip(r.url) == "" then [] else ["   URL: " + Strip(r.url)]
  {
    hide Strip, Decimal;
    assert Meta(r) == "";
  }
}
