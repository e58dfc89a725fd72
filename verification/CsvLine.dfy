/** The quote-aware splitter of one CSV line, and why it undoes quoting. */
module CsvLines {

  // ---------------------------------------------------------------- trimming

  /** The characters that trimming removes: white space and line terminators. */
  predicate IsBlank(c: char) {
    || '\t' <= c <= '\r'
    || c == ' '
    || c == '\U{00A0}'
    || c == '\U{1680}'
    || '\U{2000}' <= c <= '\U{200A}'
    || c == '\U{2028}'
    || c == '\U{2029}'
    || c == '\U{202F}'
    || c == '\U{205F}'
    || c == '\U{3000}'
    || c == '\U{FEFF}'
  }

  function TrimStart(s: string): string {
    if s != "" && IsBlank(s[0]) then TrimStart(s[1..]) else s
  }

  function TrimEnd(s: string): string {
    if s != "" && IsBlank(s[|s| - 1]) then TrimEnd(s[..|s| - 1]) else s
  }

  function Trim(s: string): string {
    TrimEnd(TrimStart(s))
  }

  ghost predicate AllBlank(s: string) {
    forall c :: c in s ==> IsBlank(c)
  }

  ghost predicate Trimmed(s: string) {
    s != "" ==> !IsBlank(s[0]) && !IsBlank(s[|s| - 1])
  }

  lemma {:induction false} TrimStartIsSuffix(s: string)
    ensures |TrimStart(s)| <= |s| && s[|s| - |TrimStart(s)|..] == TrimStart(s)
    ensures AllBlank(s[..|s| - |TrimStart(s)|])
    ensures TrimStart(s) != "" ==> !IsBlank(TrimStart(s)[0])
  {
    if s != "" && IsBlank(s[0]) {
      TrimStartIsSuffix(s[1..]);
      var n := |s| - |TrimStart(s)|;
      assert s[..n] == [s[0]] + s[1..][..n - 1];
    } else {
      assert s[|s| - |TrimStart(s)|..] == s;
    }
  }

  lemma {:induction false} TrimEndIsPrefix(s: string)
    ensures |TrimEnd(s)| <= |s| && s[..|TrimEnd(s)|] == TrimEnd(s)
    ensures AllBlank(s[|TrimEnd(s)|..])
    ensures TrimEnd(s) != "" ==> !IsBlank(TrimEnd(s)[|TrimEnd(s)| - 1])
  {
    if s != "" && IsBlank(s[|s| - 1]) {
      TrimEndIsPrefix(s[..|s| - 1]);
      var n := |TrimEnd(s)|;
      assert s[n..] == s[..|s| - 1][n..] + [s[|s| - 1]];
    } else {
      assert s[..|TrimEnd(s)|] == s;
    }
  }

  /** Trimming takes blanks, and nothing but blanks, off both ends. */
  lemma TrimIsExact(s: string)
    ensures exists i, j :: 0 <= i <= j <= |s| && Trim(s) == s[i..j] && AllBlank(s[..i]) && AllBlank(s[j..])
    ensures Trimmed(Trim(s))
  {
    var t := TrimStart(s);
    TrimStartIsSuffix(s);
    TrimEndIsPrefix(t);
    var i := |s| - |t|;
    var j := i + |Trim(s)|;
    assert Trim(s) == s[i..j];
    assert s[j..] == t[|Trim(s)|..];
  }

  // ---------------------------------------------------------------- splitting

  /** The fields of the rest of a line, when `current` was read of the first one. */
  function Fields(rest: string, current: string, inQuotes: bool): (fields: seq<string>)
    decreases |rest|
  {
    if rest == "" then [current]
    else if rest[0] == '"' then
      if inQuotes && |rest| > 1 && rest[1] == '"' then Fields(rest[2..], current + "\"", inQuotes)
      else Fields(rest[1..], current, !inQuotes)
    else if rest[0] == ',' && !inQuotes then [current] + Fields(rest[1..], "", inQuotes)
    else Fields(rest[1..], current + [rest[0]], inQuotes)
  }

  function TrimAll(fields: seq<string>): (trimmed: seq<string>)
    ensures |trimmed| == |fields|
    ensures forall i :: 0 <= i < |fields| ==> trimmed[i] == Trim(fields[i])
  {
    if fields == [] then [] else [Trim(fields[0])] + TrimAll(fields[1..])
  }

  function Split(line: string): seq<string> {
    TrimAll(Fields(line, "", false))
  }

  /** The index loop, which skips the second of two quotes by stepping the index itself. */
  method SplitCsvLine(line: string) returns (result: seq<string>)
    ensures result == Split(line)
  {
    result := [];
    var curr, inQuotes, i := "", false, 0;
    while i < |line|
      invariant 0 <= i <= |line|
      invariant Fields(line, "", false) == result + Fields(line[i..], curr, inQuotes)
    {
      var ch := line[i];
      assert line[i..][0] == ch && line[i..][1..] == line[i + 1..];
      if ch == '"' {
        if inQuotes && i + 1 < |line| && line[i + 1] == '"' {
          assert line[i..][1] == '"' && line[i..][2..] == line[i + 2..];
          curr := curr + "\"";
          i := i + 1;
        } else {
          assert !(inQuotes && |line[i..]| > 1 && line[i..][1] == '"');
          inQuotes := !inQuotes;
        }
      } else if ch == ',' && !inQuotes {
        result := result + [curr];
        curr := "";
      } else {
        curr := curr + [ch];
      }
      i := i + 1;
    }
    result := result + [curr];
    result := TrimFields(result);
  }

  method TrimFields(fields: seq<string>) returns (trimmed: seq<string>)
    ensures trimmed == TrimAll(fields)
  {
    trimmed := [];
    for n := 0 to |fields|
      invariant |trimmed| == n && forall i :: 0 <= i < n ==> trimmed[i] == Trim(fields[i])
    {
      trimmed := trimmed + [Trim(fields[n])];
    }
    assert trimmed == TrimAll(fields);
  }

  // ---------------------------------------------------------------- printing

  /** A field as section 2 of RFC 4180 prints it. */
  datatype Printed = Bare(text: string) | Quoted(text: string)

  predicate Printable(field: Printed) {
    field.Bare? ==> ',' !in field.text && '"' !in field.text
  }

  function Doubled(text: string): string {
    if text == "" then "" else (if text[0] == '"' then "\"\"" else [text[0]]) + Doubled(text[1..])
  }

  function Print(field: Printed): string {
    match field
    case Bare(text) => text
    case Quoted(text) => "\"" + Doubled(text) + "\""
  }

  function PrintLine(fields: seq<Printed>): string
    requires fields != []
  {
    if |fields| == 1 then Print(fields[0]) else Print(fields[0]) + "," + PrintLine(fields[1..])
  }

  function Texts(fields: seq<Printed>): (texts: seq<string>)
    ensures |texts| == |fields|
    ensures forall i :: 0 <= i < |fields| ==> texts[i] == fields[i].text
  {
    if fields == [] then [] else [fields[0].text] + Texts(fields[1..])
  }

  /** Ordinary characters outside quotes are read as they are. */
  lemma {:induction false} BareIsRead(text: string, rest: string, current: string)
    requires ',' !in text && '"' !in text
    ensures Fields(text + rest, current, false) == Fields(rest, current + text, false)
  {
    if text == "" {
      assert text + rest == rest && current + text == current;
    } else {
      assert text == [text[0]] + text[1..];
      assert (text + rest)[0] == text[0] && (text + rest)[1..] == text[1..] + rest;
      BareIsRead(text[1..], rest, current + [text[0]]);
      assert current + [text[0]] + text[1..] == current + text;
    }
  }

  /** Inside quotes doubled quotes are halved and everything else is read as it is, up to the closing quote. */
  lemma {:induction false} QuotedIsRead(text: string, rest: string, current: string)
    requires rest == "" || rest[0] != '"'
    ensures Fields(Doubled(text) + "\"" + rest, current, true) == Fields(rest, current + text, false)
  {
    var line := Doubled(text) + "\"" + rest;
    if text == "" {
      assert line[0] == '"' && line[1..] == rest && current + text == current;
    } else {
      var tail := Doubled(text[1..]) + "\"" + rest;
      QuotedIsRead(text[1..], rest, current + [text[0]]);
      assert current + [text[0]] + text[1..] == current + text;
      if text[0] == '"' {
        assert line[0] == '"' && line[1] == '"' && line[2..] == tail;
        assert current + "\"" == current + [text[0]];
      } else {
        assert line[0] == text[0] && line[1..] == tail;
      }
    }
  }

  lemma FieldIsRead(field: Printed, rest: string)
    requires Printable(field) && (rest == "" || rest[0] != '"')
    ensures Fields(Print(field) + rest, "", false) == Fields(rest, field.text, false)
  {
    hide Fields;
    assert "" + field.text == field.text;
    if field.Bare? {
      BareIsRead(field.text, rest, "");
    } else {
      QuoteOpens(Doubled(field.text) + "\"" + rest);
      assert Print(field) + rest == "\"" + (Doubled(field.text) + "\"" + rest);
      QuotedIsRead(field.text, rest, "");
    }
  }

  lemma QuoteOpens(rest: string)
    ensures Fields("\"" + rest, "", false) == Fields(rest, "", true)
  {
    assert ("\"" + rest)[1..] == rest;
  }

  lemma EndSplits(current: string)
    ensures Fields("", current, false) == [current]
  {
  }

  lemma CommaSplits(rest: string, current: string)
    ensures Fields("," + rest, current, false) == [current] + Fields(rest, "", false)
  {
    assert ("," + rest)[1..] == rest;
  }

  lemma {:induction false} LineIsRead(fields: seq<Printed>)
    requires fields != [] && forall f :: f in fields ==> Printable(f)
    ensures Fields(PrintLine(fields), "", false) == Texts(fields)
  {
    hide Fields, Print;
    if |fields| == 1 {
      FieldIsRead(fields[0], "");
      assert Print(fields[0]) + "" == Print(fields[0]);
      EndSplits(fields[0].text);
    } else {
      var rest := PrintLine(fields[1..]);
      FieldIsRead(fields[0], "," + rest);
      assert PrintLine(fields) == Print(fields[0]) + ("," + rest);
      CommaSplits(rest, fields[0].text);
      LineIsRead(fields[1..]);
    }
  }

  /**
   * Splitting undoes printing, for every non-empty list of fields, each printed bare or quoted; quoted fields may
   * hold commas, quotes and even line breaks.
   */
  lemma SplitUndoesPrinting(fields: seq<Printed>)
    requires fields != [] && forall f :: f in fields ==> Printable(f)
    ensures |Split(PrintLine(fields))| == |fields|
    ensures forall i :: 0 <= i < |fields| ==> Split(PrintLine(fields))[i] == Trim(fields[i].text)
  {
    LineIsRead(fields);
  }

  /** How many commas stand outside quotes. */
  function Separators(line: string, inQuotes: bool): nat {
    if line == "" then 0
    else
      (if line[0] == ',' && !inQuotes then 1 else 0) +
      Separators(line[1..], if line[0] == '"' then !inQuotes else inQuotes)
  }

  /** On any line at all, well quoted or not, there is one field more than there are commas outside quotes. */
  lemma {:induction false} OneFieldPerSeparator(rest: string, current: string, inQuotes: bool)
    ensures |Fields(rest, current, inQuotes)| == 1 + Separators(rest, inQuotes)
    decreases |rest|
  {
    if rest == "" {
    } else {
      if rest[0] == '"' {
        if inQuotes && |rest| > 1 && rest[1] == '"' {
          OneFieldPerSeparator(rest[2..], current + "\"", inQuotes);
          assert rest[1..][1..] == rest[2..];
        } else {
          OneFieldPerSeparator(rest[1..], current, !inQuotes);
        }
      } else if rest[0] == ',' && !inQuotes {
        OneFieldPerSeparator(rest[1..], "", inQuotes);
      } else {
        OneFieldPerSeparator(rest[1..], current + [rest[0]], inQuotes);
      }
    }
  }

  function Quotes(s: string): nat {
    if s == "" then 0 else (if s[0] == '"' then 1 else 0) + Quotes(s[1..])
  }

  /** Whether the text ends inside quotes: with every quote, doubled or not, the state alternates. */
  predicate EndsInQuotes(s: string, inQuotes: bool) {
    (Quotes(s) + if inQuotes then 1 else 0) % 2 == 1
  }

  /** On any line at all, a comma behind an even number of quotes ends a field, whatever stands on both sides of it. */
  lemma {:induction false} SplitsAtComma(before: string, after: string, current: string, inQuotes: bool)
    requires !EndsInQuotes(before, inQuotes)
    ensures Fields(before + "," + after, current, inQuotes) == Fields(before, current, inQuotes) + Fields(after, "", false)
    decreases |before|
  {
    var line := before + "," + after;
    if before == "" {
      assert line[0] == ',' && line[1..] == after;
    } else {
      assert line[0] == before[0] && line[1..] == before[1..] + "," + after;
      if before[0] == '"' {
        if inQuotes && |before| > 1 && before[1] == '"' {
          assert line[1] == '"' && line[2..] == before[2..] + "," + after;
          assert before[1..][0] == '"' && before[1..][1..] == before[2..];
          SplitsAtComma(before[2..], after, current + "\"", inQuotes);
        } else {
          assert |before| == 1 ==> line[1] == ',';
          SplitsAtComma(before[1..], after, current, !inQuotes);
        }
      } else if before[0] == ',' && !inQuotes {
        SplitsAtComma(before[1..], after, "", inQuotes);
      } else {
        SplitsAtComma(before[1..], after, current + [before[0]], inQuotes);
      }
    }
  }

  /** The line without its quotes, of which doubled ones inside quotes leave one. */
  function Unquoted(line: string, inQuotes: bool): string {
    if line == "" then ""
    else if line[0] != '"' then [line[0]] + Unquoted(line[1..], inQuotes)
    else if inQuotes && line[1..] != "" && line[1] == '"' then "\"" + Unquoted(line[2..], inQuotes)
    else Unquoted(line[1..], !inQuotes)
  }

  function JoinedBy(fields: seq<string>): string
    requires fields != []
  {
    if |fields| == 1 then fields[0] else fields[0] + "," + JoinedBy(fields[1..])
  }

  lemma JoinsFirst(first: string, rest: seq<string>)
    requires rest != []
    ensures JoinedBy([first] + rest) == first + "," + JoinedBy(rest)
  {
    assert ([first] + rest)[1..] == rest;
  }

  /** On any line at all, nothing is lost or made up: joined again, the untrimmed fields are the line without its quotes. */
  lemma {:induction false} TextIsKept(rest: string, current: string, inQuotes: bool)
    ensures Fields(rest, current, inQuotes) != []
    ensures JoinedBy(Fields(rest, current, inQuotes)) == current + Unquoted(rest, inQuotes)
    decreases |rest|
  {
    if rest == "" {
    } else if rest[0] == '"' {
      if inQuotes && |rest| > 1 && rest[1] == '"' {
        TextIsKept(rest[2..], current + "\"", inQuotes);
      } else {
        TextIsKept(rest[1..], current, !inQuotes);
      }
    } else if rest[0] == ',' && !inQuotes {
      TextIsKept(rest[1..], "", inQuotes);
      JoinsFirst(current, Fields(rest[1..], "", inQuotes));
    } else {
      TextIsKept(rest[1..], current + [rest[0]], inQuotes);
    }
  }

  /** Only blank texts are trimmed to nothing. */
  lemma {:induction false} BlankIsTrimmedAway(s: string)
    ensures Trim(s) == "" <==> AllBlank(s)
  {
    hide Trim, IsBlank;
    TrimIsExact(s);
    if Trim(s) != "" {
      var i, j :| 0 <= i <= j <= |s| && Trim(s) == s[i..j] && AllBlank(s[..i]) && AllBlank(s[j..]);
      assert Trim(s)[0] == s[i] && s[i] in s;
    } else {
      var i, j :| 0 <= i <= j <= |s| && Trim(s) == s[i..j] && AllBlank(s[..i]) && AllBlank(s[j..]);
      assert i == j && s == s[..i] + s[i..];
    }
  }
}
