/** CSV field quoting as both export functions do it (`escapeCSV` at app/lookup/page.tsx:187-192
    and app/page.tsx:330-335), in the manner of section 2 of RFC 4180: a field holding a
    comma, a double quote or a line feed is enclosed in double quotes, with each embedded
    double quote doubled; any other field is written as it is. Unlike RFC 4180, records are
    joined by a bare line feed rather than CRLF, and a field holding a carriage return but
    no line feed is left unquoted. */
module Csv {
  import opened Strings

  /** The field needs quoting: it holds `,`, `"` or `\n`. */
  predicate NeedsQuotes(v: string) {
    ',' in v || '"' in v || '\n' in v
  }

  /** `v.replace(/"/g, '""')`. */
  function DoubleQuotes(v: string): (r: string)
    ensures |r| >= |v|
    ensures '"' !in v ==> r == v
    decreases |v|
  {
    if v == [] then []
    else (if v[0] == '"' then "\"\"" else [v[0]]) + DoubleQuotes(v[1..])
  }

  /** The reader's side: a pair of double quotes stands for one. */
  function UndoubleQuotes(s: string): (r: string)
    decreases |s|
  {
    if s == [] then []
    else if |s| >= 2 && s[0] == '"' && s[1] == '"' then "\"" + UndoubleQuotes(s[2..])
    else [s[0]] + UndoubleQuotes(s[1..])
  }

  lemma {:induction false} UndoubleDouble(v: string)
    ensures UndoubleQuotes(DoubleQuotes(v)) == v
    decreases |v|
  {
    if v != [] {
      UndoubleDouble(v[1..]);
      var rest := DoubleQuotes(v[1..]);
      if v[0] == '"' {
        assert DoubleQuotes(v) == "\"\"" + rest;
        assert (("\"\"" + rest)[2..]) == rest;
      } else {
        assert DoubleQuotes(v) == [v[0]] + rest;
        assert ([v[0]] + rest)[1..] == rest;
      }
    }
  }

  /** `escapeCSV`. */
  function EscapeCsv(v: string): (r: string)
    ensures !NeedsQuotes(v) ==> r == v
    ensures NeedsQuotes(v) ==> |r| >= |v| + 2 && r[0] == '"' && r[|r| - 1] == '"'
  {
    if NeedsQuotes(v) then "\"" + DoubleQuotes(v) + "\"" else v
  }

  /** How a reader of section 2 of RFC 4180 reads one field back: a field enclosed in
      double quotes loses them and has its doubled quotes undoubled. */
  function UnescapeCsv(f: string): (r: string)
  {
    if |f| >= 2 && f[0] == '"' && f[|f| - 1] == '"' then UndoubleQuotes(f[1..|f| - 1]) else f
  }

  /** Every value survives quoting: reading the escaped field gives the value back. */
  lemma {:induction false} EscapeRoundTrip(v: string)
    ensures UnescapeCsv(EscapeCsv(v)) == v
  {
    if NeedsQuotes(v) {
      var d := DoubleQuotes(v);
      var f := "\"" + d + "\"";
      assert f[1..|f| - 1] == d;
      UndoubleDouble(v);
    } else {
      assert |v| == 0 || v[0] != '"';
    }
  }

  function EscapeAll(row: seq<string>): (r: seq<string>)
    ensures |r| == |row|
    ensures forall k :: 0 <= k < |row| ==> r[k] == EscapeCsv(row[k])
  {
    seq(|row|, k requires 0 <= k < |row| => EscapeCsv(row[k]))
  }

  /** `row.map(escapeCSV).join(',')`. */
  function RowLine(row: seq<string>): string {
    Join(EscapeAll(row), ",")
  }

  /** `[headers.join(','), ...rows.map(...)].join('\n')`: the header row is not escaped. */
  function Document(headers: seq<string>, rows: seq<seq<string>>): (r: string)
  {
    Join([Join(headers, ",")] + seq(|rows|, k requires 0 <= k < |rows| => RowLine(rows[k])), "\n")
  }

  /** The lines of the document: the header line, then one line per row. */
  function DocumentLines(headers: seq<string>, rows: seq<seq<string>>): (r: seq<string>)
    ensures |r| == |rows| + 1
    ensures r[0] == Join(headers, ",")
    ensures forall k :: 0 <= k < |rows| ==> r[k + 1] == RowLine(rows[k])
    ensures Document(headers, rows) == Join(r, "\n")
  {
    [Join(headers, ",")] + seq(|rows|, k requires 0 <= k < |rows| => RowLine(rows[k]))
  }
}
