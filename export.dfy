/**
 * The text built by the export buttons: the CSV content of downloadCsv (a byte-order mark,
 * a fixed header line, one quoted row per video) and the worksheet rows and column widths
 * of downloadXlsx. A reader for quoted records, with the quoting of section 2 of RFC 4180
 * but LF line breaks as downloadCsv writes them, is the reference against which the CSV
 * text is checked.
 */
module Export {
  import opened Wrappers
  import opened Text
  import opened Types
  import opened Formatting

  const ByteOrderMark: char := '\U{FEFF}'

  const TitleHeader := "Título do Vídeo"
  const ViewsHeader := "Visualizações"
  const DateHeader := "Data de Publicação"

  /** The first line: the three column names, each in double quotes. */
  const CsvHeader := "\"" + TitleHeader + "\",\"" + ViewsHeader + "\",\"" + DateHeader + "\"" + "\n"

  // ---------------------------------------------------------------------------------
  // CSV text

  /** `.replace(/"/g, '""')`: every double quote doubled. */
  function EscapeQuotes(s: string): string {
    if s == [] then []
    else (if s[0] == '"' then "\"\"" else [s[0]]) + EscapeQuotes(s[1..])
  }

  /** The views column: formatBrazilianNumber of the views string. */
  function ViewsField(v: VideoData): string {
    FormatBrazilianNumber(Str(v.views))
  }

  /** The date column: formatIsoDateToBrazilian of the publication date. */
  function DateField(v: VideoData, parseDate: string -> Option<UtcDate>): string {
    FormatIsoDateToBrazilian(v.publishedAt, parseDate)
  }

  /** One CSV row: the escaped title, then the two formatted values as they are, each quoted. */
  function CsvRow(v: VideoData, parseDate: string -> Option<UtcDate>): string {
    "\"" + EscapeQuotes(v.title) + "\",\"" + ViewsField(v) + "\",\"" + DateField(v, parseDate) + "\""
  }

  function CsvRows(videos: seq<VideoData>, parseDate: string -> Option<UtcDate>): (rows: seq<string>)
    ensures |rows| == |videos|
  {
    seq(|videos|, i requires 0 <= i < |videos| => CsvRow(videos[i], parseDate))
  }

  /** What downloadCsv writes into the file: the mark, the header, the rows joined by '\n'. */
  function CsvContent(videos: seq<VideoData>, parseDate: string -> Option<UtcDate>): string {
    [ByteOrderMark] + CsvHeader + Join(CsvRows(videos, parseDate), "\n")
  }

  // ---------------------------------------------------------------------------------
  // Quoted records: the quoting of section 2 of RFC 4180, with LF line breaks

  /** A field written in double quotes, its quotes doubled. */
  function Quote(field: string): string {
    "\"" + EscapeQuotes(field) + "\""
  }

  /** Quoted fields separated by commas. */
  function RenderRecord(fields: seq<string>): string
    requires |fields| >= 1
  {
    if |fields| == 1 then Quote(fields[0]) else Quote(fields[0]) + "," + RenderRecord(fields[1..])
  }

  function RenderedRecords(records: seq<seq<string>>): (rs: seq<string>)
    requires forall i :: 0 <= i < |records| ==> |records[i]| >= 1
    ensures |rs| == |records|
  {
    seq(|records|, i requires 0 <= i < |records| => RenderRecord(records[i]))
  }

  /**
   * The inside of a quoted field, after its opening quote: the field's text, a doubled
   * quote read as one quote, and the text after the closing quote.
   */
  function ReadQuoted(s: string): (r: Option<(string, string)>)
    ensures r.Some? ==> |r.value.1| < |s|
  {
    if s == [] then None
    else if s[0] == '"' then
      if |s| >= 2 && s[1] == '"' then
        match ReadQuoted(s[2..])
        case None => None
        case Some(p) => Some((['"'] + p.0, p.1))
      else Some(([], s[1..]))
    else
      match ReadQuoted(s[1..])
      case None => None
      case Some(p) => Some(([s[0]] + p.0, p.1))
  }

  /** One record: quoted fields separated by commas, up to a line break (consumed) or the end. */
  function ReadRecord(s: string): (r: Option<(seq<string>, string)>)
    ensures r.Some? ==> |r.value.1| < |s| && |r.value.0| >= 1
    decreases |s|
  {
    if s == [] || s[0] != '"' then None
    else match ReadQuoted(s[1..])
      case None => None
      case Some(p) =>
        var rest := p.1;
        if rest == [] then Some(([p.0], []))
        else if rest[0] == '\n' then Some(([p.0], rest[1..]))
        else if rest[0] == ',' then
          match ReadRecord(rest[1..])
          case None => None
          case Some(q) => Some(([p.0] + q.0, q.1))
        else None
  }

  /** All records of a text, in order. */
  function ReadRecords(s: string): Option<seq<seq<string>>>
    decreases |s|
  {
    if s == [] then Some([])
    else match ReadRecord(s)
      case None => None
      case Some(p) =>
        match ReadRecords(p.1)
        case None => None
        case Some(rs) => Some([p.0] + rs)
  }

  /** Reading an escaped text back stops at the quote that closes it and recovers the text. */
  lemma {:induction false} ReadEscaped(t: string, rest: string)
    requires rest == [] || rest[0] != '"'
    ensures ReadQuoted(EscapeQuotes(t) + "\"" + rest) == Some((t, rest))
  {
    var s := EscapeQuotes(t) + "\"" + rest;
    if t == [] {
      assert s == "\"" + rest;
      assert s[1..] == rest;
    } else {
      ReadEscaped(t[1..], rest);
      var tail := EscapeQuotes(t[1..]) + "\"" + rest;
      if t[0] == '"' {
        assert s == "\"\"" + tail;
        assert s[2..] == tail;
        assert ['"'] + t[1..] == t;
      } else {
        assert s == [t[0]] + tail;
        assert s[1..] == tail;
        assert [t[0]] + t[1..] == t;
      }
    }
  }

  /** A quoted field read back, with what follows its closing quote. */
  lemma ReadQuotedField(f: string, after: string)
    requires after == [] || after[0] != '"'
    ensures var s := Quote(f) + after;
            s != [] && s[0] == '"' && ReadQuoted(s[1..]) == Some((f, after))
  {
    var s := Quote(f) + after;
    assert s == "\"" + (EscapeQuotes(f) + "\"" + after);
    assert s[0] == '"' && s[1..] == EscapeQuotes(f) + "\"" + after;
    ReadEscaped(f, after);
  }

  /** A last field: the record ends there, consuming the line break if any. */
  lemma ReadLastField(f: string, tail: string)
    requires tail == [] || tail[0] == '\n'
    ensures ReadRecord(Quote(f) + tail) == Some(([f], if tail == [] then [] else tail[1..]))
  {
    ReadQuotedField(f, tail);
  }

  /** A field followed by a comma: the record goes on with the next field. */
  lemma ReadNextField(f: string, rest: string)
    ensures ReadRecord(Quote(f) + "," + rest) ==
              match ReadRecord(rest)
              case None => None
              case Some(q) => Some(([f] + q.0, q.1))
  {
    var after := "," + rest;
    assert Quote(f) + "," + rest == Quote(f) + after;
    ReadQuotedField(f, after);
    assert after[0] == ',' && after[1..] == rest;
  }

  /** A rendered record followed by a line break or the end reads back as its fields. */
  lemma {:induction false} ReadRendered(fields: seq<string>, tail: string)
    requires |fields| >= 1
    requires tail == [] || tail[0] == '\n'
    ensures ReadRecord(RenderRecord(fields) + tail) == Some((fields, if tail == [] then [] else tail[1..]))
  {
    if |fields| == 1 {
      ReadLastField(fields[0], tail);
      assert fields == [fields[0]];
    } else {
      var rest := RenderRecord(fields[1..]) + tail;
      assert RenderRecord(fields) + tail == Quote(fields[0]) + "," + rest;
      ReadNextField(fields[0], rest);
      ReadRendered(fields[1..], tail);
      assert [fields[0]] + fields[1..] == fields;
    }
  }

  /** Records rendered and joined by line breaks read back as the same records. */
  lemma {:induction false} ReadJoined(records: seq<seq<string>>)
    requires forall i :: 0 <= i < |records| ==> |records[i]| >= 1
    ensures ReadRecords(Join(RenderedRecords(records), "\n")) == Some(records)
  {
    var rendered := RenderedRecords(records);
    if |records| == 1 {
      ReadRendered(records[0], []);
      assert RenderRecord(records[0]) + [] == RenderRecord(records[0]);
      assert Join(rendered, "\n") == RenderRecord(records[0]);
      assert ReadRecords([]) == Some([]);
      assert [records[0]] + [] == records;
    } else if |records| > 1 {
      var rest := Join(rendered[1..], "\n");
      assert rendered[1..] == RenderedRecords(records[1..]);
      ReadRendered(records[0], "\n" + rest);
      assert RenderRecord(records[0]) + "\n" + rest == RenderRecord(records[0]) + ("\n" + rest);
      assert ("\n" + rest)[1..] == rest;
      ReadJoined(records[1..]);
      assert [records[0]] + records[1..] == records;
    }
  }

  lemma {:induction false} EscapeQuoteFree(s: string)
    requires '"' !in s
    ensures EscapeQuotes(s) == s
  {
    if s != [] {
      EscapeQuoteFree(s[1..]);
    }
  }

  /** Doubling every quote and collapsing every doubled quote again gives the original text. */
  function CollapseQuotes(e: string): string {
    if e == [] then []
    else if |e| >= 2 && e[0] == '"' && e[1] == '"' then ['"'] + CollapseQuotes(e[2..])
    else [e[0]] + CollapseQuotes(e[1..])
  }

  lemma {:induction false} CollapseEscaped(t: string)
    ensures CollapseQuotes(EscapeQuotes(t)) == t
  {
    if t != [] {
      var e := EscapeQuotes(t);
      CollapseEscaped(t[1..]);
      if t[0] == '"' {
        assert e == "\"\"" + EscapeQuotes(t[1..]);
        assert e[2..] == EscapeQuotes(t[1..]);
      } else {
        assert e == [t[0]] + EscapeQuotes(t[1..]);
        assert e[1..] == EscapeQuotes(t[1..]);
      }
      assert [t[0]] + t[1..] == t;
    }
  }

  // ---------------------------------------------------------------------------------
  // The CSV text read back

  const HeaderFields: seq<string> := [TitleHeader, ViewsHeader, DateHeader]

  /** The three column values of a video, before quoting. */
  function RowFields(v: VideoData, parseDate: string -> Option<UtcDate>): (fs: seq<string>)
    ensures |fs| == 3
  {
    [v.title, ViewsField(v), DateField(v, parseDate)]
  }

  function VideoRecords(videos: seq<VideoData>, parseDate: string -> Option<UtcDate>): (rs: seq<seq<string>>)
    ensures |rs| == |videos| && forall i :: 0 <= i < |rs| ==> |rs[i]| >= 1
  {
    seq(|videos|, i requires 0 <= i < |videos| => RowFields(videos[i], parseDate))
  }

  lemma RenderThree(a: string, b: string, c: string)
    ensures RenderRecord([a, b, c]) == Quote(a) + "," + Quote(b) + "," + Quote(c)
  {
    assert [a, b, c][1..] == [b, c];
    assert [b, c][1..] == [c];
    assert RenderRecord([c]) == Quote(c);
    assert RenderRecord([b, c]) == Quote(b) + "," + Quote(c);
    assert RenderRecord([a, b, c]) == Quote(a) + "," + (Quote(b) + "," + Quote(c));
  }

  /** The row template's text between fields is a closing quote, a comma and an opening quote. */
  lemma QuotedTriple(a: string, b: string, c: string)
    ensures "\"" + a + "\",\"" + b + "\",\"" + c + "\"" ==
            ("\"" + a + "\"") + "," + ("\"" + b + "\"") + "," + ("\"" + c + "\"")
  {
    assert "\",\"" == "\"" + "," + "\"";
  }

  /** The header line is the header record followed by a line break. */
  lemma HeaderRecord()
    ensures CsvHeader == RenderRecord(HeaderFields) + "\n"
  {
    TitleHeaderQuoteFree();
    ViewsHeaderQuoteFree();
    DateHeaderQuoteFree();
    EscapeQuoteFree(TitleHeader);
    EscapeQuoteFree(ViewsHeader);
    EscapeQuoteFree(DateHeader);
    RenderThree(TitleHeader, ViewsHeader, DateHeader);
    QuotedTriple(TitleHeader, ViewsHeader, DateHeader);
  }

  /** A row whose views value has no double quote is the quoted record of its three values. */
  lemma RowRecord(v: VideoData, parseDate: string -> Option<UtcDate>)
    requires '"' !in ViewsField(v)
    ensures CsvRow(v, parseDate) == RenderRecord(RowFields(v, parseDate))
  {
    DateQuoteFree(v.publishedAt, parseDate);
    EscapeQuoteFree(ViewsField(v));
    EscapeQuoteFree(DateField(v, parseDate));
    RenderThree(v.title, ViewsField(v), DateField(v, parseDate));
    QuotedTriple(EscapeQuotes(v.title), ViewsField(v), DateField(v, parseDate));
  }

  /**
   * The CSV text is the byte-order mark followed by records that read back as the header
   * and then, one per video and in order, the title, the formatted views and the formatted
   * date; a title keeps every double quote it had. It holds when no views value has a
   * double quote of its own, since that column is written unescaped.
   */
  lemma CsvReadsBack(videos: seq<VideoData>, parseDate: string -> Option<UtcDate>)
    requires forall i :: 0 <= i < |videos| ==> '"' !in ViewsField(videos[i])
    ensures var content := CsvContent(videos, parseDate);
            |content| >= 1 && content[0] == ByteOrderMark &&
            ReadRecords(content[1..]) == Some([HeaderFields] + VideoRecords(videos, parseDate))
  {
    ContentParts(videos, parseDate);
    HeaderRecord();
    RowsRendered(videos, parseDate);
    ReadHeaderAndRows(HeaderFields, VideoRecords(videos, parseDate));
  }

  lemma ContentParts(videos: seq<VideoData>, parseDate: string -> Option<UtcDate>)
    ensures var content := CsvContent(videos, parseDate);
            |content| >= 1 && content[0] == ByteOrderMark &&
            content[1..] == CsvHeader + Join(CsvRows(videos, parseDate), "\n")
  {
    var h, j := CsvHeader, Join(CsvRows(videos, parseDate), "\n");
    assert CsvContent(videos, parseDate) == [ByteOrderMark] + (h + j);
    assert ([ByteOrderMark] + (h + j))[1..] == h + j;
  }

  /** A header record, a line break, then records joined by line breaks: all read back. */
  lemma ReadHeaderAndRows(header: seq<string>, records: seq<seq<string>>)
    requires |header| >= 1 && forall i :: 0 <= i < |records| ==> |records[i]| >= 1
    ensures ReadRecords(RenderRecord(header) + "\n" + Join(RenderedRecords(records), "\n"))
              == Some([header] + records)
  {
    if records == [] {
      assert Join(RenderedRecords(records), "\n") == [];
      ReadHeaderOnly(header);
      assert [header] + records == [header];
    } else {
      ReadHeaderThenRows(header, records);
    }
  }

  lemma ReadHeaderThenRows(header: seq<string>, records: seq<seq<string>>)
    requires |header| >= 1 && records != [] && forall i :: 0 <= i < |records| ==> |records[i]| >= 1
    ensures ReadRecords(RenderRecord(header) + "\n" + Join(RenderedRecords(records), "\n"))
              == Some([header] + records)
  {
    var all := [header] + records;
    forall i | 0 <= i < |all| ensures |all[i]| >= 1 {
      if i > 0 {
        assert all[i] == records[i - 1];
      }
    }
    RenderedCons(header, records);
    JoinCons(RenderRecord(header), RenderedRecords(records), "\n");
    ReadJoined(all);
  }

  lemma ReadHeaderOnly(header: seq<string>)
    requires |header| >= 1
    ensures ReadRecords(RenderRecord(header) + "\n" + []) == Some([header])
  {
    var x := RenderRecord(header) + "\n";
    assert x + [] == x;
    ReadRendered(header, "\n");
    assert "\n"[1..] == [];
    assert ReadRecord(x) == Some((header, []));
    assert x != [];
    assert ReadRecords([]) == Some([]);
    assert ReadRecords(x) == Some([header] + []);
    assert [header] + [] == [header];
  }

  lemma RenderedCons(first: seq<string>, records: seq<seq<string>>)
    requires |first| >= 1 && forall i :: 0 <= i < |records| ==> |records[i]| >= 1
    ensures RenderedRecords([first] + records) == [RenderRecord(first)] + RenderedRecords(records)
  {
  }

  /** With quote-free views, the CSV rows are the rendered records of the videos' values. */
  lemma RowsRendered(videos: seq<VideoData>, parseDate: string -> Option<UtcDate>)
    requires forall i :: 0 <= i < |videos| ==> '"' !in ViewsField(videos[i])
    ensures CsvRows(videos, parseDate) == RenderedRecords(VideoRecords(videos, parseDate))
  {
    forall i | 0 <= i < |videos|
      ensures RenderedRecords(VideoRecords(videos, parseDate))[i] == CsvRows(videos, parseDate)[i]
    {
      RowRecord(videos[i], parseDate);
    }
  }

  lemma JoinCons(first: string, parts: seq<string>, sep: string)
    requires parts != []
    ensures Join([first] + parts, sep) == first + sep + Join(parts, sep)
  {
    assert ([first] + parts)[1..] == parts;
  }


  /**
   * Rows are only ever joined by '\n': the content never ends with one after a row, and
   * without rows it is the byte-order mark and the header, whose newline ends it.
   */
  lemma CsvRowCount(videos: seq<VideoData>, parseDate: string -> Option<UtcDate>)
    ensures |CsvRows(videos, parseDate)| == |videos|
    ensures forall i :: 0 <= i < |videos| ==> CsvRows(videos, parseDate)[i] == CsvRow(videos[i], parseDate)
    ensures videos != [] ==> CsvContent(videos, parseDate)[|CsvContent(videos, parseDate)| - 1] == '"'
    ensures videos == [] ==> CsvContent(videos, parseDate) == [ByteOrderMark] + CsvHeader
                             && CsvContent(videos, parseDate)[|CsvContent(videos, parseDate)| - 1] == '\n'
  {
    if videos != [] {
      JoinLast(CsvRows(videos, parseDate), "\n");
      var last := CsvRow(videos[|videos| - 1], parseDate);
      assert last[|last| - 1] == '"';
    }
  }

  /** A join ends with the last part. */
  lemma {:induction false} JoinLast(parts: seq<string>, sep: string)
    requires |parts| >= 1
    ensures var j := Join(parts, sep);
            var p := parts[|parts| - 1];
            |j| >= |p| && j[|j| - |p|..] == p
  {
    if |parts| > 1 {
      JoinLast(parts[1..], sep);
      var j, rest := Join(parts, sep), Join(parts[1..], sep);
      assert j == (parts[0] + sep) + rest;
    }
  }

  // ---------------------------------------------------------------------------------
  // Worksheet

  /** One worksheet row: the three column values, keyed by the header names. */
  datatype SheetRow = SheetRow(title: string, views: string, publishedAt: string)

  function SheetRowOf(v: VideoData, parseDate: string -> Option<UtcDate>): SheetRow {
    SheetRow(v.title, ViewsField(v), DateField(v, parseDate))
  }

  /** worksheetData: one row per video, in order. */
  function Worksheet(videos: seq<VideoData>, parseDate: string -> Option<UtcDate>): (ws: seq<SheetRow>)
    ensures |ws| == |videos|
  {
    seq(|videos|, i requires 0 <= i < |videos| => SheetRowOf(videos[i], parseDate))
  }

  /** The worksheet holds the values the CSV text holds, row for row. */
  lemma WorksheetMatchesCsv(videos: seq<VideoData>, parseDate: string -> Option<UtcDate>, i: nat)
    requires i < |videos|
    ensures var r := Worksheet(videos, parseDate)[i];
            [r.title, r.views, r.publishedAt] == VideoRecords(videos, parseDate)[i]
  {
  }

  /** JavaScript's `.length`: UTF-16 code units, two for a character beyond U+FFFF. */
  function Utf16Length(s: string): (n: nat)
    ensures |s| <= n <= 2 * |s|
  {
    if s == [] then 0 else (if s[0] as int > 0xFFFF then 2 else 1) + Utf16Length(s[1..])
  }

  lemma {:induction false} BmpLength(s: string)
    requires forall i :: 0 <= i < |s| ==> s[i] as int <= 0xFFFF
    ensures Utf16Length(s) == |s|
  {
    if s != [] {
      BmpLength(s[1..]);
    }
  }

  /** `'Título do Vídeo'.length` and the lengths of the other two column names. */
  const TitleHeaderLength: nat := 15
  const ViewsHeaderLength: nat := 13
  const DateHeaderLength: nat := 18

  lemma HeaderLengths()
    ensures Utf16Length(TitleHeader) == TitleHeaderLength
    ensures Utf16Length(ViewsHeader) == ViewsHeaderLength
    ensures Utf16Length(DateHeader) == DateHeaderLength
  {
    TitleHeaderLength16();
    ViewsHeaderLength16();
    DateHeaderLength16();
  }

  lemma QuoteFreeAt(s: string)
    requires forall i :: 0 <= i < |s| ==> s[i] != '"'
    ensures '"' !in s
  {
  }

  lemma TitleHeaderLength16()
    ensures Utf16Length(TitleHeader) == 15
  {
    forall i | 0 <= i < |TitleHeader| ensures TitleHeader[i] as int <= 0xFFFF { }
    BmpLength(TitleHeader);
  }

  lemma TitleHeaderQuoteFree()
    ensures '"' !in TitleHeader
  {
    forall i | 0 <= i < |TitleHeader| ensures TitleHeader[i] != '"' { }
    QuoteFreeAt(TitleHeader);
  }

  lemma ViewsHeaderLength16()
    ensures Utf16Length(ViewsHeader) == 13
  {
    forall i | 0 <= i < |ViewsHeader| ensures ViewsHeader[i] as int <= 0xFFFF { }
    BmpLength(ViewsHeader);
  }

  lemma ViewsHeaderQuoteFree()
    ensures '"' !in ViewsHeader
  {
    forall i | 0 <= i < |ViewsHeader| ensures ViewsHeader[i] != '"' { }
    QuoteFreeAt(ViewsHeader);
  }

  lemma DateHeaderLength16()
    ensures Utf16Length(DateHeader) == 18
  {
    forall i | 0 <= i < |DateHeader| ensures DateHeader[i] as int <= 0xFFFF { }
    BmpLength(DateHeader);
  }

  lemma DateHeaderQuoteFree()
    ensures '"' !in DateHeader
  {
    forall i | 0 <= i < |DateHeader| ensures DateHeader[i] != '"' { }
    QuoteFreeAt(DateHeader);
  }

  /** `Math.max(...lengths, headerLength)`. */
  function MaxLength(lengths: seq<nat>, header: nat): (m: nat)
    ensures m >= header && forall i :: 0 <= i < |lengths| ==> m >= lengths[i]
    ensures m == header || exists i :: 0 <= i < |lengths| && m == lengths[i]
  {
    if lengths == [] then header
    else
      var rest := MaxLength(lengths[1..], header);
      if lengths[0] >= rest then lengths[0]
      else
        assert forall i :: 0 <= i < |lengths[1..]| ==> lengths[1..][i] == lengths[i + 1];
        rest
  }

  /** `Math.min(Math.max(maxLength, 10), cap)`. */
  function ColumnWidth(maxLength: nat, cap: nat): nat {
    Min(Max(maxLength, 10), cap)
  }

  function TitleLengths(ws: seq<SheetRow>): (ls: seq<nat>)
    ensures |ls| == |ws|
  {
    seq(|ws|, i requires 0 <= i < |ws| => Utf16Length(ws[i].title))
  }

  function ViewsLengths(ws: seq<SheetRow>): (ls: seq<nat>)
    ensures |ls| == |ws|
  {
    seq(|ws|, i requires 0 <= i < |ws| => Utf16Length(ws[i].views))
  }

  function DateLengths(ws: seq<SheetRow>): (ls: seq<nat>)
    ensures |ls| == |ws|
  {
    seq(|ws|, i requires 0 <= i < |ws| => Utf16Length(ws[i].publishedAt))
  }

  /** The `wch` of the three columns. */
  function ColumnWidths(ws: seq<SheetRow>): (w: seq<nat>)
    ensures |w| == 3
  {
    [ColumnWidth(MaxLength(TitleLengths(ws), TitleHeaderLength), 80),
     ColumnWidth(MaxLength(ViewsLengths(ws), ViewsHeaderLength), 20),
     ColumnWidth(MaxLength(DateLengths(ws), DateHeaderLength), 20)]
  }

  /** The header lengths bound the widths from below: title in [15, 80], views and date in [13, 20] and [18, 20]. */
  lemma WidthRanges(ws: seq<SheetRow>)
    ensures var w := ColumnWidths(ws);
            15 <= w[0] <= 80 && 13 <= w[1] <= 20 && 18 <= w[2] <= 20
  {
    WidthBounds(TitleLengths(ws), 15, 80);
    WidthBounds(ViewsLengths(ws), 13, 20);
    WidthBounds(DateLengths(ws), 18, 20);
  }

  lemma WidthBounds(lengths: seq<nat>, header: nat, cap: nat)
    requires 10 <= header <= cap
    ensures header <= ColumnWidth(MaxLength(lengths, header), cap) <= cap
  {
  }

  /**
   * A column is exactly as wide as its longest value or header, unless that exceeds the cap,
   * in which case it is the cap: every value fits or the column is at its cap.
   */
  lemma WidthFits(lengths: seq<nat>, header: nat, cap: nat)
    requires 10 <= header <= cap
    ensures var w := ColumnWidth(MaxLength(lengths, header), cap);
            (w == cap || w == MaxLength(lengths, header)) &&
            (w < cap ==> forall i :: 0 <= i < |lengths| ==> lengths[i] <= w) &&
            (forall i :: 0 <= i < |lengths| && lengths[i] <= cap ==> lengths[i] <= w)
  {
  }

  /** A value of the title column either fits its column or the column is 80 wide. */
  lemma TitleFits(ws: seq<SheetRow>, i: nat)
    requires i < |ws|
    ensures Utf16Length(ws[i].title) <= ColumnWidths(ws)[0] || ColumnWidths(ws)[0] == 80
  {
    WidthFits(TitleLengths(ws), 15, 80);
    assert TitleLengths(ws)[i] == Utf16Length(ws[i].title);
  }
}
