/**
 * The batch job table: a header row naming the columns `type`, `url` and
 * `caption` in any letter case and with any surrounding whitespace, then one
 * row per upload. The table is given already tokenised: the header names in
 * order and each row as a map from header name to cell text.
 */
module JobFile {
  import opened Wrappers
  import opened Text
  import opened Dict
  import opened Seqs

  /** One upload: the media kind as written in the job ("image" or "video"), its URL and its caption. */
  datatype Job = Job(mediaType: string, url: string, caption: string)

  /** Why the table yields no batch. */
  datatype JobFileError =
    | MissingColumns  // a required column is absent from the header row
    | NoValidJobs     // no row survives filtering

  /** A row: header name to cell text. A cell the row does not have reads as "". */
  type Row = map<string, string>

  /** The cell of the row under the given header name, or "" when there is none. */
  function Cell(row: Row, column: string): string
  {
    if column in row then row[column] else ""
  }

  /** A header name as it is matched: stripped and lower-cased. */
  function NormalizeHeader(h: string): string
  {
    Lower(Trim(h))
  }

  /**
   * Normalised header name to the header as written; when two headers
   * normalise alike, the later one is kept.
   */
  function HeaderMap(headers: seq<string>): (fm: map<string, string>)
    ensures forall c :: c in fm ==> NormalizeHeader(fm[c]) == c
  {
    AssignAll(headers, HeaderEntry, (c, h) => NormalizeHeader(h) == c);
    Assign(headers, HeaderEntry)
  }

  /** A header's entry in the header map: its normalised name, then the header as written. */
  function HeaderEntry(h: string): Option<(string, string)>
  {
    Some((NormalizeHeader(h), h))
  }

  predicate HasColumns(fm: map<string, string>)
  {
    "type" in fm && "url" in fm && "caption" in fm
  }

  /** True when the column name c is among the headers once normalised. */
  predicate HasHeader(headers: seq<string>, c: string)
  {
    exists i :: 0 <= i < |headers| && NormalizeHeader(headers[i]) == c
  }

  /** Every required column is present among the normalised headers. */
  predicate HeadersComplete(headers: seq<string>)
  {
    HasHeader(headers, "type") && HasHeader(headers, "url") && HasHeader(headers, "caption")
  }

  /** A normalised name is in the header map exactly when some header normalises to it. */
  lemma HeaderMapKeys(headers: seq<string>, c: string)
    ensures c in HeaderMap(headers) <==> HasHeader(headers, c)
  {
    AssignKeys(headers, HeaderEntry, c);
  }

  /** The header check accepts exactly the header rows that name all three columns. */
  lemma HeaderCheck(headers: seq<string>)
    ensures HasColumns(HeaderMap(headers)) <==> HeadersComplete(headers)
  {
    HeaderMapKeys(headers, "type");
    HeaderMapKeys(headers, "url");
    HeaderMapKeys(headers, "caption");
  }

  /** What a job read from the table always looks like. */
  predicate ValidJob(j: Job)
  {
    && (j.mediaType == "image" || j.mediaType == "video")
    && j.url != [] && Stripped(j.url)
    && Stripped(j.caption)
  }

  /** The headers, as written, that hold the three required columns. */
  datatype Columns = Columns(typeColumn: string, urlColumn: string, captionColumn: string)

  /** The columns the header map names for `type`, `url` and `caption`. */
  function ColumnsOf(fm: map<string, string>): Columns
    requires HasColumns(fm)
  {
    Columns(fm["type"], fm["url"], fm["caption"])
  }

  /**
   * The job a row gives: the type cell stripped and lower-cased, the URL and
   * caption cells stripped; none when the type is not "image" or "video" or
   * the URL is empty.
   */
  function RowToJob(cols: Columns, row: Row): (r: Option<Job>)
    ensures r.Some? <==>
      && (Lower(Trim(Cell(row, cols.typeColumn))) == "image" || Lower(Trim(Cell(row, cols.typeColumn))) == "video")
      && Trim(Cell(row, cols.urlColumn)) != []
    ensures r.Some? ==> ValidJob(r.value)
  {
    var mtype := Lower(Trim(Cell(row, cols.typeColumn)));
    var url := Trim(Cell(row, cols.urlColumn));
    var cap := Trim(Cell(row, cols.captionColumn));
    if mtype == [] || url == [] then None
    else if mtype != "image" && mtype != "video" then None
    else Some(Job(mtype, url, cap))
  }

  /** RowToJob for fixed columns, as a value that can be passed around. */
  function RowReader(cols: Columns): Row -> Option<Job>
  {
    row => RowToJob(cols, row)
  }

  /** The jobs the rows give, in row order. */
  function FilterJobs(cols: Columns, rows: seq<Row>): (jobs: seq<Job>)
    ensures |jobs| <= |rows|
  {
    FilterMap(rows, RowReader(cols))
  }

  /** Every job read from the table is valid. */
  lemma FilterJobsValid(cols: Columns, rows: seq<Row>)
    ensures forall j :: j in FilterJobs(cols, rows) ==> ValidJob(j)
  {
    FilterMapAll(rows, RowReader(cols), ValidJob);
  }

  /**
   * The row loop of the table reader: each row's type (stripped and
   * lower-cased), URL and caption (stripped) are read from the given
   * columns; rows with an empty type or URL, or a type other than image or
   * video, are skipped.
   */
  method ReadRows(cols: Columns, rows: seq<Row>) returns (jobs: seq<Job>)
    ensures jobs == FilterJobs(cols, rows)
  {
    jobs := [];
    for n := 0 to |rows|
      invariant jobs == FilterJobs(cols, rows[..n])
    {
      FilterMapPrefix(rows, RowReader(cols), n);
      var row := rows[n];
      var mtype := Lower(Trim(Cell(row, cols.typeColumn)));
      var url := Trim(Cell(row, cols.urlColumn));
      var cap := Trim(Cell(row, cols.captionColumn));
      if mtype == [] || url == [] {
        continue;
      }
      if mtype != "image" && mtype != "video" {
        continue;
      }
      jobs := jobs + [Job(mtype, url, cap)];
    }
    assert rows[..|rows|] == rows;
  }

  /**
   * Reads the jobs of the table: fails with MissingColumns when a required
   * column is missing (before any row is looked at) and with NoValidJobs when
   * no row survives; otherwise returns the surviving rows' jobs in row order.
   */
  method ReadJobs(headers: seq<string>, rows: seq<Row>) returns (r: Result<seq<Job>, JobFileError>)
    ensures r == Failure(MissingColumns) <==> !HeadersComplete(headers)
    ensures r.Success? ==>
      && HeadersComplete(headers)
      && r.value != []
      && (HeaderCheck(headers); r.value == FilterJobs(ColumnsOf(HeaderMap(headers)), rows))
    ensures r == Failure(NoValidJobs) <==>
      HeadersComplete(headers) && (HeaderCheck(headers); FilterJobs(ColumnsOf(HeaderMap(headers)), rows) == [])
  {
    var fm := HeaderMap(headers);
    HeaderCheck(headers);
    if !("type" in fm && "url" in fm && "caption" in fm) {
      return Failure(MissingColumns);
    }
    var jobs := ReadRows(ColumnsOf(fm), rows);
    if jobs == [] {
      return Failure(NoValidJobs);
    }
    return Success(jobs);
  }

  /** Filtering a table in two parts gives the jobs of the first part followed by those of the second. */
  lemma FilterJobsAppend(cols: Columns, a: seq<Row>, b: seq<Row>)
    ensures FilterJobs(cols, a + b) == FilterJobs(cols, a) + FilterJobs(cols, b)
  {
    FilterMapAppend(a, b, RowReader(cols));
  }

  /** A job is read from the table exactly when some row gives it. */
  lemma FilterJobsFromRows(cols: Columns, rows: seq<Row>, j: Job)
    ensures j in FilterJobs(cols, rows) <==> exists i :: 0 <= i < |rows| && RowToJob(cols, rows[i]) == Some(j)
  {
    FilterMapMembers(rows, RowReader(cols), j);
  }

  /** A mixed-case, padding-free header normalises to its lower-case form. */
  lemma NormalizeStrippedHeader(h: string, lower: string)
    requires Stripped(h) && |lower| == |h|
    requires forall i :: 0 <= i < |h| ==> LowerChar(h[i]) == lower[i]
    ensures NormalizeHeader(h) == lower
  {
    TrimOfStripped(h);
  }

  lemma TypeHeaderName()
    ensures NormalizeHeader("Type") == "type"
  {
    NormalizeStrippedHeader("Type", "type");
  }

  lemma UrlHeaderName()
    ensures NormalizeHeader("URL") == "url"
  {
    NormalizeStrippedHeader("URL", "url");
  }

  lemma CaptionHeaderName()
    ensures NormalizeHeader("Caption") == "caption"
  {
    NormalizeStrippedHeader("Caption", "caption");
  }

  /**
   * A header row of three headers that normalise to `type`, `url` and
   * `caption` passes the check, and each column is read from its header as
   * written.
   */
  lemma ThreeHeaders(h1: string, h2: string, h3: string)
    requires NormalizeHeader(h1) == "type" && NormalizeHeader(h2) == "url" && NormalizeHeader(h3) == "caption"
    ensures HeadersComplete([h1, h2, h3])
    ensures HasColumns(HeaderMap([h1, h2, h3]))
    ensures ColumnsOf(HeaderMap([h1, h2, h3])) == Columns(h1, h2, h3)
  {
    var headers := [h1, h2, h3];
    assert NormalizeHeader(headers[0]) == "type";
    assert NormalizeHeader(headers[1]) == "url";
    assert NormalizeHeader(headers[2]) == "caption";
    AssignSnoc([], HeaderEntry, h1);
    AssignSnoc([h1], HeaderEntry, h2);
    AssignSnoc([h1, h2], HeaderEntry, h3);
    assert [] + [h1] == [h1];
    assert [h1] + [h2] == [h1, h2];
    assert [h1, h2] + [h3] == headers;
  }

  /** The header row `Type,URL,Caption` passes the check and names each column by its header as written. */
  lemma MixedCaseHeaderExample()
    ensures HeadersComplete(["Type", "URL", "Caption"])
    ensures HasColumns(HeaderMap(["Type", "URL", "Caption"]))
    ensures ColumnsOf(HeaderMap(["Type", "URL", "Caption"])) == Columns("Type", "URL", "Caption")
  {
    TypeHeaderName();
    UrlHeaderName();
    CaptionHeaderName();
    ThreeHeaders("Type", "URL", "Caption");
  }

  /** A row whose cells are already stripped and lower-case gives its cells as they are. */
  lemma RowOfCleanCells(cols: Columns, row: Row, t: string, u: string, c: string)
    requires Cell(row, cols.typeColumn) == t && Cell(row, cols.urlColumn) == u && Cell(row, cols.captionColumn) == c
    requires Trim(t) == t && Lower(t) == t && Trim(u) == u && Trim(c) == c
    ensures RowToJob(cols, row) == if (t == "image" || t == "video") && u != [] then Some(Job(t, u, c)) else None
  {
  }

  /** The row `image,http://a,hi` under the headers `Type,URL,Caption` gives its job. */
  lemma ExampleImageRow()
    ensures RowToJob(Columns("Type", "URL", "Caption"),
      map["Type" := "image", "URL" := "http://a", "Caption" := "hi"])
      == Some(Job("image", "http://a", "hi"))
  {
    TrimOfStripped("image");
    LowerUnchanged("image");
    TrimOfStripped("http://a");
    TrimOfStripped("hi");
    RowOfCleanCells(Columns("Type", "URL", "Caption"),
      map["Type" := "image", "URL" := "http://a", "Caption" := "hi"],
      "image", "http://a", "hi");
  }

  /** The row `bogus,http://b,` is dropped for its unknown type. */
  lemma ExampleUnknownTypeRow()
    ensures RowToJob(Columns("Type", "URL", "Caption"),
      map["Type" := "bogus", "URL" := "http://b", "Caption" := ""]) == None
  {
    TrimOfStripped("bogus");
    LowerUnchanged("bogus");
    TrimOfStripped("http://b");
    TrimOfStripped("");
    assert "bogus"[0] != "image"[0] && "bogus"[0] != "video"[0];
    RowOfCleanCells(Columns("Type", "URL", "Caption"),
      map["Type" := "bogus", "URL" := "http://b", "Caption" := ""],
      "bogus", "http://b", "");
  }

  /** The row `video,,caption` is dropped for its empty URL. */
  lemma ExampleEmptyUrlRow()
    ensures RowToJob(Columns("Type", "URL", "Caption"),
      map["Type" := "video", "URL" := "", "Caption" := "caption"]) == None
  {
    TrimOfStripped("video");
    LowerUnchanged("video");
    TrimOfStripped("");
    TrimOfStripped("caption");
    RowOfCleanCells(Columns("Type", "URL", "Caption"),
      map["Type" := "video", "URL" := "", "Caption" := "caption"],
      "video", "", "caption");
  }

  /** Of three rows, when only the first gives a job, that job is all the table gives. */
  lemma OnlyFirstOfThree(cols: Columns, r1: Row, r2: Row, r3: Row, j: Job)
    requires RowToJob(cols, r1) == Some(j) && RowToJob(cols, r2) == None && RowToJob(cols, r3) == None
    ensures FilterJobs(cols, [r1, r2, r3]) == [j]
  {
    FilterMapSnoc([], RowReader(cols), r1);
    FilterMapSnoc([r1], RowReader(cols), r2);
    FilterMapSnoc([r1, r2], RowReader(cols), r3);
    assert [] + [r1] == [r1];
    assert [r1] + [r2] == [r1, r2];
    assert [r1, r2] + [r3] == [r1, r2, r3];
  }

  /**
   * Under the headers `Type,URL,Caption`, the rows `image,http://a,hi`,
   * `bogus,http://b,` and `video,,caption` give exactly one job: the
   * unknown type and the empty URL are dropped.
   */
  lemma MixedCaseTableExample()
    ensures FilterJobs(Columns("Type", "URL", "Caption"), [
      map["Type" := "image", "URL" := "http://a", "Caption" := "hi"],
      map["Type" := "bogus", "URL" := "http://b", "Caption" := ""],
      map["Type" := "video", "URL" := "", "Caption" := "caption"]])
      == [Job("image", "http://a", "hi")]
  {
    ExampleImageRow();
    ExampleUnknownTypeRow();
    ExampleEmptyUrlRow();
    OnlyFirstOfThree(Columns("Type", "URL", "Caption"),
      map["Type" := "image", "URL" := "http://a", "Caption" := "hi"],
      map["Type" := "bogus", "URL" := "http://b", "Caption" := ""],
      map["Type" := "video", "URL" := "", "Caption" := "caption"],
      Job("image", "http://a", "hi"));
  }
}
