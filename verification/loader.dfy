/**
 * Choosing the active dataset: an uploaded CSV when it reads, carries every
 * required column and its dates parse; otherwise the sample data, with a
 * warning that says why.
 */
module Loader {
  import opened Outcomes
  import opened Records
  import opened SampleData

  /** The header names an upload must carry; extra columns are allowed. */
  const RequiredColumns: seq<string> :=
    ["Date", "Subscribers", "Views", "Watch Hours", "Likes", "Comments", "Shares", "Video Title"]

  /** The names of `required` that `columns` lacks, in the order `required` lists them. */
  function MissingColumns(required: seq<string>, columns: seq<string>): (missing: seq<string>)
    ensures forall c :: c in missing <==> c in required && c !in columns
    ensures |missing| <= |required|
    decreases |required|
  {
    if required == [] then []
    else (if required[0] in columns then [] else [required[0]]) + MissingColumns(required[1..], columns)
  }

  /** `all(col in df.columns for col in required_columns)`. */
  predicate HasRequiredColumns(columns: seq<string>) {
    MissingColumns(RequiredColumns, columns) == []
  }

  /**
   * What `pd.read_csv` made of the file: its header, and what converting the
   * "Date" column with `pd.to_datetime` gives (the rows, or the exception).
   */
  datatype Table = Table(columns: seq<string>, parsedRows: Result<seq<Row>>)

  /** The uploader's state: nothing chosen, or a file that reads to a table or raises. */
  datatype Upload = NoFile | File(contents: Result<Table>)

  /** The two user-visible errors that send the dashboard back to the sample. */
  datatype Warning = MissingRequiredColumns | ReadError(reason: string)

  /** The prefix `st.error` puts before the exception's message. */
  const ReadErrorPrefix: string := "Error reading file: "

  /**
   * The text `st.error` shows: a read or conversion failure is reported with
   * the exception's message after a fixed prefix, a missing column without it.
   */
  function WarningText(w: Warning): (text: string)
    ensures ReadErrorPrefix <= text <==> w.ReadError?
    ensures w.ReadError? ==> text[|ReadErrorPrefix|..] == w.reason
  {
    match w
    case MissingRequiredColumns =>
      var text := "Missing required columns in uploaded file";
      assert text[0] != ReadErrorPrefix[0];
      text
    case ReadError(reason) => ReadErrorPrefix + reason
  }

  /** Different failures show different texts: the message tells them apart. */
  lemma WarningTextInjective(w1: Warning, w2: Warning)
    requires WarningText(w1) == WarningText(w2)
    ensures w1 == w2
  {
  }

  /** The active dataset and the error shown, if any. */
  datatype Loaded = Loaded(rows: seq<Row>, warning: Option<Warning>)

  /** An upload the dashboard uses as it is. */
  predicate Accepted(upload: Upload) {
    && upload.File?
    && upload.contents.Ok?
    && HasRequiredColumns(upload.contents.value.columns)
    && upload.contents.value.parsedRows.Ok?
  }

  /** The upload block of the script: read, check the header, convert dates, else fall back. */
  function LoadDataset(upload: Upload): (r: Loaded)
    ensures Accepted(upload) ==> r == Loaded(upload.contents.value.parsedRows.value, None)
    ensures !Accepted(upload) ==> r.rows == LoadSampleData()
    ensures r.warning == None <==> upload.NoFile? || Accepted(upload)
    ensures r.warning == Some(MissingRequiredColumns) <==>
      upload.File? && upload.contents.Ok? && !HasRequiredColumns(upload.contents.value.columns)
  {
    match upload
    case NoFile => Loaded(LoadSampleData(), None)
    case File(contents) =>
      match contents
      case Err(e) => Loaded(LoadSampleData(), Some(ReadError(e)))
      case Ok(table) =>
        if !HasRequiredColumns(table.columns) then Loaded(LoadSampleData(), Some(MissingRequiredColumns))
        else
          match table.parsedRows
          case Err(e) => Loaded(LoadSampleData(), Some(ReadError(e)))
          case Ok(rows) => Loaded(rows, None)
  }

  /** An upload is used exactly when it reads, names all eight required columns and its
      dates convert; every required name absent from the header is a reason to fall back. */
  lemma AcceptedIffComplete(upload: Upload)
    requires upload.File? && upload.contents.Ok?
    ensures LoadDataset(upload).warning == None <==>
      (forall c :: c in RequiredColumns ==> c in upload.contents.value.columns)
      && upload.contents.value.parsedRows.Ok?
  {
    var columns := upload.contents.value.columns;
    var missing := MissingColumns(RequiredColumns, columns);
    if missing != [] {
      assert missing[0] in missing;
    }
  }

  /** A file whose header is only Date, Subscribers, Views leaves the 365-row sample active. */
  lemma ThreeColumnUpload(rows: Result<seq<Row>>)
    ensures LoadDataset(File(Ok(Table(["Date", "Subscribers", "Views"], rows))))
      == Loaded(LoadSampleData(), Some(MissingRequiredColumns))
    ensures |LoadDataset(File(Ok(Table(["Date", "Subscribers", "Views"], rows)))).rows| == 365
  {
    var columns := ["Date", "Subscribers", "Views"];
    assert "Watch Hours" == RequiredColumns[3];
    assert "Watch Hours" !in columns;
    assert !HasRequiredColumns(columns) by {
      assert "Watch Hours" in MissingColumns(RequiredColumns, columns);
    }
  }
}
