/** A pandas series to and from parquet (`dummio.pandas.series_parquet`),
    by way of the frame backend `df_parquet`. */
module SeriesParquet {
  import opened Wrappers
  import opened Values
  import opened Paths
  import opened Frames
  import opened Backends

  /** `Series.to_frame()`: one column over the series's index, named after
      the series, except that an unnamed series's column is named `0`. */
  function ToFrame(s: Series): (df: Frame)
    ensures df.index == s.index && |df.columns| == 1 && df.columns[0].cells == s.cells
    ensures s.name.NoName? ==> df.columns[0].name == IntLabel(0)
    ensures !s.name.NoName? ==> df.columns[0].name == s.name
  {
    Frame(s.index, [Column(if s.name.NoName? then IntLabel(0) else s.name, s.cells)])
  }

  /** The frame a series is stored as: its values as the only column, named
      exactly as the series is, `None` included. */
  function SeriesFrame(s: Series): (df: Frame)
    ensures df.index == s.index && |df.columns| == 1
    ensures df.columns[0].name == s.name && df.columns[0].cells == s.cells
  {
    Frame(s.index, [Column(s.name, s.cells)])
  }

  /** `save`: the backend is handed the series as a one-column frame whose
      column carries the series's own name, and the caller's keywords
      unchanged. */
  method Save(data: Series, filepath: FilePath, kwargs: Kwargs) returns (call: SaveCall)
    ensures call.target == BackendMethod(ParquetBackend, SaveOp)
    ensures call.data == SeriesFrame(data)
    ensures call.filepath == filepath && call.kwargs == kwargs
  {
    var df := ToFrame(data);
    if data.name.NoName? {
      df := df.(columns := [df.columns[0].(name := data.name)]);
    }
    call := SaveCall(BackendMethod(ParquetBackend, SaveOp), df, filepath, kwargs);
  }

  /** Without the renaming in `save`, an unnamed series would be stored
      under the column name `0`. */
  lemma UnnamedSeriesKeepsNoName(s: Series)
    requires s.name.NoName?
    ensures SeriesFrame(s).columns[0].name == NoName
    ensures ToFrame(s).columns[0].name == IntLabel(0)
  {
  }

  datatype LoadError =
    | MoreThanOneColumn
    | NoColumns
    | NotASeries
  {
    function Kind(): ErrorKind
    {
      if NotASeries? then AssertionError else RuntimeError
    }

    /** The text each error is raised with. */
    function Message(): string
    {
      match this
      case MoreThanOneColumn =>
        "Loaded data has more than one column. Use `from dummio.pandas.df_parquet import load` instead."
      case NoColumns => "No columns loaded."
      case NotASeries => "expected a pandas series since df has exactly one column"
    }
  }

  /** The only column of a frame, as a series under the frame's index. */
  function ColumnSeries(df: Frame): (s: Series)
    requires |df.columns| == 1
    ensures s.name == df.columns[0].name && s.index == df.index && s.cells == df.columns[0].cells
  {
    Series(df.columns[0].name, df.index, df.columns[0].cells)
  }

  /** What `DataFrame.squeeze()` gives for a one-column frame. */
  datatype Squeezed = Scalar | OneSeries(s: Series)

  /** `df.squeeze()` with one column squeezes every axis of length one: a
      frame with a single row collapses to a scalar, any other to the
      column as a series. */
  function Squeeze(df: Frame): (r: Squeezed)
    requires |df.columns| == 1
    ensures r.Scalar? <==> df.Rows() == 1
    ensures r.OneSeries? ==> r.s == ColumnSeries(df)
  {
    if df.Rows() == 1 then Scalar else OneSeries(ColumnSeries(df))
  }

  /** `load` as written. `read` stands for `df_parquet.load`, which receives
      the path and the caller's keywords. More than one column and no
      column are runtime errors; a single column is squeezed, and the type
      assertion fails when the frame has exactly one row. */
  function LoadAsWritten(filepath: FilePath, kwargs: Kwargs, read: (FilePath, Kwargs) -> Frame): (r: Result<Series, LoadError>)
    ensures |read(filepath, kwargs).columns| > 1 <==> r == Failure(MoreThanOneColumn)
    ensures |read(filepath, kwargs).columns| == 0 <==> r == Failure(NoColumns)
    ensures r == Failure(NotASeries) <==> |read(filepath, kwargs).columns| == 1 && read(filepath, kwargs).Rows() == 1
    ensures r.Success? ==> r.value == ColumnSeries(read(filepath, kwargs))
  {
    var df := read(filepath, kwargs);
    var nCols := |df.columns|;
    if nCols > 1 then Failure(MoreThanOneColumn)
    else if nCols < 1 then Failure(NoColumns)
    else
      match Squeeze(df)
      case Scalar => Failure(NotASeries)
      case OneSeries(s) => Success(s)
  }

  /** `load` as intended: the only column becomes the series, whatever the
      number of rows. */
  function Load(filepath: FilePath, kwargs: Kwargs, read: (FilePath, Kwargs) -> Frame): (r: Result<Series, LoadError>)
    ensures |read(filepath, kwargs).columns| > 1 <==> r == Failure(MoreThanOneColumn)
    ensures |read(filepath, kwargs).columns| == 0 <==> r == Failure(NoColumns)
    ensures r.Success? <==> |read(filepath, kwargs).columns| == 1
    ensures r.Success? ==> r.value == ColumnSeries(read(filepath, kwargs))
  {
    var df := read(filepath, kwargs);
    var nCols := |df.columns|;
    if nCols > 1 then Failure(MoreThanOneColumn)
    else if nCols < 1 then Failure(NoColumns)
    else Success(ColumnSeries(df))
  }

  /** Where the two agree: everywhere except on a one-row, one-column frame. */
  lemma LoadAsWrittenAgreesOffSingleRow(filepath: FilePath, kwargs: Kwargs, read: (FilePath, Kwargs) -> Frame)
    ensures LoadAsWritten(filepath, kwargs, read) == Load(filepath, kwargs, read)
        <==> !(|read(filepath, kwargs).columns| == 1 && read(filepath, kwargs).Rows() == 1)
  {
  }

  /** Round trip: when the parquet store gives back the frame `save`
      handed it, `load` gives back the series. */
  lemma RoundTrip(s: Series, filepath: FilePath, kwargs: Kwargs, read: (FilePath, Kwargs) -> Frame)
    requires read(filepath, kwargs) == SeriesFrame(s)
    ensures Load(filepath, kwargs, read) == Success(s)
  {
  }

  /** As written, the round trip holds for every series whose length is
      not one. */
  lemma RoundTripAsWritten(s: Series, filepath: FilePath, kwargs: Kwargs, read: (FilePath, Kwargs) -> Frame)
    requires read(filepath, kwargs) == SeriesFrame(s)
    requires |s.index.labels| != 1
    ensures LoadAsWritten(filepath, kwargs, read) == Success(s)
  {
  }

  /** As written, a saved series of length one cannot be loaded: the
      squeezed frame is a scalar and the assertion fails. */
  lemma SingleElementRoundTripFails(s: Series, filepath: FilePath, kwargs: Kwargs, read: (FilePath, Kwargs) -> Frame)
    requires read(filepath, kwargs) == SeriesFrame(s)
    requires |s.index.labels| == 1
    ensures LoadAsWritten(filepath, kwargs, read) == Failure(NotASeries)
    ensures LoadAsWritten(filepath, kwargs, read).error.Kind() == AssertionError
  {
  }

  /** A series saved with `save` and read back by the intended load,
      assuming the parquet store returns the frame it was handed, comes
      back unchanged. */
  method SaveThenLoad(s: Series, filepath: FilePath, kwargs: Kwargs) returns (r: Result<Series, LoadError>)
    ensures r == Success(s)
  {
    var call := Save(s, filepath, kwargs);
    var stored := call.data;
    r := Load(call.filepath, call.kwargs, (p: FilePath, k: Kwargs) => stored);
    RoundTrip(s, call.filepath, call.kwargs, (p: FilePath, k: Kwargs) => stored);
  }

  /** The same round trip through the load as written, which holds for
      every series except one of length one. */
  method SaveThenLoadAsWritten(s: Series, filepath: FilePath, kwargs: Kwargs) returns (r: Result<Series, LoadError>)
    requires |s.index.labels| != 1
    ensures r == Success(s)
  {
    var call := Save(s, filepath, kwargs);
    var stored := call.data;
    r := LoadAsWritten(call.filepath, call.kwargs, (p: FilePath, k: Kwargs) => stored);
    RoundTripAsWritten(s, call.filepath, call.kwargs, (p: FilePath, k: Kwargs) => stored);
  }
}
