/** Frames to and from csv (`dummio.pandas.df_csv`). The pandas writer and
    reader are reduced to the calls made on them. */
module DfCsv {
  import opened Values
  import opened Paths
  import opened Frames

  const Index := "index"

  /** `data.to_csv(filepath, **kwargs)`. */
  datatype CsvWrite = ToCsv(data: Frame, filepath: FilePath, kwargs: Kwargs)

  /** `pd.read_csv(filepath, **kwargs)`. */
  datatype CsvRead = ReadCsv(filepath: FilePath, kwargs: Kwargs)

  /** `save`: the writer gets `index=False` exactly when the caller gave no
      `index` keyword and the frame's index has a falsy name, so an unnamed
      index is not written as a column. A caller's `index` is never
      overwritten and no other keyword is added or changed. */
  method Save(data: Frame, filepath: FilePath, kwargs: Kwargs) returns (w: CsvWrite)
    ensures w.data == data && w.filepath == filepath
    ensures forall k :: k in kwargs ==> k in w.kwargs && w.kwargs[k] == kwargs[k]
    ensures forall k :: k in w.kwargs && k != Index ==> k in kwargs
    ensures Index in w.kwargs <==> Index in kwargs || !Truthy(data.index.name)
    ensures Index !in kwargs && Index in w.kwargs ==> w.kwargs[Index] == BoolVal(false)
  {
    var kw := kwargs;
    if Index !in kw && !Truthy(data.index.name) {
      kw := kw[Index := BoolVal(false)];
    }
    w := ToCsv(data, filepath, kw);
  }

  /** `load`: the path and the keywords go to the reader as they are. */
  function Load(filepath: FilePath, kwargs: Kwargs): (r: CsvRead)
    ensures r.filepath == filepath && r.kwargs == kwargs
  {
    ReadCsv(filepath, kwargs)
  }

  /** A caller of `save`, relying on its contract alone. */
  method SaveClient(data: Frame, filepath: FilePath)
  {
    var unnamed := Save(data.(index := data.index.(name := NoName)), filepath, map[]);
    assert unnamed.kwargs == map[Index := BoolVal(false)];
    var named := Save(data.(index := data.index.(name := StrLabel("id"))), filepath, map[]);
    assert named.kwargs == map[];
    var explicit := Save(data, filepath, map[Index := BoolVal(true)]);
    assert explicit.kwargs == map[Index := BoolVal(true)];
  }
}
