/** The frame backends `df_csv`, `df_feather` and `df_parquet`, reduced to
    the calls made on them: a call records which backend operation is
    invoked and with which arguments. What the backend then does with the
    file is not part of this model. */
module Backends {
  import opened Values
  import opened Paths
  import opened Frames

  datatype Backend = CsvBackend | FeatherBackend | ParquetBackend
  {
    /** The format name the backend module is named after. */
    function Name(): string
    {
      match this
      case CsvBackend => "csv"
      case FeatherBackend => "feather"
      case ParquetBackend => "parquet"
    }

    /** The module `Format.save_method` imports for this backend. */
    function ModuleName(): string
    {
      "dummio.pandas.df_" + Name()
    }
  }

  /** Distinct backends are named differently. */
  lemma NamesDistinct(b: Backend, c: Backend)
    ensures b.Name() == c.Name() ==> b == c
  {
  }

  datatype Operation = SaveOp | LoadOp

  /** A backend module's `save` or `load` function. */
  datatype BackendMethod = BackendMethod(backend: Backend, op: Operation)

  /** `target(data=data, filepath=filepath, **kwargs)`. */
  datatype SaveCall = SaveCall(target: BackendMethod, data: Frame, filepath: FilePath, kwargs: Kwargs)

  /** `target(filepath=filepath, **kwargs)`. */
  datatype LoadCall = LoadCall(target: BackendMethod, filepath: FilePath, kwargs: Kwargs)
}
