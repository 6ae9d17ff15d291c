/** Utilities for pandas I/O (`dummio.pandas.utils`). */
module PandasUtils {
  import opened Values
  import opened Paths

  const StorageOptions := "storage_options"

  /** A caller's keyword dictionary, which `AddStorageOptions` updates in
      place. */
  class KwargsDict {
    var entries: Kwargs

    constructor (entries: Kwargs)
      ensures this.entries == entries
    {
      this.entries := entries;
    }
  }

  /** The keywords after `add_storage_options`: a universal path whose
      keywords lack `storage_options` gets them, as a copy of the path's
      options; in every other case nothing changes. No other key is ever
      added, removed or changed. */
  function WithStorageOptions(filepath: FilePath, kwargs: Kwargs): (r: Kwargs)
    ensures forall k :: k in kwargs ==> k in r && r[k] == kwargs[k]
    ensures forall k :: k in r && k != StorageOptions ==> k in kwargs
    ensures StorageOptions in r <==> StorageOptions in kwargs || filepath.UPath?
    ensures StorageOptions !in kwargs && filepath.UPath? ==> r[StorageOptions] == Options(filepath.storageOptions)
  {
    if filepath.UPath? && StorageOptions !in kwargs then
      kwargs[StorageOptions := Options(filepath.storageOptions)]
    else
      kwargs
  }

  /** `add_storage_options`: updates the caller's dictionary in place. */
  method AddStorageOptions(filepath: FilePath, kwargs: KwargsDict)
    modifies kwargs
    ensures kwargs.entries == WithStorageOptions(filepath, old(kwargs.entries))
  {
    if filepath.UPath? {
      if StorageOptions !in kwargs.entries {
        kwargs.entries := kwargs.entries[StorageOptions := Options(filepath.storageOptions)];
      }
    }
  }

  /** Adding storage options twice is the same as adding them once. */
  lemma WithStorageOptionsIdempotent(filepath: FilePath, kwargs: Kwargs)
    ensures WithStorageOptions(filepath, WithStorageOptions(filepath, kwargs)) == WithStorageOptions(filepath, kwargs)
  {
  }

  /** Plain strings and plain local paths leave the keywords as they are. */
  lemma PlainPathsUnchanged(filepath: FilePath, kwargs: Kwargs)
    requires !filepath.UPath?
    ensures WithStorageOptions(filepath, kwargs) == kwargs
  {
  }

  /** A caller, relying on the contract alone: a local universal path gets
      the key, a plain path does not, and a second call changes nothing. */
  method AddStorageOptionsClient()
  {
    var kwargs := new KwargsDict(map[]);
    AddStorageOptions(UPath("data.parquet", map[]), kwargs);
    assert StorageOptions in kwargs.entries;
    var once := kwargs.entries;
    AddStorageOptions(UPath("data.parquet", map[]), kwargs);
    WithStorageOptionsIdempotent(UPath("data.parquet", map[]), map[]);
    assert kwargs.entries == once;
    var plain := new KwargsDict(map[]);
    AddStorageOptions(LocalPath("data.parquet"), plain);
    assert StorageOptions !in plain.entries;
  }
}
