/** How much of the partition the LittleFS backend uses: no data file beyond those that RECORDS_PER_TYPE
    records need, and none larger than a flash block. */
module LfsFiles {
  import opened Common
  import opened Slots
  import opened LfsPaths
  import opened LfsLayout
  import opened LfsQueue

  /** The data files of one type. */
  ghost predicate Bounded(files: Files, g: Geometry, ty: DataType) {
    forall f: nat :: DataPath(g.mount, ty.name, f) in files ==>
      && 0 < ty.size <= g.block
      && f < FilesNeeded(g.cap, ty.size, g.block)
      && |files[DataPath(g.mount, ty.name, f)]| <= g.block
  }

  ghost predicate AllBounded(files: Files, g: Geometry, types: seq<DataType>) {
    forall t :: 0 <= t < |types| ==> Bounded(files, g, types[t])
  }

  lemma RecordKeepsBounded(files: Files, g: Geometry, ty: DataType, data: Record, other: DataType)
    requires GeometryOk(g) && 0 < ty.size <= g.block && |data| == ty.size && HeaderPresent(files, g, ty)
    requires other == ty || other.name != ty.name
    requires Bounded(files, g, other)
    ensures Bounded(AfterRecord(files, g, ty, data), g, other)
  {
    var files', slot := AfterRecord(files, g, ty, data), Wrapped(HeaderOf(files, g, ty).write, g.cap);
    FileFitsBlock(slot, g.cap, ty.size, g.block);
    FileIndexBound(slot, g.cap, ty.size, g.block);
    var at := FileIndex(g.block / ty.size, slot);
    forall f: nat | DataPath(g.mount, other.name, f) in files'
      ensures 0 < other.size <= g.block && f < FilesNeeded(g.cap, other.size, g.block)
      ensures |files'[DataPath(g.mount, other.name, f)]| <= g.block
    {
      if DataPath(g.mount, other.name, f) == DataPath(g.mount, ty.name, at) {
        DataPathInjective(g.mount, other.name, f, ty.name, at);
      }
    }
  }

  lemma HeaderKeepsBounded(files: Files, g: Geometry, ty: DataType, h: Header, other: DataType)
    requires Bounded(files, g, other)
    ensures Bounded(WithHeader(files, g, ty, h), g, other)
  {
    forall f: nat | DataPath(g.mount, other.name, f) in WithHeader(files, g, ty, h)
      ensures DataPath(g.mount, other.name, f) != HeaderPath(g.mount, ty.name)
    {
      DataIsNotHeader(g.mount, other.name, f, ty.name);
    }
  }

  /** A store keeps the bounds, whether it completes or stops before its header write. */
  lemma StoreKeepsBounded(files: Files, g: Geometry, types: seq<DataType>, ty: DataType, data: Record)
    requires GeometryOk(g) && Registered(types) && ty in types
    requires 0 < ty.size <= g.block && |data| == ty.size && HeaderPresent(files, g, ty)
    ensures AllBounded(files, g, types) ==>
              && AllBounded(AfterRecord(files, g, ty, data), g, types)
              && AllBounded(AfterStore(files, g, ty, data), g, types)
  {
    forall t | 0 <= t < |types| && AllBounded(files, g, types)
      ensures Bounded(AfterRecord(files, g, ty, data), g, types[t])
      ensures Bounded(AfterStore(files, g, ty, data), g, types[t])
    {
      RecordKeepsBounded(files, g, ty, data, types[t]);
      HeaderKeepsBounded(AfterRecord(files, g, ty, data), g, ty,
                         HeaderAfterStore(HeaderOf(files, g, ty), g.cap), types[t]);
    }
  }

  lemma RetrieveKeepsBounded(files: Files, g: Geometry, types: seq<DataType>, ty: DataType)
    requires GeometryOk(g) && HeaderPresent(files, g, ty)
    ensures AllBounded(files, g, types) ==> AllBounded(AfterRetrieve(files, g, ty), g, types)
  {
    forall t | 0 <= t < |types| && AllBounded(files, g, types)
      ensures Bounded(AfterRetrieve(files, g, ty), g, types[t])
    {
      HeaderKeepsBounded(files, g, ty, HeaderAfterRetrieve(HeaderOf(files, g, ty)), types[t]);
    }
  }

  /** Files only taken away, or header files added, keep the bounds. */
  lemma FewerKeepBounded(files: Files, files': Files, g: Geometry, types: seq<DataType>)
    requires forall p :: p in files' ==>
               || (p in files && files'[p] == files[p])
               || exists t :: 0 <= t < |types| && p == HeaderPath(g.mount, types[t].name)
    ensures AllBounded(files, g, types) ==> AllBounded(files', g, types)
  {
    forall t, f: nat | 0 <= t < |types| && DataPath(g.mount, types[t].name, f) in files'
      ensures DataPath(g.mount, types[t].name, f) in files
      ensures files'[DataPath(g.mount, types[t].name, f)] == files[DataPath(g.mount, types[t].name, f)]
    {
      var p := DataPath(g.mount, types[t].name, f);
      if u :| 0 <= u < |types| && p == HeaderPath(g.mount, types[u].name) {
        DataIsNotHeader(g.mount, types[t].name, f, types[u].name);
      }
    }
  }
}
