/** Vocabulary shared by the storage backends and the storage module: bytes, records, the registered
    data types and the error numbers of the C library. */
module Common {
  type Byte = x: int | 0 <= x < 256

  /** One stored sample, as the raw bytes of its C structure. */
  type Record = seq<Byte>

  datatype Option<+T> = None | Some(value: T)

  const ENOENT := 2
  const EIO := 5
  const EAGAIN := 11
  const ENOMEM := 12
  const EINVAL := 22
  const EFBIG := 27
  const ENAMETOOLONG := 36
  const ENODATA := 61
  const EMSGSIZE := 90

  /** `uint32_t` and `uint16_t` arithmetic. */
  const U32 := 0x1_0000_0000
  const UINT16_MAX := 0xFFFF

  type UInt32 = x: int | 0 <= x < U32

  /** An entry of the linker section that DATA_SOURCE_LIST fills: its name, the value of its
      `enum storage_data_type` and the size of its records. */
  datatype DataType = DataType(name: string, id: nat, size: nat)

  /** What the C compiler guarantees of that section: entries have distinct names and enumerators,
      and `sizeof` is never zero. */
  ghost predicate Registered(types: seq<DataType>) {
    && (forall i :: 0 <= i < |types| ==> types[i].size > 0)
    && (forall i, j :: 0 <= i < j < |types| ==> types[i].name != types[j].name && types[i].id != types[j].id)
  }

  function Min(a: int, b: int): int {
    if a < b then a else b
  }

  function Max(a: int, b: int): int {
    if a < b then b else a
  }

  /** The position of a registered type in the section. */
  ghost function IndexOf(types: seq<DataType>, ty: DataType): (i: nat)
    requires ty in types
    ensures i < |types| && types[i] == ty
  {
    if types[0] == ty then 0 else 1 + IndexOf(types[1..], ty)
  }

  /** With distinct names there is only one such position. */
  lemma IndexOfAt(types: seq<DataType>, i: nat)
    requires Registered(types) && i < |types|
    ensures IndexOf(types, types[i]) == i
  {
    var j := IndexOf(types, types[i]);
    assert types[j].name == types[i].name;
  }
}
