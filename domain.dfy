/** The records of internal/core/domain: plain values, no behaviour. */
module Domain {

  import opened Wrappers

  type Byte = b: int | 0 <= b < 256
  type Bytes = seq<Byte>

  /** Go's uint64. */
  type UInt64 = x: int | 0 <= x < 0x1_0000_0000_0000_0000

  /** time.Time, left abstract: the zero time or some instant. */
  datatype Time = ZeroTime | Instant(unixNano: int)

  /** uuid.UUID: 128 bits, zero by default. */
  datatype Uuid = Uuid(high: UInt64, low: UInt64)

  datatype Base = Base(id: UInt64, uuid: Uuid, createdAt: Time, updatedAt: Time, deletedAt: Time)

  datatype Modifier = Modifier(createdBy: Option<UInt64>, updatedBy: UInt64, deleteBy: UInt64)

  /** domain.Address: every postal field is an optional (*string) value. */
  datatype Address = Address(
    base: Base,
    modifier: Modifier,
    street: Option<string>,
    city: Option<string>,
    state: Option<string>,
    zipCode: Option<string>,
    country: Option<string>)

  /** domain.User; `addresses` is a slice of *Address, so an element may be nil. */
  datatype User = User(
    base: Base,
    modifier: Modifier,
    firstName: Option<string>,
    lastName: Option<string>,
    email: string,
    phoneNumber: string,
    addresses: seq<Option<Address>>)

  const ZeroBase: Base := Base(0, Uuid(0, 0), ZeroTime, ZeroTime, ZeroTime)
  const ZeroModifier: Modifier := Modifier(None, 0, 0)

  /** domain.User{}: Go's zero value of the struct. */
  const ZeroUser: User := User(ZeroBase, ZeroModifier, None, None, "", "", [])
}
