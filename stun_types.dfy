/**
 Data model of the STUN binding client: the descriptors the client composes,
 the already-decoded attributes of a reply, and the settled outcome of one of
 the client's promises.
 */
module StunTypes {

  datatype Option<+T> = None | Some(value: T)

  /** STUN methods; the client only uses Binding (section 18.1 of RFC 5389). */
  datatype Method = Binding

  /** The four message classes of section 6 of RFC 5389. */
  datatype MessageClass = Request | Indication | SuccessResponse | ErrorResponse

  /** A message as composed before it is encoded: its method and its class. */
  datatype Descriptor = Descriptor(stunMethod: Method, msgClass: MessageClass)

  /** A transport port: 16 bits on the wire (section 15.1 of RFC 5389). */
  type Port = p: int | 0 <= p < 0x1_0000

  /** The attribute types the client looks up; every other type is `OtherType`. */
  datatype AttributeType =
    | MappedAddressType
    | XorMappedAddressType
    | ErrorCodeType
    | OtherType(typeCode: nat)

  /**
   A decoded attribute. An XOR-MAPPED-ADDRESS is held with its address
   already un-XORed, as the attribute decoder hands it over.
   */
  datatype Attribute =
    | MappedAddressAttr(address: string, port: Port)
    | XorMappedAddressAttr(address: string, port: Port)
    | ErrorCodeAttr(code: nat, reason: string)
    | OtherAttr(typeCode: nat, value: seq<bv8>)

  function TypeOf(a: Attribute): AttributeType
  {
    match a
    case MappedAddressAttr(_, _) => MappedAddressType
    case XorMappedAddressAttr(_, _) => XorMappedAddressType
    case ErrorCodeAttr(_, _) => ErrorCodeType
    case OtherAttr(t, _) => OtherType(t)
  }

  /** Every attribute is filed under its own type. */
  predicate FiledByType(attrs: map<AttributeType, Attribute>)
  {
    forall t :: t in attrs ==> TypeOf(attrs[t]) == t
  }

  /** The attributes of a decoded reply, looked up by type (`getAttribute`). */
  type AttributeMap = attrs: map<AttributeType, Attribute> | FiledByType(attrs) witness map[]

  /** A decoded STUN message, as the communicator resolves a request with it. */
  datatype Message = Message(stunMethod: Method, msgClass: MessageClass, attributes: AttributeMap)

  /** The `{ address, port }` object a successful binding resolves with. */
  datatype TransportAddress = TransportAddress(address: string, port: Port)

  /**
   A rejection reason. `Error(m)` is a JavaScript `Error` whose message is `m`;
   `UndefinedProperty(p)` is the `TypeError` raised by reading property `p`
   of `undefined`.
   */
  datatype Failure = Error(message: string) | UndefinedProperty(name: string)

  /** How a promise settles: fulfilled with a value or rejected with a reason. */
  datatype Settled<+T> = Fulfilled(value: T) | Rejected(reason: Failure)
}
