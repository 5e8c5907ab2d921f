/**
 The promise form of the Binding exchange: how `bindP` turns the
 communicator's outcome for a Binding request into a mapped address or a
 failure.
 */
module BindExchange {
  import opened StunTypes

  /** The text `bindP` puts before the server's reason phrase. */
  const BindErrorPrefix: string := "[stun-js] bind error: "

  /** The address attributes `bindP` consults, most preferred first. */
  const AddressPreference: seq<AttributeType> := [XorMappedAddressType, MappedAddressType]

  /** `bindReply.getAttribute(t)`: the attribute of type `t`, if the reply has one. */
  function GetAttribute(reply: Message, t: AttributeType): (r: Option<Attribute>)
    ensures r.Some? <==> t in reply.attributes
    ensures r.Some? ==> r.value == reply.attributes[t] && TypeOf(r.value) == t
  {
    if t in reply.attributes then Some(reply.attributes[t]) else None
  }

  /**
   The fulfilment handler of `bindP`. An ERROR-CODE attribute rejects with
   the bind error and nothing else is looked at; otherwise the address comes
   from XOR-MAPPED-ADDRESS, falling back to MAPPED-ADDRESS; with neither, the
   read of `.address` from `undefined` throws and the promise rejects.
   */
  function InterpretReply(reply: Message): (r: Settled<TransportAddress>)
    ensures r.Fulfilled? <==>
              ErrorCodeType !in reply.attributes &&
              (XorMappedAddressType in reply.attributes || MappedAddressType in reply.attributes)
    ensures ErrorCodeType in reply.attributes ==>
              r == Rejected(Error(BindErrorPrefix + reply.attributes[ErrorCodeType].reason))
    ensures r.Fulfilled? && XorMappedAddressType in reply.attributes ==>
              var a := reply.attributes[XorMappedAddressType];
              r.value == TransportAddress(a.address, a.port)
    ensures r.Fulfilled? && XorMappedAddressType !in reply.attributes ==>
              var a := reply.attributes[MappedAddressType];
              r.value == TransportAddress(a.address, a.port)
    ensures r.Rejected? && ErrorCodeType !in reply.attributes ==>
              r.reason == UndefinedProperty("address")
  {
    if ErrorCodeType in reply.attributes then
      Rejected(Error(BindErrorPrefix + reply.attributes[ErrorCodeType].reason))
    else
      var xorMapped := GetAttribute(reply, XorMappedAddressType);
      var chosen := if xorMapped.Some? then xorMapped else GetAttribute(reply, MappedAddressType);
      match chosen
      case None => Rejected(UndefinedProperty("address"))
      case Some(a) => Fulfilled(TransportAddress(a.address, a.port))
  }

  /**
   Reference definition of the preference rule: the attribute of the first
   type in `order` that the reply carries.
   */
  function FirstPresent(order: seq<AttributeType>, attrs: AttributeMap): (r: Option<Attribute>)
    ensures r.Some? ==>
              exists i :: 0 <= i < |order| && order[i] in attrs && attrs[order[i]] == r.value &&
                          forall j :: 0 <= j < i ==> order[j] !in attrs
    ensures r.Some? ==> TypeOf(r.value) in order
    ensures r.None? ==> forall i :: 0 <= i < |order| ==> order[i] !in attrs
  {
    if order == [] then None
    else if order[0] in attrs then Some(attrs[order[0]])
    else FirstPresent(order[1..], attrs)
  }

  /** Without an ERROR-CODE, `bindP` takes the first address attribute in preference order. */
  lemma InterpretReplyFollowsPreference(reply: Message)
    requires ErrorCodeType !in reply.attributes
    ensures match FirstPresent(AddressPreference, reply.attributes)
            case None => InterpretReply(reply) == Rejected(UndefinedProperty("address"))
            case Some(a) =>
              (a.XorMappedAddressAttr? || a.MappedAddressAttr?) &&
              InterpretReply(reply) == Fulfilled(TransportAddress(a.address, a.port))
  {
    var first := FirstPresent(AddressPreference, reply.attributes);
    if first.Some? {
      assert TypeOf(first.value) in AddressPreference;
    } else {
      assert AddressPreference[0] !in reply.attributes && AddressPreference[1] !in reply.attributes;
    }
  }

  /**
   The interpretation depends on the ERROR-CODE, XOR-MAPPED-ADDRESS and
   MAPPED-ADDRESS attributes only: not on the reply's method or class, and
   not on any other attribute.
   */
  predicate AgreeOn(a: AttributeMap, b: AttributeMap, t: AttributeType)
  {
    (t in a <==> t in b) && (t in a ==> a[t] == b[t])
  }

  lemma InterpretReplyReadsOnlyItsAttributes(r1: Message, r2: Message)
    requires AgreeOn(r1.attributes, r2.attributes, ErrorCodeType)
    requires AgreeOn(r1.attributes, r2.attributes, XorMappedAddressType)
    requires AgreeOn(r1.attributes, r2.attributes, MappedAddressType)
    ensures InterpretReply(r1) == InterpretReply(r2)
  {
  }

  /**
   `bindP`: the communicator's outcome for the Binding request, with the
   fulfilment handler attached. A rejection passes through unchanged, since
   no rejection handler is attached.
   */
  function BindOutcome(sent: Settled<Message>): (r: Settled<TransportAddress>)
    ensures sent.Rejected? ==> r == Rejected(sent.reason)
    ensures sent.Fulfilled? ==> r == InterpretReply(sent.value)
    ensures r.Fulfilled? ==> sent.Fulfilled? && ErrorCodeType !in sent.value.attributes
  {
    match sent
    case Rejected(reason) => Rejected(reason)
    case Fulfilled(reply) => InterpretReply(reply)
  }
}
