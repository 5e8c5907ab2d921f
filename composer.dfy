/** The Binding message composers of the STUN client. */
module Composer {
  import opened StunTypes

  /** `composeBindRequest`: a Binding request, ready for the packet encoder. */
  function ComposeBindRequest(): (d: Descriptor)
    ensures d.stunMethod == Binding && d.msgClass == Request
  {
    Descriptor(Binding, Request)
  }

  /** `composeBindIndication`: a Binding indication, ready for the packet encoder. */
  function ComposeBindIndication(): (d: Descriptor)
    ensures d.stunMethod == Binding && d.msgClass == Indication
  {
    Descriptor(Binding, Indication)
  }

  /**
   The two composers agree on the method and differ only in the class, so a
   request is never sent where an indication is meant, or the other way round.
   Each composer is a function of no input, so every call yields the same
   descriptor.
   */
  lemma ComposersDifferOnlyInClass()
    ensures ComposeBindRequest().stunMethod == ComposeBindIndication().stunMethod
    ensures ComposeBindRequest().msgClass != ComposeBindIndication().msgClass
    ensures ComposeBindRequest() != ComposeBindIndication()
  {
  }
}
