# STUN binding client (libstun `StunClient`) in Dafny

This project models the Binding exchange of the libstun STUN client
(`src/stun_client.js`). The client discovers the public transport address
that a NAT maps a local endpoint to. It sends a STUN Binding request and
reads the server's reply. The model covers three parts:

- **Composers** (`Composer`, `composer.dfy`). `composeBindRequest` and
  `composeBindIndication` build the `(method, class)` descriptor of a Binding
  request or indication. This is the descriptor before the packet encoder
  sees it. Message classes are defined in section 6 of RFC 5389.
- **Reply interpreter and `bindP`** (`BindExchange`, `bind_exchange.dfy`).
  An ERROR-CODE attribute rejects with
  `"[stun-js] bind error: " + reason`. Otherwise the address comes from
  XOR-MAPPED-ADDRESS, with MAPPED-ADDRESS as the fallback (sections 15.1,
  15.2 and 15.6 of RFC 5389). With neither attribute, reading `.address`
  from `undefined` throws inside the fulfilment handler, so the promise
  rejects. A transport rejection passes through unchanged.
- **Callback adapters** (`CallbackAdapter`, `callback_adapter.dfy`). The
  class `StunClient` has the promise forms `BindP`, `SendBindRequestP` and
  `SendBindIndicationP`, and the callback forms `Bind`, `SendBindRequest` and
  `SendBindIndication`.
  - A callback form with an undefined handler throws its fixed message
    synchronously and sends nothing.
  - Otherwise it sends one message. It then calls `onSuccess` with the
    fulfilment value or `onFailure` with the rejection reason.
  - The `.catch` is chained after the `.then`, so an exception thrown by
    `onSuccess` also reaches `onFailure`.

  The communicator is replaced by a parameter: the outcome its send would
  settle with. The client records two things: the descriptors it hands to the
  communicator (`sent`) and the handler invocations (`delivered`).
  `Replay` folds the per-call effect over a sequence of calls. `Issue`
  makes those calls on one `StunClient` and proves that the client records
  exactly that fold. The lemmas about `Replay` count the sends, throws and
  handler invocations.

The shared data model is in `StunTypes` (`stun_types.dfy`). A reply's
attributes are a map from attribute type to the decoded attribute. The
attribute decoder files each attribute under its own type; the subset type
`AttributeMap` states this.

For a reply with neither an error code nor an address attribute, the code rejects
with the `TypeError` from reading `.address` of `undefined`. It does not
reject with a STUN bind error. The model gives `Rejected(UndefinedProperty("address"))`.

## Model

| member | source | states |
|---|---|---|
| `Composer.ComposeBindRequest` | src/stun_client.js:110-116 | The request descriptor has method Binding and class Request. |
| `Composer.ComposeBindIndication` | src/stun_client.js:119-125 | The indication descriptor has method Binding and class Indication. |
| `Composer.ComposersDifferOnlyInClass` | src/stun_client.js:110-125 | The two composers agree on the method and differ in the class. Each takes no input, so each is deterministic. |
| `BindExchange.InterpretReply` | src/stun_client.js:24-41 | Success exactly when there is no ERROR-CODE and at least one address attribute. An ERROR-CODE always rejects with `"[stun-js] bind error: "` followed by its reason, whatever address attributes are present. A success copies address and port unchanged from XOR-MAPPED-ADDRESS when present, else from MAPPED-ADDRESS. Any other rejection, which happens only with no address attribute, is the undefined `.address` read. |
| `BindExchange.FirstPresent` | src/stun_client.js:30-33 | Reference definition of the fallback: the attribute of the first type in a preference list that the reply carries, with no earlier type present; none only when no listed type is present. |
| `BindExchange.InterpretReplyFollowsPreference` | src/stun_client.js:30-37 | Without ERROR-CODE, the interpreter returns the address of the first present attribute in the order [XOR-MAPPED-ADDRESS, MAPPED-ADDRESS]. It rejects when there is none. |
| `BindExchange.InterpretReplyReadsOnlyItsAttributes` | src/stun_client.js:25-36 | Two replies that agree on ERROR-CODE, XOR-MAPPED-ADDRESS and MAPPED-ADDRESS interpret identically. Method, class and other attributes do not matter. |
| `BindExchange.BindOutcome` | src/stun_client.js:22-41 | A transport rejection passes through unchanged. A fulfilled reply is interpreted. Success needs a fulfilled reply without ERROR-CODE. |
| `CallbackAdapter.Outgoing` | src/stun_client.js:62-89 | Every operation sends a Binding message. The class is Request exactly for `bind` and `sendBindRequest`, and Indication exactly for `sendBindIndication`. |
| `CallbackAdapter.Deliver` | src/stun_client.js:50-56 | One or two invocations. The first is `onSuccess(value)` exactly when the promise fulfils, else `onFailure(reason)` alone. A second invocation happens exactly when `onSuccess` throws; it is `onFailure` with that exception. |
| `CallbackAdapter.Adapt` | src/stun_client.js:44-105 | A callback form throws exactly when a handler is undefined. Then it throws its fixed message and makes no send and no handler call. Otherwise it throws nothing, sends exactly its one descriptor and delivers the outcome as `Deliver` says. |
| `CallbackAdapter.EffectCounts` | src/stun_client.js:50-56 | One call invokes `onSuccess` once exactly when it is accepted and its promise fulfils, else never. It invokes `onFailure` once exactly when it is accepted and its promise rejects or its `onSuccess` throws, else never. |
| `CallbackAdapter.ReplayAppend` | src/stun_client.js:44-105 | `Replay` folds `Adapt` over a sequence of calls. The fold over two batches is the concatenation of the fold over each. |
| `CallbackAdapter.ReplayCounts` | src/stun_client.js:44-105 | Over any sequence of calls: one send per accepted call; one synchronous throw per refused call; `onSuccess` as often as accepted calls fulfil; `onFailure` as often as accepted calls reject or have a throwing `onSuccess`. |
| `CallbackAdapter.StunClient.SendBindRequestP` | src/stun_client.js:62-66 | Appends the Binding request to the sent messages and settles as the communicator does. No handler is called. |
| `CallbackAdapter.StunClient.BindP` | src/stun_client.js:22-41 | Sends one Binding request and settles with `BindOutcome` of the communicator's outcome. |
| `CallbackAdapter.StunClient.SendBindIndicationP` | src/stun_client.js:85-89 | Appends the Binding indication to the sent messages and settles as the communicator does. |
| `CallbackAdapter.StunClient.Bind` | src/stun_client.js:44-57 | The thrown error, the new sends and the new handler invocations are those of `Adapt` for `bind` over the outcome of `bindP`. |
| `CallbackAdapter.StunClient.SendBindRequest` | src/stun_client.js:68-82 | The same, for `sendBindRequest`. On success, `onSuccess` receives the raw reply. |
| `CallbackAdapter.StunClient.SendBindIndication` | src/stun_client.js:91-105 | The same, for `sendBindIndication` over the communicator's indication outcome. |
| `CallbackAdapter.IssueOne` | src/stun_client.js:44-105 | One callback-form call on a client, with its throw caught by the caller. The client's new sends and invocations, and the error caught, are exactly that call's `Step` (its `Adapt` effect). |
| `CallbackAdapter.Issue` | src/stun_client.js:44-105 | Calls made one after another on one `StunClient`, each throw caught. The client's new `sent` and `delivered`, and the errors caught, equal `Replay` of those calls. So `ReplayAppend` and `ReplayCounts` describe what a client records. |

## Left out

- The communicator (`sendStunRequestP`, `sendStunIndicationP`) is not modelled. It covers transport, sockets, transaction matching and retransmission. Each operation takes the outcome its send settles with as a parameter, and the client records the sent descriptors in order.
- The `StunClient` constructor and its inheritance from the communicator are not modelled. The host, the port and the transport belong to the communicator. The Dafny constructor only starts the recorded sends and invocations empty.
- Packet encoding is not modelled, because the encoder is a foreign call. The composers return the `(method, class)` descriptor handed to the encoder. Any transaction ID the packet constructor might add is not modelled.
- Attribute decoding is not modelled, including un-XORing XOR-MAPPED-ADDRESS. Replies arrive already decoded, one attribute per type. The reply's `getAttribute` is modelled as a lookup in that map (`BindExchange.GetAttribute`).
- Promise scheduling and asynchrony are not modelled. The `.then` and `.catch` chains become a function from the settled outcome to the handler invocations, in order.
- `delivered` orders invocations by call, not by when each promise settles. In the program a later call's handlers can run before an earlier call's.
- An exception thrown by `onFailure` is not modelled. It would only reject the promise returned by `.catch`, and nothing observes that promise.
- A handler is modelled as either `undefined` or a function that returns or throws. Other non-function values, such as `null`, pass the `=== undefined` guard and are not modelled.
- Logging through `winston` is not modelled. It is a side channel and has no effect on behaviour.
- The indication's fulfilment value is modelled as no value, since the communicator's indication result is not part of this model.
