/** Message type codes and the shift tests by which the controller routes them. */
module Routing {
  import opened Messages

  predicate ForProposer(code: nat) {
    code / 16 == 1  // code >> 4 == 0x1
  }

  predicate ForAcceptor(code: nat) {
    code / 8 == 1  // code >> 3 == 0x1
  }

  predicate ForLearner(code: nat) {
    code / 32 == 1  // code >> 5 == 0x1
  }

  predicate ForPlaceholder(code: nat) {
    code / 64 == 1  // code >> 6 == 0x1
  }

  /** The position of a message type within its group of the enumeration. */
  function Position(m: Message): nat {
    match m
    case Propose(_, _) => 0
    case Accept(_, _, _) => 1
    case Promise(_, _, _, _, _) => 0
    case ProposeReject(_, _, _, _) => 0
    case Accepted(_, _, _) => 1
    case AcceptReject(_, _, _, _) => 1
    case ValueChosen(_, _) => 0
    case ShallILearn(_, _) => 1
    case ConfirmLearn(_, _) => 2
    case ValueSend(_, _, _, _) => 3
    case ValueSync(_, _, _, _) => 4
    case SyncAck(_, _) => 5
    case ChosenBroadcast(_, _, _) => 6
    case TellInstance(_, _, _) => 7
    case NewValueCommitted => 0
  }

  predicate ToAcceptor(m: Message) {
    m.Propose? || m.Accept?
  }

  predicate ToProposer(m: Message) {
    m.Promise? || m.ProposeReject? || m.Accepted? || m.AcceptReject?
  }

  predicate ToPlaceholder(m: Message) {
    m.NewValueCommitted?
  }

  predicate ToLearner(m: Message) {
    !ToAcceptor(m) && !ToProposer(m) && !ToPlaceholder(m)
  }

  /** The first code of a group: the group's prefix shifted left by three. */
  function Code(acceptor: nat, proposer: nat, learner: nat, placeholder: nat, m: Message): nat {
    8 * (if ToAcceptor(m) then acceptor else if ToProposer(m) then proposer
         else if ToLearner(m) then learner else placeholder) + Position(m)
  }

  /** Repair: the prefixes are the binary numbers 1, 11, 111 and 1111 that the shift tests expect. */
  function TypeCode(m: Message): nat {
    Code(1, 3, 7, 15, m)
  }

  /** The prefixes as the source writes them, in hexadecimal. */
  function WrittenCode(m: Message): nat {
    Code(0x1, 0x11, 0x111, 0x1111, m)
  }

  /** With binary prefixes every message goes to exactly one player. */
  lemma RoutesExactly(m: Message)
    ensures ForAcceptor(TypeCode(m)) <==> ToAcceptor(m)
    ensures ForProposer(TypeCode(m)) <==> ToProposer(m)
    ensures ForLearner(TypeCode(m)) <==> ToLearner(m)
    ensures ForPlaceholder(TypeCode(m)) <==> ToPlaceholder(m)
  {
    match m case _ =>
  }

  /** With the prefixes as written, a message is routed at all exactly when it is for the acceptor. */
  lemma WrittenCodesReachAcceptorsOnly(m: Message)
    ensures var code := WrittenCode(m);
      && (ForAcceptor(code) <==> ToAcceptor(m))
      && !ForProposer(code) && !ForLearner(code) && !ForPlaceholder(code)
  {
    match m case _ =>
  }
}
