/**
 The vocabulary shared by the broker and its decision provider: process identities, requests,
 decisions and error codes.  Every text the code compares against a constant is a constructor
 here; any other text is the constructor that carries it.
 */
module Approval {
  /** Seconds on the broker's clock. */
  type Time = int

  /** Request and lease identifiers. */
  type Id = string

  datatype Identity = Identity(pid: int, uid: nat, startTime: nat)

  datatype Command = Command(argv: seq<string>, cwd: string, timeoutSeconds: int, hash: string)

  /** `Undecided` is the empty string of the code. */
  datatype Outcome = Undecided | Approved | Denied | Expired | Cancelled | UnknownOutcome(text: string)

  /** `NoScope` is the empty string of the code. */
  datatype Scope = NoScope | CommandScope | MessageScope | SessionScope | UnknownScope(text: string)

  datatype ErrorCode =
    | InvalidLifecycle
    | LifecycleOutOfOrder
    | LifecycleAmbiguous
    | NoActiveTurn
    | InternalError
    | InvalidProviderDecision
    | InvalidDecision
    | InvalidScope
    | NotFound
    | RequestEnded(outcome: Outcome)

  datatype Request = Request(
    id: Id, process: Identity, sessionId: string, turn: nat,
    agentUid: nat, command: Command, createdAt: Time, expiresAt: Time)

  datatype Decision = Decision(outcome: Outcome, scope: Scope, provider: string, principal: string, approverUid: nat)
  {
    predicate IsSet() {
      outcome != Undecided
    }

    predicate Valid() {
      && outcome in {Approved, Denied, Expired, Cancelled}
      && (outcome == Denied ==> scope == CommandScope)
      && (outcome == Approved ==> scope in {CommandScope, MessageScope, SessionScope} && provider != "" && principal != "")
    }
  }

  const UNSET := Decision(Undecided, NoScope, "", "", 0)

  /** Decimal digits of a natural number, as printed by `%d`. */
  function Decimal(n: nat): (s: string)
    ensures s != ""
    ensures forall i | 0 <= i < |s| :: '0' <= s[i] <= '9'
  {
    var digit := ['0' + (n % 10) as char];
    if n < 10 then digit else Decimal(n / 10) + digit
  }

  /** Whether two requests come from the same agent conversation. */
  predicate SameSession(a: Request, b: Request) {
    a.process == b.process && a.sessionId == b.sessionId
  }

  /** Whether an approval of `target` with the given scope also speaks for `request`. */
  predicate Covers(scope: Scope, target: Request, request: Request) {
    match scope
    case MessageScope => SameSession(request, target) && request.turn == target.turn
    case SessionScope => SameSession(request, target)
    case _ => request.id == target.id
  }
}
