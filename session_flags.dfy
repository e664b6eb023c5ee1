/**
 * The backend session's connection state (`SessionState` of the session
 * package): a word of three flags, Connect, Login and HasClientId, that the
 * transitions overwrite or OR into in place.
 */
module SessionFlags {
  import opened Wrappers
  import opened BitFlags

  const DISCONNECT: Word := 0
  const CONNECT: Word := 1
  const LOGIN: Word := 2
  const HAS_CLIENT_ID: Word := 4

  /** The two errors the state throws. */
  datatype StateError = NotConnected | NotLogin

  function ErrorMessage(e: StateError): string
  {
    match e
    case NotConnected => "session is not connected"
    case NotLogin => "session is not login"
  }

  /** `checkConnect`: passes exactly when the Connect flag is set. */
  function ConnectCheck(w: Word): (r: Outcome<StateError>)
    ensures r.Pass? <==> Has(w, CONNECT)
    ensures r.Fail? ==> r.error == NotConnected
  {
    if Has(w, CONNECT) then Pass else Fail(NotConnected)
  }

  /** `checkLogin`: the connect check first, then the Login flag. */
  function LoginCheck(w: Word): (r: Outcome<StateError>)
    ensures r.Pass? <==> Has(w, CONNECT) && Has(w, LOGIN)
    ensures !Has(w, CONNECT) ==> r == Fail(NotConnected)
    ensures Has(w, CONNECT) && !Has(w, LOGIN) ==> r == Fail(NotLogin)
  {
    match ConnectCheck(w)
    case Fail(e) => Fail(e)
    case Pass => if Has(w, LOGIN) then Pass else Fail(NotLogin)
  }

  /** The word `login` leaves: it throws when not connected, else ORs in Login. */
  function AfterLogin(w: Word): (r: Result<Word, StateError>)
    ensures r.Failure? <==> !Has(w, CONNECT)
    ensures r.Failure? ==> r.error == NotConnected
    ensures r.Success? ==> Has(r.value, LOGIN) && r.value & !LOGIN == w & !LOGIN
  {
    match ConnectCheck(w)
    case Fail(e) => Failure(e)
    case Pass => Success(w | LOGIN)
  }

  /** The word `hasSetClientId` leaves: the same check, then HasClientId is ORed in. */
  function AfterSetClientId(w: Word): (r: Result<Word, StateError>)
    ensures r.Failure? <==> !Has(w, CONNECT)
    ensures r.Failure? ==> r.error == NotConnected
    ensures r.Success? ==> Has(r.value, HAS_CLIENT_ID) && r.value & !HAS_CLIENT_ID == w & !HAS_CLIENT_ID
  {
    match ConnectCheck(w)
    case Fail(e) => Failure(e)
    case Pass => Success(w | HAS_CLIENT_ID)
  }

  /** A second `login` changes nothing. */
  lemma LoginIdempotent(w: Word)
    requires AfterLogin(w).Success?
    ensures AfterLogin(AfterLogin(w).value) == AfterLogin(w)
  {
  }

  /** A second `hasSetClientId` changes nothing. */
  lemma SetClientIdIdempotent(w: Word)
    requires AfterSetClientId(w).Success?
    ensures AfterSetClientId(AfterSetClientId(w).value) == AfterSetClientId(w)
  {
  }

  /** Login and HasClientId are only ever set together with Connect. */
  predicate Consistent(w: Word)
  {
    (Has(w, LOGIN) || Has(w, HAS_CLIENT_ID)) ==> Has(w, CONNECT)
  }

  /** The transitions a caller can apply to the state. */
  datatype Op = Connect | Disconnect | Login | SetClientId

  /** One transition; one that throws leaves the word as it was. */
  function Apply(w: Word, op: Op): Word
  {
    match op
    case Connect => CONNECT
    case Disconnect => DISCONNECT
    case Login => AfterLogin(w).GetOr(w)
    case SetClientId => AfterSetClientId(w).GetOr(w)
  }

  /** The word after applying `ops` in order. */
  function Run(w: Word, ops: seq<Op>): Word
    decreases |ops|
  {
    if |ops| == 0 then w else Run(Apply(w, ops[0]), ops[1..])
  }

  /** Every transition keeps the flags consistent. */
  lemma ApplyConsistent(w: Word, op: Op)
    requires Consistent(w)
    ensures Consistent(Apply(w, op))
  {
    match op
    case Connect =>
    case Disconnect =>
    case Login =>
      if Has(w, CONNECT) {
        assert Apply(w, op) == w | LOGIN;
      }
    case SetClientId =>
      if Has(w, CONNECT) {
        assert Apply(w, op) == w | HAS_CLIENT_ID;
      }
  }

  /**
   * Every state reachable from a fresh one is consistent and uses only the
   * three flag bits.
   */
  lemma {:induction false} RunConsistent(w: Word, ops: seq<Op>)
    requires Consistent(w) && w & !7 == 0
    ensures Consistent(Run(w, ops)) && Run(w, ops) & !7 == 0
    decreases |ops|
  {
    if |ops| > 0 {
      ApplyConsistent(w, ops[0]);
      RunConsistent(Apply(w, ops[0]), ops[1..]);
    }
  }

  /** A fresh state's every reachable word. */
  lemma ReachableFromFresh(ops: seq<Op>)
    ensures Consistent(Run(DISCONNECT, ops))
    ensures Run(DISCONNECT, ops) in {0, 1, 3, 5, 7}
  {
    RunConsistent(DISCONNECT, ops);
  }

  class SessionState {
    var state: Word

    /** A fresh state has no flag set. */
    constructor()
      ensures state == DISCONNECT
      ensures !IsConnecting() && !IsLogin() && !HasClientId()
    {
      state := DISCONNECT;
    }

    /** `fromState`: a new object with the same flags. */
    static method FromState(other: SessionState) returns (r: SessionState)
      ensures fresh(r) && r.state == other.state
    {
      r := new SessionState();
      r.state := other.state;
    }

    predicate IsConnecting()
      reads this
    {
      Has(state, CONNECT)
    }

    predicate IsLogin()
      reads this
    {
      Has(state, LOGIN)
    }

    predicate HasClientId()
      reads this
    {
      Has(state, HAS_CLIENT_ID)
    }

    /** Clears every flag. */
    method Disconnect()
      modifies this
      ensures state == DISCONNECT
    {
      state := DISCONNECT;
    }

    /** Sets exactly Connect, dropping Login and HasClientId of an earlier connection. */
    method Connect()
      modifies this
      ensures state == CONNECT
      ensures IsConnecting() && !IsLogin() && !HasClientId()
    {
      state := CONNECT;
    }

    method CheckConnect() returns (r: Outcome<StateError>)
      ensures r == ConnectCheck(state)
    {
      if !IsConnecting() {
        return Fail(NotConnected);
      }
      return Pass;
    }

    method CheckLogin() returns (r: Outcome<StateError>)
      ensures r == LoginCheck(state)
    {
      r := CheckConnect();
      if r.Pass? && !IsLogin() {
        r := Fail(NotLogin);
      }
    }

    /** `login`: throws unless connected, else ORs in Login. */
    method Login() returns (r: Outcome<StateError>)
      modifies this
      ensures AfterLogin(old(state)).Success? ==> r == Pass && state == AfterLogin(old(state)).value
      ensures AfterLogin(old(state)).Failure? ==> r == Fail(NotConnected) && state == old(state)
    {
      r := CheckConnect();
      if r.Pass? {
        state := state | LOGIN;
      }
    }

    /** `hasSetClientId`: throws unless connected, else ORs in HasClientId. */
    method HasSetClientId() returns (r: Outcome<StateError>)
      modifies this
      ensures AfterSetClientId(old(state)).Success? ==> r == Pass && state == AfterSetClientId(old(state)).value
      ensures AfterSetClientId(old(state)).Failure? ==> r == Fail(NotConnected) && state == old(state)
    {
      r := CheckConnect();
      if r.Pass? {
        state := state | HAS_CLIENT_ID;
      }
    }
  }
}
