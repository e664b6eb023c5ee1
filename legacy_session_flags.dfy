/**
 * The older connection state of the shared package: Connect and Login flags
 * in a public word, with `cancelLogin` to drop a login while keeping the
 * connection.
 */
module LegacySessionFlags {
  import opened Wrappers
  import opened BitFlags

  const DISCONNECT: Word := 0
  const CONNECT: Word := 1
  const LOGIN: Word := 2

  /** The two errors the state throws. */
  datatype StateError = NotConnected | NotLogin

  function ErrorMessage(e: StateError): string
  {
    match e
    case NotConnected => "session is not connected"
    case NotLogin => "session is not login"
  }

  /** `checkConnect`: passes exactly when the Connect flag is set. */
  function ConnectCheck(w: Word): (r: Outcome<StateError>)
    ensures r.Pass? <==> Has(w, CONNECT)
    ensures r.Fail? ==> r.error == NotConnected
  {
    if Has(w, CONNECT) then Pass else Fail(NotConnected)
  }

  /** `checkLogin`: the connect check first, then the Login flag. */
  function LoginCheck(w: Word): (r: Outcome<StateError>)
    ensures r.Pass? <==> Has(w, CONNECT) && Has(w, LOGIN)
    ensures !Has(w, CONNECT) ==> r == Fail(NotConnected)
    ensures Has(w, CONNECT) && !Has(w, LOGIN) ==> r == Fail(NotLogin)
  {
    match ConnectCheck(w)
    case Fail(e) => Fail(e)
    case Pass => if Has(w, LOGIN) then Pass else Fail(NotLogin)
  }

  /** The word `login` leaves: it throws when not connected, else ORs in Login. */
  function AfterLogin(w: Word): (r: Result<Word, StateError>)
    ensures r.Failure? <==> !Has(w, CONNECT)
    ensures r.Failure? ==> r.error == NotConnected
    ensures r.Success? ==> Has(r.value, LOGIN) && Has(r.value, CONNECT) && r.value & !LOGIN == w & !LOGIN
  {
    match ConnectCheck(w)
    case Fail(e) => Failure(e)
    case Pass => Success(w | LOGIN)
  }

  /**
   * The word `cancelLogin` leaves: exactly Connect when connected, no flag
   * otherwise; either way Login is clear and the Connect flag is as before.
   */
  function AfterCancelLogin(w: Word): (r: Word)
    ensures r == CONNECT || r == DISCONNECT
    ensures !Has(r, LOGIN)
    ensures Has(r, CONNECT) <==> Has(w, CONNECT)
  {
    if Has(w, CONNECT) then CONNECT else DISCONNECT
  }

  /** A second `cancelLogin` changes nothing. */
  lemma CancelLoginIdempotent(w: Word)
    ensures AfterCancelLogin(AfterCancelLogin(w)) == AfterCancelLogin(w)
  {
  }

  /** Login is only ever set together with Connect. */
  predicate Consistent(w: Word)
  {
    Has(w, LOGIN) ==> Has(w, CONNECT)
  }

  /** The transitions a caller can apply to the state. */
  datatype Op = Connect | Disconnect | Login | CancelLogin

  /** One transition; one that throws leaves the word as it was. */
  function Apply(w: Word, op: Op): Word
  {
    match op
    case Connect => CONNECT
    case Disconnect => DISCONNECT
    case Login => AfterLogin(w).GetOr(w)
    case CancelLogin => AfterCancelLogin(w)
  }

  /** The word after applying `ops` in order. */
  function Run(w: Word, ops: seq<Op>): Word
    decreases |ops|
  {
    if |ops| == 0 then w else Run(Apply(w, ops[0]), ops[1..])
  }

  /** Every transition keeps the flags consistent. */
  lemma ApplyConsistent(w: Word, op: Op)
    requires Consistent(w)
    ensures Consistent(Apply(w, op))
  {
    match op
    case Connect =>
    case Disconnect =>
    case Login =>
      if Has(w, CONNECT) {
        assert Apply(w, op) == w | LOGIN;
      }
    case CancelLogin =>
  }

  /**
   * Every state reachable from a fresh one is consistent and uses only the
   * two flag bits.
   */
  lemma {:induction false} RunConsistent(w: Word, ops: seq<Op>)
    requires Consistent(w) && w & !3 == 0
    ensures Consistent(Run(w, ops)) && Run(w, ops) & !3 == 0
    decreases |ops|
  {
    if |ops| > 0 {
      ApplyConsistent(w, ops[0]);
      RunConsistent(Apply(w, ops[0]), ops[1..]);
    }
  }

  /** A fresh state's every reachable word: no flags, Connect, or Connect and Login. */
  lemma ReachableFromFresh(ops: seq<Op>)
    ensures Consistent(Run(DISCONNECT, ops))
    ensures Run(DISCONNECT, ops) in {0, 1, 3}
  {
    RunConsistent(DISCONNECT, ops);
  }

  class SessionState {
    var state: Word

    /** A fresh state is disconnected and not logged in. */
    constructor()
      ensures state == DISCONNECT
      ensures !IsConnect() && !IsLogin()
    {
      state := DISCONNECT;
    }

    predicate IsConnect()
      reads this
    {
      Has(state, CONNECT)
    }

    predicate IsLogin()
      reads this
    {
      Has(state, LOGIN)
    }

    /** Clears every flag. */
    method Disconnect()
      modifies this
      ensures state == DISCONNECT
    {
      state := DISCONNECT;
    }

    /** Sets exactly Connect. */
    method Connect()
      modifies this
      ensures state == CONNECT
    {
      state := CONNECT;
    }

    method CheckConnect() returns (r: Outcome<StateError>)
      ensures r == ConnectCheck(state)
    {
      if !IsConnect() {
        return Fail(NotConnected);
      }
      return Pass;
    }

    /** `login`: throws unless connected, else ORs in Login. */
    method Login() returns (r: Outcome<StateError>)
      modifies this
      ensures AfterLogin(old(state)).Success? ==> r == Pass && state == AfterLogin(old(state)).value
      ensures AfterLogin(old(state)).Failure? ==> r == Fail(NotConnected) && state == old(state)
    {
      r := CheckConnect();
      if r.Pass? {
        state := state | LOGIN;
      }
    }

    /** `cancelLogin`: reconnects when connected, else disconnects. */
    method CancelLogin()
      modifies this
      ensures state == AfterCancelLogin(old(state))
    {
      if IsConnect() {
        Connect();
      } else {
        Disconnect();
      }
    }

    method CheckLogin() returns (r: Outcome<StateError>)
      ensures r == LoginCheck(state)
    {
      r := CheckConnect();
      if r.Pass? && !IsLogin() {
        r := Fail(NotLogin);
      }
    }
  }
}
