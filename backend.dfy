/**
 * `BackendSession`: one connection to the danmaku backend.
 *
 * The session keeps a generation counter (`#id`), the connection flags, a
 * cached token, a user-info cache, the map of streams currently delivering
 * danmaku, and the set of livers callers want streamed. Transport events
 * change this state directly. Every request the session sends is split here
 * at its `await`: a check made when the request is sent, and a commit that
 * receives the backend's reply and checks the same guard again. A guard
 * always compares the generation the operation captured with the current one,
 * so a reply that arrives after a reconnect is ignored.
 *
 * Whether the transport is connected (`session.isConnecting()`) belongs to
 * the transport and is passed in as `up`.
 */
module Backend {
  import opened Wrappers
  import opened BitFlags
  import SessionFlags
  import Text

  type UserId = int

  /** The account used for a fresh login. */
  datatype LoginData = LoginData(account: string, password: string)

  /** The token the backend hands out on login; the session only stores it and sends it back. */
  datatype TokenInfo = TokenInfo(securityKey: string, serviceToken: string, deviceId: string)

  /** A user's profile; `liveId` is empty when the user is not live. */
  datatype UserInfo = UserInfo(userId: UserId, nickname: string, avatar: string, liveId: string)

  /** A stream the backend attached to the session. */
  datatype StreamInfo = StreamInfo(liveId: string, title: string)

  /** The request `login` sends: the cached token, or the account to log in with. */
  datatype LoginRequest = SendToken(token: TokenInfo) | SendLogin(data: LoginData)

  /** The session's mutable state, as a value. */
  datatype Snapshot = Snapshot(
    id: nat,
    flags: Word,
    token: Option<TokenInfo>,
    users: map<UserId, UserInfo>,
    streams: map<UserId, StreamInfo>,
    wanted: set<UserId>)

  /** A freshly constructed session: generation 0, no flags, empty maps and set. */
  function Initial(token: Option<TokenInfo>): Snapshot
  {
    Snapshot(0, SessionFlags.DISCONNECT, token, map[], map[], {})
  }

  predicate Connected(s: Snapshot)
  {
    Has(s.flags, SessionFlags.CONNECT)
  }

  predicate LoggedIn(s: Snapshot)
  {
    Has(s.flags, SessionFlags.LOGIN)
  }

  predicate HasClientId(s: Snapshot)
  {
    Has(s.flags, SessionFlags.HAS_CLIENT_ID)
  }

  /** The message `getDanmaku`, `getDanmakuRepeatedly` and the stop operations throw for a liver id below 1. */
  function BadLiverMessage(liver: UserId): string
  {
    "liver UID is less than 1: " + Text.IntToString(liver)
  }

  // ---------------------------------------------------------------------
  // Transport events

  /** `websocketOpen`: a new generation, connected with no login and no client id. */
  function Opened(s: Snapshot): (r: Snapshot)
    ensures r.id == s.id + 1
    ensures Connected(r) && !LoggedIn(r) && !HasClientId(r)
    ensures r.(id := s.id, flags := s.flags) == s
  {
    s.(id := s.id + 1, flags := SessionFlags.CONNECT)
  }

  /** `websocketClose` and `websocketError`: disconnected, and no stream is active any more. */
  function Closed(s: Snapshot): (r: Snapshot)
    ensures !Connected(r) && !LoggedIn(r) && !HasClientId(r)
    ensures r.streams == map[]
    ensures r.(flags := s.flags, streams := s.streams) == s
  {
    s.(flags := SessionFlags.DISCONNECT, streams := map[])
  }

  /** The teardown `connect` returns: disconnected, token dropped, no stream active or wanted. */
  function TornDown(s: Snapshot): (r: Snapshot)
    ensures !Connected(r) && !LoggedIn(r) && !HasClientId(r)
    ensures r.token == None && r.streams == map[] && r.wanted == {}
    ensures r.(flags := s.flags, token := s.token, streams := s.streams, wanted := s.wanted) == s
  {
    s.(flags := SessionFlags.DISCONNECT, token := None, streams := map[], wanted := {})
  }

  /** `danmakuStop` and `danmakuStopError`: while the transport is up, the liver's stream is dropped. */
  function DanmakuStopped(s: Snapshot, liver: UserId, up: bool): (r: Snapshot)
    ensures up ==> liver !in r.streams && forall l :: l in s.streams && l != liver ==> l in r.streams && r.streams[l] == s.streams[l]
    ensures up ==> r.streams.Keys == s.streams.Keys - {liver}
    ensures !up ==> r == s
    ensures r.(streams := s.streams) == s
  {
    if up then s.(streams := s.streams - {liver}) else s
  }

  /** A `danmakuStop` relaunches acquisition exactly when the transport is up and the liver is still wanted. */
  predicate RelaunchesOnStop(s: Snapshot, liver: UserId, up: bool)
  {
    up && liver in s.wanted
  }

  /** The livers the `login` and `setToken` events relaunch acquisition for. */
  function Relaunch(s: Snapshot): set<UserId>
  {
    set l | l in s.wanted && l !in s.streams
  }

  // ---------------------------------------------------------------------
  // setClientId

  /** `canContinue` of `setClientId`. */
  predicate ClientIdGuard(s: Snapshot, up: bool, gen: nat)
  {
    up && s.id == gen && Connected(s) && !HasClientId(s)
  }

  /** The reply to `setClientID`: the flag is set only if the guard still holds. */
  function ClientIdReply(s: Snapshot, up: bool, gen: nat): (r: Snapshot)
    ensures ClientIdGuard(s, up, gen) ==> HasClientId(r) && Connected(r) && LoggedIn(r) == LoggedIn(s)
    ensures r.(flags := s.flags) == s
    ensures !ClientIdGuard(s, up, gen) ==> r == s
  {
    if ClientIdGuard(s, up, gen) then
      var w := SessionFlags.AfterSetClientId(s.flags);
      assert w.Success?;
      assert w.value & !SessionFlags.HAS_CLIENT_ID == s.flags & !SessionFlags.HAS_CLIENT_ID;
      s.(flags := w.value)
    else s
  }

  // ---------------------------------------------------------------------
  // login

  /** `canContinue` of `login`. */
  predicate LoginGuard(s: Snapshot, up: bool, gen: nat)
  {
    up && s.id == gen && Connected(s) && !LoggedIn(s)
  }

  /** The request `login` sends, if its guard holds: the cached token, else the account (an empty one by default). */
  function LoginRequestFor(s: Snapshot, up: bool, gen: nat, loginData: Option<LoginData>): (r: Option<LoginRequest>)
    ensures r.Some? <==> LoginGuard(s, up, gen)
    ensures r.Some? && s.token.Some? ==> r.value == SendToken(s.token.value)
    ensures r.Some? && s.token.None? && loginData.Some? ==> r.value == SendLogin(loginData.value)
    ensures r.Some? && s.token.None? && loginData.None? ==> r.value == SendLogin(LoginData("", ""))
  {
    if !LoginGuard(s, up, gen) then None
    else match s.token
      case Some(t) => Some(SendToken(t))
      case None => Some(SendLogin(loginData.GetOr(LoginData("", ""))))
  }

  /** The reply to `setToken`: logged in if the guard still holds; the token is never touched. */
  function TokenReply(s: Snapshot, up: bool, gen: nat): (r: Snapshot)
    ensures LoginGuard(s, up, gen) ==> LoggedIn(r) && Connected(r) && HasClientId(r) == HasClientId(s)
    ensures r.(flags := s.flags) == s
    ensures !LoginGuard(s, up, gen) ==> r == s
  {
    if LoginGuard(s, up, gen) then
      var w := SessionFlags.AfterLogin(s.flags);
      assert w.Success?;
      assert w.value & !SessionFlags.LOGIN == s.flags & !SessionFlags.LOGIN;
      s.(flags := w.value)
    else s
  }

  /** The reply to `login`: the returned token is stored and the session logged in, only if the guard still holds. */
  function LoginReply(s: Snapshot, up: bool, gen: nat, token: TokenInfo): (r: Snapshot)
    ensures LoginGuard(s, up, gen) ==> LoggedIn(r) && Connected(r) && HasClientId(r) == HasClientId(s) && r.token == Some(token)
    ensures r.(flags := s.flags, token := s.token) == s
    ensures !LoginGuard(s, up, gen) ==> r == s
  {
    if LoginGuard(s, up, gen) then TokenReply(s, up, gen).(token := Some(token)) else s
  }

  // ---------------------------------------------------------------------
  // getDanmaku

  /** `canContinue` of `getDanmaku`. */
  predicate DanmakuGuard(s: Snapshot, up: bool, gen: nat)
  {
    up && s.id == gen && s.token.Some? && LoggedIn(s)
  }

  /**
   * The check `getDanmaku` makes before requesting the user info: it throws
   * for a liver id below 1, and otherwise requests exactly when the guard holds.
   */
  function DanmakuBegin(s: Snapshot, liver: UserId, up: bool, gen: nat): (r: Result<bool, string>)
    ensures r.Failure? <==> liver <= 0
    ensures r.Failure? ==> r.error == BadLiverMessage(liver)
    ensures r.Success? ==> (r.value <==> DanmakuGuard(s, up, gen))
  {
    if liver <= 0 then Failure(BadLiverMessage(liver)) else Success(DanmakuGuard(s, up, gen))
  }

  /** The cached profile agrees with the reply on the fields `getDanmaku` compares. */
  predicate SameUser(a: UserInfo, b: UserInfo)
  {
    a.userId == b.userId && a.nickname == b.nickname && a.avatar == b.avatar
  }

  /**
   * The reply to `getUserInfo`: the cache entry is replaced unless it already
   * agrees on id, nickname and avatar. As written this write is not guarded,
   * so a reply of an earlier generation still lands in the cache.
   */
  function UserInfoReply(s: Snapshot, liver: UserId, info: UserInfo): (r: Snapshot)
    ensures liver in r.users && SameUser(r.users[liver], info)
    ensures forall l :: l != liver ==> (l in r.users <==> l in s.users)
    ensures forall l :: l != liver && l in s.users ==> r.users[l] == s.users[l]
    ensures liver in s.users && SameUser(s.users[liver], info) ==> r == s
    ensures r.(users := s.users) == s
  {
    if liver in s.users && SameUser(s.users[liver], info) then s
    else s.(users := s.users[liver := info])
  }

  /** After the user info, `getDanmaku` requests the stream exactly when the guard holds and the liver is live. */
  predicate RequestsStream(s: Snapshot, up: bool, gen: nat, info: UserInfo)
  {
    DanmakuGuard(s, up, gen) && |info.liveId| > 0
  }

  /**
   * The reply to the stream request: a new stream is recorded only if the
   * guard still holds; `getDanmaku` reports success whenever the guard holds,
   * even when the backend attached no new stream.
   */
  function StreamReply(s: Snapshot, liver: UserId, up: bool, gen: nat, stream: Option<StreamInfo>): (r: Snapshot)
    ensures DanmakuGuard(s, up, gen) && stream.Some? ==> liver in r.streams && r.streams[liver] == stream.value
    ensures forall l :: l != liver ==> (l in r.streams <==> l in s.streams)
    ensures forall l :: l != liver && l in s.streams ==> r.streams[l] == s.streams[l]
    ensures !(DanmakuGuard(s, up, gen) && stream.Some?) ==> r == s
    ensures r.(streams := s.streams) == s
  {
    if DanmakuGuard(s, up, gen) && stream.Some? then s.(streams := s.streams[liver := stream.value]) else s
  }

  // ---------------------------------------------------------------------
  // The wanted set and stopDanmaku

  /**
   * `getDanmakuRepeatedly`'s edit: throws for a liver id below 1, else adds
   * the liver to the wanted set and changes nothing else.
   */
  function Want(s: Snapshot, liver: UserId): (r: Result<Snapshot, string>)
    ensures r.Failure? <==> liver <= 0
    ensures r.Failure? ==> r.error == BadLiverMessage(liver)
    ensures r.Success? ==> r.value.wanted == s.wanted + {liver} && r.value.(wanted := s.wanted) == s
  {
    if liver <= 0 then Failure(BadLiverMessage(liver))
    else if liver !in s.wanted then Success(s.(wanted := s.wanted + {liver}))
    else Success(s)
  }

  /** `getDanmakuRepeatedly` starts acquisition exactly for a liver that was neither wanted nor streaming. */
  predicate LaunchesOnWant(s: Snapshot, liver: UserId)
  {
    liver > 0 && liver !in s.wanted && liver !in s.streams
  }

  /**
   * `stopDanmakuRepeatedly`'s edit: throws for a liver id below 1, else
   * removes the liver from the wanted set and changes nothing else.
   */
  function Unwant(s: Snapshot, liver: UserId): (r: Result<Snapshot, string>)
    ensures r.Failure? <==> liver <= 0
    ensures r.Failure? ==> r.error == BadLiverMessage(liver)
    ensures r.Success? ==> r.value.wanted == s.wanted - {liver} && r.value.(wanted := s.wanted) == s
  {
    if liver <= 0 then Failure(BadLiverMessage(liver))
    else if liver in s.wanted then Success(s.(wanted := s.wanted - {liver}))
    else Success(s)
  }

  /**
   * `stopDanmaku`: throws for a liver id below 1, else sends the stop request
   * only when connected, on the same generation, holding a token, with the
   * liver's stream active.
   */
  function StopRequest(s: Snapshot, liver: UserId, up: bool, gen: nat): (r: Result<bool, string>)
    ensures r.Failure? <==> liver <= 0
    ensures r.Failure? ==> r.error == BadLiverMessage(liver)
    ensures r == Success(true) ==> up && s.id == gen && s.token.Some? && liver in s.streams
    ensures r == Success(false) ==> !(up && s.id == gen && s.token.Some? && liver in s.streams)
  {
    if liver <= 0 then Failure(BadLiverMessage(liver))
    else Success(up && s.id == gen && s.token.Some? && liver in s.streams)
  }

  /**
   * `stopDanmakuRepeatedly` sends a stop request (through `stopDanmaku` with
   * the current generation) only for a liver that was wanted and is streaming.
   */
  predicate StopsOnUnwant(s: Snapshot, liver: UserId, up: bool)
  {
    liver > 0 && liver in s.wanted && liver in s.streams && StopRequest(s.(wanted := s.wanted - {liver}), liver, up, s.id) == Success(true)
  }

  // ---------------------------------------------------------------------
  // Messages

  /** `canContinue` of `sendMessage`: only a client id is needed, not a login. */
  predicate SendGuard(s: Snapshot, up: bool, gen: nat)
  {
    up && s.id == gen && Connected(s) && HasClientId(s)
  }

  /** A forwarded message. */
  datatype Message = Message(target: string, kind: string, data: string)

  /** The forwarded messages `onReceiveMessage` hands to its callback, in order. */
  function Delivered(received: seq<Message>, target: string): (r: seq<Message>)
    ensures |r| <= |received|
    ensures forall i :: 0 <= i < |r| ==> r[i].target == target && r[i] in received
    ensures forall i :: 0 <= i < |received| && received[i].target == target ==> received[i] in r
  {
    if |received| == 0 then []
    else
      var rest := Delivered(received[1..], target);
      if received[0].target == target then [received[0]] + rest else rest
  }

  /** One message is delivered, by itself, exactly when it is addressed to the target. */
  lemma DeliveredOne(m: Message, target: string)
    ensures Delivered([m], target) == if m.target == target then [m] else []
  {
    assert [m][1..] == [];
  }

  /**
   * Messages are delivered in arrival order, each as often as it arrives:
   * what two runs of arrivals deliver is what each delivers, one after the other.
   */
  lemma {:induction false} DeliveredAppend(a: seq<Message>, b: seq<Message>, target: string)
    ensures Delivered(a + b, target) == Delivered(a, target) + Delivered(b, target)
    decreases |a|
  {
    if |a| == 0 {
      assert a + b == b;
    } else {
      assert (a + b)[0] == a[0];
      assert (a + b)[1..] == a[1..] + b;
      DeliveredAppend(a[1..], b, target);
    }
  }

  // ---------------------------------------------------------------------
  // Traces

  /** Everything that changes a session's state. */
  datatype Event =
    | Open
    | Close
    | Teardown
    | DanmakuStop(liver: UserId, up: bool)
    | ClientIdSet(up: bool, gen: nat)
    | TokenAccepted(up: bool, gen: nat)
    | LoginAccepted(up: bool, gen: nat, token: TokenInfo)
    | UserInfoArrived(liver: UserId, info: UserInfo)
    | StreamArrived(liver: UserId, up: bool, gen: nat, stream: Option<StreamInfo>)
    | WantStream(liver: UserId)
    | UnwantStream(liver: UserId)

  /** One event; a call that throws changes nothing. */
  function Step(s: Snapshot, e: Event): Snapshot
  {
    match e
    case Open => Opened(s)
    case Close => Closed(s)
    case Teardown => TornDown(s)
    case DanmakuStop(liver, up) => DanmakuStopped(s, liver, up)
    case ClientIdSet(up, gen) => ClientIdReply(s, up, gen)
    case TokenAccepted(up, gen) => TokenReply(s, up, gen)
    case LoginAccepted(up, gen, token) => LoginReply(s, up, gen, token)
    case UserInfoArrived(liver, info) => UserInfoReply(s, liver, info)
    case StreamArrived(liver, up, gen, stream) => StreamReply(s, liver, up, gen, stream)
    case WantStream(liver) => Want(s, liver).GetOr(s)
    case UnwantStream(liver) => Unwant(s, liver).GetOr(s)
  }

  function Run(s: Snapshot, events: seq<Event>): Snapshot
    decreases |events|
  {
    if |events| == 0 then s else Run(Step(s, events[0]), events[1..])
  }

  /** The number of `websocketOpen` events in a trace. */
  function Opens(events: seq<Event>): nat
  {
    if |events| == 0 then 0 else (if events[0].Open? then 1 else 0) + Opens(events[1..])
  }

  /** A reply guarded by the generation its operation captured. */
  predicate GuardedReply(e: Event)
  {
    e.ClientIdSet? || e.TokenAccepted? || e.LoginAccepted? || e.StreamArrived?
  }

  /** A reply whose operation started in an earlier generation changes nothing. */
  lemma StaleReplyIgnored(s: Snapshot, e: Event)
    requires GuardedReply(e) && e.gen != s.id
    ensures Step(s, e) == s
  {
  }

  /** The generation counts the `websocketOpen` events and nothing else moves it. */
  lemma StepGeneration(s: Snapshot, e: Event)
    ensures Step(s, e).id == s.id + (if e.Open? then 1 else 0)
  {
    match e
    case Open =>
    case Close =>
    case Teardown =>
    case DanmakuStop(liver, up) =>
    case ClientIdSet(up, gen) =>
    case TokenAccepted(up, gen) =>
    case LoginAccepted(up, gen, token) =>
    case UserInfoArrived(liver, info) =>
    case StreamArrived(liver, up, gen, stream) =>
    case WantStream(liver) =>
    case UnwantStream(liver) =>
  }

  lemma {:induction false} RunGeneration(s: Snapshot, events: seq<Event>)
    ensures Run(s, events).id == s.id + Opens(events)
    decreases |events|
  {
    if |events| > 0 {
      StepGeneration(s, events[0]);
      RunGeneration(Step(s, events[0]), events[1..]);
    }
  }

  /**
   * An operation that captured generation `s.id` and whose reply arrives
   * after a reconnect changes nothing, whatever happened in between.
   */
  lemma ReplyAfterReconnectIgnored(s: Snapshot, events: seq<Event>, e: Event)
    requires GuardedReply(e) && e.gen == s.id && Opens(events) > 0
    ensures Step(Run(s, events), e) == Run(s, events)
  {
    RunGeneration(s, events);
    StaleReplyIgnored(Run(s, events), e);
  }

  /** What every reachable state satisfies: consistent flags, and only positive liver ids are wanted. */
  predicate Invariant(s: Snapshot)
  {
    SessionFlags.Consistent(s.flags) && forall l :: l in s.wanted ==> l > 0
  }

  /** Every event keeps the flags consistent: the session only changes them through its state object's transitions. */
  lemma StepFlags(s: Snapshot, e: Event)
    requires SessionFlags.Consistent(s.flags)
    ensures SessionFlags.Consistent(Step(s, e).flags)
  {
    match e
    case Open =>
      SessionFlags.ApplyConsistent(s.flags, SessionFlags.Connect);
    case Close =>
      SessionFlags.ApplyConsistent(s.flags, SessionFlags.Disconnect);
    case Teardown =>
      SessionFlags.ApplyConsistent(s.flags, SessionFlags.Disconnect);
    case DanmakuStop(liver, up) =>
      assert Step(s, e).flags == s.flags;
    case ClientIdSet(up, gen) =>
      if ClientIdGuard(s, up, gen) {
        assert Step(s, e).flags == SessionFlags.Apply(s.flags, SessionFlags.SetClientId);
        SessionFlags.ApplyConsistent(s.flags, SessionFlags.SetClientId);
      }
    case TokenAccepted(up, gen) =>
      if LoginGuard(s, up, gen) {
        assert Step(s, e).flags == SessionFlags.Apply(s.flags, SessionFlags.Login);
        SessionFlags.ApplyConsistent(s.flags, SessionFlags.Login);
      }
    case LoginAccepted(up, gen, token) =>
      if LoginGuard(s, up, gen) {
        assert Step(s, e).flags == SessionFlags.Apply(s.flags, SessionFlags.Login);
        SessionFlags.ApplyConsistent(s.flags, SessionFlags.Login);
      }
    case UserInfoArrived(liver, info) =>
      assert Step(s, e).flags == s.flags;
    case StreamArrived(liver, up, gen, stream) =>
      assert Step(s, e).flags == s.flags;
    case WantStream(liver) =>
      assert Step(s, e).flags == s.flags;
    case UnwantStream(liver) =>
      assert Step(s, e).flags == s.flags;
  }

  /** Only `getDanmakuRepeatedly` adds to the wanted set, and only a positive liver id. */
  lemma StepWanted(s: Snapshot, e: Event)
    ensures Step(s, e).wanted <= s.wanted + (if e.WantStream? && e.liver > 0 then {e.liver} else {})
  {
    match e
    case Open =>
    case Close =>
    case Teardown =>
    case DanmakuStop(liver, up) =>
    case ClientIdSet(up, gen) =>
    case TokenAccepted(up, gen) =>
    case LoginAccepted(up, gen, token) =>
    case UserInfoArrived(liver, info) =>
    case StreamArrived(liver, up, gen, stream) =>
    case WantStream(liver) =>
    case UnwantStream(liver) =>
  }

  lemma StepInvariant(s: Snapshot, e: Event)
    requires Invariant(s)
    ensures Invariant(Step(s, e))
  {
    StepFlags(s, e);
    StepWanted(s, e);
  }

  lemma {:induction false} RunInvariant(s: Snapshot, events: seq<Event>)
    requires Invariant(s)
    ensures Invariant(Run(s, events))
    decreases |events|
  {
    if |events| > 0 {
      StepInvariant(s, events[0]);
      RunInvariant(Step(s, events[0]), events[1..]);
    }
  }

  /** Every state reachable from a new session: a login or a client id only while connected. */
  lemma ReachableInvariant(token: Option<TokenInfo>, events: seq<Event>)
    ensures Invariant(Run(Initial(token), events))
    ensures LoggedIn(Run(Initial(token), events)) ==> Connected(Run(Initial(token), events))
    ensures HasClientId(Run(Initial(token), events)) ==> Connected(Run(Initial(token), events))
  {
    RunInvariant(Initial(token), events);
  }

  /** Events that neither attach a stream nor edit the wanted set. */
  predicate KeepsIntent(e: Event)
  {
    !(e.Teardown? || e.StreamArrived? || e.WantStream? || e.UnwantStream?)
  }

  lemma {:induction false} IntentSurvives(s: Snapshot, events: seq<Event>)
    requires s.streams == map[]
    requires forall i :: 0 <= i < |events| ==> KeepsIntent(events[i])
    ensures Run(s, events).streams == map[] && Run(s, events).wanted == s.wanted
    decreases |events|
  {
    if |events| > 0 {
      assert Step(s, events[0]).streams == map[];
      IntentSurvives(Step(s, events[0]), events[1..]);
    }
  }

  /**
   * After a disconnect, a reconnect and any handshake, the next `login` or
   * `setToken` event relaunches acquisition for every wanted liver.
   */
  lemma ReconnectRelaunchesWanted(s: Snapshot, events: seq<Event>)
    requires forall i :: 0 <= i < |events| ==> KeepsIntent(events[i])
    ensures Relaunch(Run(Closed(s), events)) == s.wanted
  {
    IntentSurvives(Closed(s), events);
  }

  /** A repeated `getDanmakuRepeatedly` neither changes the state nor starts a second acquisition. */
  lemma WantIdempotent(s: Snapshot, liver: UserId)
    requires Want(s, liver).Success?
    ensures Want(Want(s, liver).value, liver) == Want(s, liver)
    ensures !LaunchesOnWant(Want(s, liver).value, liver)
  {
  }

  /** A repeated `stopDanmakuRepeatedly` neither changes the state nor sends a second stop request. */
  lemma UnwantIdempotent(s: Snapshot, liver: UserId, up: bool)
    requires Unwant(s, liver).Success?
    ensures Unwant(Unwant(s, liver).value, liver) == Unwant(s, liver)
    ensures !StopsOnUnwant(Unwant(s, liver).value, liver, up)
  {
  }

  /**
   * A whole cycle: open, set the client id, log in, want liver 1000, receive
   * its (live) profile and a stream, then a `danmakuStop` for it.
   */
  lemma StreamLifecycle(t: TokenInfo, info: UserInfo, stream: StreamInfo)
    requires |info.liveId| > 0
    ensures var s1 := Opened(Initial(None));
      var s2 := ClientIdReply(s1, true, 1);
      var s3 := LoginReply(s2, true, 1, t);
      var s4 := Want(s3, 1000).value;
      var s5 := UserInfoReply(s4, 1000, info);
      var s6 := StreamReply(s5, 1000, true, 1, Some(stream));
      && s1.id == 1 && HasClientId(s2) && LoggedIn(s3) && s3.token == Some(t)
      && LaunchesOnWant(s3, 1000) && DanmakuBegin(s4, 1000, true, 1) == Success(true)
      && RequestsStream(s5, true, 1, info)
      && s6.streams == map[1000 := stream] && 1000 in s6.wanted
      && DanmakuStopped(s6, 1000, true).streams == map[] && RelaunchesOnStop(s6, 1000, true)
  {
  }

  // ---------------------------------------------------------------------
  // The session object

  class BackendSession {
    var id: nat
    const state: SessionFlags.SessionState
    const clientId: string
    const loginData: Option<LoginData>
    var token: Option<TokenInfo>
    var userInfoMap: map<UserId, UserInfo>
    var streamInfoMap: map<UserId, StreamInfo>
    var getDanmakuRepeatedlySet: set<UserId>

    /** The state as a value. */
    function View(): Snapshot
      reads this, state
    {
      Snapshot(id, state.state, token, userInfoMap, streamInfoMap, getDanmakuRepeatedlySet)
    }

    constructor(clientId: string, loginInfo: Option<LoginData>, tokenInfo: Option<TokenInfo>)
      ensures View() == Initial(tokenInfo)
      ensures this.clientId == clientId && loginData == loginInfo
      ensures fresh(state)
    {
      id := 0;
      state := new SessionFlags.SessionState();
      this.clientId := clientId;
      loginData := loginInfo;
      token := tokenInfo;
      userInfoMap := map[];
      streamInfoMap := map[];
      getDanmakuRepeatedlySet := {};
    }

    /** The cached user information of `liver`, if any. */
    function GetUserInfo(liver: UserId): (r: Option<UserInfo>)
      reads this
      ensures r.Some? <==> liver in userInfoMap
      ensures r.Some? ==> r.value == userInfoMap[liver]
    {
      if liver in userInfoMap then Some(userInfoMap[liver]) else None
    }

    /** The stream of `liver` being acquired, if any. */
    function GetStreamInfo(liver: UserId): (r: Option<StreamInfo>)
      reads this
      ensures r.Some? <==> liver in streamInfoMap
      ensures r.Some? ==> r.value == streamInfoMap[liver]
    {
      if liver in streamInfoMap then Some(streamInfoMap[liver]) else None
    }

    /** Whether danmaku of `liver` are being acquired. */
    predicate IsGettingDanmaku(liver: UserId): (b: bool)
      reads this
      ensures b <==> GetStreamInfo(liver).Some?
    {
      liver in streamInfoMap
    }

    /** Whether acquisition of `liver`'s danmaku is wanted across reconnections. */
    predicate IsGettingDanmakuRepeatedly(liver: UserId): (b: bool)
      reads this
      ensures b <==> liver in getDanmakuRepeatedlySet
    {
      liver in getDanmakuRepeatedlySet
    }

    /** The `websocketOpen` handler; the caller then starts the client-id and login sequences with the new `id`. */
    method OnOpen()
      modifies this, state
      ensures View() == Opened(old(View()))
    {
      id := id + 1;
      state.Connect();
    }

    /** The `websocketClose` and `websocketError` handlers. */
    method OnClose()
      modifies this, state
      ensures View() == Closed(old(View()))
    {
      state.Disconnect();
      streamInfoMap := map[];
    }

    /** The `login` and `setToken` handlers: the livers whose acquisition restarts. */
    method OnLogin() returns (relaunch: set<UserId>)
      ensures relaunch == Relaunch(View())
      ensures forall l :: l in relaunch <==> IsGettingDanmakuRepeatedly(l) && !IsGettingDanmaku(l)
    {
      relaunch := set l | l in getDanmakuRepeatedlySet && l !in streamInfoMap;
    }

    /** The `danmakuStop` and `danmakuStopError` handlers; `relaunch` says whether acquisition restarts. */
    method OnDanmakuStop(liver: UserId, up: bool) returns (relaunch: bool)
      modifies this
      ensures View() == DanmakuStopped(old(View()), liver, up)
      ensures relaunch == RelaunchesOnStop(old(View()), liver, up)
    {
      relaunch := false;
      if up {
        streamInfoMap := streamInfoMap - {liver};
        relaunch := IsGettingDanmakuRepeatedly(liver);
      }
    }

    /** The teardown function `connect` returns, apart from unsubscribing and closing the transport. */
    method Teardown()
      modifies this, state
      ensures View() == TornDown(old(View()))
    {
      state.Disconnect();
      token := None;
      streamInfoMap := map[];
      getDanmakuRepeatedlySet := {};
    }

    /** `setClientId` up to its request: whether `setClientID` is sent. */
    method SetClientIdBegin(up: bool, gen: nat) returns (send: bool)
      ensures send == ClientIdGuard(View(), up, gen)
    {
      send := up && id == gen && state.IsConnecting() && !state.HasClientId();
    }

    /** `setClientId` after its reply: commits the flag if the guard still holds. */
    method SetClientIdCommit(up: bool, gen: nat) returns (ok: bool)
      modifies state
      ensures ok == ClientIdGuard(old(View()), up, gen)
      ensures View() == ClientIdReply(old(View()), up, gen)
    {
      ok := up && id == gen && state.IsConnecting() && !state.HasClientId();
      if ok {
        var _ := state.HasSetClientId();
      }
    }

    /** `login` up to its request: the request sent, if any. */
    method LoginBegin(up: bool, gen: nat) returns (request: Option<LoginRequest>)
      ensures request == LoginRequestFor(View(), up, gen, loginData)
    {
      request := None;
      if up && id == gen && state.IsConnecting() && !state.IsLogin() {
        match token
        case Some(t) => request := Some(SendToken(t));
        case None => request := Some(SendLogin(loginData.GetOr(LoginData("", ""))));
      }
    }

    /** `login` after the reply to `setToken`. */
    method LoginCommitToken(up: bool, gen: nat) returns (ok: bool)
      modifies state
      ensures ok == LoginGuard(old(View()), up, gen)
      ensures View() == TokenReply(old(View()), up, gen)
    {
      ok := up && id == gen && state.IsConnecting() && !state.IsLogin();
      if ok {
        var _ := state.Login();
      }
    }

    /** `login` after the reply to `login`, which carries the new token. */
    method LoginCommit(up: bool, gen: nat, reply: TokenInfo) returns (ok: bool)
      modifies this, state
      ensures ok == LoginGuard(old(View()), up, gen)
      ensures View() == LoginReply(old(View()), up, gen, reply)
    {
      ok := up && id == gen && state.IsConnecting() && !state.IsLogin();
      if ok {
        token := Some(reply);
        var _ := state.Login();
      }
    }

    /** `getDanmaku` up to its first request. */
    method GetDanmakuBegin(liver: UserId, up: bool, gen: nat) returns (r: Result<bool, string>)
      ensures r == DanmakuBegin(View(), liver, up, gen)
    {
      if liver <= 0 {
        return Failure(BadLiverMessage(liver));
      }
      r := Success(up && id == gen && token.Some? && state.IsLogin());
    }

    /** `getDanmaku` after the user info: updates the cache, then says whether the stream is requested. */
    method GetDanmakuUserInfo(liver: UserId, up: bool, gen: nat, info: UserInfo) returns (requestStream: bool)
      modifies this
      ensures View() == UserInfoReply(old(View()), liver, info)
      ensures requestStream == RequestsStream(View(), up, gen, info)
    {
      var user := GetUserInfo(liver);
      if !(user.Some? && SameUser(user.value, info)) {
        userInfoMap := userInfoMap[liver := info];
      }
      requestStream := up && id == gen && token.Some? && state.IsLogin() && |info.liveId| > 0;
    }

    /** `getDanmaku` after the stream reply: records a new stream if the guard still holds. */
    method GetDanmakuCommit(liver: UserId, up: bool, gen: nat, stream: Option<StreamInfo>) returns (ok: bool)
      modifies this
      ensures ok == DanmakuGuard(old(View()), up, gen)
      ensures View() == StreamReply(old(View()), liver, up, gen, stream)
    {
      ok := up && id == gen && token.Some? && state.IsLogin();
      if ok && stream.Some? {
        streamInfoMap := streamInfoMap[liver := stream.value];
      }
    }

    /** `getDanmakuRepeatedly`: records the wish; `launch` says whether acquisition starts. */
    method GetDanmakuRepeatedly(liver: UserId) returns (launch: Result<bool, string>)
      modifies this
      ensures Want(old(View()), liver).Failure? ==> launch == Failure(Want(old(View()), liver).error) && View() == old(View())
      ensures Want(old(View()), liver).Success? ==> launch == Success(LaunchesOnWant(old(View()), liver)) && View() == Want(old(View()), liver).value
    {
      if liver <= 0 {
        return Failure(BadLiverMessage(liver));
      }
      launch := Success(false);
      if !IsGettingDanmakuRepeatedly(liver) {
        getDanmakuRepeatedlySet := getDanmakuRepeatedlySet + {liver};
        launch := Success(!IsGettingDanmaku(liver));
      }
    }

    /** `stopDanmaku`: whether the stop request is sent; the stream map is left to the `danmakuStop` event. */
    method StopDanmaku(liver: UserId, up: bool, gen: nat) returns (r: Result<bool, string>)
      ensures r == StopRequest(View(), liver, up, gen)
    {
      if liver <= 0 {
        return Failure(BadLiverMessage(liver));
      }
      r := Success(up && id == gen && token.Some? && IsGettingDanmaku(liver));
    }

    /** `stopDanmakuRepeatedly`: drops the wish; `stop` says whether a stop request is sent. */
    method StopDanmakuRepeatedly(liver: UserId, up: bool) returns (stop: Result<bool, string>)
      modifies this
      ensures Unwant(old(View()), liver).Failure? ==> stop == Failure(Unwant(old(View()), liver).error) && View() == old(View())
      ensures Unwant(old(View()), liver).Success? ==> stop == Success(StopsOnUnwant(old(View()), liver, up)) && View() == Unwant(old(View()), liver).value
    {
      if liver <= 0 {
        return Failure(BadLiverMessage(liver));
      }
      stop := Success(false);
      if IsGettingDanmakuRepeatedly(liver) {
        getDanmakuRepeatedlySet := getDanmakuRepeatedlySet - {liver};
        if IsGettingDanmaku(liver) {
          var gen := id;
          var sent := StopDanmaku(liver, up, gen);
          stop := sent;
        }
      }
    }

    /** `sendMessage`, before and again after its request: whether it goes on (and finally reports success). */
    method SendMessageGuard(up: bool, gen: nat) returns (ok: bool)
      ensures ok == SendGuard(View(), up, gen)
    {
      ok := up && id == gen && state.IsConnecting() && state.HasClientId();
    }
  }
}
