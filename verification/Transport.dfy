/**
 The identity side of the hub client: connection, registration, login, and the snapshot on disk.
 The hub's answers, the keys and the disk are inputs.
 */
module Transport {
  import opened Options
  import opened Text

  datatype AuthState = AuthState(deviceID: string, nodeID: nat, hubID: nat, role: string, loggedIn: bool)

  const NO_AUTH := AuthState("", 0, 0, "", false)

  /** An answer of the hub: none, an undecodable or a refusing one all count as Refused. */
  datatype Reply = Refused | Accepted(nodeID: nat, hubID: nat, role: string)

  /** What was asked of the hub, and whether it agreed. */
  datatype Request = RegisterRequest(deviceID: string, reply: Reply) | LoginRequest(deviceID: string, nodeID: nat,
      reply: Reply)

  /** `snapshot`: the file, None if there is no usable one. `connected` may drop at any time. */
  datatype Hub = Hub(auth: AuthState, connected: bool, endpoint: string, snapshot: Option<AuthState>,
                     requests: seq<Request>)

  /** Everything that can go either way while an identity is established. */
  datatype Attempt = Attempt(
    connects: bool, closeSaves: bool, clearSaves: bool, staysForRegister: bool, hasKeys: bool, register: Reply,
    registerSaves: bool, staysForLogin: bool, signs: bool, login: Reply, loginSaves: bool)

  function Store(h: Hub, saves: bool): Hub {
    if saves then h.(snapshot := Some(h.auth)) else h
  }

  /** `New`: a login on disk is from another session. */
  function Opened(snapshot: Option<AuthState>): Hub {
    Hub(if snapshot.Some? then snapshot.value.(loggedIn := false) else NO_AUTH, false, "", snapshot, [])
  }

  function Closed(h: Hub, saves: bool): Hub {
    Store(h.(endpoint := "", connected := false, auth := h.auth.(loggedIn := false)), saves)
  }

  function Forgotten(h: Hub, saves: bool): Hub {
    Store(h.(auth := NO_AUTH), saves)
  }

  function Connected(h: Hub, endpoint: string, a: Attempt): (Hub, bool) {
    var target := TrimSpace(endpoint);
    if target == "" then (h, false)
    else
      var left := if h.endpoint != "" && h.endpoint != target then Closed(h, a.closeSaves) else h;
      if !a.connects then (left, false) else (left.(connected := true, endpoint := target), true)
  }

  function Settled(h: Hub, deviceID: string, request: Request, saves: bool): (Hub, bool) {
    var asked := h.(requests := h.requests + [request]);
    match request.reply
    case Refused => (asked.(auth := h.auth.(loggedIn := false)), false)
    case Accepted(nodeID, hubID, role) =>
      (Store(asked.(auth := AuthState(deviceID, nodeID, hubID, TrimSpace(role), true)), saves), true)
  }

  function Registered(h: Hub, deviceID: string, a: Attempt): (Hub, bool) {
    var device := TrimSpace(deviceID);
    var here := h.(connected := h.connected && a.staysForRegister);
    if device == "" || !here.connected || !a.hasKeys then (here, false)
    else Settled(here, device, RegisterRequest(device, a.register), a.registerSaves)
  }

  /** A login that fails before it is sent leaves the flag as it was. */
  function LoggedIn(h: Hub, deviceID: string, nodeID: nat, a: Attempt): (Hub, bool) {
    var device := TrimSpace(deviceID);
    var here := h.(connected := h.connected && a.staysForLogin);
    if device == "" || nodeID == 0 || !here.connected || !a.signs then (here, false)
    else Settled(here, device, LoginRequest(device, nodeID, a.login), a.loginSaves)
  }

  /** The remembered identity is of no use for this device. */
  predicate Stale(auth: AuthState, device: string) {
    var saved := TrimSpace(auth.deviceID);
    (saved != "" && saved != device) || (saved == "" && auth.nodeID != 0)
  }

  function Identified(h: Hub, deviceID: string, a: Attempt): (Hub, bool) {
    var device := TrimSpace(deviceID);
    if device == "" then (h, false)
    else
      var stale := Stale(h.auth, device);
      var clean := if stale then Forgotten(h, a.clearSaves) else h;
      if stale && !a.clearSaves then (clean, false)
      else if clean.auth.nodeID != 0 then
        if clean.auth.loggedIn then (clean, true) else LoggedIn(clean, device, clean.auth.nodeID, a)
      else
        var (known, ok) := Registered(clean, device, a);
        if !ok || known.auth.nodeID == 0 then (known, false) else LoggedIn(known, device, known.auth.nodeID, a)
  }

  class Client {
    var auth: AuthState
    var connected: bool
    var endpoint: string
    var snapshot: Option<AuthState>
    var requests: seq<Request>

    ghost function Model(): Hub
      reads this
    {
      Hub(auth, connected, endpoint, snapshot, requests)
    }

    constructor (snapshot: Option<AuthState>)
      ensures Model() == Opened(snapshot)
    {
      auth := if snapshot.Some? then snapshot.value.(loggedIn := false) else NO_AUTH;
      connected, endpoint, requests := false, "", [];
      this.snapshot := snapshot;
    }

    method SaveAuthSnapshot(saves: bool)
      modifies this`snapshot
      ensures Model() == Store(old(Model()), saves)
    {
      if saves {
        snapshot := Some(auth);
      }
    }

    method ClearAuth(saves: bool) returns (ok: bool)
      modifies this
      ensures Model() == Forgotten(old(Model()), saves) && ok == saves
    {
      auth := NO_AUTH;
      SaveAuthSnapshot(saves);
      ok := saves;
    }

    method Close(saves: bool) returns (ok: bool)
      modifies this
      ensures Model() == Closed(old(Model()), saves) && ok == saves
    {
      endpoint := "";
      connected := false;
      auth := auth.(loggedIn := false);
      SaveAuthSnapshot(saves);
      ok := saves;
    }

    method Connect(to: string, a: Attempt) returns (ok: bool)
      modifies this
      ensures (Model(), ok) == Connected(old(Model()), to, a)
    {
      var target := TrimSpace(to);
      if target == "" {
        return false;
      }
      if endpoint != "" && endpoint != target {
        var _ := Close(a.closeSaves);
      }
      if !a.connects {
        return false;
      }
      connected := true;
      endpoint := target;
      ok := true;
    }

    method SetAuthSnapshot(deviceID: string, nodeID: nat, hubID: nat, role: string)
      modifies this`auth
      ensures auth == AuthState(deviceID, nodeID, hubID, TrimSpace(role), true)
    {
      auth := AuthState(deviceID, nodeID, hubID, TrimSpace(role), true);
    }

    method Register(deviceID: string, a: Attempt) returns (ok: bool)
      modifies this
      ensures (Model(), ok) == Registered(old(Model()), deviceID, a)
    {
      var device := TrimSpace(deviceID);
      connected := connected && a.staysForRegister;
      if device == "" || !connected || !a.hasKeys {
        return false;
      }
      requests := requests + [RegisterRequest(device, a.register)];
      if a.register.Refused? {
        auth := auth.(loggedIn := false);
        return false;
      }
      SetAuthSnapshot(device, a.register.nodeID, a.register.hubID, a.register.role);
      SaveAuthSnapshot(a.registerSaves);
      ok := true;
    }

    method Login(deviceID: string, nodeID: nat, a: Attempt) returns (ok: bool)
      modifies this
      ensures (Model(), ok) == LoggedIn(old(Model()), deviceID, nodeID, a)
    {
      var device := TrimSpace(deviceID);
      connected := connected && a.staysForLogin;
      if device == "" || nodeID == 0 || !connected || !a.signs {
        return false;
      }
      requests := requests + [LoginRequest(device, nodeID, a.login)];
      if a.login.Refused? {
        auth := auth.(loggedIn := false);
        return false;
      }
      SetAuthSnapshot(device, a.login.nodeID, a.login.hubID, a.login.role);
      SaveAuthSnapshot(a.loginSaves);
      ok := true;
    }

    method EnsureIdentity(deviceID: string, a: Attempt) returns (ok: bool)
      modifies this
      ensures (Model(), ok) == Identified(old(Model()), deviceID, a)
    {
      var device := TrimSpace(deviceID);
      if device == "" {
        return false;
      }
      if Stale(auth, device) {
        var cleared := ClearAuth(a.clearSaves);
        if !cleared {
          return false;
        }
      }
      if auth.nodeID != 0 {
        if !auth.loggedIn {
          ok := Login(device, auth.nodeID, a);
          return;
        }
        return true;
      }
      var registered := Register(device, a);
      if !registered {
        return false;
      }
      if auth.nodeID == 0 {
        return false;
      }
      ok := Login(device, auth.nodeID, a);
    }
  }

  // ---------------------------------------------------------------- whose identity is used

  /** The hub gave this node number to this device, or it was remembered for it from the start. */
  ghost predicate Granted(h: Hub, origin: Option<AuthState>, device: string, nodeID: nat) {
    || (origin.Some? && TrimSpace(origin.value.deviceID) == device && origin.value.nodeID == nodeID)
    || (exists r :: r in h.requests && r.deviceID == device && r.reply.Accepted? && r.reply.nodeID == nodeID)
  }

  ghost predicate OwnsNode(h: Hub, origin: Option<AuthState>, auth: AuthState) {
    auth.nodeID != 0 ==> Granted(h, origin, TrimSpace(auth.deviceID), auth.nodeID)
  }

  /** Device, node, hub and role are those of this accepted answer. */
  predicate FromReply(auth: AuthState, r: Request) {
    && r.reply.Accepted? && auth.deviceID == r.deviceID && auth.nodeID == r.reply.nodeID
    && auth.hubID == r.reply.hubID && auth.role == TrimSpace(r.reply.role)
  }

  ghost predicate Replied(h: Hub, auth: AuthState) {
    exists r :: r in h.requests && FromReply(auth, r)
  }

  /** Nothing, what was on disk from the start, or one accepted answer as a whole; never parts of two. */
  ghost predicate Recalled(h: Hub, origin: Option<AuthState>, auth: AuthState) {
    || auth.(loggedIn := false) == NO_AUTH
    || (origin.Some? && auth.(loggedIn := false) == origin.value.(loggedIn := false))
    || Replied(h, auth)
  }

  /**
   The identity in memory and the one on disk are each a device with a node number granted to that
   device, and every login ever sent was for such a pair. Each is one accepted answer of the hub as a whole,
   or comes from the disk; a client that is logged in has the former.
   */
  ghost predicate Honest(h: Hub, origin: Option<AuthState>) {
    && (h.auth.loggedIn ==> Replied(h, h.auth))
    && Recalled(h, origin, h.auth)
    && (h.snapshot.Some? ==> Recalled(h, origin, h.snapshot.value))
    && OwnsNode(h, origin, h.auth)
    && (h.snapshot.Some? ==> OwnsNode(h, origin, h.snapshot.value))
    && (forall r :: r in h.requests && r.LoginRequest? ==> Granted(h, origin, r.deviceID, r.nodeID))
  }

  lemma OpenedHonest(origin: Option<AuthState>)
    ensures Honest(Opened(origin), origin)
  {
    hide TrimSpace;
  }

  lemma StillGranted(h: Hub, more: Hub, origin: Option<AuthState>, device: string, nodeID: nat)
    requires Granted(h, origin, device, nodeID) && h.requests <= more.requests
    ensures Granted(more, origin, device, nodeID)
  {
    hide TrimSpace;
    if r :| r in h.requests && r.deviceID == device && r.reply.Accepted? && r.reply.nodeID == nodeID {
      assert r in more.requests;
    }
  }

  lemma StillRecalled(h: Hub, more: Hub, origin: Option<AuthState>, auth: AuthState)
    requires Recalled(h, origin, auth) && h.requests <= more.requests
    ensures Recalled(more, origin, auth)
  {
    hide FromReply;
    if r :| r in h.requests && FromReply(auth, r) {
      assert r in more.requests;
    }
  }

  /** The flag is no part of what is recalled. */
  lemma FlagRecalled(h: Hub, origin: Option<AuthState>, auth: AuthState)
    requires Recalled(h, origin, auth)
    ensures Recalled(h, origin, auth.(loggedIn := false)) && Recalled(h, origin, NO_AUTH)
  {
    hide TrimSpace;
    if r :| r in h.requests && FromReply(auth, r) {
      assert FromReply(auth.(loggedIn := false), r);
    }
  }

  /** What is remembered of an answer is the answer as a whole. */
  lemma SettledReplied(h: Hub, origin: Option<AuthState>, device: string, request: Request, saves: bool)
    requires request.deviceID == device && request.reply.Accepted?
    ensures var t := Settled(h, device, request, saves).0;
            && Replied(t, t.auth) && Recalled(t, origin, t.auth) && FromReply(t.auth, request)
            && t.snapshot == if saves then Some(t.auth) else h.snapshot
  {
    hide TrimSpace;
    assert request in Settled(h, device, request, saves).0.requests;
  }

  lemma SettledRecalls(h: Hub, origin: Option<AuthState>, device: string, request: Request, saves: bool)
    requires request.deviceID == device && Recalled(h, origin, h.auth)
    requires h.snapshot.Some? ==> Recalled(h, origin, h.snapshot.value)
    ensures var t := Settled(h, device, request, saves).0;
            && (t.auth.loggedIn ==> Replied(t, t.auth)) && Recalled(t, origin, t.auth)
            && (t.snapshot.Some? ==> Recalled(t, origin, t.snapshot.value))
  {
    hide TrimSpace, Recalled, Replied;
    var t := Settled(h, device, request, saves).0;
    if h.snapshot.Some? { StillRecalled(h, t, origin, h.snapshot.value); }
    if request.reply.Accepted? {
      SettledReplied(h, origin, device, request, saves);
    } else {
      StillRecalled(h, t, origin, h.auth);
      FlagRecalled(t, origin, h.auth);
    }
  }

  lemma SettledHonest(h: Hub, origin: Option<AuthState>, device: string, request: Request, saves: bool)
    requires Honest(h, origin) && request.deviceID == device && Trimmed(device)
    requires request.LoginRequest? ==> Granted(h, origin, device, request.nodeID)
    ensures Honest(Settled(h, device, request, saves).0, origin)
  {
    hide TrimSpace, Granted, Recalled, Replied;
    var t := Settled(h, device, request, saves).0;
    SettledRecalls(h, origin, device, request, saves);
    assert t.requests == h.requests + [request];
    if h.auth.nodeID != 0 { StillGranted(h, t, origin, TrimSpace(h.auth.deviceID), h.auth.nodeID); }
    if h.snapshot.Some? && h.snapshot.value.nodeID != 0 {
      StillGranted(h, t, origin, TrimSpace(h.snapshot.value.deviceID), h.snapshot.value.nodeID);
    }
    forall r | r in t.requests && r.LoginRequest? ensures Granted(t, origin, r.deviceID, r.nodeID) {
      StillGranted(h, t, origin, r.deviceID, r.nodeID);
    }
    if request.reply.Accepted? { NewlyGranted(t, origin, request); }
  }

  lemma NewlyGranted(h: Hub, origin: Option<AuthState>, request: Request)
    requires request in h.requests && request.reply.Accepted?
    ensures Granted(h, origin, request.deviceID, request.reply.nodeID)
  {
  }

  lemma SameHonest(h: Hub, t: Hub, origin: Option<AuthState>)
    requires Honest(h, origin) && t.requests == h.requests
    requires t.auth == h.auth || t.auth == h.auth.(loggedIn := false) || t.auth == NO_AUTH
    requires t.snapshot == h.snapshot || t.snapshot == Some(t.auth)
    ensures Honest(t, origin)
  {
    hide TrimSpace, FromReply;
    FlagRecalled(h, origin, h.auth);
  }

  lemma LoggedInHonest(h: Hub, origin: Option<AuthState>, device: string, a: Attempt)
    requires Honest(h, origin) && device == TrimSpace(h.auth.deviceID)
    ensures Honest(LoggedIn(h, device, h.auth.nodeID, a).0, origin)
  {
    hide TrimSpace, Granted, Settled;
    var here := h.(connected := h.connected && a.staysForLogin);
    SameHonest(h, here, origin);
    if device != "" && h.auth.nodeID != 0 && here.connected && a.signs {
      assert OwnsNode(here, origin, here.auth);
      SettledHonest(here, origin, device, LoginRequest(device, h.auth.nodeID, a.login), a.loginSaves);
    }
  }

  lemma RegisteredHonest(h: Hub, origin: Option<AuthState>, device: string, a: Attempt)
    requires Honest(h, origin) && Trimmed(device)
    ensures Honest(Registered(h, device, a).0, origin)
    ensures Registered(h, device, a).1 ==> Registered(h, device, a).0.auth.deviceID == device
  {
    hide TrimSpace, Granted, Honest;
    var here := h.(connected := h.connected && a.staysForRegister);
    SameHonest(h, here, origin);
    SettledHonest(here, origin, device, RegisterRequest(device, a.register), a.registerSaves);
  }

  /** Establishing an identity only ever logs in with a node number granted to the very device. */
  lemma IdentifiedHonest(h: Hub, origin: Option<AuthState>, deviceID: string, a: Attempt)
    requires Honest(h, origin)
    ensures Honest(Identified(h, deviceID, a).0, origin)
  {
    hide TrimSpace, Honest, LoggedIn, Registered;
    var device := TrimSpace(deviceID);
    if device != "" {
      var clean := if Stale(h.auth, device) then Forgotten(h, a.clearSaves) else h;
      SameHonest(h, clean, origin);
      if clean.auth.nodeID != 0 {
        LoggedInHonest(clean, origin, device, a);
      } else {
        RegisteredHonest(clean, origin, device, a);
        var known := Registered(clean, device, a).0;
        if Registered(clean, device, a).1 { LoggedInHonest(known, origin, device, a); }
      }
    }
  }

  /** The last thing asked was a login of this device, and its answer is the identity now in use. */
  ghost predicate JustLoggedIn(h: Hub, t: Hub, device: string) {
    && |h.requests| < |t.requests|
    && var last := t.requests[|t.requests| - 1];
       last.LoginRequest? && last.deviceID == device && FromReply(t.auth, last)
  }

  lemma LoggedInMeans(h: Hub, device: string, nodeID: nat, a: Attempt)
    requires Trimmed(device)
    ensures var (t, ok) := LoggedIn(h, device, nodeID, a);
            && h.requests <= t.requests
            && (ok ==> t.auth.loggedIn && t.auth.deviceID == device && JustLoggedIn(h, t, device))
  {
    hide TrimSpace;
  }

  lemma RegisteredMeans(h: Hub, device: string, a: Attempt)
    requires Trimmed(device)
    ensures var (t, ok) := Registered(h, device, a);
            h.requests <= t.requests && (ok ==> t.auth.loggedIn && t.auth.deviceID == device)
  {
    hide TrimSpace;
  }

  /**
   Success means: logged in as this device, and, unless the client was logged in before, by a login
   the hub accepted just now.
   */
  lemma IdentifiedMeans(h: Hub, deviceID: string, a: Attempt)
    requires h.auth.loggedIn ==> Trimmed(h.auth.deviceID) && h.auth.deviceID != ""
    ensures var (t, ok) := Identified(h, deviceID, a);
            && h.requests <= t.requests
            && (ok ==> t.auth.loggedIn && t.auth.deviceID == TrimSpace(deviceID))
            && (ok && !h.auth.loggedIn ==> JustLoggedIn(h, t, TrimSpace(deviceID)))
  {
    hide TrimSpace, LoggedIn, Registered;
    var device := TrimSpace(deviceID);
    var clean := if Stale(h.auth, device) then Forgotten(h, a.clearSaves) else h;
    assert clean.requests == h.requests;
    if clean.auth.nodeID != 0 {
      LoggedInMeans(clean, device, clean.auth.nodeID, a);
    } else {
      RegisteredMeans(clean, device, a);
      var known := Registered(clean, device, a).0;
      LoggedInMeans(known, device, known.auth.nodeID, a);
    }
  }

  /**
   Success means a login accepted just now, exactly unless the flag was already set for this device: what
   set it, a login or a registration alone, makes no difference.
   */
  lemma LoginMeantExactly(h: Hub, deviceID: string, a: Attempt)
    requires Identified(h, deviceID, a).1
    ensures JustLoggedIn(h, Identified(h, deviceID, a).0, TrimSpace(deviceID)) <==>
            !(h.auth.loggedIn && h.auth.nodeID != 0 && !Stale(h.auth, TrimSpace(deviceID)))
  {
    hide TrimSpace, LoggedIn, Registered;
    var device := TrimSpace(deviceID);
    var clean := if Stale(h.auth, device) then Forgotten(h, a.clearSaves) else h;
    assert clean.requests == h.requests;
    if clean.auth.nodeID != 0 {
      LoggedInMeans(clean, device, clean.auth.nodeID, a);
    } else {
      RegisteredMeans(clean, device, a);
      var known := Registered(clean, device, a).0;
      LoggedInMeans(known, device, known.auth.nodeID, a);
    }
  }

  /**
   The client alone does not promise the login: registering sets the flag, and when the login after it
   cannot be signed, or the connection is lost between the two, the flag stays and the next attempt
   returns at once.
   */
  lemma RegisterAloneLooksLoggedIn(h: Hub, device: string, a: Attempt, b: Attempt)
    requires device != "" && Trimmed(device) && h.auth == NO_AUTH && h.connected
    requires a.staysForRegister && a.hasKeys && a.register.Accepted? && a.register.nodeID != 0
    requires !a.signs || !a.staysForLogin
    ensures var (once, first) := Identified(h, device, a);
            var (twice, second) := Identified(once, device, b);
            && !first && second && twice == once
            && once.requests == h.requests + [RegisterRequest(device, a.register)]
            && !JustLoggedIn(once, twice, device)
  {
    assert TrimSpace("") == "";
    hide TrimSpace;
  }

  // ---------------------------------------------------------------- what it takes

  /** A connection stands exactly if there is an address and it is reached; another address ends the login. */
  lemma ConnectedExactly(h: Hub, endpoint: string, a: Attempt)
    ensures var (t, ok) := Connected(h, endpoint, a);
            var target := TrimSpace(endpoint);
            && (ok <==> target != "" && a.connects)
            && (ok ==> t.connected && t.endpoint == target)
            && (t.auth.loggedIn <==>
                  h.auth.loggedIn && (target == "" || h.endpoint == "" || h.endpoint == target))
            && t.auth.(loggedIn := false) == h.auth.(loggedIn := false) && t.requests == h.requests
  {
    hide TrimSpace;
  }

  /** A registration that is sent and accepted. */
  predicate RegisterGoes(h: Hub, a: Attempt) {
    h.connected && a.staysForRegister && a.hasKeys && a.register.Accepted?
  }

  /** A login that is sent and accepted, on a connection that held so far. */
  predicate LoginGoes(held: bool, a: Attempt) {
    held && a.staysForLogin && a.signs && a.login.Accepted?
  }

  /** The client has a node number that is good for this device. */
  predicate Remembered(h: Hub, device: string) {
    h.auth.nodeID != 0 && !Stale(h.auth, device)
  }

  /**
   An identity is established exactly if a stale one could be forgotten and the device is logged in already, or
   its known node number logs in, or it registers, is given a node number, and logs in with that.
   */
  lemma IdentifiedExactly(h: Hub, deviceID: string, a: Attempt)
    ensures var device := TrimSpace(deviceID);
            Identified(h, deviceID, a).1 <==>
            && device != "" && (Stale(h.auth, device) ==> a.clearSaves)
            && if Remembered(h, device) then h.auth.loggedIn || LoginGoes(h.connected, a)
               else RegisterGoes(h, a) && a.register.nodeID != 0 && LoginGoes(h.connected && a.staysForRegister, a)
  {
    hide TrimSpace, Settled, Stale;
    var device := TrimSpace(deviceID);
    var clean := if Stale(h.auth, device) then Forgotten(h, a.clearSaves) else h;
    var here := clean.(connected := clean.connected && a.staysForRegister);
    var at := clean.(connected := clean.connected && a.staysForLogin);
    SettledAnswers(here, device, RegisterRequest(device, a.register), a.registerSaves);
    SettledAnswers(at, device, LoginRequest(device, clean.auth.nodeID, a.login), a.loginSaves);
    var known := Settled(here, device, RegisterRequest(device, a.register), a.registerSaves).0;
    var then' := known.(connected := known.connected && a.staysForLogin);
    SettledAnswers(then', device, LoginRequest(device, known.auth.nodeID, a.login), a.loginSaves);
  }

  lemma SettledAnswers(h: Hub, device: string, request: Request, saves: bool)
    ensures var (t, ok) := Settled(h, device, request, saves);
            && (ok <==> request.reply.Accepted?) && t.connected == h.connected
            && (ok ==> t.auth.nodeID == request.reply.nodeID)
  {
    hide TrimSpace;
  }

  /** A login that was saved is found again: after a restart the same device logs in with it and does not register. */
  lemma RestartRemembers(h: Hub, deviceID: string, a: Attempt, b: Attempt)
    requires Identified(h, deviceID, a).1 && JustLoggedIn(h, Identified(h, deviceID, a).0, TrimSpace(deviceID))
    requires !h.auth.loggedIn && a.loginSaves
    ensures var t, device := Identified(h, deviceID, a).0, TrimSpace(deviceID);
            var again := Opened(t.snapshot).(connected := true);
            && t.snapshot == Some(t.auth)
            && (t.auth.nodeID != 0 && b.staysForLogin && b.signs ==>
                  Identified(again, deviceID, b).0.requests == [LoginRequest(device, t.auth.nodeID, b.login)])
  {
    hide TrimSpace, Settled, Stale, FromReply;
    var t, device := Identified(h, deviceID, a).0, TrimSpace(deviceID);
    var clean := if Stale(h.auth, device) then Forgotten(h, a.clearSaves) else h;
    if clean.auth.nodeID != 0 {
      LoginSaves(clean, device, clean.auth.nodeID, a);
    } else {
      var known := Registered(clean, device, a).0;
      LoginSaves(known, device, known.auth.nodeID, a);
    }
    SameDeviceNotStale(t.auth, device);
    if t.auth.nodeID != 0 && b.staysForLogin && b.signs {
      LoginSends(Opened(t.snapshot).(connected := true), device, t.auth.nodeID, b);
    }
  }

  lemma LoginSaves(h: Hub, device: string, nodeID: nat, a: Attempt)
    requires LoggedIn(h, device, nodeID, a).1 && a.loginSaves && Trimmed(device)
    ensures var t := LoggedIn(h, device, nodeID, a).0;
            t.snapshot == Some(t.auth) && t.auth.deviceID == device && device != ""
  {
    hide TrimSpace;
  }

  lemma LoginSends(h: Hub, device: string, nodeID: nat, a: Attempt)
    requires Trimmed(device) && device != "" && nodeID != 0 && h.connected && a.staysForLogin && a.signs
    ensures LoggedIn(h, device, nodeID, a).0.requests == h.requests + [LoginRequest(device, nodeID, a.login)]
  {
    hide TrimSpace;
  }

  lemma SameDeviceNotStale(auth: AuthState, device: string)
    requires auth.deviceID == device && Trimmed(device) && device != ""
    ensures !Stale(auth, device) && !Stale(auth.(loggedIn := false), device)
  {
    hide TrimSpace;
  }
}
