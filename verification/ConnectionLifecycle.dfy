/**
 * Connections, token validations, disconnects and grace timers of the WebSocket gateway, under
 * every interleaving. Each label is one segment of code between two awaits, or a socket event.
 */
module ConnectionLifecycle {
  import opened Prelude

  /**
   * `connected` and `authed` are the gateway's two sets. The environment: `live` sockets, ids ever
   * `used`, sockets with a connection validation pending (`validating`), pending `authenticate`
   * calls (`authenticating`), tokenless sockets whose grace timer has not fired (`armed`). The
   * history: sockets that disconnected with a validation in flight (`overlapped`), and those on
   * which such a validation then succeeded (`lateConnect`, `lateAuth`).
   */
  datatype State = State(
    connected: set<string>, authed: set<string>,
    live: set<string>, used: set<string>, validating: set<string>, authenticating: multiset<string>, armed: set<string>,
    overlapped: set<string>, lateConnect: set<string>, lateAuth: set<string>)

  const INITIAL := State({}, {}, {}, {}, {}, multiset{}, {}, {}, {}, {})

  datatype Label =
    | Connect(id: string, token: bool)
    | Validated(id: string, ok: bool)
    | Authenticate(id: string, token: bool)
    | Authenticated(id: string, ok: bool)
    | GraceOver(id: string)
    | Drop(id: string)
    | Message(id: string)

  /** `handleDisconnect`, run when a live socket goes away. */
  function HandleDisconnect(s: State, id: string): State {
    s.(connected := s.connected - {id}, authed := s.authed - {id}, live := s.live - {id},
       overlapped := if id in s.validating || id in s.authenticating then s.overlapped + {id} else s.overlapped)
  }

  /** `client.disconnect(true)`: a no-op on a socket that is already gone. */
  function Disconnect(s: State, id: string): State {
    if id in s.live then HandleDisconnect(s, id) else s
  }

  function ConnectStep(s: State, id: string, token: bool): State {
    if id in s.used then s
    else if token then s.(live := s.live + {id}, used := s.used + {id}, validating := s.validating + {id})
    else s.(live := s.live + {id}, used := s.used + {id}, armed := s.armed + {id}, connected := s.connected + {id})
  }

  function ValidatedStep(s: State, id: string, ok: bool): State {
    if id !in s.validating then s
    else
      var s1 := s.(validating := s.validating - {id});
      if ok then s1.(connected := s1.connected + {id}, authed := s1.authed + {id},
                     lateConnect := if id in s1.live then s1.lateConnect else s1.lateConnect + {id})
      else Disconnect(s1, id)
  }

  function AuthenticatedStep(s: State, id: string, ok: bool): State {
    if id !in s.authenticating then s
    else
      var s1 := s.(authenticating := s.authenticating - multiset{id});
      if ok then s1.(authed := s1.authed + {id},
                     lateAuth := if id in s1.live then s1.lateAuth else s1.lateAuth + {id})
      else s1
  }

  function GraceStep(s: State, id: string): State {
    if id !in s.armed then s
    else
      var s1 := s.(armed := s.armed - {id});
      if id !in s1.authed then Disconnect(s1, id) else s1
  }

  /** Every label is possible in every state; one that does not apply changes nothing. */
  function Next(s: State, l: Label): State {
    match l
    case Connect(id, token) => ConnectStep(s, id, token)
    case Validated(id, ok) => ValidatedStep(s, id, ok)
    case Authenticate(id, token) =>
      if id in s.live && token then s.(authenticating := s.authenticating + multiset{id}) else s
    case Authenticated(id, ok) => AuthenticatedStep(s, id, ok)
    case GraceOver(id) => GraceStep(s, id)
    case Drop(id) => Disconnect(s, id)
    case Message(_) => s
  }

  function Run(s: State, trace: seq<Label>): State {
    if trace == [] then s else Next(Run(s, trace[..|trace| - 1]), trace[|trace| - 1])
  }

  // ----- The invariant -----

  /** What the two sets hold, exactly: live sockets, and the ids a late validation put back. */
  ghost predicate SetsExact(s: State) {
    && s.connected - s.live == s.lateConnect
    && s.authed - s.live == s.lateConnect + s.lateAuth
    && s.connected * s.live == s.live - s.validating
    && s.authed * s.live <= s.connected + s.validating
    && s.live - s.validating - s.armed <= s.authed
  }

  ghost predicate Pending(s: State) {
    && (forall id :: id in s.authenticating ==> id in s.live || id in s.overlapped)
    && s.validating <= s.live + s.overlapped
    && s.validating !! s.armed && s.validating !! s.connected
    && s.lateConnect + s.lateAuth <= s.overlapped && s.overlapped !! s.live
    && s.live + s.overlapped + s.armed <= s.used
  }

  ghost predicate Inv(s: State) {
    SetsExact(s) && Pending(s)
  }

  lemma DisconnectKeepsInv(s: State, id: string)
    requires SetsExact(s) && Pending(s)
    ensures Inv(Disconnect(s, id))
  {
  }

  /** Failing a validation of a live socket disconnects it in the same segment. */
  lemma FailedValidationKeepsInv(s: State, id: string)
    requires Inv(s) && id in s.validating
    ensures Inv(ValidatedStep(s, id, false))
  {
    var s1 := s.(validating := s.validating - {id});
    var s' := Disconnect(s1, id);
    if id in s.live {
      assert s'.connected * s'.live == s'.live - s'.validating;
    }
  }

  lemma GraceKeepsInv(s: State, id: string)
    requires Inv(s) && id in s.armed
    ensures Inv(GraceStep(s, id))
  {
    var s1 := s.(armed := s.armed - {id});
    var s' := GraceStep(s, id);
    if id !in s1.authed && id in s1.live {
      assert id in s.connected * s.live;
      assert s'.connected - s'.live == s'.lateConnect;
      assert s'.authed - s'.live == s'.lateConnect + s'.lateAuth;
      assert s'.connected * s'.live == (s.connected * s.live) - {id};
      assert s'.live - s'.validating == (s.live - s.validating) - {id};
      assert s'.live - s'.validating - s'.armed <= s'.authed;
    } else {
      assert s' == s1;
      assert s1.live - s1.validating - s1.armed <= s.live - s.validating - s.armed + (s.live * {id});
    }
  }

  lemma ValidationKeepsInv(s: State, id: string)
    requires Inv(s) && id in s.validating
    ensures Inv(ValidatedStep(s, id, true))
  {
    var s' := ValidatedStep(s, id, true);
    assert s'.connected - s'.live == s'.lateConnect;
    assert s'.authed - s'.live == s'.lateConnect + s'.lateAuth;
    assert s'.connected * s'.live == s'.live - s'.validating;
    assert s'.authed * s'.live <= s'.connected + s'.validating;
  }

  lemma AuthenticationKeepsInv(s: State, id: string, ok: bool)
    requires Inv(s) && id in s.authenticating
    ensures Inv(AuthenticatedStep(s, id, ok))
  {
    var s' := AuthenticatedStep(s, id, ok);
    assert id in s.live || id in s.overlapped;
    assert id in s.live ==> id in s.connected * s.live || id in s.validating;
    assert s'.authed - s'.live == s'.lateConnect + s'.lateAuth;
    forall x | x in s'.authenticating ensures x in s'.live || x in s'.overlapped {
      assert x in s.authenticating;
    }
  }

  lemma HeldIds(s: State)
    requires Inv(s)
    ensures s.connected <= s.live + s.lateConnect <= s.used
    ensures s.authed <= s.live + s.lateConnect + s.lateAuth <= s.used
  {
    assert s.connected <= s.live + (s.connected - s.live);
    assert s.authed <= s.live + (s.authed - s.live);
  }

  lemma ConnectKeepsInv(s: State, id: string, token: bool)
    requires Inv(s) && id !in s.used
    ensures Inv(ConnectStep(s, id, token))
  {
    var s' := ConnectStep(s, id, token);
    HeldIds(s);
    assert id !in s.validating;
    assert s.connected * s.live == s.live - s.validating;
    assert s'.connected - s'.live == s'.lateConnect;
    assert s'.authed - s'.live == s'.lateConnect + s'.lateAuth;
    if token {
      assert s'.connected * s'.live == s.connected * s.live;
      assert s'.live - s'.validating == s.live - s.validating;
    } else {
      assert s'.connected * s'.live == (s.connected * s.live) + {id};
      assert s'.live - s'.validating == (s.live - s.validating) + {id};
    }
  }

  lemma NextKeepsInv(s: State, l: Label)
    requires Inv(s)
    ensures Inv(Next(s, l))
  {
    match l
    case Connect(id, token) => if id !in s.used { ConnectKeepsInv(s, id, token); }
    case Validated(id, ok) =>
      if id in s.validating { if ok { ValidationKeepsInv(s, id); } else { FailedValidationKeepsInv(s, id); } }
    case Authenticate(id, token) =>
    case Authenticated(id, ok) => if id in s.authenticating { AuthenticationKeepsInv(s, id, ok); }
    case GraceOver(id) => if id in s.armed { GraceKeepsInv(s, id); }
    case Drop(id) => DisconnectKeepsInv(s, id);
    case Message(_) =>
  }

  lemma {:induction false} ReachableInv(trace: seq<Label>)
    ensures Inv(Run(INITIAL, trace))
  {
    if trace != [] {
      ReachableInv(trace[..|trace| - 1]);
      NextKeepsInv(Run(INITIAL, trace[..|trace| - 1]), trace[|trace| - 1]);
    }
  }

  // ----- Over every run -----

  /**
   * An id the gateway holds is a live socket unless one of its validations succeeded after it
   * disconnected, and exactly those ids are stale; each was disconnected with the validation in
   * flight. A socket authenticated before it is connected has its connection still validating.
   */
  lemma StaleIdsAreLateValidations(trace: seq<Label>)
    ensures var s := Run(INITIAL, trace);
      && s.connected - s.live == s.lateConnect && s.authed - s.live == s.lateConnect + s.lateAuth
      && s.lateConnect + s.lateAuth <= s.overlapped
      && s.authed <= s.connected + s.validating + s.overlapped
  {
    ReachableInv(trace);
  }

  /** Every live socket that is past its connection validation and grace period is authenticated. */
  lemma LiveSocketsAuthenticate(trace: seq<Label>)
    ensures var s := Run(INITIAL, trace);
      && s.live - s.validating - s.armed <= s.authed
      && s.connected * s.live == s.live - s.validating
  {
    ReachableInv(trace);
  }

  /** `total - authenticated`, as the connection report computes it. */
  function Anonymous(s: State): int {
    |s.connected| - |s.authed|
  }

  lemma CountSplit(a: set<string>, b: set<string>)
    ensures |a| - |b| == |a - b| - |b - a|
  {
    assert a == (a - b) + (a * b) && b == (b - a) + (a * b);
  }

  /**
   * The anonymous count is the unauthenticated sockets in their grace period, minus the sockets
   * authenticated while their connection was still validating, minus the stale authentications.
   */
  lemma AnonymousCount(trace: seq<Label>)
    ensures var s := Run(INITIAL, trace);
      && Anonymous(s) == |s.connected - s.authed| - |s.authed * s.live * s.validating| - |s.lateAuth - s.lateConnect|
      && s.connected - s.authed <= s.live * s.armed
  {
    hide Next;
    ReachableInv(trace);
    CountIn(Run(INITIAL, trace));
  }

  /** The authenticated ids that are not connected. */
  lemma EarlyAndStale(s: State)
    requires Inv(s)
    ensures s.authed - s.connected == (s.authed * s.live * s.validating) + (s.lateAuth - s.lateConnect)
    ensures (s.authed * s.live * s.validating) !! (s.lateAuth - s.lateConnect)
  {
    forall x | x in s.lateAuth - s.lateConnect ensures x in s.authed - s.connected {
      assert x in s.authed - s.live;
    }
    forall x | x in s.authed - s.connected ensures x in (s.authed * s.live * s.validating) + (s.lateAuth - s.lateConnect) {
      if x in s.live { assert x in s.authed * s.live; } else { assert x in s.authed - s.live; }
    }
    forall x | x in s.authed * s.live * s.validating ensures x in s.authed - s.connected {}
  }

  lemma CountIn(s: State)
    requires Inv(s)
    ensures Anonymous(s) == |s.connected - s.authed| - |s.authed * s.live * s.validating| - |s.lateAuth - s.lateConnect|
    ensures s.connected - s.authed <= s.live * s.armed
  {
    CountSplit(s.connected, s.authed);
    EarlyAndStale(s);
    forall x | x in s.connected - s.authed ensures x in s.live * s.armed {
      assert x in s.connected - s.live ==> x in s.authed - s.live;
      assert x in s.connected * s.live;
    }
  }

  /**
   * Authenticated ids are all connected iff no live socket is authenticated while validating and
   * no late authentication is on record alone; then the anonymous count is not negative.
   */
  lemma AuthenticatedAreConnectedIff(trace: seq<Label>)
    ensures var s := Run(INITIAL, trace);
      && (s.authed <= s.connected <==> s.authed * s.live * s.validating == {} && s.lateAuth <= s.lateConnect)
      && (s.authed <= s.connected ==> Anonymous(s) == |s.connected - s.authed| >= 0)
  {
    hide Next;
    ReachableInv(trace);
    var s := Run(INITIAL, trace);
    CountSplit(s.connected, s.authed);
    EarlyAndStale(s);
    hide Inv;
    assert s.authed <= s.connected <==> s.authed - s.connected == {};
    assert s.lateAuth <= s.lateConnect <==> s.lateAuth - s.lateConnect == {};
  }

  /** With no overlap on record and no connection validating, the count is never negative. */
  lemma {:induction false} AnonymousNotNegative(trace: seq<Label>)
    requires Run(INITIAL, trace).overlapped == {} && Run(INITIAL, trace).validating == {}
    ensures Anonymous(Run(INITIAL, trace)) >= 0
  {
    ReachableInv(trace);
    AuthenticatedAreConnectedIff(trace);
  }

  lemma RunLast(s: State, trace: seq<Label>, l: Label)
    ensures Run(s, trace + [l]) == Next(Run(s, trace), l)
  {
    assert (trace + [l])[..|trace|] == trace;
  }

  /** A socket that authenticates while its handshake token is being validated makes the count -1. */
  lemma AnonymousCanBeNegative(id: string)
    ensures Anonymous(Run(INITIAL, [Connect(id, true), Authenticate(id, true), Authenticated(id, true)])) == -1
  {
    assert Run(INITIAL, []) == INITIAL;
    RunLast(INITIAL, [], Connect(id, true));
    RunLast(INITIAL, [Connect(id, true)], Authenticate(id, true));
    RunLast(INITIAL, [Connect(id, true), Authenticate(id, true)], Authenticated(id, true));
    assert [] + [Connect(id, true)] == [Connect(id, true)];
    assert [Connect(id, true)] + [Authenticate(id, true)] == [Connect(id, true), Authenticate(id, true)];
    assert [Connect(id, true), Authenticate(id, true)] + [Authenticated(id, true)]
        == [Connect(id, true), Authenticate(id, true), Authenticated(id, true)];
  }

  /**
   * An id whose validation succeeded after its socket was gone stays authenticated, with no socket,
   * in every continuation; after a connection validation it also stays connected.
   */
  lemma {:induction false} StaleForEver(trace: seq<Label>, run: seq<Label>, id: string)
    requires trace <= run
    requires id in Run(INITIAL, trace).lateConnect + Run(INITIAL, trace).lateAuth
    ensures var s := Run(INITIAL, run);
      && id in s.authed && id !in s.live
      && (id in Run(INITIAL, trace).lateConnect ==> id in s.connected)
  {
    LateStays(trace, run, id);
    ReachableInv(run);
    var s := Run(INITIAL, run);
    hide Run;
    assert id in s.authed - s.live;
    assert id in s.lateConnect ==> id in s.connected - s.live;
  }

  /** There are such runs, for any id: a disconnect in the middle of a connection's validation ... */
  lemma StaleConnectionExists(id: string)
    ensures id in Run(INITIAL, [Connect(id, true), Drop(id), Validated(id, true)]).lateConnect
  {
    assert Run(INITIAL, []) == INITIAL;
    RunLast(INITIAL, [], Connect(id, true));
    RunLast(INITIAL, [Connect(id, true)], Drop(id));
    RunLast(INITIAL, [Connect(id, true), Drop(id)], Validated(id, true));
    hide Run;
    assert [] + [Connect(id, true)] == [Connect(id, true)];
    assert [Connect(id, true)] + [Drop(id)] == [Connect(id, true), Drop(id)];
    assert [Connect(id, true), Drop(id)] + [Validated(id, true)] == [Connect(id, true), Drop(id), Validated(id, true)];
  }

  /** ... or of an explicit authentication. */
  lemma StaleAuthenticationExists(id: string)
    ensures id in Run(INITIAL, [Connect(id, false), Authenticate(id, true), Drop(id), Authenticated(id, true)]).lateAuth
  {
    var l1, l2, l3, l4 := Connect(id, false), Authenticate(id, true), Drop(id), Authenticated(id, true);
    assert Run(INITIAL, []) == INITIAL && [] + [l1] == [l1] && [l1] + [l2] == [l1, l2];
    RunLast(INITIAL, [], l1);
    RunLast(INITIAL, [l1], l2);
    assert id in Run(INITIAL, [l1, l2]).authenticating;
    hide Run;
    assert [l1, l2] + [l3] == [l1, l2, l3] && [l1, l2, l3] + [l4] == [l1, l2, l3, l4];
    RunLast(INITIAL, [l1, l2], l3);
    RunLast(INITIAL, [l1, l2, l3], l4);
  }

  lemma {:induction false} LateStays(trace: seq<Label>, run: seq<Label>, id: string)
    requires trace <= run
    ensures Run(INITIAL, trace).lateConnect <= Run(INITIAL, run).lateConnect
    ensures Run(INITIAL, trace).lateAuth <= Run(INITIAL, run).lateAuth
    decreases |run|
  {
    if |run| == |trace| {
      assert run == trace;
    } else {
      LateStays(trace, run[..|run| - 1], id);
    }
  }

  // ----- What each segment does to one socket -----

  /** Label `l` ends the connection of `x`: it drops, its handshake token is bad, or its grace is over. */
  predicate Leaves(s: State, l: Label, x: string) {
    x in s.live && l.id == x && match l
      case Drop(_) => true
      case Validated(_, ok) => !ok && x in s.validating
      case GraceOver(_) => x in s.armed && x !in s.authed
      case _ => false
  }

  /** Label `l` puts `x` into the authenticated set after a successful token validation. */
  predicate Succeeds(s: State, l: Label, x: string) {
    l.id == x && match l
      case Validated(_, ok) => ok && x in s.validating
      case Authenticated(_, ok) => ok && x in s.authenticating
      case _ => false
  }

  /** Label `l` puts `x` into the connected set: at once without a token, else after its validation. */
  predicate Joins(s: State, l: Label, x: string) {
    l.id == x && match l
      case Connect(_, token) => !token && x !in s.used
      case Validated(_, ok) => ok && x in s.validating
      case _ => false
  }

  lemma DisconnectIs(s: State, id: string, x: string)
    ensures var s' := Disconnect(s, id);
      && s' == s.(connected := s'.connected, authed := s'.authed, live := s'.live, overlapped := s'.overlapped)
      && (x in s'.live <==> x in s.live && x != id)
      && (x in s'.connected <==> x in s.connected && !(x == id && id in s.live))
      && (x in s'.authed <==> x in s.authed && !(x == id && id in s.live))
      && (x in s'.overlapped <==>
            x in s.overlapped || (x == id && id in s.live && (id in s.validating || id in s.authenticating)))
  {
  }

  lemma AuthedEffects(s: State, l: Label, x: string)
    ensures x in Next(s, l).authed <==> (x in s.authed && !Leaves(s, l, x)) || Succeeds(s, l, x)
  {
    match l
    case Validated(id, ok) => DisconnectIs(s.(validating := s.validating - {id}), id, x); hide Disconnect;
    case GraceOver(id) => DisconnectIs(s.(armed := s.armed - {id}), id, x); hide Disconnect;
    case Drop(id) => DisconnectIs(s, id, x); hide Disconnect;
    case _ => hide Disconnect;
  }

  lemma ConnectedEffects(s: State, l: Label, x: string)
    ensures var s' := Next(s, l);
      && (x in s'.connected <==> (x in s.connected && !Leaves(s, l, x)) || Joins(s, l, x))
  {
    match l
    case Validated(id, ok) => DisconnectIs(s.(validating := s.validating - {id}), id, x); hide Disconnect;
    case GraceOver(id) => DisconnectIs(s.(armed := s.armed - {id}), id, x); hide Disconnect;
    case Drop(id) => DisconnectIs(s, id, x); hide Disconnect;
    case _ => hide Disconnect;
  }

  lemma SocketEffects(s: State, l: Label, x: string)
    ensures var s' := Next(s, l);
      && (x in s'.live <==> (x in s.live && !Leaves(s, l, x)) || (l.Connect? && l.id == x && x !in s.used))
      && (x in s'.used <==> x in s.used || (l.Connect? && l.id == x))
  {
  }

  lemma PendingEffects(s: State, l: Label, x: string)
    ensures var s' := Next(s, l);
      && (x in s'.validating <==>
            (x in s.validating && !(l.Validated? && l.id == x)) || (l == Connect(x, true) && x !in s.used))
      && (x in s'.armed <==> (x in s.armed && l != GraceOver(x)) || (l == Connect(x, false) && x !in s.used))
      && s'.authenticating[x] == s.authenticating[x]
           + (if l == Authenticate(x, true) && x in s.live then 1 else 0)
           - (if l.Authenticated? && l.id == x && x in s.authenticating then 1 else 0)
  {
  }

  lemma HistoryEffects(s: State, l: Label, x: string)
    ensures var s' := Next(s, l);
      && (x in s'.overlapped <==>
            x in s.overlapped || (Leaves(s, l, x) && (x in s'.validating || x in s.authenticating)))
  {
    match l
    case Validated(id, ok) => DisconnectIs(s.(validating := s.validating - {id}), id, x); hide Disconnect;
    case GraceOver(id) => DisconnectIs(s.(armed := s.armed - {id}), id, x); hide Disconnect;
    case Drop(id) => DisconnectIs(s, id, x); hide Disconnect;
    case _ => hide Disconnect;
  }

  lemma LateEffects(s: State, l: Label, x: string)
    ensures var s' := Next(s, l);
      && (x in s'.lateConnect <==>
            x in s.lateConnect || (l == Validated(x, true) && x in s.validating && x !in s.live))
      && (x in s'.lateAuth <==>
            x in s.lateAuth || (l == Authenticated(x, true) && x in s.authenticating && x !in s.live))
  {
  }

  /** The whole effect of a label, socket by socket, on the two sets and on everything around them. */
  lemma Effects(s: State, l: Label, x: string)
    ensures var s' := Next(s, l);
      && (x in s'.authed <==> (x in s.authed && !Leaves(s, l, x)) || Succeeds(s, l, x))
      && (x in s'.connected <==> (x in s.connected && !Leaves(s, l, x)) || Joins(s, l, x))
      && (x in s'.live <==> (x in s.live && !Leaves(s, l, x)) || (l.Connect? && l.id == x && x !in s.used))
      && (x in s'.used <==> x in s.used || (l.Connect? && l.id == x))
      && (x in s'.validating <==>
            (x in s.validating && !(l.Validated? && l.id == x)) || (l == Connect(x, true) && x !in s.used))
      && (x in s'.armed <==> (x in s.armed && l != GraceOver(x)) || (l == Connect(x, false) && x !in s.used))
      && s'.authenticating[x] == s.authenticating[x]
           + (if l == Authenticate(x, true) && x in s.live then 1 else 0)
           - (if l.Authenticated? && l.id == x && x in s.authenticating then 1 else 0)
      && (x in s'.overlapped <==>
            x in s.overlapped || (Leaves(s, l, x) && (x in s'.validating || x in s.authenticating)))
      && (x in s'.lateConnect <==>
            x in s.lateConnect || (l == Validated(x, true) && x in s.validating && x !in s.live))
      && (x in s'.lateAuth <==>
            x in s.lateAuth || (l == Authenticated(x, true) && x in s.authenticating && x !in s.live))
  {
    hide Next, Leaves, Succeeds, Joins;
    AuthedEffects(s, l, x);
    ConnectedEffects(s, l, x);
    SocketEffects(s, l, x);
    PendingEffects(s, l, x);
    HistoryEffects(s, l, x);
    LateEffects(s, l, x);
  }

  /** At `trace[j]` a validation of `id` succeeded, and its connection did not end afterwards. */
  ghost predicate ValidatedAt(trace: seq<Label>, j: nat, id: string) {
    && j < |trace| && Succeeds(Run(INITIAL, trace[..j]), trace[j], id)
    && forall k :: j < k < |trace| ==> !Leaves(Run(INITIAL, trace[..k]), trace[k], id)
  }

  ghost predicate JoinedAt(trace: seq<Label>, j: nat, id: string) {
    && j < |trace| && Joins(Run(INITIAL, trace[..j]), trace[j], id)
    && forall k :: j < k < |trace| ==> !Leaves(Run(INITIAL, trace[..k]), trace[k], id)
  }

  /**
   * A message from `id` gets past the authentication gate iff a token validation of `id`, at its
   * handshake or by `authenticate`, succeeded before it, and its connection did not end since.
   */
  lemma {:induction false} AuthenticatedIff(trace: seq<Label>, id: string)
    ensures id in Run(INITIAL, trace).authed <==> exists j: nat :: ValidatedAt(trace, j, id)
  {
    hide Next, Leaves, Succeeds;
    if trace != [] {
      var n := |trace| - 1;
      AuthenticatedIff(trace[..n], id);
      Effects(Run(INITIAL, trace[..n]), trace[n], id);
      ValidatedAtLast(trace, n, id);
      hide ValidatedAt;
    }
  }

  lemma ValidatedAtLast(trace: seq<Label>, n: nat, id: string)
    requires n == |trace| - 1
    ensures var s := Run(INITIAL, trace[..n]);
      (exists j: nat :: ValidatedAt(trace, j, id)) <==>
      Succeeds(s, trace[n], id) || (!Leaves(s, trace[n], id) && exists j: nat :: ValidatedAt(trace[..n], j, id))
  {
    hide Run, Leaves, Succeeds;
    var init := trace[..n];
    assert forall k :: 0 <= k <= n ==> init[..k] == trace[..k];
    if Succeeds(Run(INITIAL, init), trace[n], id) { assert ValidatedAt(trace, n, id); }
    if j: nat :| ValidatedAt(init, j, id) && !Leaves(Run(INITIAL, init), trace[n], id) { assert ValidatedAt(trace, j, id); }
    if j: nat :| ValidatedAt(trace, j, id) { assert j < n ==> ValidatedAt(init, j, id); }
  }

  /** A client is connected iff it joined and its connection did not end since. */
  lemma {:induction false} ConnectedIff(trace: seq<Label>, id: string)
    ensures id in Run(INITIAL, trace).connected <==> exists j: nat :: JoinedAt(trace, j, id)
  {
    hide Next, Leaves, Joins;
    if trace != [] {
      var n := |trace| - 1;
      ConnectedIff(trace[..n], id);
      Effects(Run(INITIAL, trace[..n]), trace[n], id);
      JoinedAtLast(trace, n, id);
      hide JoinedAt;
    }
  }

  lemma JoinedAtLast(trace: seq<Label>, n: nat, id: string)
    requires n == |trace| - 1
    ensures var s := Run(INITIAL, trace[..n]);
      (exists j: nat :: JoinedAt(trace, j, id)) <==>
      Joins(s, trace[n], id) || (!Leaves(s, trace[n], id) && exists j: nat :: JoinedAt(trace[..n], j, id))
  {
    hide Run, Leaves, Joins;
    var init := trace[..n];
    assert forall k :: 0 <= k <= n ==> init[..k] == trace[..k];
    if Joins(Run(INITIAL, init), trace[n], id) { assert JoinedAt(trace, n, id); }
    if j: nat :| JoinedAt(init, j, id) && !Leaves(Run(INITIAL, init), trace[n], id) { assert JoinedAt(trace, j, id); }
    if j: nat :| JoinedAt(trace, j, id) { assert j < n ==> JoinedAt(init, j, id); }
  }

  /** Without a handshake token the normal path lets a client in, and its grace timer keeps it. */
  lemma GateOpens(id: string)
    ensures var s := Run(INITIAL, [Connect(id, false), Authenticate(id, true), Authenticated(id, true), GraceOver(id)]);
      id in s.authed && id in s.connected && id in s.live
  {
    var l1, l2, l3, l4 := Connect(id, false), Authenticate(id, true), Authenticated(id, true), GraceOver(id);
    assert Run(INITIAL, []) == INITIAL && [] + [l1] == [l1] && [l1] + [l2] == [l1, l2];
    RunLast(INITIAL, [], l1);
    RunLast(INITIAL, [l1], l2);
    assert [l1, l2] + [l3] == [l1, l2, l3] && [l1, l2, l3] + [l4] == [l1, l2, l3, l4];
    RunLast(INITIAL, [l1, l2], l3);
    RunLast(INITIAL, [l1, l2, l3], l4);
    hide Run;
  }

  /** The validation that a client past the gate owes its place to. */
  lemma GateNeedsValidation(trace: seq<Label>, id: string) returns (j: nat)
    requires id in Run(INITIAL, trace).authed
    ensures ValidatedAt(trace, j, id)
  {
    AuthenticatedIff(trace, id);
    j :| ValidatedAt(trace, j, id);
  }
}
