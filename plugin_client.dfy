/**
 * The bookkeeping of the desktop connection manager `AvatarPluginClient`: the table of
 * requests waiting for a reply, the connect handshake sent once per socket, the teardown on
 * close and on disconnect, the protocol-mismatch retry, the bounded list of event ids already
 * delivered, and the single-flight pull loop. The socket, its timers and the awaited
 * promises are events the caller feeds in; each frame written to the socket is appended to
 * `sent`, and each settlement of a waiting request to `settled`.
 */
module PluginClientModel {
  import opened Options
  import opened Text
  import opened Js
  import opened PluginHelpers

  const NotOpenReason: string := "Gateway WS 未连接"
  const HandshakeReason: string := "Gateway 握手未完成"
  const RequestFailedReason: string := "请求失败"
  const ClosedReason: string := "连接已关闭"
  const DroppedReason: string := "Gateway 连接已断开"
  const SocketErrorReason: string := "WebSocket 错误"
  const TimeoutSuffix: string := " 超时"
  const ProtocolMismatch: string := "protocol mismatch"
  const ConnectMethod: string := "connect"
  const HelloMethod: string := "avatar.hello"
  const PullMethod: string := "avatar.pull"
  const GoodbyeMethod: string := "avatar.goodbye"
  const ProtocolVersion: string := "1.0"
  const PullMax: int := 20
  const MaxSeenEventIds: nat := 1000

  /** The socket as far as the client can tell: none, opening, or open. */
  datatype Socket = NoSocket | Opening | Open

  datatype Phase = Idle | Connecting | Connected | Failed

  /** The settings the constructor reads from its environment. */
  datatype ClientConfig = ClientConfig(
    sessionKey: string,
    avatarId: string,
    connectionId: string,
    clientId: string,
    clientMode: string,
    role: string,
    scopes: seq<string>)

  /** The request parameters the client sends. The signed device block of `connect` is
      reduced to whether it is present. */
  datatype Params =
    | ConnectParams(minProtocol: Num, maxProtocol: Num, clientId: string, clientMode: string,
                    role: string, scopes: seq<string>, token: string, withDevice: bool)
    | HelloParams(sessionKey: string, connectionId: string, avatarId: string, protocolVersion: string,
                  capabilities: ClientCaps)
    | PullParams(sessionKey: string, max: int)
    | GoodbyeParams(sessionKey: string, connectionId: string)

  /** A `req` frame written to the socket. */
  datatype Frame = Frame(id: string, methodName: string, params: Params)

  /** An entry of the pending table; `n` is the value of the counter the id was made from. */
  datatype Pending = Pending(id: string, methodName: string, n: nat)

  /** How a waiting request ended: resolved with a payload or rejected with an error. */
  datatype Settlement =
    | Resolved(id: string, payload: Value)
    | Rejected(id: string, reason: string, code: Option<string>, details: Value)

  /** What `sendReq` did: refused before making an id, failed to write, or registered. */
  datatype SendOutcome =
    | Refused(reason: string)
    | WriteFailed(id: string, reason: string)
    | Registered(id: string)

  // ---------------------------------------------------------------------------------------
  // Request ids

  /** The id of a request: the method name, a dash, and the counter in decimal. */
  function IdFor(methodName: string, n: nat): string
  {
    methodName + "-" + Decimal(n)
  }

  /** The characters after the last dash of `s` (all of `s` when it has none). */
  function AfterLastDash(s: string): string
  {
    if s == [] || s[|s| - 1] == '-' then [] else AfterLastDash(s[..|s| - 1]) + [s[|s| - 1]]
  }

  lemma {:induction false} AfterDashOf(m: string, d: string)
    requires forall i :: 0 <= i < |d| ==> IsDigit(d[i])
    ensures AfterLastDash(m + "-" + d) == d
  {
    var s := m + "-" + d;
    if d != [] {
      assert s[..|s| - 1] == m + "-" + d[..|d| - 1];
      assert IsDigit(d[|d| - 1]);
      AfterDashOf(m, d[..|d| - 1]);
    }
  }

  /** Different counter values give different ids, whatever the methods. */
  lemma IdForInjective(m1: string, n1: nat, m2: string, n2: nat)
    requires IdFor(m1, n1) == IdFor(m2, n2)
    ensures n1 == n2 && m1 == m2
  {
    var s := IdFor(m1, n1);
    AfterDashOf(m1, Decimal(n1));
    AfterDashOf(m2, Decimal(n2));
    DecimalInjective(n1, n2);
    assert m1 == s[..|m1|] == m2;
  }

  /** Why `sendReq` refuses, if it does: no open socket, or a request other than `connect`
      before the handshake has completed. */
  function SendGate(open: bool, connected: bool, methodName: string): (r: Option<string>)
    ensures r.None? <==> open && (connected || methodName == ConnectMethod)
  {
    if !open then Some(NotOpenReason)
    else if methodName != ConnectMethod && !connected then Some(HandshakeReason)
    else None
  }

  predicate HasId(ps: seq<Pending>, id: string)
  {
    exists i :: 0 <= i < |ps| && ps[i].id == id
  }

  /** The first entry with `id`. */
  function FindPending(ps: seq<Pending>, id: string): (r: Option<Pending>)
    ensures r.Some? <==> HasId(ps, id)
    ensures r.Some? ==> r.value in ps && r.value.id == id
  {
    if ps == [] then None
    else if ps[0].id == id then Some(ps[0])
    else
      var r := FindPending(ps[1..], id);
      assert HasId(ps, id) ==> ps[0].id == id || HasId(ps[1..], id) by {
        if HasId(ps, id) {
          var i :| 0 <= i < |ps| && ps[i].id == id;
          if i > 0 { assert ps[1..][i - 1].id == id; }
        }
      }
      assert HasId(ps[1..], id) ==> HasId(ps, id) by {
        if HasId(ps[1..], id) {
          var i :| 0 <= i < |ps[1..]| && ps[1..][i].id == id;
          assert ps[i + 1].id == id;
        }
      }
      r
  }

  /** The table without the first entry with `id`; the others keep their order. */
  function RemovePending(ps: seq<Pending>, id: string): (r: seq<Pending>)
    ensures |r| == (if HasId(ps, id) then |ps| - 1 else |ps|)
    ensures forall p :: p in r ==> p in ps
    ensures forall p :: p in ps && p.id != id ==> p in r
    ensures !HasId(ps, id) ==> r == ps
  {
    if ps == [] then []
    else if ps[0].id == id then ps[1..]
    else
      assert FindPending(ps, id) == FindPending(ps[1..], id);
      [ps[0]] + RemovePending(ps[1..], id)
  }

  /** Every waiting id was made from a counter value below `next`. */
  predicate Numbered(ps: seq<Pending>, next: nat)
  {
    forall p :: p in ps ==> p.n < next && p.id == IdFor(p.methodName, p.n)
  }

  /** The counter values of the table rise strictly, in table order. */
  predicate Ascending(ps: seq<Pending>)
  {
    forall i, j :: 0 <= i < j < |ps| ==> ps[i].n < ps[j].n
  }

  /** Ids made from distinct counter values: distinct ids, made from the counter. */
  predicate WellNumbered(ps: seq<Pending>, next: nat)
  {
    Numbered(ps, next) && Ascending(ps)
  }

  lemma WellNumberedDistinct(ps: seq<Pending>, next: nat)
    requires WellNumbered(ps, next)
    ensures forall i, j :: 0 <= i < j < |ps| ==> ps[i].id != ps[j].id
    ensures forall m :: !HasId(ps, IdFor(m, next))
  {
    forall i, j | 0 <= i < j < |ps| ensures ps[i].id != ps[j].id {
      assert ps[i] in ps && ps[j] in ps;
      if ps[i].id == ps[j].id {
        IdForInjective(ps[i].methodName, ps[i].n, ps[j].methodName, ps[j].n);
      }
    }
    forall m ensures !HasId(ps, IdFor(m, next)) {
      if HasId(ps, IdFor(m, next)) {
        var i :| 0 <= i < |ps| && ps[i].id == IdFor(m, next);
        assert ps[i] in ps;
        IdForInjective(ps[i].methodName, ps[i].n, m, next);
      }
    }
  }

  lemma AscendingCons(x: Pending, t: seq<Pending>)
    requires Ascending(t)
    requires forall q :: q in t ==> x.n < q.n
    ensures Ascending([x] + t)
  {
    var r := [x] + t;
    forall i, j | 0 <= i < j < |r| ensures r[i].n < r[j].n {
      assert r[j] == t[j - 1];
      if i > 0 {
        assert r[i] == t[i - 1];
      }
    }
  }

  lemma TailWellNumbered(ps: seq<Pending>, next: nat)
    requires ps != [] && WellNumbered(ps, next)
    ensures WellNumbered(ps[1..], next)
    ensures forall q :: q in ps[1..] ==> ps[0].n < q.n
  {
    var tail := ps[1..];
    forall i, j | 0 <= i < j < |tail| ensures tail[i].n < tail[j].n {
      assert tail[i] == ps[i + 1] && tail[j] == ps[j + 1];
    }
    forall q | q in tail ensures ps[0].n < q.n {
      var k :| 0 <= k < |tail| && tail[k] == q;
      assert ps[k + 1] == q;
    }
  }

  lemma FreshAfterHead(ps: seq<Pending>, next: nat)
    requires ps != [] && WellNumbered(ps, next)
    ensures !HasId(ps[1..], ps[0].id)
  {
    TailWellNumbered(ps, next);
    if HasId(ps[1..], ps[0].id) {
      var k :| 0 <= k < |ps[1..]| && ps[1..][k].id == ps[0].id;
      var q := ps[1..][k];
      assert q in ps[1..] && q in ps && ps[0] in ps;
      IdForInjective(ps[0].methodName, ps[0].n, q.methodName, q.n);
    }
  }

  lemma NotInCons(x: Pending, rest: seq<Pending>, id: string)
    requires x.id != id && !HasId(rest, id)
    ensures !HasId([x] + rest, id)
  {
  }

  /** Removing a reply's entry from a well-numbered table removes it exactly once: the id is
      gone afterwards and the table stays well numbered. */
  lemma {:induction false} RemoveOnce(ps: seq<Pending>, next: nat, id: string)
    requires WellNumbered(ps, next)
    ensures WellNumbered(RemovePending(ps, id), next)
    ensures !HasId(RemovePending(ps, id), id)
  {
    if ps == [] {
      return;
    }
    TailWellNumbered(ps, next);
    if ps[0].id == id {
      FreshAfterHead(ps, next);
    } else {
      var tail := ps[1..];
      RemoveOnce(tail, next, id);
      var rest := RemovePending(tail, id);
      AscendingCons(ps[0], rest);
      NotInCons(ps[0], rest, id);
    }
  }

  /** Every waiting request rejected with `reason`, in table order. */
  function RejectAll(ps: seq<Pending>, reason: string): (r: seq<Settlement>)
    ensures |r| == |ps|
    ensures forall i :: 0 <= i < |ps| ==> r[i] == Rejected(ps[i].id, reason, None, Undefined)
  {
    seq(|ps|, i requires 0 <= i < |ps| => Rejected(ps[i].id, reason, None, Undefined))
  }

  // ---------------------------------------------------------------------------------------
  // Replies

  /** The message of a failed reply: `error.message` when it is a string, else `error` when
      it is a string, else `payload.reason` when it is a string, else a default. */
  function ErrorReason(msg: Value): (r: string)
    ensures var err := Get(msg, "error");
      && (Get(err, "message").Str? ==> r == Get(err, "message").s)
      && (!Get(err, "message").Str? && err.Str? ==> r == err.s)
      && (!Get(err, "message").Str? && !err.Str? && Get(Get(msg, "payload"), "reason").Str? ==>
            r == Get(Get(msg, "payload"), "reason").s)
      && (!Get(err, "message").Str? && !err.Str? && !Get(Get(msg, "payload"), "reason").Str? ==>
            r == RequestFailedReason)
  {
    var err := Get(msg, "error");
    if Get(err, "message").Str? then Get(err, "message").s
    else if err.Str? then err.s
    else if Get(Get(msg, "payload"), "reason").Str? then Get(Get(msg, "payload"), "reason").s
    else RequestFailedReason
  }

  /** How the reply `msg` settles the request `id`. */
  function SettlementOf(msg: Value, id: string): (s: Settlement)
    ensures s.id == id
    ensures s.Resolved? <==> Get(msg, "ok") == Bool(true)
    ensures s.Resolved? ==> s.payload == (if Get(msg, "payload").Undefined? then Null else Get(msg, "payload"))
    ensures s.Rejected? ==> s.reason == ErrorReason(msg)
    ensures s.Rejected? && !IsObjectLike(Get(msg, "error")) ==> s.code.None? && s.details.Undefined?
  {
    var payload := Get(msg, "payload");
    var err := Get(msg, "error");
    if Get(msg, "ok") == Bool(true) then Resolved(id, if payload.Undefined? || payload.Null? then Null else payload)
    else if IsObjectLike(err) then
      Rejected(id, ErrorReason(msg), if Get(err, "code").Str? then Some(Get(err, "code").s) else None,
               Get(err, "details"))
    else Rejected(id, ErrorReason(msg), None, Undefined)
  }

  /** A `connect.challenge` event frame. */
  predicate IsChallenge(msg: Value)
  {
    Get(msg, "type") == Str("event") && Get(msg, "event") == Str("connect.challenge")
  }

  function ChallengeNonce(msg: Value): Value
  {
    Get(Get(msg, "payload"), "nonce")
  }

  // ---------------------------------------------------------------------------------------
  // The seen-event window

  /** The ids delivered lately: non-empty, each once, at most `MaxSeenEventIds`. */
  predicate WindowOk(ids: seq<string>)
  {
    && |ids| <= MaxSeenEventIds
    && (forall i :: 0 <= i < |ids| ==> ids[i] != "")
    && (forall i, j :: 0 <= i < j < |ids| ==> ids[i] != ids[j])
  }

  /** `rememberEvent` on the id list: an empty or known id is ignored; a new one is appended,
      and the oldest is dropped once the list is over its bound. */
  function Remembered(ids: seq<string>, id: string): seq<string>
  {
    if id == "" || id in ids then ids
    else if |ids| + 1 > MaxSeenEventIds then (ids + [id])[1..]
    else ids + [id]
  }

  /** The window stays within its bound and duplicate-free, the new id is in it, and it only
      loses its oldest id, and only when full. */
  lemma RememberedSpec(ids: seq<string>, id: string)
    requires WindowOk(ids)
    ensures var r := Remembered(ids, id);
      && WindowOk(r)
      && (id != "" ==> id in r)
      && (id == "" || id in ids ==> r == ids)
      && (forall x :: x in ids && x != ids[0] ==> x in r)
      && (|ids| < MaxSeenEventIds ==> forall x :: x in ids ==> x in r)
      && (forall x :: x in r ==> x in ids || x == id)
  {
    var r := Remembered(ids, id);
    if id != "" && id !in ids {
      var s := ids + [id];
      assert s[|ids|] == id;
      assert r[|r| - 1] == id;
      assert forall i, j :: 0 <= i < j < |s| ==> s[i] != s[j] by {
        forall i, j | 0 <= i < j < |s| ensures s[i] != s[j] {
          if j == |ids| {
            assert s[i] == ids[i];
          }
        }
      }
      forall x | x in ids && x != ids[0] ensures x in r {
        var k :| 0 <= k < |ids| && ids[k] == x;
        if |s| > MaxSeenEventIds {
          assert r[k - 1] == x;
        }
      }
    }
  }

  /** The event id an event carries when it is a non-empty string. */
  function KeyOf(e: Value): Option<string>
  {
    var id := Get(e, "eventId");
    if id.Str? && id.s != "" then Some(id.s) else None
  }

  /** The non-empty ids of delivered events, in order. */
  function Keys(events: seq<Value>): seq<string>
  {
    if events == [] then []
    else
      var init := Keys(events[..|events| - 1]);
      var k := KeyOf(events[|events| - 1]);
      if k.Some? then init + [k.value] else init
  }

  lemma {:induction false} KeysLength(events: seq<Value>)
    ensures |Keys(events)| <= |events|
  {
    if events != [] {
      KeysLength(events[..|events| - 1]);
    }
  }

  /** One pull's delivery: objects only, skipping those whose string id is in the window,
      remembering each string id. Gives the new window and the events delivered. */
  function Deliver(seen: seq<string>, events: seq<Value>): (seq<string>, seq<Value>)
  {
    if events == [] then (seen, [])
    else
      var prev := Deliver(seen, events[..|events| - 1]);
      var e := events[|events| - 1];
      var id := Get(e, "eventId");
      if !IsObjectLike(e) then prev
      else if id.Str? && id.s in prev.0 then prev
      else (if id.Str? then Remembered(prev.0, id.s) else prev.0, prev.1 + [e])
  }

  /** While the window has room for the whole pull, delivery appends exactly the ids of the
      delivered events to the window: no event whose id was already seen is delivered, and no
      id is delivered twice. Every delivered event is an object of the pull. */
  lemma {:induction false} DeliverFresh(seen: seq<string>, events: seq<Value>)
    requires WindowOk(seen)
    requires |seen| + |events| <= MaxSeenEventIds
    ensures var (s, d) := Deliver(seen, events);
      && s == seen + Keys(d)
      && WindowOk(s)
      && |d| <= |events|
      && (forall i :: 0 <= i < |d| ==> d[i] in events && IsObjectLike(d[i]))
  {
    if events != [] {
      var init := events[..|events| - 1];
      DeliverFresh(seen, init);
      var (s, d) := Deliver(seen, init);
      var e := events[|events| - 1];
      var id := Get(e, "eventId");
      forall i | 0 <= i < |d| ensures d[i] in events {
        assert d[i] in init;
      }
      if IsObjectLike(e) && !(id.Str? && id.s in s) {
        var d' := d + [e];
        assert d'[..|d'| - 1] == d;
        KeysLength(d);
        RememberedSpec(s, if id.Str? then id.s else "");
      }
    }
  }

  /** The number of `connect` frames among `frames`. */
  function ConnectFrames(frames: seq<Frame>): nat
  {
    if frames == [] then 0
    else ConnectFrames(frames[..|frames| - 1]) + (if frames[|frames| - 1].methodName == ConnectMethod then 1 else 0)
  }

  lemma ConnectFramesAppend(frames: seq<Frame>, f: Frame)
    ensures ConnectFrames(frames + [f]) == ConnectFrames(frames) + (if f.methodName == ConnectMethod then 1 else 0)
  {
    assert (frames + [f])[..|frames|] == frames;
  }

  /** The seen list and set hold the same ids, and the list is a valid window. */
  predicate SeenOk(ids: seq<string>, seen: set<string>)
  {
    WindowOk(ids) && seen == set x | x in ids
  }

  /** Since the socket opened, at most one `connect` frame, and none before `connectSent`. */
  predicate ConnectOk(sent: seq<Frame>, start: nat, connectSent: bool)
  {
    start <= |sent| && ConnectFrames(sent[start..]) <= (if connectSent then 1 else 0)
  }

  // ---------------------------------------------------------------------------------------
  // The client's state

  /** The socket and its handshake. */
  datatype Link = Link(
    ws: Socket,
    gatewayConnected: bool,
    intentionalClose: bool,
    connectNonce: Option<string>,
    connectSent: bool,
    token: string,
    useDevice: bool)

  /** The id counter, the table of waiting requests, every frame written (the current
      socket's from `socketStart` on) and every settlement of a waiting request. */
  datatype Requests = Requests(
    counter: nat,
    pending: seq<Pending>,
    sent: seq<Frame>,
    socketStart: nat,
    settled: seq<Settlement>)

  /** The pull loop, the window of delivered ids, and every event handed to `onEvent`. */
  datatype Feed = Feed(
    seenIds: seq<string>,
    seenSet: set<string>,
    pullActive: bool,
    pullInFlight: bool,
    delivered: seq<Value>)

  /** What the client announces and reports, and the protocol range it asks for. */
  datatype Status = Status(
    capabilities: ClientCaps,
    minProtocol: Num,
    maxProtocol: Num,
    phase: Phase,
    lastError: Option<string>,
    savedToken: Option<string>)

  datatype ClientState = ClientState(link: Link, requests: Requests, feed: Feed, status: Status)

  /** The counter runs ahead of every waiting id, and the current socket has carried at most
      one `connect`, none before `connectSent`. */
  predicate RequestsOk(r: Requests, connectSent: bool)
  {
    r.counter >= 1 && WellNumbered(r.pending, r.counter) && ConnectOk(r.sent, r.socketStart, connectSent)
  }

  /** The client invariant: the requests as above, and the seen list and set hold the same
      ids of a valid window. */
  predicate ValidState(st: ClientState)
  {
    RequestsOk(st.requests, st.link.connectSent) && SeenOk(st.feed.seenIds, st.feed.seenSet)
  }

  // ---------------------------------------------------------------------------------------
  // Sending a request

  /** What `sendReq` reports: refused by the gate, or given the id `method-counter` and then
      either written or failed to write. */
  function SendOutcomeOf(link: Link, r: Requests, methodName: string, failure: Option<string>): SendOutcome
  {
    var gate := SendGate(link.ws == Open, link.gatewayConnected, methodName);
    if gate.Some? then Refused(gate.value)
    else if failure.Some? then WriteFailed(IdFor(methodName, r.counter), failure.value)
    else Registered(IdFor(methodName, r.counter))
  }

  /** What `sendReq` does to the requests: a refused request changes nothing; otherwise the
      counter moves on, and a written request waits in the table with its frame sent. A write
      that throws (`failure`) takes its entry out of the table again. */
  function Sent(link: Link, r: Requests, methodName: string, params: Params, failure: Option<string>): Requests
  {
    match SendOutcomeOf(link, r, methodName, failure)
    case Refused(_) => r
    case WriteFailed(_, _) => r.(counter := r.counter + 1)
    case Registered(id) => r.(counter := r.counter + 1,
                              pending := r.pending + [Pending(id, methodName, r.counter)],
                              sent := r.sent + [Frame(id, methodName, params)])
  }

  lemma AppendWellNumbered(ps: seq<Pending>, next: nat, methodName: string)
    requires WellNumbered(ps, next)
    ensures WellNumbered(ps + [Pending(IdFor(methodName, next), methodName, next)], next + 1)
  {
    var r := ps + [Pending(IdFor(methodName, next), methodName, next)];
    forall i, j | 0 <= i < j < |r| ensures r[i].n < r[j].n {
      assert r[i] == ps[i];
      if j < |ps| {
        assert r[j] == ps[j];
      } else {
        assert ps[i] in ps;
      }
    }
  }

  lemma FramesSinceAppend(sent: seq<Frame>, start: nat, f: Frame)
    requires start <= |sent|
    ensures ConnectFrames((sent + [f])[start..]) ==
            ConnectFrames(sent[start..]) + (if f.methodName == ConnectMethod then 1 else 0)
  {
    assert (sent + [f])[start..] == sent[start..] + [f];
    ConnectFramesAppend(sent[start..], f);
  }

  /** Every request `sendReq` admits gets an id no waiting request has, and the table stays
      well numbered; a refused request leaves everything as it was; a registered one is the
      only new waiter and the only new frame; the settlements are never touched. */
  lemma SendFresh(link: Link, r: Requests, methodName: string, params: Params, failure: Option<string>)
    requires WellNumbered(r.pending, r.counter)
    ensures var r' := Sent(link, r, methodName, params, failure);
      var o := SendOutcomeOf(link, r, methodName, failure);
      && (o.Refused? <==> !(link.ws == Open && (link.gatewayConnected || methodName == ConnectMethod)))
      && (o.Refused? ==> r' == r)
      && (!o.Refused? ==> r'.counter == r.counter + 1 && !HasId(r.pending, o.id))
      && (o.Registered? ==> HasId(r'.pending, o.id) && |r'.pending| == |r.pending| + 1
                            && r'.sent == r.sent + [Frame(o.id, methodName, params)])
      && (!o.Registered? ==> r'.pending == r.pending && r'.sent == r.sent)
      && WellNumbered(r'.pending, r'.counter)
      && r'.settled == r.settled && r'.socketStart == r.socketStart
  {
    WellNumberedDistinct(r.pending, r.counter);
    AppendWellNumbered(r.pending, r.counter, methodName);
    var o := SendOutcomeOf(link, r, methodName, failure);
    if o.Registered? {
      var r' := Sent(link, r, methodName, params, failure);
      assert r'.pending[|r.pending|].id == o.id;
    }
  }

  /** A request other than `connect` keeps the requests valid and the socket's connect count. */
  lemma SendKeepsValid(link: Link, r: Requests, connectSent: bool, methodName: string, params: Params,
                       failure: Option<string>)
    requires RequestsOk(r, connectSent) && methodName != ConnectMethod
    ensures RequestsOk(Sent(link, r, methodName, params, failure), connectSent)
  {
    AppendWellNumbered(r.pending, r.counter, methodName);
    if SendOutcomeOf(link, r, methodName, failure).Registered? {
      FramesSinceAppend(r.sent, r.socketStart, Frame(IdFor(methodName, r.counter), methodName, params));
    }
  }

  /** The first `connect` of a socket keeps the requests valid once `connectSent` is set. */
  lemma ConnectKeepsValid(link: Link, r: Requests, params: Params, failure: Option<string>)
    requires RequestsOk(r, false)
    ensures RequestsOk(Sent(link, r, ConnectMethod, params, failure), true)
  {
    AppendWellNumbered(r.pending, r.counter, ConnectMethod);
    if SendOutcomeOf(link, r, ConnectMethod, failure).Registered? {
      FramesSinceAppend(r.sent, r.socketStart, Frame(IdFor(ConnectMethod, r.counter), ConnectMethod, params));
    }
  }

  /** The client with its requests after `sendReq`. */
  function AfterSend(st: ClientState, methodName: string, params: Params, failure: Option<string>): ClientState
  {
    st.(requests := Sent(st.link, st.requests, methodName, params, failure))
  }

  /** The parameters of the socket's connect request. */
  function ConnectParamsOf(config: ClientConfig, st: ClientState): Params
  {
    ConnectParams(st.status.minProtocol, st.status.maxProtocol, config.clientId, config.clientMode, config.role,
                  config.scopes, st.link.token, st.link.useDevice)
  }

  /** `sendConnectOnce`: the first call on a socket marks the connect as sent and asks for it;
      later calls do nothing. */
  function ConnectOnce(st: ClientState, params: Params, failure: Option<string>): ClientState
  {
    if st.link.connectSent then st
    else AfterSend(st.(link := st.link.(connectSent := true)), ConnectMethod, params, failure)
  }

  lemma ConnectOnceValid(st: ClientState, params: Params, failure: Option<string>)
    requires ValidState(st)
    ensures ValidState(ConnectOnce(st, params, failure))
  {
    if !st.link.connectSent {
      ConnectKeepsValid(st.link.(connectSent := true), st.requests, params, failure);
    }
  }

  /** However often it is called, and from whichever of the open handler, a challenge or the
      fallback timer, a socket carries at most one `connect` frame: after the first call the
      next one changes nothing. */
  lemma ConnectSentOnce(st: ClientState, params: Params, failure: Option<string>, params': Params,
                        failure': Option<string>)
    requires ValidState(st)
    ensures var r := ConnectOnce(st, params, failure);
      && ValidState(r)
      && r.link.connectSent
      && ConnectFrames(r.requests.sent[r.requests.socketStart..]) <= 1
      && ConnectOnce(r, params', failure') == r
  {
    ConnectOnceValid(st, params, failure);
  }

  // ---------------------------------------------------------------------------------------
  // Frames from the socket

  /** A challenge keeps its trimmed nonce when it is a non-blank string. */
  function Challenged(st: ClientState, msg: Value): ClientState
  {
    if IsNonBlank(ChallengeNonce(msg)) then st.(link := st.link.(connectNonce := Some(Trim(ChallengeNonce(msg).s))))
    else st
  }

  /** A reply frame addressed to a waiting request. */
  predicate IsReplyTo(r: Requests, msg: Value)
  {
    Get(msg, "type") == Str("res") && Get(msg, "id").Str? && HasId(r.pending, Get(msg, "id").s)
  }

  /** A reply to a waiting request removes that entry and settles it; any other frame, a reply
      with an unknown id included, changes nothing. */
  function Replied(r: Requests, msg: Value): Requests
  {
    if IsReplyTo(r, msg) then
      var id := Get(msg, "id").s;
      r.(pending := RemovePending(r.pending, id), settled := r.settled + [SettlementOf(msg, id)])
    else r
  }

  /** What `handleIncoming` does to the client: a challenge stores its nonce, a reply settles
      its request, anything else (not an object included) changes nothing. */
  function Handled(st: ClientState, msg: Value): ClientState
  {
    if !IsObjectLike(msg) then st
    else if IsChallenge(msg) then Challenged(st, msg)
    else st.(requests := Replied(st.requests, msg))
  }

  /** A reply settles its request exactly once: the entry leaves the table, one settlement
      for its id is recorded, and a second copy of the reply finds nothing to settle. Frames
      that are not replies to a waiting request leave the table and the settlements alone. */
  lemma RepliedSettlesOnce(r: Requests, msg: Value)
    requires WellNumbered(r.pending, r.counter)
    ensures var r' := Replied(r, msg);
      && WellNumbered(r'.pending, r.counter)
      && r'.counter == r.counter && r'.sent == r.sent && r'.socketStart == r.socketStart
      && (if IsReplyTo(r, msg)
          then && !HasId(r'.pending, Get(msg, "id").s)
               && |r'.pending| == |r.pending| - 1
               && r'.settled == r.settled + [SettlementOf(msg, Get(msg, "id").s)]
               && Replied(r', msg) == r'
          else r' == r)
  {
    if IsReplyTo(r, msg) {
      RemoveOnce(r.pending, r.counter, Get(msg, "id").s);
    }
  }

  /** The 8-second timer of a request: if it still waits, the entry goes and the request is
      rejected with a timeout. A settled request's timer was cleared. */
  function TimedOut(r: Requests, id: string): Requests
  {
    var p := FindPending(r.pending, id);
    if p.None? then r
    else r.(pending := RemovePending(r.pending, id),
            settled := r.settled + [Rejected(id, p.value.methodName + TimeoutSuffix, None, Undefined)])
  }

  /** A timeout rejects its request once, if it is still waiting, and a second timeout for the
      same id finds nothing. */
  lemma TimedOutOnce(r: Requests, id: string)
    requires WellNumbered(r.pending, r.counter)
    ensures var r' := TimedOut(r, id);
      && WellNumbered(r'.pending, r'.counter)
      && !HasId(r'.pending, id)
      && (HasId(r.pending, id) ==> |r'.settled| == |r.settled| + 1 && r'.settled[|r.settled|].id == id)
      && (!HasId(r.pending, id) ==> r' == r)
      && TimedOut(r', id) == r'
  {
    RemoveOnce(r.pending, r.counter, id);
  }

  // ---------------------------------------------------------------------------------------
  // The connection's life

  /** Every waiting request rejected with `reason`, and the table emptied. */
  function TornDown(r: Requests, reason: string): Requests
  {
    r.(pending := [], settled := r.settled + RejectAll(r.pending, reason))
  }

  /** `setError`. */
  function Errored(st: ClientState, message: string): ClientState
  {
    st.(status := st.status.(lastError := Some(message), phase := Failed))
  }

  /** The connect reply arrived: a device token it carries is saved, and the handshake is
      complete. */
  function ConnectAccepted(st: ClientState, payload: Value): ClientState
  {
    var deviceToken := ExtractDeviceToken(payload);
    st.(link := st.link.(gatewayConnected := true),
        status := st.status.(savedToken := if deviceToken.Some? then deviceToken else st.status.savedToken))
  }

  /** The parameters of `avatar.hello`. */
  function HelloParamsOf(config: ClientConfig, caps: ClientCaps): Params
  {
    HelloParams(config.sessionKey, config.connectionId, config.avatarId, ProtocolVersion, caps)
  }

  /** Once the connect reply has arrived on an open socket, the hello is admitted: it fails
      only if the write throws. Without an open socket it is refused as not connected. */
  lemma HelloAdmittedAfterConnect(st: ClientState, payload: Value, failure: Option<string>)
    ensures var s := ConnectAccepted(st, payload);
      var o := SendOutcomeOf(s.link, s.requests, HelloMethod, failure);
      && (st.link.ws == Open && failure.None? ==> o == Registered(IdFor(HelloMethod, st.requests.counter)))
      && (st.link.ws == Open && failure.Some? ==> o == WriteFailed(IdFor(HelloMethod, st.requests.counter), failure.value))
      && (st.link.ws != Open ==> o == Refused(NotOpenReason))
  {
  }

  /** The hello reply arrived: the pull loop starts and the client is connected. */
  function Announced(st: ClientState): ClientState
  {
    st.(feed := st.feed.(pullActive := true, pullInFlight := false),
        status := st.status.(phase := Connected, lastError := None))
  }

  function GoodbyeParamsOf(config: ClientConfig): Params
  {
    GoodbyeParams(config.sessionKey, config.connectionId)
  }

  /** The end of `disconnect`, once the goodbye has been asked for: the socket is let go,
      every waiting request is rejected and the client is idle. */
  function LetGo(st: ClientState, r: Requests): ClientState
  {
    ClientState(st.link.(ws := NoSocket, gatewayConnected := false, intentionalClose := true),
                TornDown(r, ClosedReason),
                st.feed.(pullActive := false, pullInFlight := false),
                st.status.(phase := Idle))
  }

  /** `disconnect` as written: the handshake flag is cleared before `avatar.goodbye` is
      asked for. */
  function DisconnectedAsWritten(st: ClientState, config: ClientConfig): ClientState
  {
    var link := st.link.(gatewayConnected := false);
    LetGo(st, if link.ws == Open then Sent(link, st.requests, GoodbyeMethod, GoodbyeParamsOf(config), None)
              else st.requests)
  }

  /** `disconnect` with the goodbye asked for while the handshake still stands. */
  function Disconnected(st: ClientState, config: ClientConfig, failure: Option<string>): ClientState
  {
    LetGo(st, if st.link.ws == Open then Sent(st.link, st.requests, GoodbyeMethod, GoodbyeParamsOf(config), failure)
              else st.requests)
  }

  /** As written, `disconnect` never sends a frame, whatever the state: the goodbye is
      refused because the handshake flag is already down. */
  lemma DisconnectAsWrittenSendsNothing(st: ClientState, config: ClientConfig)
    ensures DisconnectedAsWritten(st, config).requests.sent == st.requests.sent
  {
    assert GoodbyeMethod[0] != ConnectMethod[0];
  }

  /** With the goodbye asked for first, an open and connected client tells the gateway it is
      leaving, and that goodbye is among the requests rejected by the teardown. */
  lemma DisconnectSendsGoodbye(st: ClientState, config: ClientConfig)
    requires st.link.ws == Open && st.link.gatewayConnected
    ensures var id := IdFor(GoodbyeMethod, st.requests.counter);
      var r := Disconnected(st, config, None).requests;
      && r.sent == st.requests.sent + [Frame(id, GoodbyeMethod, GoodbyeParamsOf(config))]
      && r.settled == st.requests.settled +
                      RejectAll(st.requests.pending + [Pending(id, GoodbyeMethod, st.requests.counter)], ClosedReason)
  {
  }

  lemma DisconnectValid(st: ClientState, config: ClientConfig, failure: Option<string>)
    requires ValidState(st)
    ensures ValidState(Disconnected(st, config, failure))
  {
    if st.link.ws == Open {
      SendKeepsValid(st.link, st.requests, st.link.connectSent, GoodbyeMethod, GoodbyeParamsOf(config), failure);
    }
  }

  lemma RejectAllAppend(ps: seq<Pending>, q: Pending, reason: string)
    ensures RejectAll(ps + [q], reason) == RejectAll(ps, reason) + [Rejected(q.id, reason, None, Undefined)]
  {
    var a := RejectAll(ps + [q], reason);
    var b := RejectAll(ps, reason) + [Rejected(q.id, reason, None, Undefined)];
    forall i | 0 <= i < |a| ensures a[i] == b[i] {
      if i < |ps| {
        assert (ps + [q])[i] == ps[i];
      }
    }
  }

  /** After a disconnect the client is idle, without socket, handshake or pull loop; every
      request that was waiting is rejected as closed, in table order, and at most the goodbye
      was sent. */
  lemma DisconnectTearsDown(st: ClientState, config: ClientConfig, failure: Option<string>)
    requires WellNumbered(st.requests.pending, st.requests.counter)
    ensures var r := Disconnected(st, config, failure);
      && r.link.ws == NoSocket && !r.link.gatewayConnected && r.link.intentionalClose && r.status.phase == Idle
      && !r.feed.pullActive && !r.feed.pullInFlight && r.requests.pending == []
      && st.requests.settled + RejectAll(st.requests.pending, ClosedReason) <= r.requests.settled
      && st.requests.sent <= r.requests.sent && |r.requests.sent| <= |st.requests.sent| + 1
      && r.feed.seenIds == st.feed.seenIds && r.feed.delivered == st.feed.delivered
  {
    if st.link.ws == Open {
      SendFresh(st.link, st.requests, GoodbyeMethod, GoodbyeParamsOf(config), failure);
      var o := SendOutcomeOf(st.link, st.requests, GoodbyeMethod, failure);
      if o.Registered? {
        RejectAllAppend(st.requests.pending, Pending(o.id, GoodbyeMethod, st.requests.counter), ClosedReason);
      }
    }
  }

  /** The start of `openSocket`, after its `disconnect`: a fresh socket is opening, with no
      nonce, no connect sent, no handshake and no error yet. */
  function Opened(st: ClientState, token: string, useDevice: bool): ClientState
  {
    ClientState(Link(Opening, false, false, None, false, token, useDevice),
                st.requests.(socketStart := |st.requests.sent|),
                st.feed,
                st.status.(phase := Connecting, lastError := None))
  }

  /** A fresh socket has carried no frame yet, so the client stays valid. */
  lemma OpenedValid(st: ClientState, token: string, useDevice: bool)
    requires ValidState(st)
    ensures ValidState(Opened(st, token, useDevice))
    ensures ConnectFrames(Opened(st, token, useDevice).requests.sent[Opened(st, token, useDevice).requests.socketStart..]) == 0
  {
    assert st.requests.sent[|st.requests.sent|..] == [];
  }

  /** The socket's `close` event while the client still listens: the handshake and the pull
      loop are gone, every waiting request is rejected, and a close nobody asked for is an
      error. */
  function Closed(st: ClientState): ClientState
  {
    ClientState(st.link.(ws := NoSocket, gatewayConnected := false),
                TornDown(st.requests, ClosedReason),
                st.feed.(pullActive := false, pullInFlight := false),
                if st.link.intentionalClose then st.status
                else st.status.(lastError := Some(DroppedReason), phase := Failed))
  }

  /** Reopening a handshaken open socket. The source's `openSocket` begins with the disconnect
      as written, so no frame goes out before the new socket; with the corrected disconnect the
      goodbye goes out first. */
  lemma ReopenGoodbye(st: ClientState, config: ClientConfig, token: string, useDevice: bool)
    requires st.link.ws == Open && st.link.gatewayConnected
    ensures Opened(DisconnectedAsWritten(st, config), token, useDevice).requests.sent == st.requests.sent
    ensures Opened(Disconnected(st, config, None), token, useDevice).requests.sent
      == st.requests.sent + [Frame(IdFor(GoodbyeMethod, st.requests.counter), GoodbyeMethod, GoodbyeParamsOf(config))]
  {
    DisconnectAsWrittenSendsNothing(st, config);
    DisconnectSendsGoodbye(st, config);
  }

  /** A close rejects every waiting request with the closed reason, in table order, and
      leaves no request waiting; the client stays valid. */
  lemma ClosedRejectsAll(st: ClientState)
    requires ValidState(st)
    ensures var r := Closed(st);
      && ValidState(r)
      && r.requests.pending == [] && r.link.ws == NoSocket && !r.link.gatewayConnected && !r.feed.pullActive
      && r.requests.settled == st.requests.settled + RejectAll(st.requests.pending, ClosedReason)
      && (!st.link.intentionalClose ==> r.status.phase == Failed && r.status.lastError == Some(DroppedReason))
      && (st.link.intentionalClose ==> r.status == st.status)
      && r.requests.sent == st.requests.sent
  {
  }

  /** The retry of `connectOnce`: both ends of the protocol range pinned to the expected
      version. */
  function Pinned(st: ClientState, expected: Num): ClientState
  {
    st.(status := st.status.(minProtocol := expected, maxProtocol := expected))
  }

  // ---------------------------------------------------------------------------------------
  // The pull loop

  /** A tick of the pull interval: none while the loop is stopped or a pull is in flight;
      otherwise the pull goes out, and a request refused or failed at once becomes the last
      error and ends the pull. */
  function PullTicked(st: ClientState, config: ClientConfig, failure: Option<string>): ClientState
  {
    if !st.feed.pullActive || st.feed.pullInFlight then st
    else
      var o := SendOutcomeOf(st.link, st.requests, PullMethod, failure);
      var r := Sent(st.link, st.requests, PullMethod, PullParams(config.sessionKey, PullMax), failure);
      if o.Registered? then st.(requests := r, feed := st.feed.(pullInFlight := true))
      else st.(requests := r, status := st.status.(lastError := Some(o.reason)))
  }

  lemma PullTickValid(st: ClientState, config: ClientConfig, failure: Option<string>)
    requires ValidState(st)
    ensures ValidState(PullTicked(st, config, failure))
  {
    SendKeepsValid(st.link, st.requests, st.link.connectSent, PullMethod, PullParams(config.sessionKey, PullMax), failure);
  }

  /** Single flight: however the ticks fall, two ticks with no reply between them send at most
      one pull, and once a pull is in flight a tick changes nothing. */
  lemma PullSingleFlight(st: ClientState, config: ClientConfig, failure: Option<string>, failure': Option<string>)
    requires ValidState(st)
    ensures |PullTicked(PullTicked(st, config, failure), config, failure').requests.sent| <= |st.requests.sent| + 1
    ensures PullTicked(st, config, failure).feed.pullInFlight ==>
              PullTicked(PullTicked(st, config, failure), config, failure') == PullTicked(st, config, failure)
  {
    var params := PullParams(config.sessionKey, PullMax);
    if st.feed.pullActive && !st.feed.pullInFlight {
      SendFresh(st.link, st.requests, PullMethod, params, failure);
      var r := PullTicked(st, config, failure);
      if !r.feed.pullInFlight {
        PullTickValid(st, config, failure);
        SendFresh(r.link, r.requests, PullMethod, params, failure');
      }
    }
  }

  /** The pull was rejected (a failed reply, a timeout, or a close): the reason becomes the
      last error and the pull is over. */
  function PullFailed(st: ClientState, reason: string): ClientState
  {
    st.(feed := st.feed.(pullInFlight := false), status := st.status.(lastError := Some(reason)))
  }

  /** The events of a pull reply: its `events` array, or none. */
  function EventsOf(payload: Value): seq<Value>
  {
    if Get(payload, "events").Arr? then Get(payload, "events").items else []
  }

  /** The events of a pull handed on, with the window and its set updated. */
  function Received(f: Feed, events: seq<Value>): Feed
  {
    var (s, d) := Deliver(f.seenIds, events);
    f.(seenIds := s, seenSet := (set x | x in s), delivered := f.delivered + d)
  }

  lemma DeliverStep(seen: seq<string>, events: seq<Value>, i: int)
    requires 0 <= i < |events|
    ensures var prev := Deliver(seen, events[..i]);
      var e := events[i];
      var id := Get(e, "eventId");
      Deliver(seen, events[..i + 1]) ==
        if !IsObjectLike(e) then prev
        else if id.Str? && id.s in prev.0 then prev
        else (if id.Str? then Remembered(prev.0, id.s) else prev.0, prev.1 + [e])
  {
    assert events[..i + 1][..i] == events[..i];
  }

  /** The window stays a window through any pull, however long. */
  lemma {:induction false} DeliverWindow(seen: seq<string>, events: seq<Value>)
    requires WindowOk(seen)
    ensures WindowOk(Deliver(seen, events).0)
  {
    if events != [] {
      var init := events[..|events| - 1];
      DeliverWindow(seen, init);
      var prev := Deliver(seen, init);
      var id := Get(events[|events| - 1], "eventId");
      if id.Str? {
        RememberedSpec(prev.0, id.s);
      }
    }
  }

  /** `rememberEvent` on the window and its set. */
  function RememberedFeed(f: Feed, id: string): Feed
  {
    var ids := Remembered(f.seenIds, id);
    f.(seenIds := ids, seenSet := (set x | x in ids))
  }

  /** The set operations of `rememberEvent` give the set of the new window. */
  lemma RememberedSet(ids: seq<string>, seen: set<string>, id: string)
    requires SeenOk(ids, seen)
    ensures id == "" || id in seen ==> Remembered(ids, id) == ids
    ensures id != "" && id !in seen && |ids| + 1 <= MaxSeenEventIds ==>
      Remembered(ids, id) == ids + [id] && (set x | x in ids + [id]) == seen + {id}
    ensures id != "" && id !in seen && |ids| + 1 > MaxSeenEventIds ==>
      && ids != [] && ids[0] != ""
      && Remembered(ids, id) == (ids + [id])[1..]
      && (set x | x in (ids + [id])[1..]) == seen + {id} - {ids[0]}
  {
    if id != "" && id !in seen && |ids| + 1 > MaxSeenEventIds {
      var s := ids + [id];
      var t := s[1..];
      forall x | x in t ensures x != ids[0] {
        var k :| 0 <= k < |t| && t[k] == x;
        if k + 1 < |ids| {
          assert s[k + 1] == ids[k + 1];
        }
      }
      forall x | x in seen && x != ids[0] ensures x in t {
        var k :| 0 <= k < |ids| && ids[k] == x;
        assert t[k - 1] == x;
      }
      assert t[|t| - 1] == id;
    }
  }

  /** The client. Its fields are grouped as `ClientState` groups them: `link` holds `ws`,
      `gatewayConnected`, `intentionalClose`, `connectNonce` and the per-socket `connectSent`,
      token and device mode of `openSocket`; `requests` holds `seq` and `pending`; `feed`
      holds `seenEventIds`, `seenEventSet`, the pull timer and `pullInFlight`; `status` holds
      `capabilities`, `minProtocol`, `maxProtocol`, `state.phase`, `state.lastError` and the
      saved device token. */
  class PluginClient {
    const config: ClientConfig
    var link: Link
    var requests: Requests
    var feed: Feed
    var status: Status

    function State(): ClientState
      reads this
    {
      ClientState(link, requests, feed, status)
    }

    predicate Valid()
      reads this
    {
      ValidState(State())
    }

    constructor(config: ClientConfig, rawMin: Value, rawMax: Value, toNumber: Value -> Num)
      ensures Valid()
      ensures this.config == config
      ensures var range := ProtocolRange(rawMin, rawMax, toNumber);
        State() == ClientState(Link(NoSocket, false, false, None, false, "", false),
                               Requests(1, [], [], 0, []),
                               Feed([], {}, false, false, []),
                               Status(DefaultCaps(), Finite(range.0 as real), Finite(range.1 as real), Idle, None, None))
    {
      this.config := config;
      var range := ProtocolRange(rawMin, rawMax, toNumber);
      link := Link(NoSocket, false, false, None, false, "", false);
      requests := Requests(1, [], [], 0, []);
      feed := Feed([], {}, false, false, []);
      status := Status(DefaultCaps(), Finite(range.0 as real), Finite(range.1 as real), Idle, None, None);
    }

    /** `setError`. */
    method SetError(message: string)
      requires Valid()
      modifies this
      ensures Valid()
      ensures State() == Errored(old(State()), message)
    {
      status := status.(lastError := Some(message), phase := Failed);
    }

    /** `sendReq`. */
    method SendReq(methodName: string, params: Params, failure: Option<string>) returns (outcome: SendOutcome)
      modifies this
      ensures State() == AfterSend(old(State()), methodName, params, failure)
      ensures outcome == SendOutcomeOf(old(link), old(requests), methodName, failure)
    {
      var gate := SendGate(link.ws == Open, link.gatewayConnected, methodName);
      if gate.Some? {
        return Refused(gate.value);
      }
      var n := requests.counter;
      var id := IdFor(methodName, n);
      requests := requests.(counter := n + 1);
      if failure.Some? {
        return WriteFailed(id, failure.value);
      }
      requests := requests.(pending := requests.pending + [Pending(id, methodName, n)],
                            sent := requests.sent + [Frame(id, methodName, params)]);
      outcome := Registered(id);
    }

    /** The timeout of request `id`. */
    method Timeout(id: string)
      requires Valid()
      modifies this
      ensures Valid()
      ensures State() == old(State()).(requests := TimedOut(old(requests), id))
    {
      var p := FindPending(requests.pending, id);
      if p.None? {
        return;
      }
      RemoveOnce(requests.pending, requests.counter, id);
      requests := requests.(pending := RemovePending(requests.pending, id),
                            settled := requests.settled + [Rejected(id, p.value.methodName + TimeoutSuffix, None, Undefined)]);
    }

    /** `handleIncoming` on a parsed frame. */
    method HandleIncoming(msg: Value)
      requires Valid()
      modifies this
      ensures Valid()
      ensures State() == Handled(old(State()), msg)
    {
      if !IsObjectLike(msg) {
        return;
      }
      if IsChallenge(msg) {
        var nonce := ChallengeNonce(msg);
        if nonce.Str? && Trim(nonce.s) != "" {
          link := link.(connectNonce := Some(Trim(nonce.s)));
        }
        return;
      }
      var id := Get(msg, "id");
      if Get(msg, "type") != Str("res") || !id.Str? || !HasId(requests.pending, id.s) {
        return;
      }
      RemoveOnce(requests.pending, requests.counter, id.s);
      requests := requests.(pending := RemovePending(requests.pending, id.s),
                            settled := requests.settled + [SettlementOf(msg, id.s)]);
    }

    /** Rejects every waiting request with `reason`, in table order, and empties the table. */
    method RejectPending(reason: string)
      modifies this
      ensures State() == old(State()).(requests := TornDown(old(requests), reason))
    {
      var waiters := requests.pending;
      var i := 0;
      while i < |waiters|
        invariant 0 <= i <= |waiters|
        invariant requests == old(requests).(settled := old(requests).settled + RejectAll(waiters[..i], reason))
        invariant link == old(link) && feed == old(feed) && status == old(status)
      {
        requests := requests.(settled := requests.settled + [Rejected(waiters[i].id, reason, None, Undefined)]);
        assert RejectAll(waiters[..i + 1], reason) == RejectAll(waiters[..i], reason) + [Rejected(waiters[i].id, reason, None, Undefined)];
        i := i + 1;
      }
      assert waiters[..i] == waiters;
      requests := requests.(pending := []);
    }

    /** `stopPullLoop`. */
    method StopPullLoop()
      modifies this
      ensures State() == old(State()).(feed := old(feed).(pullActive := false, pullInFlight := false))
    {
      feed := feed.(pullActive := false, pullInFlight := false);
    }

    /** `sendConnectOnce`, fed by the open handler, a challenge, and the 200 ms fallback timer. */
    method SendConnectOnce(failure: Option<string>) returns (outcome: Option<SendOutcome>)
      requires Valid()
      modifies this
      ensures Valid()
      ensures State() == ConnectOnce(old(State()), ConnectParamsOf(config, old(State())), failure)
      ensures outcome == if old(link).connectSent then None
                         else Some(SendOutcomeOf(old(link), old(requests), ConnectMethod, failure))
    {
      ConnectOnceValid(State(), ConnectParamsOf(config, State()), failure);
      if link.connectSent {
        return None;
      }
      link := link.(connectSent := true);
      var o := SendReq(ConnectMethod, ConnectParamsOf(config, State()), failure);
      outcome := Some(o);
    }

    /** A frame for the current socket's message handler: a challenge stores a non-blank
        nonce and triggers the connect request; anything else goes to `handleIncoming`. */
    method OnSocketMessage(msg: Value, failure: Option<string>)
      requires Valid()
      modifies this
      ensures Valid()
      ensures IsChallenge(msg) ==>
        State() == ConnectOnce(Challenged(old(State()), msg), ConnectParamsOf(config, old(State())), failure)
      ensures !IsChallenge(msg) ==> State() == Handled(old(State()), msg)
    {
      if IsChallenge(msg) {
        var nonce := ChallengeNonce(msg);
        if nonce.Str? && Trim(nonce.s) != "" {
          link := link.(connectNonce := Some(Trim(nonce.s)));
        }
        var _ := SendConnectOnce(failure);
        return;
      }
      HandleIncoming(msg);
    }

    /** The start of `openSocket`: tear the old connection down, then open a fresh socket. */
    method BeginOpen(token: string, useDevice: bool, failure: Option<string>)
      requires Valid()
      modifies this
      ensures Valid()
      ensures State() == Opened(Disconnected(old(State()), config, failure), token, useDevice)
    {
      Disconnect(failure);
      OpenedValid(State(), token, useDevice);
      status := status.(phase := Connecting, lastError := None);
      link := Link(Opening, false, false, None, false, token, useDevice);
      requests := requests.(socketStart := |requests.sent|);
    }

    /** The socket's `open` event: the socket is open and the connect request goes out
        (unless a challenge sent it already). */
    method OnOpen(failure: Option<string>)
      requires Valid()
      modifies this
      ensures Valid()
      ensures old(link).ws != Opening ==> State() == old(State())
      ensures old(link).ws == Opening ==>
        State() == ConnectOnce(old(State()).(link := old(link).(ws := Open)), ConnectParamsOf(config, old(State())), failure)
    {
      if link.ws != Opening {
        return;
      }
      link := link.(ws := Open);
      var _ := SendConnectOnce(failure);
    }

    /** The connect reply arrived: keep a device token if the reply carries one, mark the
        handshake complete and announce the avatar with `avatar.hello`. */
    method AfterConnect(payload: Value, failure: Option<string>) returns (outcome: SendOutcome)
      requires Valid()
      modifies this
      ensures Valid()
      ensures State() == AfterSend(ConnectAccepted(old(State()), payload), HelloMethod,
                                   HelloParamsOf(config, old(status).capabilities), failure)
      ensures outcome == SendOutcomeOf(ConnectAccepted(old(State()), payload).link, old(requests), HelloMethod, failure)
    {
      var deviceToken := ExtractDeviceToken(payload);
      if deviceToken.Some? {
        status := status.(savedToken := deviceToken);
      }
      link := link.(gatewayConnected := true);
      outcome := SendHello(failure);
    }

    /** `sendHello`. */
    method SendHello(failure: Option<string>) returns (outcome: SendOutcome)
      requires Valid()
      modifies this
      ensures Valid()
      ensures State() == AfterSend(old(State()), HelloMethod, HelloParamsOf(config, old(status).capabilities), failure)
      ensures outcome == SendOutcomeOf(old(link), old(requests), HelloMethod, failure)
    {
      SendKeepsValid(link, requests, link.connectSent, HelloMethod, HelloParamsOf(config, status.capabilities), failure);
      outcome := SendReq(HelloMethod, HelloParamsOf(config, status.capabilities), failure);
    }

    /** The hello reply arrived. */
    method AfterHello()
      requires Valid()
      modifies this
      ensures Valid()
      ensures State() == Announced(old(State()))
    {
      feed := feed.(pullActive := true, pullInFlight := false);
      status := status.(phase := Connected, lastError := None);
    }

    /** `setCapabilities`: normalise and keep the new set, and announce it again when the
        handshake is complete. */
    method SetCapabilities(next: Value, failure: Option<string>) returns (outcome: Option<SendOutcome>)
      requires Valid()
      modifies this
      ensures Valid()
      ensures var st := old(State()).(status := old(status).(capabilities := NormalizeCapabilities(next)));
        && (old(link).ws == Open && old(link).gatewayConnected ==>
              && State() == AfterSend(st, HelloMethod, HelloParamsOf(config, NormalizeCapabilities(next)), failure)
              && outcome == Some(SendOutcomeOf(st.link, st.requests, HelloMethod, failure)))
        && (!(old(link).ws == Open && old(link).gatewayConnected) ==> State() == st && outcome.None?)
    {
      status := status.(capabilities := NormalizeCapabilities(next));
      if link.ws == Open && link.gatewayConnected {
        var o := SendHello(failure);
        outcome := Some(o);
      } else {
        outcome := None;
      }
    }

    /** The socket's `close` event. Not delivered once the client has let go of the socket. */
    method OnClose()
      requires Valid()
      modifies this
      ensures Valid()
      ensures old(link).ws == NoSocket ==> State() == old(State())
      ensures old(link).ws != NoSocket ==> State() == Closed(old(State()))
    {
      if link.ws == NoSocket {
        return;
      }
      link := link.(ws := NoSocket, gatewayConnected := false);
      StopPullLoop();
      RejectPending(ClosedReason);
      if !link.intentionalClose {
        status := status.(lastError := Some(DroppedReason), phase := Failed);
      }
    }

    /** The socket's `error` event. */
    method OnError(message: Option<string>)
      requires Valid()
      modifies this
      ensures Valid()
      ensures State() == Errored(old(State()), message.GetOr(SocketErrorReason))
    {
      SetError(message.GetOr(SocketErrorReason));
    }

    /** `disconnect` as written. */
    method DisconnectAsWritten()
      modifies this
      ensures State() == DisconnectedAsWritten(old(State()), config)
    {
      StopPullLoop();
      link := link.(gatewayConnected := false);
      if link.ws == Open {
        var _ := SendReq(GoodbyeMethod, GoodbyeParamsOf(config), None);
      }
      link := link.(intentionalClose := true, ws := NoSocket);
      RejectPending(ClosedReason);
      status := status.(phase := Idle);
    }

    /** `disconnect` with the goodbye sent while the handshake still stands. */
    method Disconnect(failure: Option<string>)
      requires Valid()
      modifies this
      ensures Valid()
      ensures State() == Disconnected(old(State()), config, failure)
    {
      DisconnectValid(State(), config, failure);
      StopPullLoop();
      if link.ws == Open {
        var _ := SendReq(GoodbyeMethod, GoodbyeParamsOf(config), failure);
      }
      link := link.(gatewayConnected := false, intentionalClose := true, ws := NoSocket);
      RejectPending(ClosedReason);
      status := status.(phase := Idle);
    }

    /** `rememberEvent`. */
    method RememberEvent(eventId: string)
      requires Valid()
      modifies this
      ensures Valid()
      ensures State() == old(State()).(feed := RememberedFeed(old(feed), eventId))
    {
      RememberedSpec(feed.seenIds, eventId);
      RememberedSet(feed.seenIds, feed.seenSet, eventId);
      if eventId == "" || eventId in feed.seenSet {
        return;
      }
      feed := feed.(seenSet := feed.seenSet + {eventId}, seenIds := feed.seenIds + [eventId]);
      if |feed.seenIds| <= MaxSeenEventIds {
        return;
      }
      var dropped := feed.seenIds[0];
      feed := feed.(seenIds := feed.seenIds[1..]);
      if dropped != "" {
        feed := feed.(seenSet := feed.seenSet - {dropped});
      }
    }

    /** A tick of the pull interval. */
    method PullTick(failure: Option<string>)
      requires Valid()
      modifies this
      ensures Valid()
      ensures State() == PullTicked(old(State()), config, failure)
    {
      PullTickValid(State(), config, failure);
      if !feed.pullActive || feed.pullInFlight {
        return;
      }
      feed := feed.(pullInFlight := true);
      var o := SendReq(PullMethod, PullParams(config.sessionKey, PullMax), failure);
      if !o.Registered? {
        status := status.(lastError := Some(o.reason));
        feed := feed.(pullInFlight := false);
      }
    }

    /** The pull's reply arrived: each event object whose id is not in the window is handed
        on, in order, and its id remembered; then the pull is over. */
    method OnPullResponse(payload: Value)
      requires Valid()
      modifies this
      ensures Valid()
      ensures State() == old(State()).(feed := Received(old(feed), EventsOf(payload)).(pullInFlight := false))
    {
      var events := EventsOf(payload);
      for i := 0 to |events|
        invariant Valid()
        invariant State() == old(State()).(feed := Received(old(feed), events[..i]))
      {
        DeliverStep(old(feed).seenIds, events, i);
        var event := events[i];
        if !IsObjectLike(event) {
          continue;
        }
        var id := Get(event, "eventId");
        if id.Str? && id.s in feed.seenSet {
          continue;
        }
        if id.Str? {
          RememberEvent(id.s);
        }
        feed := feed.(delivered := feed.delivered + [event]);
      }
      assert events[..|events|] == events;
      feed := feed.(pullInFlight := false);
    }

    /** The pull was rejected. */
    method OnPullFailed(reason: string)
      requires Valid()
      modifies this
      ensures Valid()
      ensures State() == PullFailed(old(State()), reason)
    {
      status := status.(lastError := Some(reason));
      feed := feed.(pullInFlight := false);
    }

    /** The retry of `connectOnce` after a failed `openSocket`: a protocol mismatch that names
        the expected protocol pins both ends of the range to it and asks for one more attempt;
        any other failure of the paired attempt is kept as the last error, and of the
        bootstrap attempt is passed on. */
    method ConnectFailed(reason: string, details: Value, paired: bool) returns (retry: bool)
      requires Valid()
      modifies this
      ensures Valid()
      ensures retry <==> Contains(reason, ProtocolMismatch) && Get(details, "expectedProtocol").Number?
      ensures retry ==> State() == Pinned(old(State()), Get(details, "expectedProtocol").n)
      ensures !retry && paired ==> State() == old(State()).(status := old(status).(lastError := Some(reason)))
      ensures !retry && !paired ==> State() == old(State())
    {
      var expected := Get(details, "expectedProtocol");
      if Contains(reason, ProtocolMismatch) && expected.Number? {
        status := status.(minProtocol := expected.n, maxProtocol := expected.n);
        return true;
      }
      if paired {
        status := status.(lastError := Some(reason));
      }
      return false;
    }
  }
}
