/**
 * The pure helpers of the desktop connection manager: the capability set it announces, the
 * device token it keeps from a connect reply, the scope list and protocol range it reads
 * from its environment, and the text it signs to prove the device identity.
 */
module PluginHelpers {
  import opened Options
  import opened Text
  import opened Js
  import opened Dedup

  const DefaultEmotions: seq<string> := ["neutral", "happy", "sad", "sorry", "confused"]
  const DefaultActions: seq<string> := ["thinking", "talking", "wave", "nod", "settle", "idle_recover"]
  const DefaultScopes: seq<string> := ["operator.admin"]
  const DefaultMinProtocol: int := 1
  const DefaultMaxProtocol: int := 16

  /** Whether the client offers lip-sync, and how it is driven. */
  datatype ClientViseme = ClientViseme(supported: bool, mode: string)

  /** The capability set the client sends in `avatar.hello`. `fallback` maps an action to the
      value that stands in for it; the value is kept as the caller gave it. */
  datatype ClientCaps = ClientCaps(
    emotions: seq<string>,
    actions: seq<string>,
    viseme: ClientViseme,
    fallback: map<string, Value>)

  function DefaultFallback(): map<string, Value>
  {
    map["talking_fast" := Str("talking"), "error_pose" := Str("idle_recover")]
  }

  function DefaultCaps(): ClientCaps
  {
    ClientCaps(DefaultEmotions, DefaultActions, ClientViseme(true, "auto"), DefaultFallback())
  }

  // ---------------------------------------------------------------------------------------
  // normalizeList

  /** What `normalizeList` makes of a value: the trimmed non-blank strings of an array, each
      once, in first-seen order; nothing for a non-array. Case is kept. */
  function TrimmedList(value: Value): seq<string>
  {
    if value.Arr? then Normalized(value.items, Trim) else []
  }

  /** The list holds each trimmed non-blank string entry once, trimmed, and nothing else. */
  lemma TrimmedListShape(value: Value)
    ensures DistinctNonEmpty(TrimmedList(value))
    ensures forall i :: 0 <= i < |TrimmedList(value)| ==> IsTrimmed(TrimmedList(value)[i])
    ensures value.Arr? ==> forall t :: t in TrimmedList(value) <==> Offers(value.items, Trim, t)
    ensures !value.Arr? ==> TrimmedList(value) == []
  {
    var r := TrimmedList(value);
    if value.Arr? {
      NormalizedMembers(value.items, Trim);
      forall i | 0 <= i < |r| ensures IsTrimmed(r[i]) {
        assert Offers(value.items, Trim, r[i]);
        var j :| 0 <= j < |value.items| && value.items[j].Str? && Trim(value.items[j].s) == r[i];
        TrimShape(value.items[j].s);
      }
    }
  }

  /** `normalizeList`: one pass over the array with a set of the values kept so far. */
  method NormalizeList(value: Value) returns (list: seq<string>)
    ensures list == TrimmedList(value)
  {
    if !value.Arr? {
      return [];
    }
    var items := value.items;
    var uniq: set<string> := {};
    list := [];
    for i := 0 to |items|
      invariant list == Normalized(items[..i], Trim)
      invariant forall t :: t in uniq <==> t in list
    {
      NormalizedStep(items, i, Trim);
      var item := items[i];
      if !item.Str? {
        continue;
      }
      var trimmed := Trim(item.s);
      if trimmed != "" && trimmed !in uniq {
        uniq := uniq + {trimmed};
        list := list + [trimmed];
      }
    }
    assert items[..|items|] == items;
  }

  // ---------------------------------------------------------------------------------------
  // normalizeCapabilities

  /** `{ ...m, ...props }`: each property in turn, a later one overriding an earlier one. */
  function Spread(m: map<string, Value>, props: seq<(string, Value)>): map<string, Value>
    decreases |props|
  {
    if props == [] then m else Spread(m[props[0].0 := props[0].1], props[1..])
  }

  /** A key no property names keeps its place and value. */
  lemma {:induction false} SpreadKeeps(m: map<string, Value>, props: seq<(string, Value)>, k: string)
    requires forall j :: 0 <= j < |props| ==> props[j].0 != k
    ensures k in Spread(m, props) <==> k in m
    ensures k in m ==> Spread(m, props)[k] == m[k]
    decreases |props|
  {
    if props != [] {
      SpreadKeeps(m[props[0].0 := props[0].1], props[1..], k);
    }
  }

  /** The last property with a given key decides its value. */
  lemma {:induction false} SpreadLastWins(m: map<string, Value>, props: seq<(string, Value)>, i: nat)
    requires i < |props|
    requires forall j :: i < j < |props| ==> props[j].0 != props[i].0
    ensures props[i].0 in Spread(m, props) && Spread(m, props)[props[i].0] == props[i].1
    decreases |props|
  {
    var m' := m[props[0].0 := props[0].1];
    if i == 0 {
      SpreadKeeps(m', props[1..], props[0].0);
    } else {
      SpreadLastWins(m', props[1..], i - 1);
    }
  }

  /** The keys after spreading: those of `m` and those the properties name. */
  lemma {:induction false} SpreadKeys(m: map<string, Value>, props: seq<(string, Value)>)
    ensures forall k :: k in Spread(m, props) <==> k in m || exists j :: 0 <= j < |props| && props[j].0 == k
    decreases |props|
  {
    if props != [] {
      var m' := m[props[0].0 := props[0].1];
      SpreadKeys(m', props[1..]);
      assert Spread(m, props) == Spread(m', props[1..]);
      forall k | k in Spread(m, props) ensures k in m || exists j :: 0 <= j < |props| && props[j].0 == k {
        if k !in m && k != props[0].0 {
          assert k !in m';
          var j :| 0 <= j < |props[1..]| && props[1..][j].0 == k;
          assert props[j + 1].0 == k;
        }
      }
      forall k | (exists j :: 0 <= j < |props| && props[j].0 == k) ensures k in Spread(m, props) {
        var j :| 0 <= j < |props| && props[j].0 == k;
        if j > 0 {
          assert props[1..][j - 1].0 == k;
        }
      }
    }
  }

  /** The own enumerable properties an object spread copies: an object's entries, an array's
      items under their index; nothing for anything else. */
  function OwnProps(v: Value): (r: seq<(string, Value)>)
    ensures v.Arr? ==> |r| == |v.items| && forall i :: 0 <= i < |r| ==> r[i] == (Decimal(i), v.items[i])
  {
    if v.Obj? then v.props
    else if v.Arr? then seq(|v.items|, i requires 0 <= i < |v.items| => (Decimal(i), v.items[i]))
    else []
  }

  /** A list as it is when it has entries, the default otherwise. */
  function OrDefault(list: seq<string>, default: seq<string>): seq<string>
  {
    if |list| > 0 then list else default
  }

  /** `normalizeCapabilities`. */
  function NormalizeCapabilities(input: Value): ClientCaps
  {
    if !IsObjectLike(input) then DefaultCaps()
    else
      var raw := Get(input, "fallback");
      var fallback := Spread(DefaultFallback(), if IsObjectLike(raw) then OwnProps(raw) else []);
      var v := Get(input, "viseme");
      var viseme :=
        if IsObjectLike(v) then
          ClientViseme(Truthy(Get(v, "supported")), if Get(v, "mode").Str? then Get(v, "mode").s else "auto")
        else ClientViseme(true, "auto");
      ClientCaps(
        OrDefault(TrimmedList(Get(input, "emotions")), DefaultEmotions),
        OrDefault(TrimmedList(Get(input, "actions")), DefaultActions),
        viseme,
        fallback)
  }

  /** A list the client can announce: non-empty, trimmed, duplicate-free. */
  predicate Announceable(xs: seq<string>)
  {
    |xs| > 0 && DistinctNonEmpty(xs) && forall i :: 0 <= i < |xs| ==> IsTrimmed(xs[i])
  }

  lemma DefaultsAnnounceable()
    ensures Announceable(DefaultEmotions) && Announceable(DefaultActions)
  {
    DefaultEmotionsAnnounceable();
    DefaultActionsAnnounceable();
  }

  /** A word that starts and ends with a lower-case letter has no surrounding space. */
  lemma LetterEdgesTrimmed(s: string)
    requires |s| > 0 && 'a' <= s[0] <= 'z' && 'a' <= s[|s| - 1] <= 'z'
    ensures IsTrimmed(s)
  {
  }

  lemma DefaultEmotionsAnnounceable()
    ensures Announceable(DefaultEmotions)
  {
    var xs := DefaultEmotions;
    forall i | 0 <= i < |xs| ensures IsTrimmed(xs[i]) {
      LetterEdgesTrimmed(xs[i]);
    }
  }

  lemma DefaultActionsAnnounceable()
    ensures Announceable(DefaultActions)
  {
    var xs := DefaultActions;
    forall i | 0 <= i < |xs| ensures IsTrimmed(xs[i]) {
      LetterEdgesTrimmed(xs[i]);
    }
  }

  /** What the client announces: the defaults for a non-object; otherwise each list is the
      input's trimmed de-duplicated strings, or the default when none are left; the default
      fallback keys are always present, overridden by the input's own entries. */
  lemma NormalizeCapabilitiesSpec(input: Value)
    ensures var r := NormalizeCapabilities(input);
      && (!IsObjectLike(input) ==> r == DefaultCaps())
      && Announceable(r.emotions) && Announceable(r.actions)
      && (TrimmedList(Get(input, "emotions")) != [] ==> r.emotions == TrimmedList(Get(input, "emotions")))
      && (TrimmedList(Get(input, "emotions")) == [] ==> r.emotions == DefaultEmotions)
      && (TrimmedList(Get(input, "actions")) != [] ==> r.actions == TrimmedList(Get(input, "actions")))
      && (TrimmedList(Get(input, "actions")) == [] ==> r.actions == DefaultActions)
      && DefaultFallback().Keys <= r.fallback.Keys
      && (IsObjectLike(input) && IsObjectLike(Get(input, "viseme")) ==>
            && r.viseme.supported == Truthy(Get(Get(input, "viseme"), "supported"))
            && r.viseme.mode == (if Get(Get(input, "viseme"), "mode").Str? then Get(Get(input, "viseme"), "mode").s
                                 else "auto"))
      && (!IsObjectLike(input) || !IsObjectLike(Get(input, "viseme")) ==> r.viseme == ClientViseme(true, "auto"))
  {
    DefaultsAnnounceable();
    TrimmedListShape(Get(input, "emotions"));
    TrimmedListShape(Get(input, "actions"));
    var raw := Get(input, "fallback");
    SpreadKeys(DefaultFallback(), if IsObjectLike(raw) then OwnProps(raw) else []);
  }

  /** An entry of the input's fallback object that no later entry repeats overrides the default. */
  lemma FallbackOverride(input: Value, i: nat)
    requires IsObjectLike(input) && Get(input, "fallback").Obj?
    requires i < |Get(input, "fallback").props|
    requires var ps := Get(input, "fallback").props;
      forall j :: i < j < |ps| ==> ps[j].0 != ps[i].0
    ensures var ps := Get(input, "fallback").props;
      ps[i].0 in NormalizeCapabilities(input).fallback && NormalizeCapabilities(input).fallback[ps[i].0] == ps[i].1
  {
    SpreadLastWins(DefaultFallback(), Get(input, "fallback").props, i);
  }

  /** An array given as the fallback contributes its items under their index. */
  lemma FallbackFromArray(input: Value, i: nat)
    requires IsObjectLike(input) && Get(input, "fallback").Arr?
    requires i < |Get(input, "fallback").items|
    ensures Decimal(i) in NormalizeCapabilities(input).fallback
    ensures NormalizeCapabilities(input).fallback[Decimal(i)] == Get(input, "fallback").items[i]
  {
    var ps := OwnProps(Get(input, "fallback"));
    forall j | i < j < |ps| ensures ps[j].0 != ps[i].0 {
      if ps[j].0 == ps[i].0 {
        DecimalInjective(i, j);
      }
    }
    SpreadLastWins(DefaultFallback(), ps, i);
  }

  /** A default fallback key the input does not name keeps its default value. */
  lemma FallbackDefaultKept(input: Value, k: string)
    requires k in DefaultFallback()
    requires var raw := Get(input, "fallback");
      forall j :: 0 <= j < |OwnProps(raw)| ==> OwnProps(raw)[j].0 != k
    ensures k in NormalizeCapabilities(input).fallback
    ensures NormalizeCapabilities(input).fallback[k] == DefaultFallback()[k]
  {
    if IsObjectLike(input) {
      var raw := Get(input, "fallback");
      SpreadKeeps(DefaultFallback(), if IsObjectLike(raw) then OwnProps(raw) else [], k);
    }
  }

  // ---------------------------------------------------------------------------------------
  // extractDeviceToken

  /** `extractDeviceToken`: the trimmed `auth.deviceToken` of a connect reply, else the trimmed
      `helloOk.auth.deviceToken`, a blank one counting as absent. */
  function ExtractDeviceToken(payload: Value): (r: Option<string>)
    ensures var direct := Get(Get(payload, "auth"), "deviceToken");
      var nested := Get(Get(Get(payload, "helloOk"), "auth"), "deviceToken");
      && (r.Some? <==> IsObjectLike(payload) && (IsNonBlank(direct) || IsNonBlank(nested)))
      && (r.Some? ==> r.value != "" && IsTrimmed(r.value))
      && (IsNonBlank(direct) ==> r == Some(Trim(direct.s)))
      && (!IsNonBlank(direct) && IsNonBlank(nested) ==> r == Some(Trim(nested.s)))
  {
    var direct := Get(Get(payload, "auth"), "deviceToken");
    var nested := Get(Get(Get(payload, "helloOk"), "auth"), "deviceToken");
    TrimShape(if direct.Str? then direct.s else "");
    TrimShape(if nested.Str? then nested.s else "");
    if !IsObjectLike(payload) then None
    else if IsNonBlank(direct) then Some(Trim(direct.s))
    else if IsNonBlank(nested) then Some(Trim(nested.s))
    else None
  }

  // ---------------------------------------------------------------------------------------
  // splitScopes

  function TrimAll(xs: seq<string>): (r: seq<string>)
    ensures |r| == |xs| && forall i :: 0 <= i < |xs| ==> r[i] == Trim(xs[i])
  {
    seq(|xs|, i requires 0 <= i < |xs| => Trim(xs[i]))
  }

  lemma TrimAllTrimmed(xs: seq<string>)
    ensures forall t :: t in NonEmpty(TrimAll(xs)) ==> IsTrimmed(t)
  {
    forall t | t in NonEmpty(TrimAll(xs)) ensures IsTrimmed(t) {
      var j :| 0 <= j < |xs| && TrimAll(xs)[j] == t;
      TrimShape(xs[j]);
    }
  }

  /** `filter(Boolean)` on strings: the non-empty ones, in order. */
  function NonEmpty(xs: seq<string>): (r: seq<string>)
    ensures forall i :: 0 <= i < |r| ==> r[i] != "" && r[i] in xs
    ensures forall s :: s in xs && s != "" ==> s in r
  {
    if xs == [] then []
    else if xs[0] == "" then NonEmpty(xs[1..])
    else [xs[0]] + NonEmpty(xs[1..])
  }

  lemma {:induction false} NonEmptyFixed(xs: seq<string>)
    requires forall i :: 0 <= i < |xs| ==> xs[i] != ""
    ensures NonEmpty(xs) == xs
  {
    if xs != [] {
      NonEmptyFixed(xs[1..]);
    }
  }

  /** The pieces `splitScopes` keeps: trimmed, the empty ones dropped. */
  function ScopePieces(s: string): (r: seq<string>)
    ensures forall i :: 0 <= i < |r| ==> r[i] != "" && IsTrimmed(r[i])
  {
    TrimAllTrimmed(Split(s, ','));
    NonEmpty(TrimAll(Split(s, ',')))
  }

  /** `splitScopes`: the trimmed non-empty pieces of a comma-separated string, in order and
      with repeats; the default scope when the input is not a non-empty string or has no
      such piece. */
  function SplitScopes(raw: Value): (r: seq<string>)
    ensures |r| > 0
    ensures forall i :: 0 <= i < |r| ==> r[i] != "" && IsTrimmed(r[i])
    ensures !(raw.Str? && raw.s != "") ==> r == DefaultScopes
  {
    assert IsTrimmed(DefaultScopes[0]);
    if !raw.Str? || raw.s == "" then DefaultScopes
    else
      var list := ScopePieces(raw.s);
      if |list| > 0 then list else DefaultScopes
  }

  /** Scopes written out comma-separated are read back as they were. */
  lemma TrimAllFixed(xs: seq<string>)
    requires forall i :: 0 <= i < |xs| ==> IsTrimmed(xs[i])
    ensures TrimAll(xs) == xs
  {
    forall i | 0 <= i < |xs| ensures TrimAll(xs)[i] == xs[i] {
      TrimmedIsFixed(xs[i]);
    }
  }

  lemma SplitScopesOf(s: string)
    requires s != "" && ScopePieces(s) != []
    ensures SplitScopes(Str(s)) == ScopePieces(s)
  {
  }

  /** Scopes written out comma-separated are read back as they were. */
  lemma {:induction false} SplitScopesJoin(xs: seq<string>)
    requires |xs| > 0
    requires forall i :: 0 <= i < |xs| ==> xs[i] != "" && IsTrimmed(xs[i]) && ',' !in xs[i]
    ensures SplitScopes(Str(Join(xs, ","))) == xs
  {
    var joined := Join(xs, [',']);
    assert joined != "" by {
      JoinStartsWithFirst(xs, [',']);
    }
    assert Split(joined, ',') == xs by {
      SplitJoin(xs, ',');
    }
    assert TrimAll(xs) == xs by {
      TrimAllFixed(xs);
    }
    assert NonEmpty(xs) == xs by {
      NonEmptyFixed(xs);
    }
    assert ScopePieces(joined) == xs;
    SplitScopesOf(joined);
  }

  // ---------------------------------------------------------------------------------------
  // parsePositiveInt and the protocol range

  /** `parsePositiveInt`: `Number(raw)` rounded down when it is finite and at least one, else
      `fallback`. `toNumber` stands for `Number`. */
  function ParsePositiveInt(raw: Value, fallback: int, toNumber: Value -> Num): (r: int)
    ensures var n := toNumber(raw);
      && (n.Finite? && n.r >= 1.0 ==> 1 <= r && r as real <= n.r < r as real + 1.0)
      && (!(n.Finite? && n.r >= 1.0) ==> r == fallback)
  {
    var n := toNumber(raw);
    if !n.Finite? || n.r < 1.0 then fallback else n.r.Floor
  }

  /** The protocol range the client offers, as the constructor reads it: the minimum defaults
      to 1, the maximum to 16, and a maximum below the minimum is raised to it. */
  function ProtocolRange(rawMin: Value, rawMax: Value, toNumber: Value -> Num): (range: (int, int))
    ensures 1 <= range.0 <= range.1
    ensures range.0 == ParsePositiveInt(rawMin, DefaultMinProtocol, toNumber)
    ensures range.1 == ParsePositiveInt(rawMax, DefaultMaxProtocol, toNumber) || range.1 == range.0
    ensures ParsePositiveInt(rawMax, DefaultMaxProtocol, toNumber) >= range.0 ==>
              range.1 == ParsePositiveInt(rawMax, DefaultMaxProtocol, toNumber)
  {
    var lo := ParsePositiveInt(rawMin, DefaultMinProtocol, toNumber);
    var hi := ParsePositiveInt(rawMax, DefaultMaxProtocol, toNumber);
    (lo, if hi < lo then lo else hi)
  }

  // ---------------------------------------------------------------------------------------
  // buildDeviceAuthPayload

  /** The inputs of `buildDeviceAuthPayload`; `token` is the auth token or null, `nonce` the
      challenge nonce or undefined. */
  datatype DeviceAuthFields = DeviceAuthFields(
    deviceId: string,
    clientId: string,
    clientMode: string,
    role: string,
    scopes: seq<string>,
    signedAtMs: nat,
    token: Option<string>,
    nonce: Option<string>)

  predicate HasNonce(f: DeviceAuthFields)
  {
    f.nonce.Some? && Trim(f.nonce.value) != ""
  }

  /** The fields joined by `|`, before the nonce. */
  function BaseFields(f: DeviceAuthFields): seq<string>
  {
    [if HasNonce(f) then "v2" else "v1", f.deviceId, f.clientId, f.clientMode, f.role,
     Join(f.scopes, ","), Decimal(f.signedAtMs), f.token.GetOr("")]
  }

  /** The fields joined by `|`: the base fields, then the trimmed nonce when there is one. */
  function PayloadFields(f: DeviceAuthFields): seq<string>
  {
    var base := BaseFields(f);
    if HasNonce(f) then base + [Trim(f.nonce.value)] else base
  }

  /** `buildDeviceAuthPayload`. */
  function BuildDeviceAuthPayload(f: DeviceAuthFields): (r: string)
    ensures HasNonce(f) ==> "v2" <= r
    ensures !HasNonce(f) ==> "v1" <= r
  {
    var fields := PayloadFields(f);
    JoinStartsWithFirst(fields, "|");
    Join(fields, "|")
  }

  /** No field the payload joins contains the separator. */
  predicate PipeFree(f: DeviceAuthFields)
  {
    && '|' !in f.deviceId && '|' !in f.clientId && '|' !in f.clientMode && '|' !in f.role
    && (forall i :: 0 <= i < |f.scopes| ==> '|' !in f.scopes[i])
    && (f.token.Some? ==> '|' !in f.token.value)
    && (f.nonce.Some? ==> '|' !in f.nonce.value)
  }

  /** A character absent from a string is absent from every slice of it. */
  lemma SliceAvoids(s: string, lo: nat, hi: nat, c: char)
    requires c !in s && lo <= hi <= |s|
    ensures c !in s[lo..hi]
  {
    assert forall k :: 0 <= k < hi - lo ==> s[lo..hi][k] == s[lo + k];
  }

  lemma TrimAvoids(s: string, c: char)
    requires c !in s
    ensures c !in Trim(s)
  {
    var t := TrimStart(s);
    SliceAvoids(s, |s| - |t|, |s|, c);
    SliceAvoids(t, 0, |TrimEnd(t)|, c);
  }

  /** The payload's fields, position by position: an unfolding aid for the recovery lemma. */
  lemma PayloadFieldsShape(f: DeviceAuthFields)
    ensures var xs := PayloadFields(f);
      && |xs| == (if HasNonce(f) then 9 else 8)
      && (xs[0] == "v2" <==> HasNonce(f))
      && xs[1] == f.deviceId && xs[2] == f.clientId && xs[3] == f.clientMode
      && xs[4] == f.role && xs[5] == Join(f.scopes, ",")
      && xs[6] == Decimal(f.signedAtMs)
      && xs[7] == (if f.token.Some? then f.token.value else "")
      && (HasNonce(f) ==> xs[8] == Trim(f.nonce.value))
  {
  }

  /** With pipe-free inputs, no field of the payload contains `|`. */
  lemma PayloadFieldsPipeFree(f: DeviceAuthFields)
    requires PipeFree(f)
    ensures forall i :: 0 <= i < |PayloadFields(f)| ==> '|' !in PayloadFields(f)[i]
  {
    var base := BaseFields(f);
    JoinAvoids(f.scopes, ",", '|');
    assert '|' !in Decimal(f.signedAtMs);
    assert '|' !in base[0];
    assert forall i :: 0 <= i < |base| ==> '|' !in base[i];
    if HasNonce(f) {
      TrimAvoids(f.nonce.value, '|');
    }
  }

  /** Splitting the payload on `|` recovers its fields in order: the version, which is `v2`
      exactly when there is a non-blank nonce, the device, client, mode and role, the
      comma-joined scopes, the signing time, the token or an empty string, and in `v2` the
      trimmed nonce. */
  lemma DeviceAuthFieldsRecovered(f: DeviceAuthFields)
    requires PipeFree(f)
    ensures var parts := Split(BuildDeviceAuthPayload(f), '|');
      && |parts| == (if HasNonce(f) then 9 else 8)
      && (parts[0] == "v2" <==> HasNonce(f))
      && parts[1] == f.deviceId && parts[2] == f.clientId && parts[3] == f.clientMode
      && parts[4] == f.role && parts[5] == Join(f.scopes, ",")
      && parts[6] == Decimal(f.signedAtMs)
      && parts[7] == (if f.token.Some? then f.token.value else "")
      && (HasNonce(f) ==> parts[8] == Trim(f.nonce.value))
  {
    PayloadFieldsPipeFree(f);
    PayloadFieldsShape(f);
    SplitJoin(PayloadFields(f), '|');
  }
}
