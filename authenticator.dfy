/** `DjangoRestAdminAuthenticator`: keeps the JSON Web Token of the logged-in user in the
    browser's storage and in memory, and bumps a monitor counter on every change so that
    the HTTP clients rebuild their headers.

    The browser's `localStorage` is the map `store`; `JSON.parse` of the login reply and
    `JSON.parse(atob(…))` of the token's payload are the decoders `parseObtain` and
    `decodeClaims`, which yield nothing where the original throws; each reading of the
    clock is a parameter of its own (`now`, or `now1`, `now2` and `now3` where one
    operation reads it several times), in milliseconds. */
module Authenticator {
  import opened Common

  /** `JwtObtainResponseType`: the login reply. */
  datatype Obtain = Obtain(token: string, id: int, username: string, fullName: string)

  /** `TokenDetailResponseType`: the payload of the token, times in seconds. */
  datatype Claims = Claims(exp: int, iat: int, jti: string, tokenType: string, userId: int)

  /** `Token`: times in milliseconds, as `fromUnixTime` turns seconds into a `Date`. */
  datatype Token = Token(source: string, value: string, issuedTime: int, expiredTime: int,
                         userId: int, fullName: string, userName: string)

  /** `isExpired`: strictly before the current time. */
  predicate Expired(t: Token, now: int)
  {
    t.expiredTime < now
  }

  /** The first index of `c` in `s` from `from` on, or `|s|` when there is none. */
  function IndexFrom(s: string, c: char, from: nat): (i: nat)
    requires from <= |s|
    ensures from <= i <= |s|
    ensures i < |s| ==> s[i] == c
    ensures forall j :: from <= j < i ==> s[j] != c
    decreases |s| - from
  {
    if from == |s| || s[from] == c then from else IndexFrom(s, c, from + 1)
  }

  /** `value[i]` is the first dot of `value`, and `seg` runs from after it up to the next
      dot or the end. */
  predicate FirstDotSegment(value: string, i: int, seg: string)
  {
    && 0 <= i < |value| && value[i] == '.'
    && (forall j :: 0 <= j < i ==> value[j] != '.')
    && i + 1 + |seg| <= |value| && value[i + 1..i + 1 + |seg|] == seg
    && (i + 1 + |seg| == |value| || value[i + 1 + |seg|] == '.')
  }

  /** `value.split('.')[1]`: the text between the first and second dot, or `undefined`
      when there is no dot. */
  function SecondSegment(value: string): (seg: Option<string>)
    ensures seg.None? <==> forall j :: 0 <= j < |value| ==> value[j] != '.'
    ensures seg.Some? ==> exists i :: FirstDotSegment(value, i, seg.value)
    ensures seg.Some? ==> forall j :: 0 <= j < |seg.value| ==> seg.value[j] != '.'
  {
    var first := IndexFrom(value, '.', 0);
    if first == |value| then None
    else
      var second := IndexFrom(value, '.', first + 1);
      var seg := value[first + 1..second];
      assert first + 1 + |seg| == second;
      assert value[first + 1..first + 1 + |seg|] == seg;
      assert FirstDotSegment(value, first, seg);
      assert forall j :: 0 <= j < |seg| ==> seg[j] == value[first + 1 + j];
      Some(seg)
  }

  /** The payload of a token `header.payload.signature` is its middle part. */
  lemma {:induction false} SecondSegmentOfJwt(header: string, payload: string, signature: string)
    requires forall j :: 0 <= j < |header| ==> header[j] != '.'
    requires forall j :: 0 <= j < |payload| ==> payload[j] != '.'
    ensures SecondSegment(header + "." + payload + "." + signature) == Some(payload)
  {
    var v := header + "." + payload + "." + signature;
    assert v[|header|] == '.';
    assert forall j :: 0 <= j < |header| ==> v[j] == header[j];
    IndexFromStopsAt(v, '.', 0, |header|);
    var second := |header| + 1 + |payload|;
    assert v[second] == '.';
    assert forall j :: 0 <= j < |payload| ==> v[|header| + 1 + j] == payload[j];
    assert forall j :: |header| + 1 <= j < second ==> v[j] == payload[j - |header| - 1];
    IndexFromStopsAt(v, '.', |header| + 1, second);
    assert v[|header| + 1..second] == payload;
  }

  /** The search stops at the first occurrence. */
  lemma {:induction false} IndexFromStopsAt(s: string, c: char, from: nat, at: nat)
    requires from <= at < |s| && s[at] == c
    requires forall j :: from <= j < at ==> s[j] != c
    ensures IndexFrom(s, c, from) == at
    decreases at - from
  {
    if from < at {
      IndexFromStopsAt(s, c, from + 1, at);
    }
  }

  /** What `atob` receives: the second segment, or the text of `undefined` when the
      token has no dot. */
  function Payload(value: string): (p: string)
    ensures SecondSegment(value).Some? ==> p == SecondSegment(value).value
    ensures SecondSegment(value).None? ==> p == "undefined"
  {
    match SecondSegment(value)
    case Some(seg) => seg
    case None => "undefined"
  }

  /** `new Token(source)`: nothing where the constructor throws. A token without a dot
      hands `undefined` to `atob`, that is, the text "undefined". */
  function MakeToken(source: string, parseObtain: string -> Option<Obtain>,
                     decodeClaims: string -> Option<Claims>): (t: Option<Token>)
    ensures t.Some? <==>
      && parseObtain(source).Some?
      && decodeClaims(Payload(parseObtain(source).value.token)).Some?
    ensures t.Some? ==>
      var obtain := parseObtain(source).value;
      && t.value.source == source
      && t.value.value == obtain.token
      && t.value.fullName == obtain.fullName && t.value.userName == obtain.username
    ensures t.Some? ==>
      var claims := decodeClaims(Payload(parseObtain(source).value.token)).value;
      && t.value.expiredTime == claims.exp * 1000
      && t.value.issuedTime == claims.iat * 1000
      && t.value.userId == claims.userId
  {
    var obtain := parseObtain(source);
    if obtain.None? then None
    else
      var claims := decodeClaims(Payload(obtain.value.token));
      if claims.None? then None
      else
        Some(Token(source, obtain.value.token, claims.value.iat * 1000, claims.value.exp * 1000,
                   claims.value.userId, obtain.value.fullName, obtain.value.username))
  }

  /** The answer of `isLoggedIn` for the token `t` held before it runs, where `now1` and
      `now2` are the clock readings of the two `token` getter reads and `now3` that of the
      last `isExpired`. A token that expires between the two getter reads is deleted by the
      second one, which then yields `undefined`, and reading `isExpired` of it throws a
      TypeError (nothing). */
  function LoggedInAnswer(t: Option<Token>, now1: int, now2: int, now3: int): (b: Option<bool>)
    ensures b.None? <==> t.Some? && !Expired(t.value, now1) && Expired(t.value, now2)
    ensures b.None? ==> now1 <= t.value.expiredTime < now2
    ensures b == Some(true) <==>
      t.Some? && !Expired(t.value, now1) && !Expired(t.value, now2) && !Expired(t.value, now3)
  {
    if t.None? || Expired(t.value, now1) then Some(false)
    else if Expired(t.value, now2) then None
    else Some(!Expired(t.value, now3))
  }

  /** On a clock that reads the same time throughout, `isLoggedIn` never throws and answers
      whether a token is held that has not expired. */
  lemma SteadyClockLoggedIn(t: Option<Token>, now: int)
    ensures LoggedInAnswer(t, now, now, now) == Some(t.Some? && !Expired(t.value, now))
  {
  }

  /** On a clock that does not go back, `isLoggedIn` throws only when the token expires
      between the two getter reads, and a `true` answer means the token is live at the
      last reading. */
  lemma ForwardClockLoggedIn(t: Option<Token>, now1: int, now2: int, now3: int)
    requires now1 <= now2 <= now3
    ensures LoggedInAnswer(t, now1, now2, now3).None? ==> t.Some? && now1 <= t.value.expiredTime < now2
    ensures LoggedInAnswer(t, now1, now2, now3) == Some(true) <==> t.Some? && !Expired(t.value, now3)
  {
  }

  class DjangoRestAdminAuthenticator {
    const key: string
    const parseObtain: string -> Option<Obtain>
    const decodeClaims: string -> Option<Claims>
    /** `localStorage`. */
    var store: map<string, string>
    /** `_token`. */
    var token: Option<Token>
    /** `_refStateMonitor.value`. */
    var monitor: int

    /** The monitor starts at 1 and only grows. */
    predicate Valid()
      reads this
    {
      monitor >= 1
    }

    /** The fields before the cached token is read. */
    constructor Init(key: string, parseObtain: string -> Option<Obtain>,
                     decodeClaims: string -> Option<Claims>, store: map<string, string>)
      ensures this.key == key && this.parseObtain == parseObtain && this.decodeClaims == decodeClaims
      ensures this.store == store && token.None? && monitor == 1
      ensures Valid()
    {
      this.key := key;
      this.parseObtain := parseObtain;
      this.decodeClaims := decodeClaims;
      this.store := store;
      token := None;
      monitor := 1;
    }

    /** `localStorage.getItem(key) || ''`. */
    function Cached(): string
      reads this
    {
      if key in store then store[key] else ""
    }

    /** `_setToken(value)`: the value is stored first; then the token is built from it,
        which may throw, and only then does the monitor move. */
    method SetToken(value: string) returns (ok: bool)
      requires Valid()
      modifies this
      ensures Valid() && store == old(store)[key := value]
      ensures ok <==> MakeToken(value, parseObtain, decodeClaims).Some?
      ensures ok ==> token == MakeToken(value, parseObtain, decodeClaims) && monitor == old(monitor) + 1
      ensures !ok ==> token == old(token) && monitor == old(monitor)
    {
      store := store[key := value];
      var t := MakeToken(value, parseObtain, decodeClaims);
      if t.None? {
        return false;
      }
      token := t;
      monitor := monitor + 1;
      ok := true;
    }

    /** `_delToken()`. */
    method DelToken()
      requires Valid()
      modifies this
      ensures Valid() && store == old(store) - {key} && token.None? && monitor == old(monitor) + 1
    {
      store := store - {key};
      token := None;
      monitor := monitor + 1;
    }

    /** The `token` getter: an expired token is deleted on the way. */
    method GetToken(now: int) returns (t: Option<Token>)
      requires Valid()
      modifies this
      ensures Valid()
      ensures old(token).None? ==> t.None? && store == old(store) && token == old(token) && monitor == old(monitor)
      ensures old(token).Some? && !Expired(old(token).value, now) ==>
        t == old(token) && store == old(store) && token == old(token) && monitor == old(monitor)
      ensures old(token).Some? && Expired(old(token).value, now) ==>
        t.None? && store == old(store) - {key} && token.None? && monitor == old(monitor) + 1
    {
      if token.None? {
        return None;
      }
      if !Expired(token.value, now) {
        return token;
      }
      DelToken();
      t := None;
    }

    /** `isLoggedIn` with the three clock readings it makes: one in each `token` getter
        read and one in the final `isExpired`. The answer is `LoggedInAnswer` of the token
        held before the call, and a getter read that finds the token expired deletes it. */
    method IsLoggedIn(now1: int, now2: int, now3: int) returns (b: Option<bool>)
      requires Valid()
      modifies this
      ensures Valid()
      ensures b == LoggedInAnswer(old(token), now1, now2, now3)
      ensures old(token).Some? && (Expired(old(token).value, now1) || Expired(old(token).value, now2)) ==>
        store == old(store) - {key} && token.None? && monitor == old(monitor) + 1
      ensures !(old(token).Some? && (Expired(old(token).value, now1) || Expired(old(token).value, now2))) ==>
        store == old(store) && token == old(token) && monitor == old(monitor)
    {
      var first := GetToken(now1);
      if first.None? {
        return Some(false);
      }
      var second := GetToken(now2);
      if second.None? {
        // `undefined.isExpired` throws a TypeError
        return None;
      }
      b := Some(!Expired(second.value, now3));
    }

    /** `login`: `reply` is `JSON.stringify` of the reply's data, or nothing when the
        request failed. A failed request deletes the token; a reply is stored as the new
        token. The answer is `isLoggedIn` afterwards, read at `now1`, `now2` and `now3`;
        nothing means the promise rejects, because the reply does not decode or because
        `isLoggedIn` throws. */
    method Login(reply: Option<string>, now1: int, now2: int, now3: int) returns (r: Option<bool>)
      requires Valid()
      modifies this
      ensures Valid() && monitor >= old(monitor)
      ensures reply.None? ==>
        r == Some(false) && store == old(store) - {key} && token.None? && monitor == old(monitor) + 1
      ensures reply.Some? && MakeToken(reply.value, parseObtain, decodeClaims).None? ==>
        r.None? && store == old(store)[key := reply.value] && token == old(token) && monitor == old(monitor)
      ensures reply.Some? && MakeToken(reply.value, parseObtain, decodeClaims).Some? ==>
        var t := MakeToken(reply.value, parseObtain, decodeClaims).value;
        && r == LoggedInAnswer(Some(t), now1, now2, now3)
        && (Expired(t, now1) || Expired(t, now2) ==>
              token.None? && store == old(store)[key := reply.value] - {key} && monitor == old(monitor) + 2)
        && (!Expired(t, now1) && !Expired(t, now2) ==>
              token == Some(t) && store == old(store)[key := reply.value] && monitor == old(monitor) + 1)
    {
      if reply.None? {
        DelToken();
        r := IsLoggedIn(now1, now2, now3);
        return;
      }
      var ok := SetToken(reply.value);
      if !ok {
        // the rejection skips `isLoggedIn`; the monitor was bumped by nothing
        return None;
      }
      r := IsLoggedIn(now1, now2, now3);
    }

    /** `logout`: always `true`, and no token is left. */
    method Logout() returns (r: bool)
      requires Valid()
      modifies this
      ensures Valid() && r && token.None? && store == old(store) - {key} && monitor == old(monitor) + 1
    {
      DelToken();
      r := true;
    }

    /** `vueMonitor`: reads the monitor, so a watcher re-runs when it moves, and is always `true`. */
    function VueMonitor(): (r: bool)
      reads this
      ensures r
    {
      monitor > 0 || true
    }
  }

  /** The constructor: reads the cached token when the storage holds a non-empty value;
      a cached value that does not decode makes the constructor throw (nothing). */
  method NewAuthenticator(key: string, parseObtain: string -> Option<Obtain>,
                          decodeClaims: string -> Option<Claims>, store: map<string, string>)
    returns (r: Option<DjangoRestAdminAuthenticator>)
    ensures r.Some? ==> fresh(r.value) && r.value.Valid() && r.value.key == key && r.value.store == store
    ensures (var cached := if key in store then store[key] else "";
             && (cached == "" ==> r.Some? && r.value.token.None? && r.value.monitor == 1)
             && (cached != "" && MakeToken(cached, parseObtain, decodeClaims).None? ==> r.None?)
             && (cached != "" && MakeToken(cached, parseObtain, decodeClaims).Some? ==>
                   r.Some? && r.value.token == MakeToken(cached, parseObtain, decodeClaims) && r.value.monitor == 2))
  {
    var a := new DjangoRestAdminAuthenticator.Init(key, parseObtain, decodeClaims, store);
    var cached := a.Cached();
    if cached == "" {
      return Some(a);
    }
    var ok := a.SetToken(cached);
    if !ok {
      return None;
    }
    assert a.store == store;
    r := Some(a);
  }
}
