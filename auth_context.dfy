/** The session of the web client (src/contexts/AuthContext.tsx): the
    payload decoding of `decodeJWT`, the restore rule run once at start-up
    and `logout`. `localStorage` is a map from key to stored string; the
    base64 decoding, `decodeURIComponent` and `JSON.parse` that follow the
    padding are one parameter that yields the claims or fails, and the
    clock is a parameter. */
module AuthContext {
  import opened Wrappers
  import opened Text

  const ACCESS_TOKEN: string := "access_token"
  const REFRESH_TOKEN: string := "refresh_token"
  const HOME: string := "/"

  /** The claims the client reads; `exp` (seconds) may be absent. */
  datatype Claims = Claims(sub: string, login: string, name: string, role: string, isTelegramLinked: bool, exp: Option<int>)

  /** The context's `User`. */
  datatype SessionUser = SessionUser(id: string, login: string, name: string, role: string, isTelegramLinked: bool)

  // ---------------------------------------------------------------------------
  // decodeJWT

  /** `s.replace(/from/g, to)` for one character. */
  function ReplaceAllChar(s: string, from: char, to: char): (r: string)
    ensures |r| == |s|
    ensures forall i :: 0 <= i < |s| ==> r[i] == (if s[i] == from then to else s[i])
  {
    if s == "" then "" else [if s[0] == from then to else s[0]] + ReplaceAllChar(s[1..], from, to)
  }

  /** The base64url alphabet turned into the base64 one: afterwards neither
      '-' nor '_' is left, and every other character is where it was. */
  function FromBase64Url(s: string): (r: string)
    ensures |r| == |s|
    ensures '-' !in r && '_' !in r
    ensures forall i :: 0 <= i < |s| && s[i] != '-' && s[i] != '_' ==> r[i] == s[i]
    ensures forall i :: 0 <= i < |s| && s[i] == '-' ==> r[i] == '+'
    ensures forall i :: 0 <= i < |s| && s[i] == '_' ==> r[i] == '/'
  {
    var r := ReplaceAllChar(ReplaceAllChar(s, '-', '+'), '_', '/');
    assert forall i :: 0 <= i < |r| ==> r[i] != '-' && r[i] != '_';
    r
  }

  /** `n` padding characters. */
  function PadChars(n: nat): (r: string)
    ensures |r| == n && forall i :: 0 <= i < n ==> r[i] == '='
  {
    seq(n, _ => '=')
  }

  /** The padded string: `s` unchanged in front, then the fewest '=' that
      make the length a multiple of four. */
  function Padded(s: string): (r: string)
    ensures |r| % 4 == 0 && |s| <= |r| <= |s| + 3
    ensures r[..|s|] == s
    ensures forall i :: |s| <= i < |r| ==> r[i] == '='
    ensures |s| % 4 == 0 ==> r == s
  {
    s + PadChars((4 - |s| % 4) % 4)
  }

  /** No shorter run of '=' would do: the padding is the least that reaches
      a multiple of four, so padding twice adds nothing. */
  lemma PaddingIsLeast(s: string, n: nat)
    requires n < |Padded(s)| - |s|
    ensures (|s| + n) % 4 != 0
    ensures Padded(Padded(s)) == Padded(s)
  {
  }

  /** The `while (base64.length % 4 !== 0) base64 += "="` loop. */
  method PadBase64(s: string) returns (b: string)
    ensures b == Padded(s)
  {
    ghost var need := |Padded(s)| - |s|;
    b := s;
    while |b| % 4 != 0
      invariant |s| <= |b| <= |s| + need && b == s + PadChars(|b| - |s|)
      decreases need - (|b| - |s|)
    {
      b := b + "=";
    }
    if |b| - |s| < need {
      PaddingIsLeast(s, |b| - |s|);
    }
  }

  /** What `decodeJWT` yields: the segment at index 1 of the '.'-split
      token, re-alphabeted and padded, then decoded; a token without a
      second segment fails (the replace on `undefined` throws). */
  function DecodedClaims(token: string, decode: string -> Option<Claims>): (r: Option<Claims>)
    ensures '.' !in token ==> r.None?
  {
    var parts := Split(token, '.');
    if |parts| < 2 then None else decode(Padded(FromBase64Url(parts[1])))
  }

  method DecodeJwt(token: string, decode: string -> Option<Claims>) returns (r: Option<Claims>)
    ensures r == DecodedClaims(token, decode)
  {
    var parts := Split(token, '.');
    if |parts| < 2 {
      return None;
    }
    var base64 := FromBase64Url(parts[1]);
    base64 := PadBase64(base64);
    r := decode(base64);
  }

  /** Of a compact token `header.payload.signature`, it is the payload that
      gets decoded. */
  lemma PayloadSegmentDecoded(header: string, payload: string, signature: string, decode: string -> Option<Claims>)
    requires '.' !in header && '.' !in payload && '.' !in signature
    ensures DecodedClaims(header + "." + payload + "." + signature, decode) == decode(Padded(FromBase64Url(payload)))
  {
    var parts := [header, payload, signature];
    var token := header + "." + payload + "." + signature;
    assert Join(parts, ".") == token by {
      assert Join(parts[2..], ".") == signature;
      assert Join(parts[1..], ".") == payload + "." + signature;
    }
    SplitJoin(parts, '.');
    assert Split(token, '.')[1] == payload;
  }

  // ---------------------------------------------------------------------------
  // Restoring the session

  function Get(storage: map<string, string>, key: string): Option<string>
  {
    if key in storage then Some(storage[key]) else None
  }

  /** `payload.exp * 1000 < Date.now()`; an absent `exp` makes the product
      `NaN`, which is never smaller. */
  predicate Expired(c: Claims, now: int)
  {
    c.exp.Some? && c.exp.value * 1000 < now
  }

  function UserOf(c: Claims): SessionUser
  {
    SessionUser(c.sub, c.login, c.name, c.role, c.isTelegramLinked)
  }

  /** The user the start-up effect sets: only for a decodable access token
      that is unexpired or accompanied by a refresh token. */
  function RestoredUser(storage: map<string, string>, now: int, decode: string -> Option<Claims>): (r: Option<SessionUser>)
    ensures r.Some? <==> (Truthy(Get(storage, ACCESS_TOKEN)) && DecodedClaims(storage[ACCESS_TOKEN], decode).Some?
      && (!Expired(DecodedClaims(storage[ACCESS_TOKEN], decode).value, now) || Truthy(Get(storage, REFRESH_TOKEN))))
  {
    if !Truthy(Get(storage, ACCESS_TOKEN)) then None
    else
      match DecodedClaims(storage[ACCESS_TOKEN], decode)
      case None => None
      case Some(c) => if !Expired(c, now) || Truthy(Get(storage, REFRESH_TOKEN)) then Some(UserOf(c)) else None
  }

  /** The storage after the effect: both tokens go when an access token
      was stored but gave no session. */
  function RestoredStorage(storage: map<string, string>, now: int, decode: string -> Option<Claims>): map<string, string>
  {
    if Truthy(Get(storage, ACCESS_TOKEN)) && RestoredUser(storage, now, decode).None?
    then storage - {ACCESS_TOKEN, REFRESH_TOKEN}
    else storage
  }

  /** With an access token stored, the tokens are kept exactly when a user
      is restored; the user restored is the one the claims name. */
  lemma RestoreKeepsTokensIffSession(storage: map<string, string>, now: int, decode: string -> Option<Claims>)
    requires Truthy(Get(storage, ACCESS_TOKEN))
    ensures RestoredStorage(storage, now, decode) == storage <==> RestoredUser(storage, now, decode).Some?
    ensures RestoredUser(storage, now, decode).None? ==>
      ACCESS_TOKEN !in RestoredStorage(storage, now, decode) && REFRESH_TOKEN !in RestoredStorage(storage, now, decode)
    ensures RestoredUser(storage, now, decode).Some? ==>
      RestoredUser(storage, now, decode) == Some(UserOf(DecodedClaims(storage[ACCESS_TOKEN], decode).value))
  {
    if RestoredUser(storage, now, decode).None? {
      assert ACCESS_TOKEN !in RestoredStorage(storage, now, decode);
    }
  }

  /** A session restored at some moment is restored at every earlier one,
      and with a refresh token stored the clock does not matter. */
  lemma RestoreMonotoneInTime(storage: map<string, string>, earlier: int, later: int, decode: string -> Option<Claims>)
    requires earlier <= later
    ensures RestoredUser(storage, later, decode).Some? ==> RestoredUser(storage, earlier, decode) == RestoredUser(storage, later, decode)
    ensures Truthy(Get(storage, REFRESH_TOKEN)) ==> RestoredUser(storage, earlier, decode) == RestoredUser(storage, later, decode)
  {
  }

  /** After `logout`'s removals no session can be restored. */
  lemma NoSessionAfterLogout(storage: map<string, string>, now: int, decode: string -> Option<Claims>)
    ensures RestoredUser(storage - {ACCESS_TOKEN, REFRESH_TOKEN}, now, decode).None?
    ensures RestoredStorage(storage - {ACCESS_TOKEN, REFRESH_TOKEN}, now, decode) == storage - {ACCESS_TOKEN, REFRESH_TOKEN}
  {
  }

  class AuthProvider {
    var user: Option<SessionUser>
    var isLoading: bool
    var storage: map<string, string>
    var location: Option<string>

    /** The initial state with the browser's stored strings. */
    constructor (stored: map<string, string>)
      ensures user.None? && isLoading && storage == stored && location.None?
    {
      user := None;
      isLoading := true;
      storage := stored;
      location := None;
    }

    /** `isAuth`: `!!user`. */
    predicate IsAuth()
      reads this
    {
      user.Some?
    }

    /** The start-up effect. */
    method Restore(now: int, decode: string -> Option<Claims>)
      modifies this
      ensures user == (if RestoredUser(old(storage), now, decode).Some? then RestoredUser(old(storage), now, decode) else old(user))
      ensures storage == RestoredStorage(old(storage), now, decode)
      ensures !isLoading && location == old(location)
    {
      var token := Get(storage, ACCESS_TOKEN);
      var refreshToken := Get(storage, REFRESH_TOKEN);
      if Truthy(token) {
        var payload := DecodeJwt(token.value, decode);
        if payload.Some? {
          var isExpired := Expired(payload.value, now);
          if !isExpired || Truthy(refreshToken) {
            user := Some(UserOf(payload.value));
          } else {
            storage := storage - {ACCESS_TOKEN, REFRESH_TOKEN};
          }
        } else {
          storage := storage - {ACCESS_TOKEN, REFRESH_TOKEN};
        }
      }
      isLoading := false;
    }

    /** `logout`: both tokens removed, no user, back to the home page. */
    method Logout()
      modifies this
      ensures storage == old(storage) - {ACCESS_TOKEN, REFRESH_TOKEN}
      ensures user.None? && location == Some(HOME) && isLoading == old(isLoading)
    {
      storage := storage - {ACCESS_TOKEN, REFRESH_TOKEN};
      user := None;
      location := Some(HOME);
    }

    /** `setUser`, offered to the pages through the context. */
    method SetUser(u: Option<SessionUser>)
      modifies this
      ensures user == u && storage == old(storage) && isLoading == old(isLoading) && location == old(location)
    {
      user := u;
    }
  }
}
