/** Tokens: claims with lifetimes, signing with the active key, verification by key id, and how
    long a token can be relied on while keys rotate. Signatures are symbolic: a signature records
    the signer it was made with and verifies under that signer's key only. */
module Tokens {
  import opened Prelude
  import opened KeyRing
  import opened Schedule
  import opened WorstRun

  /** The record a token carries. The program has two claims types and writes either. */
  datatype Payload = EmailVerified(email: string) | User(id: int)

  /** A record read back as one of the two types: a field it does not have stays zero. */
  function EmailOf(p: Payload): string {
    if p.EmailVerified? then p.email else ""
  }

  function IdOf(p: Payload): int {
    if p.User? then p.id else 0
  }

  /** exp and nbf as in sections 4.1.4 and 4.1.5 of RFC 7519. */
  datatype Claims = Claims(payload: Payload, exp: Time, nbf: Time)

  /** What a string presented as a token decodes to; `signedBy` is the signer of its signature and kid
      its key id header (RFC 7515, section 4.1.4). */
  datatype Token = Jwt(kid: Option<Kid>, claims: Claims, signedBy: nat) | NotAJwt

  datatype ParseError = Malformed | ErrInvalidToken | UnknownKey | BadSignature | Expired | NotYetValid

  type Precision = p: int | 0 < p witness 1

  /** A numeric date is the instant cut down to a multiple of the precision. */
  function NumericDate(t: Time, precision: int): Time
    requires 0 < precision
  {
    t - t % precision
  }

  /** Dates are whole units, at most one unit before the instant. */
  lemma NumericDateIs(t: Time, precision: int)
    requires 0 < precision
    ensures NumericDate(t, precision) <= t < NumericDate(t, precision) + precision
    ensures NumericDate(t, precision) % precision == 0
  {
    var q := t / precision;
    assert t == precision * q + t % precision;
    assert NumericDate(t, precision) == precision * q;
    MultipleIsWhole(q, precision);
  }

  lemma MultipleIsWhole(q: int, precision: int)
    requires 0 < precision
    ensures (precision * q) % precision == 0
  {
    var r := (precision * q) % precision;
    var d := (precision * q) / precision;
    assert precision * q == precision * d + r;
    assert precision * (q - d) == precision * q - precision * d;
    SmallMultiple(precision, q - d, r);
  }

  lemma SmallMultiple(p: int, m: int, r: int)
    requires 0 <= r < p && p * m == r
    ensures r == 0
  {
    if m >= 1 {
      assert p * m == p + p * (m - 1);
      NonNegative(p, m - 1);
    } else if m < 0 {
      assert p * m == -(p * (-m));
      assert p * (-m) == p + p * (-m - 1);
      NonNegative(p, -m - 1);
    }
  }

  lemma NonNegative(p: int, m: int)
    requires 0 <= p && 0 <= m
    ensures 0 <= p * m
  {
  }

  /** Each date takes its own reading of the clock. */
  function NewClaims(payload: Payload, lifetime: int, precision: int, expRead: Time, nbfRead: Time): Claims
    requires 0 < precision
  {
    Claims(payload, NumericDate(expRead + lifetime, precision), NumericDate(nbfRead, precision))
  }

  function Sign(kid: Kid, key: Key, claims: Claims): Token {
    Jwt(Some(kid), claims, key.signer)
  }

  function Parse(store: map<Kid, Key>, now: Time, tk: Token): Result<Payload, ParseError> {
    match tk
    case NotAJwt => Err(Malformed)
    case Jwt(kid, claims, signedBy) =>
      if kid.None? then Err(ErrInvalidToken)
      else if kid.value !in store then Err(UnknownKey)
      else if signedBy != store[kid.value].signer then Err(BadSignature)
      else if claims.exp <= now then Err(Expired)
      else if now < claims.nbf then Err(NotYetValid)
      else Ok(claims.payload)
  }

  /** exp lies the lifetime after its reading and nbf at its reading, each cut by less than a unit. */
  lemma ClaimsDates(payload: Payload, lifetime: int, precision: int, expRead: Time, nbfRead: Time)
    requires 0 < precision
    ensures var c := NewClaims(payload, lifetime, precision, expRead, nbfRead);
      && c.payload == payload
      && expRead + lifetime - precision < c.exp <= expRead + lifetime && c.exp % precision == 0
      && nbfRead - precision < c.nbf <= nbfRead && c.nbf % precision == 0
  {
    NumericDateIs(expRead + lifetime, precision);
    NumericDateIs(nbfRead, precision);
  }

  /** A string parses exactly if it is a token that names a held key, carries that key's signature and
      is within its dates. */
  lemma ParseOkIff(store: map<Kid, Key>, now: Time, tk: Token, payload: Payload)
    ensures Parse(store, now, tk) == Ok(payload) <==>
      && tk.Jwt? && tk.kid.Some? && tk.kid.value in store && tk.signedBy == store[tk.kid.value].signer
      && tk.claims.nbf <= now < tk.claims.exp && tk.claims.payload == payload
  {
  }

  // ---------------------------------------------------------------- lifetime

  /** How one token came about and is used, in a run with anything else in between: its expiry is
      computed in state h, its not-before in n, `active` is read in i, the key is loaded in j, and
      the token is presented in m. */
  datatype Story = Story(
    init: State, s0: seq<Step>, h: State, s1: seq<Step>, n: State, s2: seq<Step>, i: State,
    s3: seq<Step>, j: State, s4: seq<Step>, m: State)

  ghost predicate IsStory(life: nat, x: Story) {
    && IsInitial(life, x.init) && Leads(life, x.init, x.s0, x.h)
    && Leads(life, x.h, x.s1, x.n) && Leads(life, x.n, x.s2, x.i)
    && Leads(life, x.i, x.s3, x.j) && Leads(life, x.j, x.s4, x.m)
    && x.i.active in x.j.store
  }

  function IssuedToken(x: Story, payload: Payload, lifetime: int, precision: int): Token
    requires 0 < precision && x.i.active in x.j.store
  {
    Sign(x.i.active, x.j.store[x.i.active],
         NewClaims(payload, lifetime, precision, x.h.now, x.n.now))
  }

  /** A token whose lifetime fits in the expiration period together with the age of the active key
      when it is read parses to its own claims until it expires, unless its very key is revoked by
      hand. */
  lemma TokenParsesUntilExp(life: nat, pace: int, lifetime: int, precision: int, x: Story, payload: Payload)
    requires 0 < precision && IsStory(life, x) && Fresh(life, pace, x.i)
    requires lifetime + pace <= life + 1
    requires x.i.active !in x.m.revoked
    requires x.m.now < IssuedToken(x, payload, lifetime, precision).claims.exp
    ensures Parse(x.m.store, x.m.now, IssuedToken(x, payload, lifetime, precision)) == Ok(payload)
  {
    StoryIsMonotone(life, x);
    InvRun(life, x.j, x.s4, x.m);
    var kid := x.i.active;
    assert x.m.now <= x.m.minted[kid].expire;
    assert kid in x.m.store;
  }

  lemma StoryIsMonotone(life: nat, x: Story)
    requires IsStory(life, x)
    ensures x.h.now <= x.n.now <= x.i.now <= x.j.now <= x.m.now
    ensures Inv(life, x.i) && Inv(life, x.j)
    ensures x.j.store[x.i.active] == x.j.minted[x.i.active] == x.i.minted[x.i.active]
    ensures x.i.active in x.m.minted && x.m.minted[x.i.active] == x.i.minted[x.i.active]
  {
    InvInitial(life, x.init);
    InvRun(life, x.init, x.s0, x.h);
    HistoryGrows(life, x.h, x.s1, x.n);
    InvRun(life, x.h, x.s1, x.n);
    HistoryGrows(life, x.n, x.s2, x.i);
    InvRun(life, x.n, x.s2, x.i);
    HistoryGrows(life, x.i, x.s3, x.j);
    InvRun(life, x.i, x.s3, x.j);
    HistoryGrows(life, x.j, x.s4, x.m);
  }

  /** The story of a run on schedule without revocations. */
  ghost predicate OnTimeStory(life: nat, gap: nat, lag: Option<nat>, x: Story) {
    && IsStory(life, x)
    && OnTime(life, gap, lag, x.init, x.s0 + x.s1 + x.s2, x.i)
    && Scheduled(life, gap, lag, x.i, x.s3 + x.s4)
    && x.m.revoked == {}
  }

  /** No token is ever refused before its exp in a run on schedule without revocations. */
  ghost predicate TokensOutlastTheirClaims(life: nat, gap: nat, lag: Option<nat>, lifetime: int, precision: int)
    requires 0 < precision
  {
    forall x, payload :: OnTimeStory(life, gap, lag, x)
      && x.m.now < IssuedToken(x, payload, lifetime, precision).claims.exp
      ==> Parse(x.m.store, x.m.now, IssuedToken(x, payload, lifetime, precision)) == Ok(payload)
  }

  /** A run in which a token is refused although it has not expired. */
  lemma TokenCutShort(life: nat, gap: nat, lag: Option<nat>, lifetime: int, precision: int, payload: Payload)
      returns (x: Story)
    requires 0 < precision && 1 <= gap && 1 <= lifetime
    requires life + 1 < lifetime + Age(gap, lag)
    ensures OnTimeStory(life, gap, lag, x)
    ensures var tk := IssuedToken(x, payload, lifetime, precision);
      x.m.now < tk.claims.exp && Parse(x.m.store, x.m.now, tk) == Err(UnknownKey)
  {
    var start := -(gap + WorstLate(life, gap, lag) + lifetime);
    var init, before, a, after, b := KeyGoesAtOnce(life, gap, lag, start);
    x := Story(init, before, a, [], a, [], a, [], a, after, b);
    assert before + [] + [] == before && [] + after == after;
    assert Leads(life, a, [], a);
  }

  /** The condition for tokens to be honoured until they expire: lifetime and greatest age of the
      active key fit in the expiration period. Where only the gap between changes is bounded that
      age is twice the gap. */
  lemma TokensOutlastIff(life: nat, gap: nat, lag: Option<nat>, lifetime: int, precision: int)
    requires 0 < precision && 1 <= gap && 1 <= lifetime
    ensures TokensOutlastTheirClaims(life, gap, lag, lifetime, precision) <==> lifetime + Age(gap, lag) <= life + 1
    ensures TokensOutlastTheirClaims(life, gap, None, lifetime, precision) <==> lifetime + 2 * gap <= life + 1
  {
    TokensOutlastExactly(life, gap, lag, lifetime, precision);
    TokensOutlastExactly(life, gap, None, lifetime, precision);
  }

  lemma TokensOutlastExactly(life: nat, gap: nat, lag: Option<nat>, lifetime: int, precision: int)
    requires 0 < precision && 1 <= gap && 1 <= lifetime
    ensures TokensOutlastTheirClaims(life, gap, lag, lifetime, precision) <==> lifetime + Age(gap, lag) <= life + 1
  {
    if lifetime + Age(gap, lag) <= life + 1 {
      forall x, payload | OnTimeStory(life, gap, lag, x)
        && x.m.now < IssuedToken(x, payload, lifetime, precision).claims.exp
        ensures Parse(x.m.store, x.m.now, IssuedToken(x, payload, lifetime, precision)) == Ok(payload)
      {
        OnTimeIsFresh(life, gap, lag, x.init, x.s0 + x.s1 + x.s2, x.i);
        TokenParsesUntilExp(life, Age(gap, lag), lifetime, precision, x, payload);
      }
    } else {
      var x := TokenCutShort(life, gap, lag, lifetime, precision, User(1));
      assert !TokensOutlastTheirClaims(life, gap, lag, lifetime, precision);
    }
  }

  const MINUTE := 60_000_000_000
  const HOUR := 3_600_000_000_000

  /** The default configuration, with the active key changing at most every 24 h and keys kept for
      48 h. Tokens for a verified e-mail, good for 30 min, are always honoured exactly if `active` is
      set within 23.5 h (and a nanosecond) of computing the expiry: the gap alone does not give it.
      Sessions of 36 h are not, however promptly it is set. */
  lemma DefaultLifetimes(lag: Option<nat>, precision: int)
    requires 0 < precision
    ensures TokensOutlastTheirClaims(48 * HOUR, 24 * HOUR, lag, 30 * MINUTE, precision)
      <==> lag.Some? && lag.value <= 23 * HOUR + 30 * MINUTE + 1
    ensures !TokensOutlastTheirClaims(48 * HOUR, 24 * HOUR, lag, 36 * HOUR, precision)
  {
    TokensOutlastIff(48 * HOUR, 24 * HOUR, lag, 30 * MINUTE, precision);
    TokensOutlastIff(48 * HOUR, 24 * HOUR, lag, 36 * HOUR, precision);
  }

  /** Once its key has left the store a token is refused in every later state. */
  lemma RefusedForGood(life: nat, s: State, steps: seq<Step>, t: State, tk: Token)
    requires Reachable(life, s) && Leads(life, s, steps, t)
    requires tk.Jwt? && tk.kid.Some? && tk.kid.value in s.minted && tk.kid.value !in s.store
    ensures Parse(t.store, t.now, tk) == Err(UnknownKey)
  {
    ReachableInv(life, s);
    RetiredForGood(life, s, steps, t, tk.kid.value);
  }

  /** Revoking the key of a token ends it: from then on it is refused, within its dates or not. */
  lemma RevokedTokenRefused(life: nat, s: State, k: Kid, steps: seq<Step>, t: State, tk: Token)
    requires Inv(life, s) && k in s.minted && tk.Jwt? && tk.kid == Some(k)
    requires Leads(life, Apply(life, s, Step.Revoke(k)), steps, t)
    ensures Parse(t.store, t.now, tk) == Err(UnknownKey)
  {
    RevokedForGood(life, s, k, steps, t);
  }

  // ---------------------------------------------------------------- the Authorization header

  /** The pieces of s between single separators. */
  function Split(s: string, sep: char): (parts: seq<string>)
    ensures parts != []
  {
    if s == "" then [""]
    else
      var rest := Split(s[1..], sep);
      if s[0] == sep then [""] + rest else [[s[0]] + rest[0]] + rest[1..]
  }

  function Join(parts: seq<string>, sep: char): string
    requires parts != []
  {
    if |parts| == 1 then parts[0] else parts[0] + [sep] + Join(parts[1..], sep)
  }

  lemma {:induction false} PiecesHaveNoSeparator(s: string, sep: char)
    ensures forall p :: p in Split(s, sep) ==> sep !in p
  {
    if s != "" {
      PiecesHaveNoSeparator(s[1..], sep);
      var parts, rest := Split(s, sep), Split(s[1..], sep);
      assert rest[0] in rest;
      assert forall p :: p in parts ==> p == "" || p == [s[0]] + rest[0] || p in rest;
    }
  }

  lemma {:induction false} JoinUndoesSplit(s: string, sep: char)
    ensures Join(Split(s, sep), sep) == s
  {
    if s != "" {
      JoinUndoesSplit(s[1..], sep);
      var parts, rest := Split(s, sep), Split(s[1..], sep);
      assert s == [s[0]] + s[1..];
      if s[0] == sep {
        assert parts[1..] == rest;
      } else {
        assert parts[1..] == rest[1..];
        assert |rest| > 1 ==> Join(parts, sep) == [s[0]] + rest[0] + [sep] + Join(rest[1..], sep);
      }
    }
  }

  lemma {:induction false} SplitUndoesJoin(parts: seq<string>, sep: char)
    requires parts != [] && forall p :: p in parts ==> sep !in p
    ensures Split(Join(parts, sep), sep) == parts
    decreases |parts|, |parts[0]|
  {
    var s := Join(parts, sep);
    if parts[0] == "" {
      if |parts| > 1 {
        assert forall p :: p in parts[1..] ==> p in parts;
        SplitUndoesJoin(parts[1..], sep);
        assert s[1..] == Join(parts[1..], sep);
      }
    } else {
      var less := [parts[0][1..]] + parts[1..];
      assert less[1..] == parts[1..];
      assert s[1..] == Join(less, sep);
      assert parts[0] in parts && s[0] == parts[0][0];
      assert forall p :: p in less ==> p == parts[0][1..] || p in parts;
      SplitUndoesJoin(less, sep);
      assert [s[0]] + less[0] == parts[0];
      assert parts == [parts[0]] + parts[1..];
    }
  }

  /** The token of a bearer header (RFC 6750, section 2.1), if the header is well formed. */
  function BearerToken(header: string): Option<string> {
    var parts := Split(header, ' ');
    if |parts| != 2 || parts[0] != "Bearer" || parts[1] == "" then None else Some(parts[1])
  }

  function BearerHeader(token: string): string {
    "Bearer " + token
  }

  /** The header is "Bearer ", followed by a non-empty token without spaces. */
  ghost predicate IsBearer(header: string) {
    exists t :: t != "" && ' ' !in t && header == "Bearer " + t
  }

  /** A header without that form has no token. */
  lemma NoBearerNoToken(header: string)
    ensures BearerToken(header).Some? <==> IsBearer(header)
  {
    if BearerToken(header).Some? {
      BearerTokenIff(header, BearerToken(header).value);
    }
    if IsBearer(header) {
      var t :| t != "" && ' ' !in t && header == "Bearer " + t;
      BearerTokenIff(header, t);
    }
  }

  /** A header passes exactly when it is the header of a non-empty token without spaces, and it
      passes that token on. */
  lemma BearerTokenIff(header: string, token: string)
    ensures BearerToken(header) == Some(token) <==>
      header == BearerHeader(token) && token != "" && ' ' !in token
  {
    var parts := Split(header, ' ');
    JoinUndoesSplit(header, ' ');
    PiecesHaveNoSeparator(header, ' ');
    if BearerToken(header) == Some(token) {
      assert parts[1] in parts;
      assert header == parts[0] + [' '] + parts[1];
    }
    if header == BearerHeader(token) && token != "" && ' ' !in token {
      var two := ["Bearer", token];
      assert two[1..] == [token];
      assert Join(two, ' ') == header;
      SplitUndoesJoin(two, ' ');
    }
  }
}
