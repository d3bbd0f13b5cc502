/** One-time passwords: how codes are drawn from random bytes, and the store they are kept in. */
module Otp {
  import opened Prelude

  type Byte = b: int | 0 <= b < 256

  const TABLE: string := "1234567890"

  function Digit(b: Byte): char {
    TABLE[b % |TABLE|]
  }

  function Encode(r: seq<Byte>): (code: string)
    ensures |code| == |r|
  {
    if r == [] then "" else [Digit(r[0])] + Encode(r[1..])
  }

  /** So many decimal digits. */
  predicate IsCode(c: string, len: nat) {
    |c| == len && forall i :: 0 <= i < |c| ==> '0' <= c[i] <= '9'
  }

  /** A byte becomes the last digit of its successor: 0 gives '1', 8 gives '9', 9 gives '0'. */
  lemma DigitIs(b: Byte)
    ensures Digit(b) == ((b + 1) % 10 + 48) as char
  {
    var j := b % 10;
    assert (b + 1) % 10 == (j + 1) % 10;
    assert Digit(b) == TABLE[j];
  }

  lemma {:induction false} CodeOf(r: seq<Byte>)
    ensures |Encode(r)| == |r|
    ensures forall i :: 0 <= i < |r| ==> Encode(r)[i] == ((r[i] as int + 1) % 10 + 48) as char
  {
    forall i | 0 <= i < |r|
      ensures Encode(r)[i] == ((r[i] as int + 1) % 10 + 48) as char
    {
      EncodeAt(r, i);
      DigitIs(r[i]);
    }
  }

  /** The digits are all in the table. */
  lemma InTable(d: char) returns (j: nat)
    requires '0' <= d <= '9'
    ensures j < |TABLE| && TABLE[j] == d && j == (d as int - 48 + 9) % 10
  {
    j := (d as int - 48 + 9) % 10;
  }

  lemma {:induction false} EncodeAt(r: seq<Byte>, i: nat)
    requires i < |r|
    ensures Encode(r)[i] == Digit(r[i])
    decreases |r|
  {
    if i > 0 {
      EncodeAt(r[1..], i - 1);
    }
  }

  /** The byte slice is overwritten with the digits, one position at a time. */
  method EncodeInPlace(r: array<Byte>)
    modifies r
    ensures forall i :: 0 <= i < r.Length ==> r[i] as char == Encode(old(r[..]))[i]
  {
    for i := 0 to r.Length
      invariant forall j :: 0 <= j < i ==> r[j] as char == Digit(old(r[j]))
      invariant forall j :: i <= j < r.Length ==> r[j] == old(r[j])
    {
      r[i] := TABLE[r[i] % |TABLE|] as int;
    }
    forall i | 0 <= i < r.Length
      ensures r[i] as char == Encode(old(r[..]))[i]
    {
      EncodeAt(old(r[..]), i);
    }
  }

  /** `random` is what the random source delivers, None its failure. */
  method GenCode(codeLen: nat, random: Option<seq<Byte>>) returns (code: Option<string>)
    requires random.Some? ==> |random.value| == codeLen
    ensures random.None? ==> code == None
    ensures random.Some? ==> code == Some(Encode(random.value)) && IsCode(code.value, codeLen)
    ensures random.Some? ==> forall i :: 0 <= i < codeLen ==>
      code.value[i] == ((random.value[i] as int + 1) % 10 + 48) as char
  {
    if random.None? {
      return None;
    }
    var r := new Byte[codeLen](i requires 0 <= i < codeLen => random.value[i]);
    assert r[..] == random.value;
    EncodeInPlace(r);
    var text := "";
    for i := 0 to codeLen
      invariant |text| == i
      invariant forall j :: 0 <= j < i ==> text[j] == Encode(random.value)[j]
    {
      text := text + [r[i] as char];
    }
    EncodeIsCode(random.value);
    CodeOf(random.value);
    assert text == Encode(random.value);
    code := Some(text);
  }

  lemma EncodeIsCode(r: seq<Byte>)
    ensures IsCode(Encode(r), |r|)
  {
    CodeOf(r);
  }

  // ---------------------------------------------------------------- how many byte strings give a code

  function Pow(b: nat, n: nat): nat {
    if n == 0 then 1 else b * Pow(b, n - 1)
  }

  /** The digits that 26 bytes map to; the other four have 25. */
  predicate Early(d: char) {
    '1' <= d <= '6'
  }

  function EarlyCount(c: string): nat {
    if c == "" then 0 else (if Early(c[0]) then 1 else 0) + EarlyCount(c[1..])
  }

  ghost function BytesOf(d: char): set<Byte> {
    set b: Byte | 0 <= b < 256 && Digit(b) == d
  }

  ghost function Prepend(heads: set<Byte>, tails: set<seq<Byte>>): set<seq<Byte>> {
    set b, r | b in heads && r in tails :: [b] + r
  }

  ghost function Preimages(c: string): set<seq<Byte>> {
    if c == "" then {[]} else Prepend(BytesOf(c[0]), Preimages(c[1..]))
  }

  /** Preimages collects exactly the byte strings that GenCode turns into c. */
  lemma {:induction false} PreimagesExact(c: string, r: seq<Byte>)
    ensures r in Preimages(c) <==> Encode(r) == c
    decreases |c|
  {
    if c == "" {
    } else if r == [] {
      assert [] !in Prepend(BytesOf(c[0]), Preimages(c[1..]));
    } else {
      PreimagesExact(c[1..], r[1..]);
      assert r == [r[0]] + r[1..];
      if r in Preimages(c) {
        var b, t :| b in BytesOf(c[0]) && t in Preimages(c[1..]) && r == [b] + t;
        assert r[1..] == t;
        assert Encode(r) == c;
      }
      if Encode(r) == c {
        assert c[1..] == Encode(r[1..]);
      }
    }
  }

  lemma {:induction false} PrependSize(heads: set<Byte>, tails: set<seq<Byte>>)
    ensures |Prepend(heads, tails)| == |heads| * |tails|
    decreases heads
  {
    if heads == {} {
      assert Prepend(heads, tails) == {};
    } else {
      var b :| b in heads;
      var rest := heads - {b};
      PrependSize(rest, tails);
      PrependOne(b, tails);
      PrependSplit(b, rest, tails);
      assert heads == rest + {b};
      assert |heads| == |rest| + 1;
      OneMore(|rest|, |tails|);
    }
  }

  lemma PrependSplit(b: Byte, rest: set<Byte>, tails: set<seq<Byte>>)
    requires b !in rest
    ensures Prepend(rest + {b}, tails) == Prepend({b}, tails) + Prepend(rest, tails)
    ensures Prepend({b}, tails) !! Prepend(rest, tails)
  {
    forall x | x in Prepend({b}, tails)
      ensures x !in Prepend(rest, tails)
    {
      assert x[0] == b;
    }
    forall x | x in Prepend(rest + {b}, tails)
      ensures x in Prepend({b}, tails) + Prepend(rest, tails)
    {
      var h, t :| h in rest + {b} && t in tails && x == [h] + t;
      assert h == b || h in rest;
    }
  }

  lemma {:induction false} PrependOne(b: Byte, tails: set<seq<Byte>>)
    ensures |Prepend({b}, tails)| == |tails|
    decreases tails
  {
    if tails == {} {
      assert Prepend({b}, tails) == {};
    } else {
      var t :| t in tails;
      PrependOne(b, tails - {t});
      var all, less := Prepend({b}, tails), Prepend({b}, tails - {t});
      forall x | x in all
        ensures x in less + {[b] + t}
      {
        var u :| u in tails && x == [b] + u;
        if u != t {
          assert u in tails - {t};
        }
      }
      assert all == less + {[b] + t};
      assert [b] + t !in less by {
        forall u | u in tails - {t}
          ensures [b] + u != [b] + t
        {
          assert ([b] + u)[1..] == u && ([b] + t)[1..] == t;
        }
      }
    }
  }

  lemma OneMore(a: int, t: int)
    ensures (a + 1) * t == a * t + t
  {
  }

  lemma Assoc(a: int, b: int, c: int)
    ensures a * (b * c) == (a * b) * c
    ensures a * (b * c) == b * (a * c)
  {
  }

  lemma {:induction false} NextQuotient(n: nat, j: nat)
    requires 0 < n && j < 10
    ensures (n + 9 - j) / 10 == (n + 8 - j) / 10 + (if (n - 1) % 10 == j then 1 else 0)
  {
  }

  /** How many of the first n bytes leave remainder j. */
  lemma {:induction false} Residues(n: nat, j: nat)
    requires n <= 256 && j < 10
    ensures |set b: Byte | 0 <= b < n && b % 10 == j| == (n + 9 - j) / 10
  {
    var all := set b: Byte | 0 <= b < n && b % 10 == j;
    if n == 0 {
      assert all == {};
    } else {
      Residues(n - 1, j);
      var less := set b: Byte | 0 <= b < n - 1 && b % 10 == j;
      NextQuotient(n, j);
      if (n - 1) % 10 == j {
        assert all == less + {n - 1};
      } else {
        assert all == less;
      }
    }
  }

  lemma BytesOfSize(d: char)
    requires '0' <= d <= '9'
    ensures |BytesOf(d)| == if Early(d) then 26 else 25
  {
    var j := InTable(d);
    Residues(256, j);
    assert forall b: Byte :: Digit(b) == d <==> b % 10 == j;
    assert BytesOf(d) == set b: Byte | 0 <= b < 256 && b % 10 == j;
  }

  /** Exactly 26^k 25^(n-k) of the 256^n byte strings give a code with k digits among 1 to 6. */
  lemma {:induction false} PreimageCount(c: string)
    requires IsCode(c, |c|)
    ensures EarlyCount(c) <= |c|
    ensures |Preimages(c)| == Pow(26, EarlyCount(c)) * Pow(25, |c| - EarlyCount(c))
    decreases |c|
  {
    if c != "" {
      PreimageCount(c[1..]);
      BytesOfSize(c[0]);
      PrependSize(BytesOf(c[0]), Preimages(c[1..]));
      var k, m := EarlyCount(c[1..]), |c| - 1 - EarlyCount(c[1..]);
      if Early(c[0]) {
        Assoc(26, Pow(26, k), Pow(25, m));
        assert Pow(26, k + 1) == 26 * Pow(26, k);
      } else {
        Assoc(25, Pow(26, k), Pow(25, m));
        assert Pow(25, m + 1) == 25 * Pow(25, m);
      }
    }
  }

  lemma {:induction false} PowMixed(k: nat, m: nat)
    ensures 0 < Pow(26, k) * Pow(25, m) <= Pow(26, k + m)
    decreases k + m
  {
    if k > 0 {
      PowMixed(k - 1, m);
      assert Pow(26, k) * Pow(25, m) == 26 * (Pow(26, k - 1) * Pow(25, m));
    } else if m > 0 {
      PowMixed(0, m - 1);
    }
  }

  /** No code has more than 26^n byte strings to it, and each has some. */
  lemma {:induction false} NoCodeIsFavoured(c: string)
    requires IsCode(c, |c|)
    ensures 0 < |Preimages(c)| <= Pow(26, |c|)
  {
    PreimageCount(c);
    Bounds(EarlyCount(c), |c|, |Preimages(c)|);
  }

  lemma {:induction false} Bounds(k: nat, n: nat, size: nat)
    requires k <= n && size == Pow(26, k) * Pow(25, n - k)
    ensures 0 < size <= Pow(26, n)
  {
    PowMixed(k, n - k);
  }

  /** Every code of the right shape can come up. */
  lemma {:induction false} EveryCodeReachable(c: string)
    requires IsCode(c, |c|)
    ensures exists r: seq<Byte> :: Encode(r) == c
  {
    NoCodeIsFavoured(c);
    var r := AnyOf(Preimages(c));
    PreimagesExact(c, r);
  }

  lemma AnyOf(rs: set<seq<Byte>>) returns (r: seq<Byte>)
    requires 0 < |rs|
    ensures r in rs
  {
    r :| r in rs;
  }

  /** The preimages of all codes that extend `prefix` by n digits, added up. */
  ghost function Total(n: nat, prefix: string): nat
    decreases n, |TABLE| + 1
  {
    if n == 0 then |Preimages(prefix)| else TotalFrom(n, prefix, 0)
  }

  ghost function TotalFrom(n: nat, prefix: string, j: nat): nat
    requires 0 < n && j <= |TABLE|
    decreases n, |TABLE| - j
  {
    if j == |TABLE| then 0 else Total(n - 1, prefix + [TABLE[j]]) + TotalFrom(n, prefix, j + 1)
  }

  lemma {:induction false} ExtendCode(c: string, d: char)
    requires IsCode(c, |c|) && '0' <= d <= '9'
    ensures IsCode(c + [d], |c| + 1)
    ensures |Preimages(c + [d])| == (if Early(d) then 26 else 25) * |Preimages(c)|
    decreases |c|
  {
    BytesOfSize(d);
    if c == "" {
      assert c + [d] == [d] && [d][1..] == "";
      PrependSize(BytesOf(d), {[]});
    } else {
      ExtendCode(c[1..], d);
      assert (c + [d])[1..] == c[1..] + [d] && (c + [d])[0] == c[0];
      PrependSize(BytesOf(c[0]), Preimages(c[1..] + [d]));
      PrependSize(BytesOf(c[0]), Preimages(c[1..]));
      Assoc(|BytesOf(c[0])|, if Early(d) then 26 else 25, |Preimages(c[1..])|);
    }
  }

  /** Bytes that map to the digits from position j of the table on. */
  function WeightFrom(j: nat): nat
    requires j <= |TABLE|
    decreases |TABLE| - j
  {
    if j == |TABLE| then 0 else (if Early(TABLE[j]) then 26 else 25) + WeightFrom(j + 1)
  }

  lemma {:induction false} TotalCount(n: nat, prefix: string)
    requires IsCode(prefix, |prefix|)
    ensures Total(n, prefix) == Pow(256, n) * |Preimages(prefix)|
    decreases n, |TABLE| + 1
  {
    if n > 0 {
      TotalFromCount(n, prefix, 0);
      WeightOfAll();
      Assoc(Pow(256, n - 1), 256, |Preimages(prefix)|);
      Assoc(256, Pow(256, n - 1), |Preimages(prefix)|);
    }
  }

  lemma WeightOfAll()
    ensures WeightFrom(0) == 256
  {
    assert WeightFrom(8) == 50;
    assert WeightFrom(6) == 100;
    assert WeightFrom(4) == 152;
    assert WeightFrom(2) == 204;
  }

  lemma {:induction false} TotalFromCount(n: nat, prefix: string, j: nat)
    requires 0 < n && j <= |TABLE| && IsCode(prefix, |prefix|)
    ensures TotalFrom(n, prefix, j) == Pow(256, n - 1) * (WeightFrom(j) * |Preimages(prefix)|)
    decreases n, |TABLE| - j
  {
    if j < |TABLE| {
      var next := prefix + [TABLE[j]];
      ExtendCode(prefix, TABLE[j]);
      TotalCount(n - 1, next);
      TotalFromCount(n, prefix, j + 1);
      Distribute(Pow(256, n - 1), if Early(TABLE[j]) then 26 else 25, WeightFrom(j + 1), |Preimages(prefix)|,
                 Total(n - 1, next), TotalFrom(n, prefix, j + 1), |Preimages(next)|);
    } else {
      Vanish(Pow(256, n - 1), |Preimages(prefix)|);
    }
  }

  lemma Vanish(w: int, p: int)
    ensures w * (0 * p) == 0
  {
  }

  lemma Distribute(w: int, a: int, b: int, p: int, first: int, others: int, size: int)
    requires size == a * p && first == w * size && others == w * (b * p)
    ensures first + others == w * ((a + b) * p)
  {
    assert (a + b) * p == a * p + b * p;
  }

  /** The counts of all codes of length n add up to all byte strings of length n. */
  lemma AllCodesCount(n: nat)
    ensures Total(n, "") == Pow(256, n)
  {
    TotalCount(n, "");
  }

  // ---------------------------------------------------------------- the code store

  datatype OtpError = ErrInvalidCode | StoreError

  /** The store behind the OTP client; entries may vanish between any two calls. A `fault` flag
      says that the store call in question fails. */
  class OTP {
    var s: map<string, string>
    const codeLen: nat

    constructor (codeLen: nat)
      ensures s == map[] && this.codeLen == codeLen
    {
      s := map[];
      this.codeLen := codeLen;
    }

    /** A Get and a Del, between which other requests may act: `meanwhile` is what the store holds
        when Del is called. A code that is right at the Get is accepted, and whatever code is there
        at the Del is used up; a refused one changes nothing. */
    method Check(identity: string, code: string, fault: bool, meanwhile: map<string, string>)
        returns (err: Option<OtpError>)
      modifies this`s
      ensures err == None <==> !fault && identity in old(s) && old(s)[identity] == code
      ensures s == if err == None then meanwhile - {identity} else old(s)
      ensures err == Some(StoreError) <==> fault
    {
      if fault {
        return Some(StoreError);
      }
      if identity !in s {
        return Some(ErrInvalidCode);
      }
      if s[identity] != code {
        return Some(ErrInvalidCode);
      }
      s := meanwhile;
      s := s - {identity};
      err := None;
    }

    method Exists(identity: string, fault: bool) returns (r: Result<bool, OtpError>)
      ensures r == if fault then Err(StoreError) else Ok(identity in s)
    {
      if fault {
        return Err(StoreError);
      }
      r := Ok(identity in s);
    }

    method Save(identity: string, code: string, fault: bool) returns (err: Option<OtpError>)
      modifies this`s
      ensures err == if fault then Some(StoreError) else None
      ensures s == if fault then old(s) else old(s)[identity := code]
    {
      if fault {
        return Some(StoreError);
      }
      s := s[identity := code];
      err := None;
    }
  }
}
