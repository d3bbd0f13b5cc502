/** Request validation: the password rule's counting loop and the tags of the four request types. */
module Validate {
  import opened Otp

  /** Character classes and the e-mail syntax come from libraries. */
  datatype Rules = Rules(isUpper: char -> bool, isNumber: char -> bool, isEmail: string -> bool)

  const MIN_LENGTH := 8

  /** Bytes of the UTF-8 form of a character. */
  function Utf8Length(c: char): nat {
    if c < 0x80 as char then 1
    else if c < 0x800 as char then 2
    else if c as int < 0x1_0000 then 3
    else 4
  }

  /** The lengths change where UTF-8 says. */
  lemma Utf8Boundaries()
    ensures Utf8Length(0x7f as char) == 1 && Utf8Length(0x80 as char) == 2
    ensures Utf8Length(0x7ff as char) == 2 && Utf8Length(0x800 as char) == 3
    ensures Utf8Length(0xffff as char) == 3 && Utf8Length(0x1_0000 as char) == 4
  {
  }

  /** Length in bytes, which is what Go's len gives. */
  function ByteLength(s: string): nat {
    if s == "" then 0 else Utf8Length(s[0]) + ByteLength(s[1..])
  }

  predicate PasswordOk(rules: Rules, pass: string) {
    && MIN_LENGTH <= ByteLength(pass)
    && (exists i :: 0 <= i < |pass| && rules.isUpper(pass[i]))
    && (exists i :: 0 <= i < |pass| && rules.isNumber(pass[i]) && !rules.isUpper(pass[i]))
  }

  /** Counts upper-case letters and, among the others, numbers. */
  method Passv(rules: Rules, pass: string) returns (ok: bool)
    ensures ok <==> PasswordOk(rules, pass)
  {
    if ByteLength(pass) < MIN_LENGTH {
      return false;
    }
    var upper, num := 0, 0;
    for i := 0 to |pass|
      invariant 0 <= upper && 0 <= num
      invariant upper >= 1 <==> exists j :: 0 <= j < i && rules.isUpper(pass[j])
      invariant num >= 1 <==> exists j :: 0 <= j < i && rules.isNumber(pass[j]) && !rules.isUpper(pass[j])
    {
      if rules.isUpper(pass[i]) {
        upper := upper + 1;
      } else if rules.isNumber(pass[i]) {
        num := num + 1;
      }
    }
    ok := upper >= 1 && num >= 1;
  }

  // ---------------------------------------------------------------- request tags

  predicate EmailShape(rules: Rules, email: string) {
    email != "" && rules.isEmail(email)
  }

  /** required, lowercase, alphanum, max=20 */
  predicate UsernameShape(username: string) {
    && 0 < |username| <= 20
    && forall i :: 0 <= i < |username| ==> 'a' <= username[i] <= 'z' || '0' <= username[i] <= '9'
  }

  predicate NewUserShape(rules: Rules, name: string, username: string, password: string) {
    name != "" && UsernameShape(username) && password != "" && PasswordOk(rules, password)
  }

  /** required, min=8, max=32: lengths in characters */
  predicate LoginShape(rules: Rules, email: string, password: string) {
    EmailShape(rules, email) && 8 <= |password| <= 32
  }

  predicate Digits(s: string) {
    s != "" && forall i :: 0 <= i < |s| ==> '0' <= s[i] <= '9'
  }

  predicate Unsigned(t: string) {
    Digits(t) || exists i :: 0 < i < |t| && t[i] == '.' && Digits(t[..i]) && Digits(t[i + 1..])
  }

  /** The numeric tag: a sign, digits, and a fraction; sign and fraction may be missing. */
  predicate Numeric(s: string) {
    Unsigned(if s != "" && (s[0] == '+' || s[0] == '-') then s[1..] else s)
  }

  /** The same as a pattern: an optional sign, digits, and optionally a dot and digits. */
  lemma NumericIff(s: string)
    ensures Numeric(s) <==> exists sign, whole, rest :: NumericParts(s, sign, whole, rest)
  {
    if Numeric(s) {
      var sign, whole, rest := PartsOfNumeric(s);
    }
    if sign, whole, rest :| NumericParts(s, sign, whole, rest) {
      NumericOfParts(s, sign, whole, rest);
    }
  }

  /** Nothing but digits, a leading sign and a dot is numeric. */
  lemma NumericChars(s: string)
    requires Numeric(s)
    ensures forall i :: 0 <= i < |s| ==>
      '0' <= s[i] <= '9' || s[i] == '.' || (i == 0 && (s[i] == '+' || s[i] == '-'))
  {
    if s[0] == '+' || s[0] == '-' {
      UnsignedChars(s[1..]);
      assert forall i :: 1 <= i < |s| ==> s[i] == s[1..][i - 1];
    } else {
      UnsignedChars(s);
    }
  }

  lemma UnsignedChars(t: string)
    requires Unsigned(t)
    ensures forall i :: 0 <= i < |t| ==> '0' <= t[i] <= '9' || t[i] == '.'
  {
    if !Digits(t) {
      var k :| 0 < k < |t| && t[k] == '.' && Digits(t[..k]) && Digits(t[k + 1..]);
      assert forall i :: 0 <= i < k ==> t[i] == t[..k][i];
      assert forall i :: k < i < |t| ==> t[i] == t[k + 1..][i - k - 1];
    }
  }

  lemma PartsOfNumeric(s: string) returns (sign: string, whole: string, rest: string)
    requires Numeric(s)
    ensures NumericParts(s, sign, whole, rest)
  {
    if s != "" && (s[0] == '+' || s[0] == '-') {
      sign := [s[0]];
      whole, rest := PartsOfUnsigned(s[1..]);
      assert s == sign + s[1..];
      assert sign + (whole + rest) == sign + whole + rest;
    } else {
      sign := "";
      whole, rest := PartsOfUnsigned(s);
      assert s == sign + whole + rest;
    }
  }

  lemma PartsOfUnsigned(t: string) returns (whole: string, rest: string)
    requires Unsigned(t)
    ensures t == whole + rest && Digits(whole) && (rest == "" || (rest[0] == '.' && Digits(rest[1..])))
  {
    if Digits(t) {
      whole, rest := t, "";
    } else {
      var i :| 0 < i < |t| && t[i] == '.' && Digits(t[..i]) && Digits(t[i + 1..]);
      whole, rest := t[..i], t[i..];
      assert rest[1..] == t[i + 1..];
    }
  }

  lemma NumericOfParts(s: string, sign: string, whole: string, rest: string)
    requires NumericParts(s, sign, whole, rest)
    ensures Numeric(s)
  {
    var t := whole + rest;
    assert s == sign + t && whole[0] == t[0] && '0' <= t[0] <= '9';
    assert s[|sign|..] == t;
    if rest == "" {
      assert t == whole;
    } else {
      assert t[|whole|] == '.' && t[..|whole|] == whole && t[|whole| + 1..] == rest[1..];
    }
  }

  predicate NumericParts(s: string, sign: string, whole: string, rest: string) {
    && s == sign + whole + rest && (sign == "" || sign == "+" || sign == "-") && Digits(whole)
    && (rest == "" || (rest[0] == '.' && Digits(rest[1..])))
  }

  /** required, len=6, numeric */
  predicate OtpShape(otp: string) {
    |otp| == 6 && Numeric(otp)
  }

  /** A generated code passes validation exactly when the configured length is the six that the
      tag asks for. */
  lemma CodePassesIff(code: string, codeLen: nat)
    requires IsCode(code, codeLen)
    ensures OtpShape(code) <==> codeLen == 6
  {
  }

  lemma {:induction false} AsciiLength(s: string)
    requires forall i :: 0 <= i < |s| ==> s[i] < 0x80 as char
    ensures ByteLength(s) == |s|
    decreases |s|
  {
    if s != "" {
      AsciiLength(s[1..]);
    }
  }

  /** A password good enough to register with is refused at login for two reasons only: it has more
      than 32 characters, since registration sets no upper limit, or fewer than 8, which takes
      characters beyond ASCII, since registration counts bytes. */
  lemma RegisteredMayLogInIff(rules: Rules, name: string, username: string, email: string, password: string)
    requires NewUserShape(rules, name, username, password) && EmailShape(rules, email)
    ensures !LoginShape(rules, email, password) <==> 32 < |password| || |password| < 8
    ensures |password| < 8 ==> exists i :: 0 <= i < |password| && 0x80 as char <= password[i]
    ensures (forall i :: 0 <= i < |password| ==> password[i] < 0x80 as char) ==>
      (LoginShape(rules, email, password) <==> |password| <= 32)
  {
    if forall i :: 0 <= i < |password| ==> password[i] < 0x80 as char {
      AsciiLength(password);
    }
  }

  /** Byte length never falls short of character length, so beyond ASCII the two limits differ at
      the lower end as well: four characters of eight bytes register but cannot log in. */
  lemma ShortWidePassword(rules: Rules, email: string)
    requires rules.isUpper('A') && rules.isNumber('1') && !rules.isUpper('1')
    ensures var p := ['A', '1', 0x2460 as char, 0x2461 as char];
      PasswordOk(rules, p) && !LoginShape(rules, email, p)
  {
    var p := ['A', '1', 0x2460 as char, 0x2461 as char];
    var p3 := [0x2461 as char];
    var p2 := [0x2460 as char, 0x2461 as char];
    var p1 := ['1', 0x2460 as char, 0x2461 as char];
    assert p3[1..] == "" && ByteLength(p3) == 3;
    assert p2[1..] == p3 && ByteLength(p2) == 6;
    assert p1[1..] == p2 && ByteLength(p1) == 7;
    assert p[1..] == p1 && ByteLength(p) == 8;
    assert p[0] == 'A' && p[1] == '1';
  }
}
