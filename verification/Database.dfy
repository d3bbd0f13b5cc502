/** The two loops of the database helper: waiting for the database with growing pauses, and filling
    the parameters into a query for the log. */
module Database {
  import opened Prelude

  // ---------------------------------------------------------------- StatusCheck

  /** One ping: whether it succeeds, how long it takes, and by how much the pause that follows a
      failure runs over; times in milliseconds. */
  datatype Ping = Ping(ok: bool, took: nat, late: nat)

  datatype CheckOutcome = DeadlineExceeded | Canceled | Queried

  /** The pauses asked for after n failures: 100 + 200 + ... + 100 n. */
  function Paused(n: nat): nat {
    if n == 0 then 0 else Paused(n - 1) + 100 * n
  }

  /** The least positive number of pauses that fill d milliseconds. */
  predicate LeastPauses(n: nat, d: int) {
    0 < n && d <= Paused(n) && (n == 1 || Paused(n - 1) < d)
  }

  lemma {:induction false} PausedClosedForm(n: nat)
    ensures Paused(n) == 50 * n * (n + 1)
  {
    if n > 0 {
      PausedClosedForm(n - 1);
      assert 50 * (n - 1) * n + 100 * n == 50 * n * (n + 1);
    }
  }

  lemma {:induction false} PausedGrows(m: nat, n: nat)
    requires m <= n
    ensures Paused(m) <= Paused(n)
    decreases n
  {
    if m < n {
      PausedGrows(m, n - 1);
    }
  }

  ghost function LeastFrom(d: int, k: nat): (n: nat)
    requires 0 < k && (k == 1 || Paused(k - 1) < d)
    ensures LeastPauses(n, d)
    decreases d - Paused(k)
  {
    if d <= Paused(k) then k else LeastFrom(d, k + 1)
  }

  ghost function PausesFor(d: int): (n: nat)
    ensures LeastPauses(n, d)
  {
    LeastFrom(d, 1)
  }

  lemma LeastIsUnique(m: nat, n: nat, d: int)
    requires LeastPauses(m, d) && LeastPauses(n, d)
    ensures m == n
  {
    if m < n {
      PausedGrows(m, n - 1);
    } else if n < m {
      PausedGrows(n, m - 1);
    }
  }

  /** A context without a deadline is given one second. */
  function Deadline(left: Option<int>): int {
    if left.None? then 1000 else left.value
  }

  /** When the context ends: at its deadline, or earlier if it is cancelled. */
  function End(left: Option<int>, cancel: Option<int>): int {
    if cancel.Some? && cancel.value < Deadline(left) then cancel.value else Deadline(left)
  }

  /** What an ended context reports. */
  function EndError(left: Option<int>, cancel: Option<int>): CheckOutcome {
    if End(left, cancel) < Deadline(left) then Canceled else DeadlineExceeded
  }

  /** Whatever the pings do, the loop ends: it pauses at most n times, n the least positive number
      of pauses that fill the time left, and when time was left the pauses it asks for exceed it by
      less than 100 n. With a database that never answers it pauses exactly n times. */
  method StatusCheck(left: Option<int>, cancel: Option<int>, pings: nat -> Ping)
      returns (outcome: CheckOutcome, pauses: nat, elapsed: nat)
    ensures pauses <= PausesFor(End(left, cancel))
    ensures 0 < End(left, cancel) ==> Paused(pauses) < End(left, cancel) + 100 * PausesFor(End(left, cancel))
    ensures forall i: nat :: i < pauses ==> !pings(i).ok
    ensures outcome == Queried <==> pings(pauses).ok && elapsed < End(left, cancel)
    ensures outcome != Queried ==> outcome == EndError(left, cancel) && End(left, cancel) <= elapsed
    ensures outcome == Canceled ==> cancel.Some? && cancel.value <= elapsed
    ensures outcome == DeadlineExceeded ==>
      var deadline := if left.Some? then left.value else 1000;
      deadline <= elapsed && (cancel.Some? ==> deadline <= cancel.value)
    ensures outcome == Queried ==>
      elapsed < (if left.Some? then left.value else 1000) && (cancel.Some? ==> elapsed < cancel.value)
    ensures (forall i: nat :: pings(i) == Ping(false, 0, 0)) ==> pauses == PausesFor(End(left, cancel))
  {
    var end := End(left, cancel);
    ghost var punctual := forall i: nat :: pings(i) == Ping(false, 0, 0);
    pauses, elapsed := 0, 0;
    while true
      invariant Paused(pauses) <= elapsed
      invariant pauses > 0 ==> elapsed < end
      invariant forall i: nat :: i < pauses ==> !pings(i).ok
      invariant punctual ==> elapsed == Paused(pauses)
      decreases end - elapsed
    {
      var ping := pings(pauses);
      elapsed := elapsed + ping.took;
      ghost var paused := Paused(pauses);
      if ping.ok {
        break;
      }
      PauseBound(end, pauses);
      pauses := pauses + 1;
      elapsed := elapsed + 100 * pauses + ping.late;
      if end <= elapsed {
        if punctual {
          LeastIsUnique(pauses, PausesFor(end), end);
        }
        return EndError(left, cancel), pauses, elapsed;
      }
    }
    if pauses > 0 {
      PauseBound(end, pauses - 1);
    }
    outcome := if end <= elapsed then EndError(left, cancel) else Queried;
  }

  /** One more pause than fits before the deadline is still within the bounds. */
  lemma PauseBound(d: int, m: nat)
    requires m > 0 ==> Paused(m) < d
    ensures m + 1 <= PausesFor(d)
    ensures 0 < d ==> Paused(m + 1) < d + 100 * PausesFor(d)
  {
    if PausesFor(d) <= m {
      PausedGrows(PausesFor(d), m);
    }
  }

  // ---------------------------------------------------------------- queryString

  datatype Param = Text(s: string) | Bytes(s: string) | Other(printed: string)

  function Render(p: Param): string {
    match p
    case Text(s) => "'" + s + "'"
    case Bytes(s) => "'" + s + "'"
    case Other(printed) => printed
  }

  function ReplaceFirst(q: string, v: string): string {
    if q == "" then ""
    else if q[0] == '?' then v + q[1..]
    else [q[0]] + ReplaceFirst(q[1..], v)
  }

  /** Every value replaces the first mark left, one after the other. */
  function Filled(q: string, vs: seq<string>): string
    decreases |vs|
  {
    if vs == [] then q else Filled(ReplaceFirst(q, vs[0]), vs[1..])
  }

  /** The i-th mark of q replaced by the i-th value, all at once. */
  function Subst(q: string, vs: seq<string>): string
    decreases |q|
  {
    if vs == [] || q == "" then q
    else if q[0] == '?' then vs[0] + Subst(q[1..], vs[1..])
    else [q[0]] + Subst(q[1..], vs)
  }

  /** Tabs go, newlines become spaces, spaces at both ends go. */
  function Tidy(q: string): string {
    Trim(Spaced(q))
  }

  function Spaced(q: string): string {
    if q == "" then ""
    else (if q[0] == '\t' then "" else if q[0] == '\n' then " " else [q[0]]) + Spaced(q[1..])
  }

  function Trim(q: string): string
    decreases |q|
  {
    if q == "" then ""
    else if q[0] == ' ' then Trim(q[1..])
    else if q[|q| - 1] == ' ' then Trim(q[..|q| - 1])
    else q
  }

  /** Text and bytes stand between quotes, everything else as it prints. */
  lemma RenderIs(s: string)
    ensures Render(Text(s)) == Render(Bytes(s)) == ['\''] + s + ['\''] && Render(Other(s)) == s
    ensures |Render(Text(s))| == |s| + 2
  {
  }

  /** The characters that tidying leaves alone. */
  function Visible(q: string): string {
    if q == "" then ""
    else (if q[0] == '\t' || q[0] == '\n' || q[0] == ' ' then "" else [q[0]]) + Visible(q[1..])
  }

  predicate Plain(q: string) {
    '\t' !in q && '\n' !in q
  }

  lemma {:induction false} SpacedIs(q: string)
    ensures Plain(Spaced(q)) && Visible(Spaced(q)) == Visible(q)
  {
    if q != "" {
      SpacedIs(q[1..]);
      var rest := Spaced(q[1..]);
      if q[0] == '\t' {
        assert Spaced(q) == "" + rest == rest && Visible(q) == "" + Visible(q[1..]) == Visible(q[1..]);
      } else {
        var head := if q[0] == '\n' then ' ' else q[0];
        assert Spaced(q) == [head] + rest && ([head] + rest)[1..] == rest;
      }
    }
  }

  lemma {:induction false} VisibleEnd(q: string, c: char)
    ensures Visible(q + [c]) == Visible(q) + Visible([c])
  {
    if q == "" {
      assert q + [c] == [c];
    } else {
      VisibleEnd(q[1..], c);
      assert (q + [c])[1..] == q[1..] + [c];
    }
  }

  lemma {:induction false} TrimIs(q: string)
    requires Plain(q)
    ensures Plain(Trim(q)) && Visible(Trim(q)) == Visible(q)
    decreases |q|
  {
    if q != "" && q[0] == ' ' {
      assert Visible(q) == "" + Visible(q[1..]) == Visible(q[1..]);
      TrimIs(q[1..]);
    } else if q != "" && q[|q| - 1] == ' ' {
      var front := q[..|q| - 1];
      TrimIs(front);
      assert q == front + [' '];
      VisibleEnd(front, ' ');
      assert Visible([' ']) == "" && Visible(front) + "" == Visible(front);
    }
  }

  lemma {:induction false} TrimEnds(q: string)
    ensures Trim(q) != "" ==> Trim(q)[0] != ' ' && Trim(q)[|Trim(q)| - 1] != ' '
    decreases |q|
  {
    if q != "" && q[0] == ' ' {
      TrimEnds(q[1..]);
    } else if q != "" && q[|q| - 1] == ' ' {
      TrimEnds(q[..|q| - 1]);
    }
  }

  /** Tidied text has no tabs or newlines and no space at either end, and apart from blanks it is the
      text that was tidied. */
  lemma TidyIs(q: string)
    ensures Plain(Tidy(q)) && Visible(Tidy(q)) == Visible(q)
    ensures Tidy(q) != "" ==> Tidy(q)[0] != ' ' && Tidy(q)[|Tidy(q)| - 1] != ' '
  {
    SpacedIs(q);
    TrimIs(Spaced(q));
    TrimEnds(Spaced(q));
  }

  /** Where the blanks go: a tab disappears, a newline becomes a space. */
  lemma TidyBlanks(a: string, b: string)
    ensures Spaced(a + ['\t'] + b) == Spaced(a) + Spaced(b)
    ensures Spaced(a + ['\n'] + b) == Spaced(a) + [' '] + Spaced(b)
  {
    SpacedAround(a, '\t', b);
    SpacedAround(a, '\n', b);
    assert Spaced(a) + "" == Spaced(a);
  }

  lemma SpacedAround(a: string, c: char, b: string)
    ensures Spaced(a + [c] + b) == Spaced(a) + SpacedChar(c) + Spaced(b)
  {
    SpacedJoin(a + [c], b);
    SpacedJoin(a, [c]);
    SpacedHead([c], "");
    assert Spaced([c]) == SpacedChar(c) + Spaced("") == SpacedChar(c);
  }

  lemma {:induction false} SpacedJoin(a: string, b: string)
    ensures Spaced(a + b) == Spaced(a) + Spaced(b)
    decreases |a|
  {
    if a == "" {
      assert a + b == b && Spaced(a) == "" && "" + Spaced(b) == Spaced(b);
    } else {
      var rest := a[1..];
      SpacedJoin(rest, b);
      SpacedHead(a, rest);
      assert (a + b)[1..] == rest + b;
      SpacedHead(a + b, rest + b);
      Reassociate(SpacedChar(a[0]), Spaced(rest), Spaced(b));
    }
  }

  function SpacedChar(c: char): string {
    if c == '\t' then "" else if c == '\n' then " " else [c]
  }

  lemma SpacedHead(q: string, rest: string)
    requires q != "" && q[1..] == rest
    ensures Spaced(q) == SpacedChar(q[0]) + Spaced(rest)
  {
  }

  lemma Reassociate(a: string, b: string, c: string)
    ensures a + (b + c) == (a + b) + c
  {
  }

  /** The first mark becomes the first value, what comes before it stays, and what comes after it gets
      the other values; without a mark or without values the text stays. */
  lemma SubstFirst(a: string, rest: string, v: string, vs: seq<string>)
    requires '?' !in a
    ensures Subst(a + "?" + rest, [v] + vs) == a + (v + Subst(rest, vs))
    ensures Subst(a, vs) == a && Subst(rest, []) == rest
  {
    assert a + "?" + rest == a + ("?" + rest) && ("?" + rest)[1..] == rest && ([v] + vs)[1..] == vs;
    SubstSkips(a, "?" + rest, [v] + vs);
    SubstSkips(a, "", vs);
    assert a + "" == a && Subst("", vs) == "";
  }

  function Rendered(ps: seq<Param>): (vs: seq<string>)
    ensures |vs| == |ps|
  {
    seq(|ps|, i requires 0 <= i < |ps| => Render(ps[i]))
  }

  const MARK := "?"

  predicate AllMarks(vs: seq<string>) {
    forall i :: 0 <= i < |vs| ==> vs[i] == MARK
  }

  /** A value with a mark in it is followed by nothing but values that are just a mark. */
  predicate Harmless(vs: seq<string>) {
    forall i, j :: 0 <= i < j < |vs| && '?' in vs[i] ==> vs[j] == MARK
  }

  /** `named` is what naming the arguments gives: query and parameters, or the text of an error. */
  method QueryString(named: Result<(string, seq<Param>), string>) returns (q: string)
    ensures named.Err? ==> q == named.error
    ensures named.Ok? ==> q == Tidy(Filled(named.value.0, Rendered(named.value.1)))
    ensures named.Ok? && Harmless(Rendered(named.value.1)) ==> q == Tidy(Subst(named.value.0, Rendered(named.value.1)))
  {
    if named.Err? {
      return named.error;
    }
    var (query, params) := named.value;
    q := query;
    ghost var vs := Rendered(params);
    assert vs[0..] == vs;
    for i := 0 to |params|
      invariant Filled(q, vs[i..]) == Filled(query, vs)
    {
      var value := Render(params[i]);
      assert vs[i..][0] == value && vs[i..][1..] == vs[i + 1..];
      q := ReplaceFirst(q, value);
    }
    if Harmless(vs) {
      FilledIsSubst(query, vs);
    }
    q := Tidy(q);
  }

  lemma {:induction false} SubstSkips(v: string, q: string, vs: seq<string>)
    requires '?' !in v
    ensures Subst(v + q, vs) == v + Subst(q, vs)
    decreases |v|
  {
    if v == "" {
      assert v + q == q;
    } else {
      SubstSkips(v[1..], q, vs);
      assert (v + q)[1..] == v[1..] + q;
      assert v == [v[0]] + v[1..];
      assert vs != [] ==> Subst(v + q, vs) == [v[0]] + (v[1..] + Subst(q, vs));
    }
  }

  lemma {:induction false} ReplaceThenSubst(q: string, v: string, rest: seq<string>)
    requires rest == [] || '?' !in v
    ensures Subst(ReplaceFirst(q, v), rest) == Subst(q, [v] + rest)
    decreases |q|
  {
    assert ([v] + rest)[1..] == rest;
    if q == "" {
    } else if q[0] == '?' {
      if rest != [] {
        SubstSkips(v, q[1..], rest);
      }
    } else {
      ReplaceThenSubst(q[1..], v, rest);
      var r := ReplaceFirst(q[1..], v);
      assert ([q[0]] + r)[1..] == r;
    }
  }

  /** Values that are just a mark change nothing, one at a time or all at once. */
  lemma {:induction false} MarksChangeNothing(q: string, vs: seq<string>)
    requires AllMarks(vs)
    ensures Filled(q, vs) == q == Subst(q, vs)
    decreases |vs|, |q|
  {
    if vs != [] {
      assert AllMarks(vs[1..]);
      ReplaceByMark(q);
      MarksChangeNothing(q, vs[1..]);
      if q != "" {
        MarksChangeNothing(q[1..], if q[0] == '?' then vs[1..] else vs);
      }
    }
  }

  lemma {:induction false} ReplaceByMark(q: string)
    ensures ReplaceFirst(q, MARK) == q
  {
    if q != "" && q[0] != '?' {
      ReplaceByMark(q[1..]);
    }
  }

  /** A mark in the value does no harm when only marks follow. */
  lemma {:induction false} ReplaceThenMarks(q: string, v: string, marks: seq<string>)
    requires AllMarks(marks)
    ensures ReplaceFirst(q, v) == Subst(q, [v] + marks)
    decreases |q|
  {
    assert ([v] + marks)[1..] == marks;
    if q != "" {
      if q[0] == '?' {
        MarksChangeNothing(q[1..], marks);
      } else {
        ReplaceThenMarks(q[1..], v, marks);
      }
    }
  }

  /** Filling in one value at a time gives positional substitution if a value with a mark in it is
      followed by nothing but marks, whatever the numbers of marks and values. */
  lemma {:induction false} FilledIsSubst(q: string, vs: seq<string>)
    requires Harmless(vs)
    ensures Filled(q, vs) == Subst(q, vs)
    decreases |vs|
  {
    if vs != [] {
      var v, rest := vs[0], vs[1..];
      assert [v] + rest == vs && forall i :: 0 <= i < |rest| ==> rest[i] == vs[i + 1];
      if '?' in v {
        assert AllMarks(rest);
        MarksChangeNothing(ReplaceFirst(q, v), rest);
        ReplaceThenMarks(q, v, rest);
      } else {
        FilledIsSubst(ReplaceFirst(q, v), rest);
        ReplaceThenSubst(q, v, rest);
      }
    }
  }

  lemma {:induction false} ReplaceSkips(p: string, q: string, v: string)
    requires '?' !in p
    ensures ReplaceFirst(p + q, v) == p + ReplaceFirst(q, v)
    decreases |p|
  {
    if p == "" {
      assert p + q == q;
    } else {
      ReplaceSkips(p[1..], q, v);
      assert (p + q)[1..] == p[1..] + q;
      assert p == [p[0]] + p[1..];
    }
  }

  lemma {:induction false} FilledSkips(p: string, q: string, vs: seq<string>)
    requires '?' !in p
    ensures Filled(p + q, vs) == p + Filled(q, vs)
    decreases |vs|
  {
    if vs != [] {
      ReplaceSkips(p, q, vs[0]);
      FilledSkips(p, ReplaceFirst(q, vs[0]), vs[1..]);
    }
  }

  lemma {:induction false} ReplacesInFront(p: string, q: string, v: string)
    requires '?' in p
    ensures ReplaceFirst(p + q, v) == ReplaceFirst(p, v) + q
    decreases |p|
  {
    assert (p + q)[1..] == p[1..] + q;
    if p[0] != '?' {
      assert p == [p[0]] + p[1..];
      ReplacesInFront(p[1..], q, v);
    } else {
      assert v + (p[1..] + q) == (v + p[1..]) + q;
    }
  }

  lemma {:induction false} NoMarkNoChange(q: string, vs: seq<string>)
    requires '?' !in q
    ensures Filled(q, vs) == q
    decreases |vs|
  {
    if vs != [] {
      ReplaceSkips(q, "", vs[0]);
      assert q + "" == q;
      NoMarkNoChange(q, vs[1..]);
    }
  }

  /** Values that leave a mark in p never reach what follows p. */
  lemma {:induction false} StaysInFront(p: string, q: string, vs: seq<string>)
    requires '?' in Filled(p, vs)
    ensures Filled(p + q, vs) == Filled(p, vs) + q
    decreases |vs|
  {
    if vs != [] {
      if '?' !in p {
        NoMarkNoChange(p, vs);
        assert false;
      }
      ReplacesInFront(p, q, vs[0]);
      StaysInFront(ReplaceFirst(p, vs[0]), q, vs[1..]);
    }
  }

  lemma {:induction false} FirstMark(v: string) returns (a: string, b: string)
    requires '?' in v
    ensures v == a + MARK + b && '?' !in a
  {
    if v[0] == '?' {
      a, b := "", v[1..];
    } else {
      assert v == [v[0]] + v[1..];
      a, b := FirstMark(v[1..]);
      a := [v[0]] + a;
    }
  }

  function Marks(k: nat): string {
    seq(k, _ => '?')
  }

  /** After k values that are just marks comes one that is not: it replaces the last of k + 1 marks. */
  lemma {:induction false} SubstMarks(k: nat, marks: seq<string>, w: string, more: seq<string>)
    requires |marks| == k && AllMarks(marks)
    ensures Subst(Marks(k + 1), marks + [w] + more) == Marks(k) + w
    decreases k
  {
    var all := marks + [w] + more;
    assert Marks(k + 1)[1..] == Marks(k);
    if k == 0 {
      assert all[0] == w && Marks(0) == "";
      assert Subst("", all[1..]) == "";
    } else {
      assert AllMarks(marks[1..]) && all[0] == marks[0] && all[1..] == marks[1..] + [w] + more;
      SubstMarks(k - 1, marks[1..], w, more);
      assert MARK + Marks(k - 1) == Marks(k);
    }
  }

  lemma {:induction false} FilledAfterMarks(q: string, marks: seq<string>, rest: seq<string>)
    requires AllMarks(marks)
    ensures Filled(q, marks + rest) == Filled(q, rest)
    decreases |marks|
  {
    if marks == [] {
      assert marks + rest == rest;
    } else {
      assert AllMarks(marks[1..]) && (marks + rest)[0] == MARK && (marks + rest)[1..] == marks[1..] + rest;
      ReplaceByMark(q);
      FilledAfterMarks(q, marks[1..], rest);
    }
  }

  /** The two texts that betray a mark inside the first value: in one the value w lands inside it,
      or else in the other it does not come where it should. */
  lemma MarkBetrayed(a: string, b: string, marks: seq<string>, w: string, more: seq<string>, q: string)
    requires '?' !in a && w != MARK && AllMarks(marks)
    requires q == "" || q == Marks(|marks| + 1)
    requires Filled(w + b, more) != MARK + b || q == Marks(|marks| + 1)
    requires Filled(w + b, more) == MARK + b || q == ""
    ensures Filled(a + MARK + b + q, marks + [w] + more) != a + MARK + b + Subst(q, marks + [w] + more)
  {
    var k, rest := |marks|, marks + [w] + more;
    assert a + MARK + b + q == a + (MARK + b + q) && rest == marks + ([w] + more);
    FilledSkips(a, MARK + b + q, rest);
    FilledAfterMarks(MARK + b + q, marks, [w] + more);
    assert (MARK + b + q)[1..] == b + q && ([w] + more)[1..] == more && w + (b + q) == w + b + q;
    assert Filled(MARK + b + q, [w] + more) == Filled(w + b + q, more);
    assert a + MARK + b + Subst(q, rest) == a + (MARK + b + Subst(q, rest));
    if q == "" {
      assert w + b + q == w + b && MARK + b + Subst(q, rest) == MARK + b;
      Suffixes(a, Filled(w + b, more), MARK + b);
    } else {
      assert (MARK + b)[0] == '?';
      StaysInFront(w + b, q, more);
      SubstMarks(k, marks, w, more);
      assert Marks(k + 1) == Marks(k) + MARK;
      Suffixes(a, MARK + b + q, MARK + b + (Marks(k) + w));
      Suffixes(MARK + b, q, Marks(k) + w);
      Suffixes(Marks(k), MARK, w);
    }
  }

  lemma Suffixes(p: string, x: string, y: string)
    ensures p + x == p + y <==> x == y
  {
    assert (p + x)[|p|..] == x && (p + y)[|p|..] == y;
  }

  /** Where the leading marks of a list of values end. */
  lemma {:induction false} LeadingMarks(vs: seq<string>) returns (k: nat)
    requires !AllMarks(vs)
    ensures k < |vs| && vs[k] != MARK && AllMarks(vs[..k])
  {
    if vs[0] != MARK {
      k := 0;
    } else {
      assert !AllMarks(vs[1..]);
      k := LeadingMarks(vs[1..]);
      k := k + 1;
      assert vs[..k] == [vs[0]] + vs[1..][..k - 1];
    }
  }

  /** A mark in the first value, and not only marks after it. */
  lemma MarkInFirst(v: string, rest: seq<string>) returns (q: string)
    requires '?' in v && !AllMarks(rest)
    ensures Filled(q, [v] + rest) != Subst(q, [v] + rest)
  {
    var k := LeadingMarks(rest);
    var a, b := FirstMark(v);
    var marks, w, more := rest[..k], rest[k], rest[k + 1..];
    assert rest == marks + [w] + more;
    var q' := if Filled(w + b, more) == MARK + b then Marks(k + 1) else "";
    MarkBetrayed(a, b, marks, w, more, q');
    q := MARK + q';
    assert q[1..] == q' && ([v] + rest)[1..] == rest;
  }

  lemma {:induction false} MarkShows(vs: seq<string>) returns (q: string)
    requires !Harmless(vs)
    ensures Filled(q, vs) != Subst(q, vs)
    decreases |vs|
  {
    var v, rest := vs[0], vs[1..];
    assert vs == [v] + rest && forall i :: 0 <= i < |rest| ==> rest[i] == vs[i + 1];
    if '?' in v && !AllMarks(rest) {
      q := MarkInFirst(v, rest);
    } else {
      RestIsHarmful(v, rest);
      var q' := MarkShows(rest);
      q := MARK + q';
      assert q[1..] == q';
      FilledSkips(v, q', rest);
      Suffixes(v, Filled(q', rest), Subst(q', rest));
    }
  }

  lemma RestIsHarmful(v: string, rest: seq<string>)
    requires !Harmless([v] + rest) && ('?' in v ==> AllMarks(rest))
    ensures !Harmless(rest) && '?' !in v
  {
    var vs := [v] + rest;
    var i, j :| 0 <= i < j < |vs| && '?' in vs[i] && vs[j] != MARK;
    assert rest[j - 1] == vs[j] && (i > 0 ==> rest[i - 1] == vs[i]);
  }

  /** The condition is exact: before tidying, the filled query is right for every query text if and
      only if a value with a mark in it is followed by nothing but marks. */
  lemma FilledIsSubstIff(vs: seq<string>)
    ensures (forall q :: Filled(q, vs) == Subst(q, vs)) <==> Harmless(vs)
  {
    if Harmless(vs) {
      forall q
        ensures Filled(q, vs) == Subst(q, vs)
      {
        FilledIsSubst(q, vs);
      }
    } else {
      var q := MarkShows(vs);
    }
  }
}
