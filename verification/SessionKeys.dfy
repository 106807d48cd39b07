/**
 The text under which the code keeps a session identifies the process and the session ID, whatever
 bytes the session ID has.  This is what lets the model keep sessions by the pair instead.
 */
module SessionKeys {
  import opened Approval

  /** `%d` of an integer. */
  function DecimalInt(n: int): string {
    if n < 0 then "-" + Decimal(-n) else Decimal(n)
  }

  function ProcessKey(p: Identity): string {
    DecimalInt(p.uid) + ":" + DecimalInt(p.pid) + ":" + DecimalInt(p.startTime)
  }

  const NUL := 0 as char

  function SessionText(p: Identity, sessionId: string): string {
    ProcessKey(p) + [NUL] + sessionId
  }

  predicate Plain(s: string) {
    forall c | c in s :: c == '-' || '0' <= c <= '9'
  }

  lemma {:induction false} DecimalInjective(m: nat, n: nat)
    requires Decimal(m) == Decimal(n)
    ensures m == n
    decreases m
  {
    var s := Decimal(m);
    assert s[|s| - 1] == '0' + (m % 10) as char == '0' + (n % 10) as char;
    assert m % 10 == n % 10;
    if m >= 10 && n >= 10 {
      assert Decimal(m / 10) == s[..|s| - 1] == Decimal(n / 10);
      DecimalInjective(m / 10, n / 10);
    }
  }

  /** The number that a text of digits stands for. */
  function Number(s: string): int {
    if s == "" then 0 else 10 * Number(s[..|s| - 1]) + (s[|s| - 1] as int - '0' as int)
  }

  /** Decimal digits stand for the number, without leading zeros. */
  lemma {:induction false} DecimalIsNumber(n: nat)
    ensures Number(Decimal(n)) == n && (n > 0 ==> Decimal(n)[0] != '0')
  {
    var s := Decimal(n);
    assert s[|s| - 1] == '0' + (n % 10) as char;
    if n < 10 {
      assert s == [s[0]] && s[..0] == "";
    } else {
      assert s[..|s| - 1] == Decimal(n / 10);
      DecimalIsNumber(n / 10);
    }
  }

  lemma DecimalIntInjective(m: int, n: int)
    requires DecimalInt(m) == DecimalInt(n)
    ensures m == n
  {
    assert (DecimalInt(m)[0] == '-') == (m < 0) && (DecimalInt(n)[0] == '-') == (n < 0);
    if m < 0 {
      assert Decimal(-m) == DecimalInt(m)[1..] && Decimal(-n) == DecimalInt(n)[1..];
      DecimalInjective(-m, -n);
    } else {
      DecimalInjective(m, n);
    }
  }

  /** A text splits in one way at the first occurrence of a character. */
  lemma SplitAtFirst(a: string, x: string, b: string, y: string, c: char)
    requires c !in a && c !in b && a + [c] + x == b + [c] + y
    ensures a == b && x == y
  {
    var s := a + [c] + x;
    assert s[|a|] == c && s[|b|] == c;
    assert forall i | 0 <= i < |a| :: s[i] == a[i];
    assert forall i | 0 <= i < |b| :: s[i] == b[i];
    assert a == s[..|a|] && b == s[..|b|];
    assert x == s[|a| + 1..] && y == s[|b| + 1..];
  }

  lemma DecimalIntPlain(n: int)
    ensures Plain(DecimalInt(n)) && ':' !in DecimalInt(n) && NUL !in DecimalInt(n)
  {
  }

  /** Different processes or different session IDs never share an entry of the session table. */
  lemma SessionTextInjective(p: Identity, s: string, q: Identity, t: string)
    requires SessionText(p, s) == SessionText(q, t)
    ensures p == q && s == t
  {
    hide DecimalInt;
    KeyHasNoNul(p);
    KeyHasNoNul(q);
    SplitAtFirst(ProcessKey(p), s, ProcessKey(q), t, NUL);
    ProcessKeyInjective(p, q);
  }

  lemma KeyHasNoNul(p: Identity)
    ensures NUL !in ProcessKey(p)
  {
    hide DecimalInt;
    DecimalIntPlain(p.uid);
    DecimalIntPlain(p.pid);
    DecimalIntPlain(p.startTime);
  }

  lemma ProcessKeyInjective(p: Identity, q: Identity)
    requires ProcessKey(p) == ProcessKey(q)
    ensures p == q
  {
    hide DecimalInt;
    DecimalIntPlain(p.uid);
    DecimalIntPlain(p.pid);
    DecimalIntPlain(q.uid);
    DecimalIntPlain(q.pid);
    var (restP, restQ) := (DecimalInt(p.pid) + ":" + DecimalInt(p.startTime), DecimalInt(q.pid) + ":" + DecimalInt(q.startTime));
    assert ProcessKey(p) == DecimalInt(p.uid) + [':'] + restP;
    assert ProcessKey(q) == DecimalInt(q.uid) + [':'] + restQ;
    SplitAtFirst(DecimalInt(p.uid), restP, DecimalInt(q.uid), restQ, ':');
    SplitAtFirst(DecimalInt(p.pid), DecimalInt(p.startTime), DecimalInt(q.pid), DecimalInt(q.startTime), ':');
    DecimalIntInjective(p.uid, q.uid);
    DecimalIntInjective(p.pid, q.pid);
    DecimalIntInjective(p.startTime, q.startTime);
  }
}
