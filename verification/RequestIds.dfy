/** The wire identity of one attempt of one task (`attempt_request_id`). */
module RequestIds {

  function DigitChar(d: nat): (c: char)
    requires d < 10
    ensures '0' <= c <= '9'
  {
    '0' + d as char
  }

  /** Decimal text of a natural number, as an f-string renders it. */
  function Decimal(n: nat): (s: string)
    ensures |s| > 0
    ensures forall i :: 0 <= i < |s| ==> '0' <= s[i] <= '9'
  {
    if n < 10 then [DigitChar(n)] else Decimal(n / 10) + [DigitChar(n % 10)]
  }

  /** The number a decimal text stands for. */
  function Parse(s: string): nat
  {
    if s == [] then 0
    else
      var d := s[|s| - 1] as int - '0' as int;
      10 * Parse(s[..|s| - 1]) + if d >= 0 then d else 0
  }

  lemma {:induction false} ParseDecimal(n: nat)
    ensures Parse(Decimal(n)) == n
  {
    if n >= 10 {
      ParseDecimal(n / 10);
      assert Decimal(n)[..|Decimal(n)| - 1] == Decimal(n / 10);
    }
  }

  /** A number is written as its leading digits and then its last digit. */
  lemma DecimalPlaces(n: nat, d: nat)
    requires d < 10
    ensures Decimal(d) == ["0123456789"[d]]
    ensures n > 0 ==> Decimal(10 * n + d) == Decimal(n) + Decimal(d)
  {
    assert (10 * n + d) / 10 == n && (10 * n + d) % 10 == d;
    assert DigitChar(d) as int == '0' as int + d;
    assert forall k: nat :: k < 10 ==> "0123456789"[k] as int == '0' as int + k;
  }

  function AttemptRequestId(taskId: string, attempt: nat): string {
    "task-" + taskId + ":" + Decimal(attempt)
  }

  /** Where two strings that end in a colon-free suffix agree, the suffixes have one length. */
  lemma SameSuffixLength(p: string, d: string, p': string, d': string)
    requires p + ":" + d == p' + ":" + d'
    requires forall i :: 0 <= i < |d| ==> d[i] != ':'
    requires forall i :: 0 <= i < |d'| ==> d'[i] != ':'
    ensures p == p' && d == d'
  {
    var s, s' := p + ":" + d, p' + ":" + d';
    assert s[|p|] == ':' && s'[|p'|] == ':';
    assert p == s[..|p|] && p' == s'[..|p'|];
    assert d == s[|p| + 1..] && d' == s'[|p'| + 1..];
  }

  /** Two attempts share a request id only when they are one attempt of one task. */
  lemma AttemptRequestIdInjective(t: string, a: nat, t': string, a': nat)
    ensures AttemptRequestId(t, a) == AttemptRequestId(t', a') <==> t == t' && a == a'
  {
    if AttemptRequestId(t, a) == AttemptRequestId(t', a') {
      SameSuffixLength("task-" + t, Decimal(a), "task-" + t', Decimal(a'));
      assert t == ("task-" + t)[5..] && t' == ("task-" + t')[5..];
      ParseDecimal(a);
      ParseDecimal(a');
    }
  }

  /** An id of the form every heartbeat, registration and shutdown uses. */
  predicate IsControlId(id: string) { "req-" <= id }

  lemma ControlIdsNameNoAttempt(t: string, a: nat, id: string)
    requires IsControlId(id)
    ensures id != AttemptRequestId(t, a)
  {
    assert AttemptRequestId(t, a)[0] == 't';
    assert id[0] == 'r';
  }
}
