/**
 The pay-term overlap check (scripts/data_integrity_audit.py:463-483): a self-join over ranges of days.
 Days are numbers; a term with no end is compared as if it ended on the last day SQL is asked about.
 */
module PayTerms {
  import opened Options

  datatype Term = Term(id: nat, tenant: string, employee: string, component: string, from: int, thru: Option<int>)

  /** 9999-12-31, counted from 0001-01-01. */
  const FAR := 3652058

  function Until(t: Term): int { t.thru.GetOr(FAR) }

  predicate SameTerm(a: Term, b: Term) {
    a.tenant == b.tenant && a.employee == b.employee && a.component == b.component
  }

  /** The join condition and the `where` of the check. */
  predicate Clash(a: Term, b: Term) {
    SameTerm(a, b) && a.id != b.id && a.from <= Until(b) && b.from <= Until(a)
  }

  function ClashesWith(a: Term, bs: seq<Term>): nat {
    if bs == [] then 0 else (if Clash(a, bs[0]) then 1 else 0) + ClashesWith(a, bs[1..])
  }

  /** The rows of the left table against the whole right table. */
  function JoinCount(left: seq<Term>, right: seq<Term>): nat {
    if left == [] then 0 else ClashesWith(left[0], right) + JoinCount(left[1..], right)
  }

  /** `select count(*) from pay_histories a join pay_histories b …` */
  function OverlapCheck(terms: seq<Term>): nat {
    JoinCount(terms, terms)
  }

  // ----- twice the unordered pairs ---------------------------------------------------------------

  /** Each clashing pair once. */
  function Pairs(terms: seq<Term>): nat {
    if terms == [] then 0 else ClashesWith(terms[0], terms[1..]) + Pairs(terms[1..])
  }

  lemma {:induction false} JoinCountHead(left: seq<Term>, t: Term, right: seq<Term>)
    ensures JoinCount(left, [t] + right) == ClashesWith(t, left) + JoinCount(left, right)
  {
    if left != [] {
      assert ([t] + right)[1..] == right;
      assert Clash(left[0], t) == Clash(t, left[0]);
      JoinCountHead(left[1..], t, right);
    }
  }

  /** The self-join reports every unordered clashing pair exactly twice, and no row against itself. */
  lemma {:induction false} TwicePairs(terms: seq<Term>)
    ensures OverlapCheck(terms) == 2 * Pairs(terms)
  {
    if terms != [] {
      var t, rest := terms[0], terms[1..];
      assert terms == [t] + rest;
      assert !Clash(t, t);
      JoinCountHead(rest, t, rest);
      TwicePairs(rest);
    }
  }

  // ----- one term in force -----------------------------------------------------------------------

  predicate InForce(t: Term, day: int) {
    t.from <= day && (t.thru.None? || day <= t.thru.value)
  }

  /** `pay_histories_period_ck`, and dates SQL can hold. */
  predicate WellFormed(t: Term) {
    t.from <= Until(t) <= FAR
  }

  ghost predicate OneInForce(terms: seq<Term>) {
    forall day, i, j :: 0 <= i < |terms| && 0 <= j < |terms| && terms[i].id != terms[j].id
                        && SameTerm(terms[i], terms[j]) ==>
      !(InForce(terms[i], day) && InForce(terms[j], day))
  }

  /** Two terms clash exactly when some day has both in force. */
  lemma ClashIffSharedDay(a: Term, b: Term)
    requires WellFormed(a) && WellFormed(b) && SameTerm(a, b) && a.id != b.id
    ensures Clash(a, b) <==> exists day :: InForce(a, day) && InForce(b, day)
  {
    var day := if a.from >= b.from then a.from else b.from;
    if Clash(a, b) {
      assert InForce(a, day) && InForce(b, day);
    }
  }

  lemma {:induction false} NoClashesIff(a: Term, bs: seq<Term>)
    ensures ClashesWith(a, bs) == 0 <==> forall j :: 0 <= j < |bs| ==> !Clash(a, bs[j])
  {
    if bs != [] {
      NoClashesIff(a, bs[1..]);
      assert bs == [bs[0]] + bs[1..];
    }
  }

  lemma {:induction false} JoinEmptyIff(left: seq<Term>, right: seq<Term>)
    ensures JoinCount(left, right) == 0 <==>
      forall i, j :: 0 <= i < |left| && 0 <= j < |right| ==> !Clash(left[i], right[j])
  {
    if left != [] {
      NoClashesIff(left[0], right);
      JoinEmptyIff(left[1..], right);
      assert left == [left[0]] + left[1..];
    }
  }

  /** The check reports nothing exactly when, on every day there is, nobody has two of the same pay term
      in force. */
  lemma OverlapCheckExact(terms: seq<Term>)
    requires forall i :: 0 <= i < |terms| ==> WellFormed(terms[i])
    ensures OverlapCheck(terms) == 0 <==> OneInForce(terms)
  {
    JoinEmptyIff(terms, terms);
    forall i, j | 0 <= i < |terms| && 0 <= j < |terms| && terms[i].id != terms[j].id && SameTerm(terms[i], terms[j])
      ensures Clash(terms[i], terms[j]) <==> exists day :: InForce(terms[i], day) && InForce(terms[j], day)
    {
      ClashIffSharedDay(terms[i], terms[j]);
    }
  }

  /** Without the period constraint the check would report terms that are never in force at all. */
  lemma BackwardTermIsReported(a: Term, b: Term)
    requires SameTerm(a, b) && a.id != b.id && a.thru.Some? && a.thru.value < a.from
    requires b.from <= a.thru.value && a.from <= Until(b)
    ensures OverlapCheck([a, b]) == 2 && OneInForce([a, b])
  {
    TwicePairs([a, b]);
    assert ClashesWith(a, [b]) == 1 + ClashesWith(a, []);
    assert [a, b][1..] == [b];
    assert Pairs([b]) == ClashesWith(b, []) + Pairs([]);
  }
}
