/**
 The tenant slug: derived from a domain label, made unique, never longer than a directory name may be
 (alembic/versions/20260714_0019_add_tenant_slug.py:30-66).
 */
module Slugs {
  import opened Options
  import opened Collections

  const MAX := 24

  predicate IsAlnum(c: char) { 'a' <= c <= 'z' || '0' <= c <= '9' }

  predicate IsDigit(c: char) { '0' <= c <= '9' }

  // ----- _slug_for -------------------------------------------------------------------------------

  function SkipOthers(s: string): (r: string)
    ensures |r| <= |s| && (r != "" ==> IsAlnum(r[0]))
  {
    if s == "" || IsAlnum(s[0]) then s else SkipOthers(s[1..])
  }

  /** `re.sub(r"[^a-z0-9]+", "-", s)` */
  function Collapse(s: string): string
    decreases |s|
  {
    if s == "" then ""
    else if IsAlnum(s[0]) then [s[0]] + Collapse(s[1..])
    else "-" + Collapse(SkipOthers(s[1..]))
  }

  function StripLeft(s: string): string {
    if s != "" && s[0] == '-' then StripLeft(s[1..]) else s
  }

  function StripRight(s: string): string {
    if s != "" && s[|s| - 1] == '-' then StripRight(s[..|s| - 1]) else s
  }

  /** `s.strip("-")` */
  function Strip(s: string): string {
    StripRight(StripLeft(s))
  }

  /** `s[:n]`, a negative n counting from the end. */
  function Take(s: string, n: int): string {
    if n > |s| then s
    else if n >= 0 then s[..n]
    else if -n >= |s| then ""
    else s[..|s| + n]
  }

  /** `domain` is the lower-cased first label of the email domain, `hex` what the random fallback drew. */
  function SlugFor(domain: string, hex: string): string {
    var s := Strip(Take(Strip(Collapse(domain)), MAX));
    if s == "" then "t-" + hex else s
  }

  // ----- the shape of a slug ---------------------------------------------------------------------

  /** Words of letters and digits with single dashes between them, where a dash may also stand at an end. */
  predicate IsDashed(s: string) {
    && (forall k :: 0 <= k < |s| ==> IsAlnum(s[k]) || s[k] == '-')
    && forall k :: 0 < k < |s| ==> s[k - 1] != '-' || s[k] != '-'
  }

  /** `[a-z0-9]+(-[a-z0-9]+)*` */
  predicate IsSlug(s: string) {
    s != "" && IsDashed(s) && s[0] != '-' && s[|s| - 1] != '-'
  }

  lemma {:induction false} CollapseIsDashed(s: string)
    ensures IsDashed(Collapse(s))
    ensures s != "" && IsAlnum(s[0]) ==> Collapse(s) != "" && Collapse(s)[0] == s[0]
    decreases |s|
  {
    if s != "" {
      CollapseIsDashed(if IsAlnum(s[0]) then s[1..] else SkipOthers(s[1..]));
      if !IsAlnum(s[0]) {
        var rest := SkipOthers(s[1..]);
        assert rest == "" ==> Collapse(rest) == "";
      }
    }
  }

  lemma {:induction false} StripLeftKeeps(s: string)
    requires IsDashed(s)
    ensures IsDashed(StripLeft(s)) && |StripLeft(s)| <= |s| && (StripLeft(s) != "" ==> StripLeft(s)[0] != '-')
    ensures s != "" && s[0] != '-' ==> StripLeft(s) == s
  {
    if s != "" && s[0] == '-' {
      StripLeftKeeps(s[1..]);
    }
  }

  lemma {:induction false} StripRightKeeps(s: string)
    requires IsDashed(s)
    ensures StripRight(s) <= s && (StripRight(s) != "" ==> StripRight(s)[|StripRight(s)| - 1] != '-')
    ensures s != "" && s[0] != '-' ==> StripRight(s) != ""
  {
    if s != "" && s[|s| - 1] == '-' {
      StripRightKeeps(s[..|s| - 1]);
    }
  }

  lemma StripMakesSlug(s: string)
    requires IsDashed(s)
    ensures |Strip(s)| <= |s| && (Strip(s) != "" ==> IsSlug(Strip(s)))
    ensures s != "" && s[0] != '-' ==> Strip(s) != ""
  {
    StripLeftKeeps(s);
    StripRightKeeps(StripLeft(s));
  }

  predicate IsHex(hex: string) {
    |hex| == 8 && forall k :: 0 <= k < |hex| ==> IsDigit(hex[k]) || 'a' <= hex[k] <= 'f'
  }

  /** Whatever the domain, its slug has the shape and fits. */
  lemma SlugForIsSlug(domain: string, hex: string)
    requires IsHex(hex)
    ensures IsSlug(SlugFor(domain, hex)) && |SlugFor(domain, hex)| <= MAX
  {
    CollapseIsDashed(domain);
    StripMakesSlug(Collapse(domain));
    var cut := Take(Strip(Collapse(domain)), MAX);
    assert IsDashed(cut);
    StripMakesSlug(cut);
  }

  /** The letters and digits of a string. */
  function Letters(s: string): string {
    if s == "" then "" else if IsAlnum(s[0]) then [s[0]] + Letters(s[1..]) else Letters(s[1..])
  }

  lemma {:induction false} LettersConcat(a: string, b: string)
    ensures Letters(a + b) == Letters(a) + Letters(b)
  {
    if a == "" {
      assert a + b == b;
    } else {
      assert (a + b)[1..] == a[1..] + b;
      LettersConcat(a[1..], b);
    }
  }

  lemma {:induction false} SkipOthersKeepsLetters(s: string)
    ensures Letters(SkipOthers(s)) == Letters(s)
  {
    if s != "" && !IsAlnum(s[0]) {
      SkipOthersKeepsLetters(s[1..]);
    }
  }

  lemma {:induction false} CollapseKeepsLetters(s: string)
    ensures Letters(Collapse(s)) == Letters(s)
    decreases |s|
  {
    if s != "" {
      if IsAlnum(s[0]) {
        CollapseKeepsLetters(s[1..]);
      } else {
        SkipOthersKeepsLetters(s[1..]);
        CollapseKeepsLetters(SkipOthers(s[1..]));
        assert Collapse(s)[1..] == Collapse(SkipOthers(s[1..]));
      }
    }
  }

  lemma {:induction false} StripKeepsLetters(s: string)
    ensures Letters(StripLeft(s)) == Letters(s) && Letters(StripRight(s)) == Letters(s)
    decreases |s|
  {
    if s != "" {
      var n := |s| - 1;
      if s[0] == '-' {
        StripKeepsLetters(s[1..]);
      }
      if s[n] == '-' {
        assert s == s[..n] + "-";
        LettersConcat(s[..n], "-");
        assert Letters("-") == "";
        StripKeepsLetters(s[..n]);
      }
    }
  }

  lemma LettersOfSlug(s: string)
    requires IsSlug(s)
    ensures Letters(s) != ""
  {
    assert IsAlnum(s[0]);
  }

  /** A slug spells what the domain spells, up to where it was cut; the random fallback stands in exactly
      for a domain with no letter or digit in it. */
  lemma SlugForSpells(domain: string, hex: string)
    ensures if Letters(domain) == "" then SlugFor(domain, hex) == "t-" + hex
            else Letters(SlugFor(domain, hex)) != "" && Letters(SlugFor(domain, hex)) <= Letters(domain)
  {
    var whole := Strip(Collapse(domain));
    CollapseIsDashed(domain);
    CollapseKeepsLetters(domain);
    StripMakesSlug(Collapse(domain));
    StripKeepsLetters(Collapse(domain));
    StripKeepsLetters(StripLeft(Collapse(domain)));
    assert Letters(whole) == Letters(domain);
    var cut := Take(whole, MAX);
    assert whole == cut + whole[|cut|..];
    LettersConcat(cut, whole[|cut|..]);
    StripKeepsLetters(cut);
    StripKeepsLetters(StripLeft(cut));
    assert IsDashed(cut);
    StripMakesSlug(cut);
    if Letters(domain) != "" {
      LettersOfSlug(Strip(cut));
    } else if whole != "" {
      LettersOfSlug(whole);
    }
  }

  // ----- exactly which slug ----------------------------------------------------------------------

  /** The letters and digits a string starts with. */
  function Run(s: string): (run: string)
    ensures run <= s && (s != "" && IsAlnum(s[0]) ==> run != "")
    ensures |run| < |s| ==> !IsAlnum(s[|run|])
  {
    if s == "" || !IsAlnum(s[0]) then "" else [s[0]] + Run(s[1..])
  }

  /** The words of a string: its longest runs of letters and digits. */
  function Words(s: string): seq<string>
    decreases |s|
  {
    if s == "" then []
    else if IsAlnum(s[0]) then [Run(s)] + Words(s[|Run(s)|..])
    else Words(s[1..])
  }

  function Join(words: seq<string>): string {
    if words == [] then ""
    else if |words| == 1 then words[0]
    else words[0] + "-" + Join(words[1..])
  }

  lemma {:induction false} SkipOthersKeepsWords(s: string)
    ensures Words(SkipOthers(s)) == Words(s)
  {
    if s != "" && !IsAlnum(s[0]) {
      SkipOthersKeepsWords(s[1..]);
    }
  }

  lemma {:induction false} CollapseRun(s: string)
    ensures Collapse(s) == Run(s) + Collapse(s[|Run(s)|..])
    decreases |s|
  {
    if s != "" && IsAlnum(s[0]) {
      var tail := s[1..];
      var run := Run(tail);
      CollapseRun(tail);
      assert s[|[s[0]] + run|..] == tail[|run|..];
      Regroup([s[0]], run, Collapse(tail[|run|..]));
    } else {
      assert s[0..] == s;
    }
  }

  predicate EndsOtherwise(s: string) {
    s != "" && !IsAlnum(s[|s| - 1])
  }

  /** What SkipOthers leaves ends as the string ended, unless it leaves nothing. */
  lemma {:induction false} SkipOthersEnds(s: string)
    ensures SkipOthers(s) != "" ==> EndsOtherwise(SkipOthers(s)) == EndsOtherwise(s)
    ensures SkipOthers(s) == "" && s != "" ==> EndsOtherwise(s)
  {
    if s != "" && !IsAlnum(s[0]) {
      SkipOthersEnds(s[1..]);
    }
  }

  function Dash(there: bool): string { if there then "-" else "" }

  /** A string that starts with a word, word by word. */
  lemma WordsHead(s: string)
    requires s != "" && IsAlnum(s[0])
    ensures var run, rest := Run(s), s[|Run(s)|..];
            if rest == "" then Words(s) == [run] && Collapse(s) == run && !EndsOtherwise(s)
            else
              var next := SkipOthers(rest[1..]);
              && Words(s) == [run] + Words(next) && Collapse(s) == run + ("-" + Collapse(next))
              && |next| < |s| && (next == "" || IsAlnum(next[0]))
              && EndsOtherwise(s) == (next == "" || EndsOtherwise(next))
  {
    var run, rest := Run(s), s[|Run(s)|..];
    CollapseRun(s);
    assert s == run + rest;
    if rest == "" {
      RunIsAlnum(s, |s| - 1);
    } else {
      assert rest[0] == s[|run|] && rest[|rest| - 1] == s[|s| - 1];
      SkipOthersKeepsWords(rest[1..]);
      SkipOthersEnds(rest[1..]);
    }
  }

  /** Collapsing joins the words, and leaves a dash behind where something else ends the string. */
  lemma {:induction false} CollapseJoins(s: string)
    requires s == "" || IsAlnum(s[0])
    ensures Collapse(s) == Join(Words(s)) + Dash(EndsOtherwise(s))
    decreases |s|
  {
    if s != "" {
      var run, rest := Run(s), s[|Run(s)|..];
      WordsHead(s);
      JoinCons(run, []);
      if rest == "" {
        Regroup(run, "", "");
      } else {
        var next := SkipOthers(rest[1..]);
        CollapseJoins(next);
        JoinCons(run, Words(next));
        JoinHasNoEnds(next);
        if next != "" {
          Regroup(run, "-", Join(Words(next)) + Dash(EndsOtherwise(next)));
          Regroup(run + "-", Join(Words(next)), Dash(EndsOtherwise(next)));
        }
      }
    }
  }

  lemma {:induction false} RunIsAlnum(s: string, k: nat)
    requires k < |Run(s)|
    ensures IsAlnum(s[k])
  {
    if k > 0 {
      RunIsAlnum(s[1..], k - 1);
    }
  }

  lemma JoinCons(word: string, words: seq<string>)
    ensures Join([word] + words) == if words == [] then word else word + "-" + Join(words)
  {
    assert ([word] + words)[1..] == words;
  }

  lemma StripOneRight(s: string)
    requires s == "" || (s[0] != '-' && s[|s| - 1] != '-')
    ensures Strip(s) == s && Strip(s + "-") == s
  {
    assert (s + "-")[..|s|] == s;
    if s == "" {
      assert s + "-" == "-" && StripLeft("-") == "";
    }
  }

  /** Dashes at the ends go, and nothing else. */
  lemma StripEnds(s: string, before: bool, after: bool)
    requires s == "" || (s[0] != '-' && s[|s| - 1] != '-')
    ensures Strip(Dash(before) + (s + Dash(after))) == s
  {
    var tail := s + Dash(after);
    StripOneRight(s);
    assert s + "" == s && "" + tail == tail && ("-" + tail)[1..] == tail;
    assert Strip("-" + tail) == Strip(tail);
  }

  lemma {:induction false} JoinHasNoEnds(s: string)
    ensures var j := Join(Words(s));
            (j == "" <==> Words(s) == []) && (j != "" ==> IsAlnum(j[0]) && IsAlnum(j[|j| - 1]))
    decreases |s|
  {
    if s != "" && IsAlnum(s[0]) {
      var run, rest := Run(s), s[|Run(s)|..];
      JoinHasNoEnds(rest);
      JoinCons(run, Words(rest));
      RunIsAlnum(s, 0);
      RunIsAlnum(s, |run| - 1);
    } else if s != "" {
      JoinHasNoEnds(s[1..]);
    }
  }

  lemma StripCollapseIs(s: string)
    ensures Strip(Collapse(s)) == Join(Words(s))
  {
    JoinHasNoEnds(s);
    if s == "" || IsAlnum(s[0]) {
      CollapseJoins(s);
      StripEnds(Join(Words(s)), false, EndsOtherwise(s));
      EmptyFront(Collapse(s));
    } else {
      var next := SkipOthers(s[1..]);
      SkipOthersKeepsWords(s[1..]);
      CollapseJoins(next);
      StripEnds(Join(Words(s)), true, EndsOtherwise(next));
    }
  }

  lemma EmptyFront(s: string)
    ensures Dash(false) + s == s
  {
  }

  /** As much of the front of a string as fits into n characters without ending in a dash. */
  function CutTo(s: string, n: nat): string {
    if |s| <= n then s else if n > 0 && s[n - 1] == '-' then s[..n - 1] else s[..n]
  }

  lemma StripTakeIs(s: string, n: nat)
    requires IsSlug(s)
    ensures Strip(Take(s, n)) == CutTo(s, n)
  {
    var cut := Take(s, n);
    if cut != "" && cut[|cut| - 1] == '-' {
      var kept := cut[..|cut| - 1];
      assert cut == kept + "-";
      StripOneRight(kept);
    } else {
      StripOneRight(cut);
    }
  }

  /** The slug of a domain label, to the letter: its words with single dashes between them, cut to what fits,
      or the random fallback when it has no words. */
  lemma SlugForIs(domain: string, hex: string)
    ensures SlugFor(domain, hex) == if Words(domain) == [] then "t-" + hex else CutTo(Join(Words(domain)), MAX)
  {
    var whole := Join(Words(domain));
    StripCollapseIs(domain);
    JoinHasNoEnds(domain);
    CollapseIsDashed(domain);
    StripMakesSlug(Collapse(domain));
    if whole != "" {
      StripTakeIs(whole, MAX);
    }
  }

  // ----- numbered candidates ---------------------------------------------------------------------

  function Digit(n: nat): char
    requires n < 10
  {
    "0123456789"[n]
  }

  function Decimal(n: nat): string {
    if n < 10 then [Digit(n)] else Decimal(n / 10) + [Digit(n % 10)]
  }

  function Tail(suffix: nat): string {
    "-" + Decimal(suffix)
  }

  function Candidate(base: string, suffix: nat): string {
    Strip(Take(base, MAX - |Tail(suffix)|)) + Tail(suffix)
  }

  lemma {:induction false} DecimalDigits(n: nat)
    ensures Decimal(n) != "" && forall k :: 0 <= k < |Decimal(n)| ==> IsDigit(Decimal(n)[k])
  {
    if n >= 10 {
      DecimalDigits(n / 10);
    }
  }

  /** Reading the digits back. */
  function Value(s: string): int {
    if s == "" then 0 else 10 * Value(s[..|s| - 1]) + (s[|s| - 1] as int - '0' as int)
  }

  lemma {:induction false} DecimalReadsBack(n: nat)
    ensures Value(Decimal(n)) == n
  {
    var d := Decimal(n);
    if n < 10 {
      assert d[..0] == "" && d[0] as int - '0' as int == n;
    } else {
      DecimalReadsBack(n / 10);
      assert d[..|d| - 1] == Decimal(n / 10) && d[|d| - 1] as int - '0' as int == n % 10;
    }
  }

  function Power10(k: nat): nat { if k == 0 then 1 else 10 * Power10(k - 1) }

  lemma {:induction false} DecimalLength(n: nat, k: nat)
    requires 0 < k
    ensures |Decimal(n)| <= k <==> n < Power10(k)
  {
    if n >= 10 && k > 1 {
      DecimalLength(n / 10, k - 1);
    } else if n >= 10 {
      DecimalDigits(n / 10);
      assert Power10(1) == 10 * Power10(0);
    } else {
      TenAtLeast(k);
    }
  }

  lemma {:induction false} TenAtLeast(k: nat)
    requires 0 < k
    ensures Power10(k) >= 10
  {
    if k > 1 {
      TenAtLeast(k - 1);
    }
  }

  /** After the last dash stands what stands after the last dash. */
  lemma {:induction false} LastDash(x: string, d: string, y: string, e: string)
    requires x + "-" + d == y + "-" + e
    requires (forall k :: 0 <= k < |d| ==> d[k] != '-') && forall k :: 0 <= k < |e| ==> e[k] != '-'
    ensures d == e
  {
    var s, t := x + "-" + d, y + "-" + e;
    assert s[|x|] == '-' && t[|y|] == '-';
    assert s[|x| + 1..] == d && t[|y| + 1..] == e;
  }

  lemma TailsDiffer(x: string, m: nat, y: string, n: nat)
    requires m != n
    ensures x + Tail(m) != y + Tail(n)
  {
    if x + Tail(m) == y + Tail(n) {
      assert x + "-" + Decimal(m) == x + Tail(m) && y + "-" + Decimal(n) == y + Tail(n);
      NoDash(m);
      NoDash(n);
      LastDash(x, Decimal(m), y, Decimal(n));
      DecimalReadsBack(m);
      DecimalReadsBack(n);
    }
  }

  lemma NoDash(n: nat)
    ensures forall k :: 0 <= k < |Decimal(n)| ==> Decimal(n)[k] != '-'
  {
    DecimalDigits(n);
  }

  /** Different numbers give different candidates, whatever was cut off to make room. */
  lemma CandidatesDiffer(base: string, m: nat, n: nat)
    requires m != n
    ensures Candidate(base, m) != Candidate(base, n)
  {
    TailsDiffer(Strip(Take(base, MAX - |Tail(m)|)), m, Strip(Take(base, MAX - |Tail(n)|)), n);
  }

  lemma SlugAndTail(head: string, suffix: nat)
    requires IsSlug(head)
    ensures IsSlug(head + Tail(suffix))
  {
    DecimalDigits(suffix);
    var c, d := head + Tail(suffix), Decimal(suffix);
    forall k | 0 <= k < |c|
      ensures c[k] == if k < |head| then head[k] else if k == |head| then '-' else d[k - |head| - 1]
    {
    }
  }

  lemma RoomForOne(base: string, suffix: nat)
    requires IsSlug(base) && |base| <= MAX
    ensures IsSlug(Candidate(base, suffix)) && |Candidate(base, suffix)| <= MAX <==> |Tail(suffix)| < MAX
  {
    var cut := Take(base, MAX - |Tail(suffix)|);
    assert IsDashed(cut);
    StripMakesSlug(cut);
    if |Tail(suffix)| < MAX {
      SlugAndTail(Strip(cut), suffix);
    } else if |Tail(suffix)| == MAX {
      assert cut == "" && Candidate(base, suffix) == Tail(suffix);
    }
  }

  /** A candidate has the shape and fits exactly while its number leaves room for one character. */
  lemma CandidateFitsIff(base: string, suffix: nat)
    requires IsSlug(base) && |base| <= MAX
    ensures IsSlug(Candidate(base, suffix)) && |Candidate(base, suffix)| <= MAX <==> suffix < Power10(MAX - 2)
  {
    RoomForOne(base, suffix);
    DecimalLength(suffix, MAX - 2);
  }

  /** A numbered candidate, to the letter: as much of the base as leaves room for the number. */
  lemma CandidateIs(base: string, suffix: nat)
    requires IsSlug(base) && |Tail(suffix)| <= MAX
    ensures Candidate(base, suffix) == CutTo(base, MAX - |Tail(suffix)|) + ("-" + Decimal(suffix))
  {
    StripTakeIs(base, MAX - |Tail(suffix)|);
  }

  // ----- allocation ------------------------------------------------------------------------------

  /** The first n numbered candidates, all different. */
  ghost function Tried(base: string, n: nat): (tried: set<string>)
    ensures |tried| == n
    ensures forall s :: s in tried <==> exists m :: 2 <= m < n + 2 && s == Candidate(base, m)
  {
    if n == 0 then {}
    else
      assert forall m :: 2 <= m < n + 1 ==> Candidate(base, m) != Candidate(base, n + 1) by {
        forall m | 2 <= m < n + 1 {
          CandidatesDiffer(base, m, n + 1);
        }
      }
      Tried(base, n - 1) + {Candidate(base, n + 1)}
  }

  lemma TriedFit(base: string, n: nat, taken: set<string>)
    requires forall m :: 2 <= m < n + 2 ==> Candidate(base, m) in taken
    ensures n <= |taken|
  {
    Within(Tried(base, n), taken);
  }

  /** The candidates tried, and the base beside them. */
  lemma TriedFitBeside(base: string, n: nat, taken: set<string>)
    requires base in taken && !IsOwnCandidate(base) && forall m :: 2 <= m < n + 2 ==> Candidate(base, m) in taken
    ensures n + 1 <= |taken|
  {
    assert base !in Tried(base, n);
    Within(Tried(base, n) + {base}, taken);
  }

  ghost predicate IsFirstFree(base: string, taken: set<string>, n: int) {
    && 2 <= n && Candidate(base, n) !in taken
    && forall m :: 2 <= m < n ==> Candidate(base, m) in taken
  }

  /** The base if it is free, else the first free numbered candidate. */
  ghost predicate IsChosen(slug: string, base: string, taken: set<string>) {
    if base !in taken then slug == base
    else exists n :: IsFirstFree(base, taken, n) && slug == Candidate(base, n)
  }

  /** The base may be one of its own candidates, as 24 characters ending in "-2" are. */
  ghost predicate IsOwnCandidate(base: string) {
    exists m: nat :: 2 <= m && Candidate(base, m) == base
  }

  /** At most |taken| + 1 numbered candidates are looked at, and at most |taken| of a base that is not one of
      them. */
  method Allocate(base: string, taken: set<string>) returns (candidate: string)
    ensures candidate !in taken && IsChosen(candidate, base, taken)
    ensures base in taken ==>
      exists n :: IsFirstFree(base, taken, n) && candidate == Candidate(base, n)
                  && n - 1 <= |taken| + (if IsOwnCandidate(base) then 1 else 0)
  {
    candidate := base;
    var suffix := 2;
    while candidate in taken
      invariant 2 <= suffix && candidate == (if suffix == 2 then base else Candidate(base, suffix - 1))
      invariant suffix > 2 ==> base in taken
      invariant forall m :: 2 <= m < suffix - 1 ==> Candidate(base, m) in taken
      invariant suffix <= |taken| + 3
      decreases |taken| + 3 - suffix
    {
      if suffix > 2 {
        TriedFit(base, suffix - 2, taken);
      }
      candidate := Candidate(base, suffix);
      suffix := suffix + 1;
    }
    if suffix > 2 {
      assert IsFirstFree(base, taken, suffix - 1);
      TriedFit(base, suffix - 3, taken);
      if !IsOwnCandidate(base) {
        TriedFitBeside(base, suffix - 3, taken);
      }
    }
  }

  // ----- the migration ---------------------------------------------------------------------------

  datatype TenantRow = TenantRow(id: string, domain: string, slug: Option<string>)

  function Taken(rows: seq<TenantRow>): set<string> {
    set k | 0 <= k < |rows| && rows[k].slug.Some? :: rows[k].slug.value
  }

  /** The table when the loop gets to row j. */
  function Midway(start: seq<TenantRow>, rows: seq<TenantRow>, j: nat): seq<TenantRow>
    requires j <= |rows| == |start|
  {
    rows[..j] + start[j..]
  }

  /** The first k rows are done: slugs already there stand, and every other row got the slug chosen for it
      among those taken when its turn came. */
  ghost predicate Filled(start: seq<TenantRow>, rows: seq<TenantRow>, hex: seq<string>, k: nat) {
    && |rows| == |start| == |hex| && k <= |rows|
    && (forall i :: 0 <= i < |rows| && (k <= i || start[i].slug.Some?) ==> rows[i] == start[i])
    && (forall j :: 0 <= j < k && start[j].slug.None? ==>
          && rows[j].slug.Some? && rows[j] == start[j].(slug := rows[j].slug)
          && IsChosen(rows[j].slug.value, SlugFor(start[j].domain, hex[j]), Taken(Midway(start, rows, j))))
  }

  lemma FillOne(start: seq<TenantRow>, rows: seq<TenantRow>, hex: seq<string>, k: nat, slug: string)
    requires Filled(start, rows, hex, k) && k < |rows| && rows[k].slug.None?
    requires IsChosen(slug, SlugFor(rows[k].domain, hex[k]), Taken(rows))
    ensures Filled(start, rows[k := rows[k].(slug := Some(slug))], hex, k + 1)
    ensures Taken(rows[k := rows[k].(slug := Some(slug))]) == Taken(rows) + {slug}
  {
    TakenGrows(rows, k, slug);
    var rows' := rows[k := rows[k].(slug := Some(slug))];
    assert Midway(start, rows', k) == rows;
    forall j | 0 <= j < k
      ensures Midway(start, rows', j) == Midway(start, rows, j)
    {
    }
  }

  /** The tenants in order of creation. */
  class TenantTable {
    var rows: seq<TenantRow>

    constructor (rows: seq<TenantRow>)
      ensures this.rows == rows
    {
      this.rows := rows;
    }

    /** One row of the loop; the row's new slug joins the taken ones. */
    method FillRow(k: nat, taken: set<string>, ghost start: seq<TenantRow>, hex: seq<string>)
      returns (taken': set<string>)
      requires Filled(start, rows, hex, k) && k < |rows| && taken == Taken(rows)
      modifies this
      ensures Filled(start, rows, hex, k + 1) && taken' == Taken(rows)
    {
      taken' := taken;
      if rows[k].slug.None? {
        var candidate := Allocate(SlugFor(rows[k].domain, hex[k]), taken);
        FillOne(start, rows, hex, k, candidate);
        taken' := taken + {candidate};
        rows := rows[k := rows[k].(slug := Some(candidate))];
      }
    }

    /** `hex[k]` is what the random fallback would draw for row k. */
    method Upgrade(hex: seq<string>)
      requires |hex| == |rows|
      modifies this
      ensures Filled(old(rows), rows, hex, |rows|)
    {
      var taken, n := Taken(rows), |rows|;
      for k := 0 to n
        invariant Filled(old(rows), rows, hex, k) && |rows| == n && taken == Taken(rows)
      {
        taken := FillRow(k, taken, old(rows), hex);
      }
    }
  }

  lemma {:induction false} TakenCount(rows: seq<TenantRow>)
    ensures |Taken(rows)| <= |rows|
  {
    if rows != [] {
      var n := |rows| - 1;
      TakenCount(rows[..n]);
      assert Taken(rows) == Taken(rows[..n]) + if rows[n].slug.Some? then {rows[n].slug.value} else {};
    }
  }

  lemma TakenGrows(rows: seq<TenantRow>, k: nat, slug: string)
    requires k < |rows| && rows[k].slug.None?
    ensures Taken(rows[k := rows[k].(slug := Some(slug))]) == Taken(rows) + {slug}
  {
    var rows' := rows[k := rows[k].(slug := Some(slug))];
    forall s | s in Taken(rows)
      ensures s in Taken(rows')
    {
      var i :| 0 <= i < |rows| && rows[i].slug == Some(s);
      assert rows'[i].slug == Some(s);
    }
    assert rows'[k].slug == Some(slug);
  }

  lemma SameRow(start: seq<TenantRow>, a: seq<TenantRow>, b: seq<TenantRow>, hex: seq<string>, k: nat)
    requires Filled(start, a, hex, |a|) && Filled(start, b, hex, |b|) && k < |a| == |b|
    requires forall i :: 0 <= i < k ==> a[i] == b[i]
    ensures a[k] == b[k]
  {
    if start[k].slug.None? {
      assert a[..k] == b[..k];
      ChosenIsOne(a[k].slug.value, b[k].slug.value, SlugFor(start[k].domain, hex[k]), Taken(Midway(start, a, k)));
    }
  }

  /** There is one table that is filled: the loop's result is determined row by row. */
  lemma {:induction false} FilledIsOne(start: seq<TenantRow>, a: seq<TenantRow>, b: seq<TenantRow>, hex: seq<string>,
                                       k: nat)
    requires Filled(start, a, hex, |a|) && Filled(start, b, hex, |b|) && k <= |a| == |b|
    ensures forall i :: 0 <= i < k ==> a[i] == b[i]
  {
    if k > 0 {
      FilledIsOne(start, a, b, hex, k - 1);
      SameRow(start, a, b, hex, k - 1);
    }
  }

  lemma ChosenIsOne(a: string, b: string, base: string, taken: set<string>)
    requires IsChosen(a, base, taken) && IsChosen(b, base, taken)
    ensures a == b
  {
    if base in taken {
      var m :| IsFirstFree(base, taken, m) && a == Candidate(base, m);
      var n :| IsFirstFree(base, taken, n) && b == Candidate(base, n);
      assert m == n;
    }
  }

  /** A new slug is nobody else's. */
  lemma NewSlugIsUnique(start: seq<TenantRow>, rows: seq<TenantRow>, hex: seq<string>, i: nat, j: nat)
    requires Filled(start, rows, hex, |rows|) && i < |rows| && j < |rows| && i != j && start[j].slug.None?
    ensures rows[i].slug != rows[j].slug
  {
    if start[i].slug.None? && j < i {
      assert Midway(start, rows, i)[j] == rows[j];
      ChosenIsFree(rows[i].slug.value, SlugFor(start[i].domain, hex[i]), Taken(Midway(start, rows, i)));
    } else {
      assert Midway(start, rows, j)[i] == rows[i];
      ChosenIsFree(rows[j].slug.value, SlugFor(start[j].domain, hex[j]), Taken(Midway(start, rows, j)));
    }
  }

  lemma ChosenIsFree(slug: string, base: string, taken: set<string>)
    requires IsChosen(slug, base, taken)
    ensures slug !in taken
  {
  }

  /** What a finished migration guarantees: no two rows share a slug unless both had it before, so the
      unique index can be built if it could have been built before; and every new slug has the shape and
      fits, for any table of fewer than 10^22 - 2 rows. */
  lemma FilledMeansUnique(start: seq<TenantRow>, rows: seq<TenantRow>, hex: seq<string>)
    requires Filled(start, rows, hex, |rows|) && forall k :: 0 <= k < |hex| ==> IsHex(hex[k])
    ensures forall i, j :: 0 <= i < j < |rows| && rows[i].slug == rows[j].slug ==>
      start[i].slug.Some? && start[i].slug == start[j].slug
    ensures |rows| + 2 < Power10(MAX - 2) ==> forall i :: 0 <= i < |rows| && start[i].slug.None? ==>
      IsSlug(rows[i].slug.value) && |rows[i].slug.value| <= MAX
  {
    forall i, j | 0 <= i < j < |rows| && rows[i].slug == rows[j].slug
      ensures start[i].slug.Some? && start[j].slug.Some?
    {
      if start[j].slug.None? {
        NewSlugIsUnique(start, rows, hex, i, j);
      } else if start[i].slug.None? {
        NewSlugIsUnique(start, rows, hex, j, i);
      }
    }
    forall i | 0 <= i < |rows| && start[i].slug.None? && |rows| + 2 < Power10(MAX - 2)
      ensures IsSlug(rows[i].slug.value) && |rows[i].slug.value| <= MAX
    {
      TakenCount(Midway(start, rows, i));
      NewSlugsFit(rows[i].slug.value, start[i].domain, hex[i], Taken(Midway(start, rows, i)));
    }
  }

  /** A chosen slug has the shape and fits while fewer than 10^22 - 2 slugs are taken. */
  lemma NewSlugsFit(slug: string, domain: string, hex: string, taken: set<string>)
    requires IsHex(hex) && IsChosen(slug, SlugFor(domain, hex), taken) && |taken| + 2 < Power10(MAX - 2)
    ensures IsSlug(slug) && |slug| <= MAX
  {
    var base := SlugFor(domain, hex);
    SlugForIsSlug(domain, hex);
    if base in taken {
      var n :| IsFirstFree(base, taken, n) && slug == Candidate(base, n);
      TriedFit(base, n - 2, taken);
      CandidateFitsIff(base, n);
    }
  }
}
