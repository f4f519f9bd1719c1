/** The registration forms' e-mail check, the regular expression
    `^[^\s@]+@[^\s@]+\.[^\s@]+$` applied with `RegExp.prototype.test`.
    `Matches` runs it as a deterministic automaton; `Pattern` reads the
    expression directly as three non-empty runs of allowed characters joined
    by '@' and '.'; `AcceptsIffPattern` proves the two agree on every string. */
module EmailRegex {
  import opened JsText

  /** The character class `[^\s@]`. */
  predicate Allowed(c: char) {
    !IsSpace(c) && c != '@'
  }

  predicate AllAllowed(s: string) {
    forall k :: 0 <= k < |s| ==> Allowed(s[k])
  }

  /** `[^\s@]+` read one character at a time. */
  lemma AllAllowedCons(s: string)
    requires s != []
    ensures AllAllowed(s) <==> Allowed(s[0]) && AllAllowed(s[1..])
  {
    if Allowed(s[0]) && AllAllowed(s[1..]) {
      forall k | 0 <= k < |s| ensures Allowed(s[k]) {
        if k > 0 { assert s[k] == s[1..][k - 1]; }
      }
    }
  }

  /** Some '.' of `s` at index `lo` or later has at least one character after it. */
  ghost predicate DotFrom(s: string, lo: nat) {
    exists j :: lo <= j < |s| - 1 && s[j] == '.'
  }

  /** The expression read literally: `s == a + "@" + b + "." + c` where
      `a`, `b` and `c` are non-empty and drawn from `[^\s@]`. */
  ghost predicate Pattern(s: string) {
    exists i, j :: 0 < i && i + 1 < j < |s| - 1 && s[i] == '@' && s[j] == '.'
      && AllAllowed(s[..i]) && AllAllowed(s[i + 1..j]) && AllAllowed(s[j + 1..])
  }

  /** States of the matcher: what of `a "@" b "." c` has been read so far. */
  datatype State =
    | Start     // nothing read
    | Local     // a non-empty prefix of `a`
    | AfterAt   // `a "@"`
    | Domain    // `a "@"` and a non-empty prefix of `b`
    | Dot       // `a "@" b "."`
    | Tld       // `a "@" b "."` and a non-empty prefix of `c`: accepting
    | Reject    // no continuation can match

  function Step(q: State, c: char): State {
    if c == '@' then (if q == Local then AfterAt else Reject)
    else if !Allowed(c) then Reject
    else match q
      case Start => Local
      case Local => Local
      case AfterAt => Domain
      case Domain => if c == '.' then Dot else Domain
      case Dot => Tld
      case Tld => Tld
      case Reject => Reject
  }

  function Run(q: State, s: string): State
    decreases |s|
  {
    if s == [] then q else Run(Step(q, s[0]), s[1..])
  }

  /** `/^[^\s@]+@[^\s@]+\.[^\s@]+$/.test(s)`: the automaton run from
      `Start` ends accepting, which happens exactly on the strings the
      expression describes. */
  predicate Matches(s: string)
    ensures Matches(s) <==> Pattern(s)
  {
    AcceptsIffPattern(s);
    Run(Start, s) == Tld
  }

  lemma {:induction false} RejectAbsorbs(s: string)
    ensures Run(Reject, s) == Reject
    decreases |s|
  {
    if s != [] {
      RejectAbsorbs(s[1..]);
    }
  }

  lemma {:induction false} TldAccepts(s: string)
    ensures Run(Tld, s) == Tld <==> AllAllowed(s)
    decreases |s|
  {
    if s != [] {
      TldAccepts(s[1..]);
      RejectAbsorbs(s[1..]);
      AllAllowedCons(s);
    }
  }

  lemma DotAccepts(s: string)
    ensures Run(Dot, s) == Tld <==> s != [] && AllAllowed(s)
  {
    if s != [] {
      TldAccepts(s[1..]);
      RejectAbsorbs(s[1..]);
      AllAllowedCons(s);
    }
  }

  lemma {:induction false} DomainAccepts(s: string)
    ensures Run(Domain, s) == Tld <==> AllAllowed(s) && DotFrom(s, 0)
    decreases |s|
  {
    if s != [] {
      RejectAbsorbs(s[1..]);
      DotAccepts(s[1..]);
      DomainAccepts(s[1..]);
      AllAllowedCons(s);
      DotFromTail(s);
    }
  }

  /** A qualifying dot at index 1 or later of `s` is one at index 0 or later of `s[1..]`. */
  lemma DotFromTail(s: string)
    requires s != []
    ensures DotFrom(s, 1) <==> DotFrom(s[1..], 0)
    ensures DotFrom(s, 0) <==> (s[0] == '.' && |s| > 1) || DotFrom(s, 1)
  {
    if DotFrom(s, 1) {
      var j :| 1 <= j < |s| - 1 && s[j] == '.';
      assert s[1..][j - 1] == '.';
    }
    if DotFrom(s[1..], 0) {
      var j :| 0 <= j < |s| - 2 && s[1..][j] == '.';
      assert s[j + 1] == '.';
    }
  }

  lemma AfterAtAccepts(s: string)
    ensures Run(AfterAt, s) == Tld <==> AllAllowed(s) && DotFrom(s, 1)
  {
    if s != [] {
      RejectAbsorbs(s[1..]);
      DomainAccepts(s[1..]);
      DotFromTail(s);
      AllAllowedCons(s);
    }
  }

  /** `s` splits at an '@' (at index `lo` or later) into an allowed prefix and an
      allowed suffix that holds a qualifying dot. */
  ghost predicate SplitFrom(s: string, lo: nat) {
    exists i :: lo <= i < |s| && s[i] == '@' && AllAllowed(s[..i])
      && AllAllowed(s[i + 1..]) && DotFrom(s[i + 1..], 1)
  }

  lemma SplitFromTail(s: string)
    requires s != [] && Allowed(s[0])
    ensures SplitFrom(s, 1) <==> SplitFrom(s[1..], 0)
  {
    if SplitFrom(s, 1) { SplitFromDrop(s); }
    if SplitFrom(s[1..], 0) { SplitFromCons(s); }
  }

  /** A split of `s` past its first character is a split of its tail. */
  lemma SplitFromDrop(s: string)
    requires s != [] && SplitFrom(s, 1)
    ensures SplitFrom(s[1..], 0)
  {
    var i :| 1 <= i < |s| && s[i] == '@' && AllAllowed(s[..i])
      && AllAllowed(s[i + 1..]) && DotFrom(s[i + 1..], 1);
    var t := s[1..];
    assert t[..i - 1] == s[1..i];
    assert t[i - 1 + 1..] == s[i + 1..];
    assert t[i - 1] == '@';
  }

  /** A split of the tail, behind an allowed first character, is a split of `s`. */
  lemma SplitFromCons(s: string)
    requires s != [] && Allowed(s[0]) && SplitFrom(s[1..], 0)
    ensures SplitFrom(s, 1)
  {
    var t := s[1..];
    var i :| 0 <= i < |t| && t[i] == '@' && AllAllowed(t[..i])
      && AllAllowed(t[i + 1..]) && DotFrom(t[i + 1..], 1);
    assert t[i + 1..] == s[i + 2..];
    var p := s[..i + 1];
    assert p[1..] == t[..i];
    AllAllowedCons(p);
    assert s[i + 1] == '@' && AllAllowed(s[..i + 1]) && AllAllowed(s[i + 2..]) && DotFrom(s[i + 2..], 1);
  }

  lemma {:induction false} LocalAccepts(s: string)
    ensures Run(Local, s) == Tld <==> SplitFrom(s, 0)
    decreases |s|
  {
    if s != [] {
      RejectAbsorbs(s[1..]);
      if s[0] == '@' {
        AfterAtAccepts(s[1..]);
        SplitAtHead(s);
      } else if Allowed(s[0]) {
        LocalAccepts(s[1..]);
        SplitFromTail(s);
      } else {
        NoSplitAfterSpace(s);
      }
    }
  }

  /** A white-space first character rules out every split: the local part
      would hold it. */
  lemma NoSplitAfterSpace(s: string)
    requires s != [] && s[0] != '@' && !Allowed(s[0])
    ensures !SplitFrom(s, 0)
  {
    forall i | 0 <= i < |s| && s[i] == '@' ensures !AllAllowed(s[..i]) {
      assert s[..i][0] == s[0];
    }
  }

  /** With an '@' first, the only split is at index 0. */
  lemma SplitAtHead(s: string)
    requires s != [] && s[0] == '@'
    ensures SplitFrom(s, 0) <==> AllAllowed(s[1..]) && DotFrom(s[1..], 1)
  {
    assert s[..0] == [];
    forall i | 0 < i < |s| ensures !AllAllowed(s[..i]) {
      assert s[..i][0] == s[0];
    }
  }

  /** A first character that is not allowed rules out every split past it. */
  lemma NoSplitPastBadHead(s: string)
    requires s != [] && !Allowed(s[0])
    ensures !SplitFrom(s, 1)
  {
    forall i | 1 <= i < |s| ensures !AllAllowed(s[..i]) {
      assert s[..i][0] == s[0];
    }
  }

  lemma StartAccepts(s: string)
    ensures Run(Start, s) == Tld <==> SplitFrom(s, 1)
  {
    if s != [] {
      RejectAbsorbs(s[1..]);
      if Allowed(s[0]) {
        LocalAccepts(s[1..]);
        SplitFromTail(s);
      } else {
        NoSplitPastBadHead(s);
      }
    }
  }

  lemma SplitGivesPattern(s: string)
    requires SplitFrom(s, 1)
    ensures Pattern(s)
  {
    var i :| 1 <= i < |s| && s[i] == '@' && AllAllowed(s[..i])
      && AllAllowed(s[i + 1..]) && DotFrom(s[i + 1..], 1);
    var t := s[i + 1..];
    var k :| 1 <= k < |t| - 1 && t[k] == '.';
    var j := i + 1 + k;
    assert s[i + 1..j] == t[..k];
    assert s[j + 1..] == t[k + 1..];
    AllowedSlice(t, 0, k);
    AllowedSlice(t, k + 1, |t|);
    assert 0 < i && i + 1 < j < |s| - 1 && s[i] == '@' && s[j] == '.'
      && AllAllowed(s[..i]) && AllAllowed(s[i + 1..j]) && AllAllowed(s[j + 1..]);
  }

  /** A run of allowed characters has only allowed pieces. */
  lemma AllowedSlice(t: string, lo: nat, hi: nat)
    requires lo <= hi <= |t| && AllAllowed(t)
    ensures AllAllowed(t[lo..hi])
  {
    forall m | 0 <= m < hi - lo ensures Allowed(t[lo..hi][m]) {
      assert t[lo..hi][m] == t[lo + m];
    }
  }

  lemma PatternGivesSplit(s: string)
    requires Pattern(s)
    ensures SplitFrom(s, 1)
  {
    var i, j :| 0 < i && i + 1 < j < |s| - 1 && s[i] == '@' && s[j] == '.'
      && AllAllowed(s[..i]) && AllAllowed(s[i + 1..j]) && AllAllowed(s[j + 1..]);
    var t, b, c := s[i + 1..], s[i + 1..j], s[j + 1..];
    assert t[j - (i + 1)] == '.';
    assert AllAllowed(t) by {
      forall m | 0 <= m < |t| ensures Allowed(t[m]) {
        if m < j - (i + 1) {
          assert t[m] == b[m];
        } else if m > j - (i + 1) {
          assert t[m] == c[m - (j - i)];
        }
      }
    }
  }

  /** The automaton accepts exactly the strings the expression describes. */
  lemma AcceptsIffPattern(s: string)
    ensures Run(Start, s) == Tld <==> Pattern(s)
  {
    StartAccepts(s);
    if SplitFrom(s, 1) {
      SplitGivesPattern(s);
    }
    if Pattern(s) {
      PatternGivesSplit(s);
    }
  }
}
