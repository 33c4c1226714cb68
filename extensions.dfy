/**
 * The String and Array extensions of Utilities/Extensions.swift that carry
 * logic: email validation by a fixed pattern, truncation with a trailing
 * marker, and grouping transactions by their first category.
 * Strings are sequences of characters; Swift counts grapheme clusters.
 */
module Extensions {
  import opened Wrappers
  import opened Pattern
  import opened Models

  // ---------------------------------------------------------------------
  // isValidEmail
  // ---------------------------------------------------------------------

  /** [A-Z0-9a-z._%+-] */
  const LocalChars := CharClass([('A', 'Z'), ('0', '9'), ('a', 'z'), ('.', '.'), ('_', '_'), ('%', '%'), ('+', '+'), ('-', '-')])
  /** [A-Za-z0-9.-] */
  const DomainChars := CharClass([('A', 'Z'), ('a', 'z'), ('0', '9'), ('.', '.'), ('-', '-')])
  /** [A-Za-z] */
  const LetterChars := CharClass([('A', 'Z'), ('a', 'z')])

  const LocalPart := Piece(LocalChars, 1, None)
  const AtSign := Piece(Literal('@'), 1, Some(1))
  const DomainPart := Piece(DomainChars, 1, None)
  const DotSign := Piece(Literal('.'), 1, Some(1))
  const TopLevel := Piece(LetterChars, 2, Some(64))

  /** The pattern "[A-Z0-9a-z._%+-]+@[A-Za-z0-9.-]+\.[A-Za-z]{2,64}". */
  const EmailRegex: Regex := [LocalPart, AtSign, DomainPart, DotSign, TopLevel]

  /** isValidEmail: the whole string matches the email pattern. */
  predicate IsValidEmail(s: string) {
    Matches(EmailRegex, s)
  }

  lemma EmailRegexTails()
    ensures |EmailRegex| == 5
    ensures EmailRegex[0] == LocalPart && EmailRegex[1] == AtSign && EmailRegex[2] == DomainPart
    ensures EmailRegex[3] == DotSign && EmailRegex[4] == TopLevel
    ensures forall i :: 0 <= i < 5 ==> EmailRegex[i..][0] == EmailRegex[i] && EmailRegex[i..][1..] == EmailRegex[i + 1..]
    ensures EmailRegex[5..] == []
  {
  }

  predicate IsLetter(c: char) {
    ('A' <= c <= 'Z') || ('a' <= c <= 'z')
  }

  predicate IsDigit(c: char) {
    '0' <= c <= '9'
  }

  predicate IsLocalChar(c: char) {
    IsLetter(c) || IsDigit(c) || c == '.' || c == '_' || c == '%' || c == '+' || c == '-'
  }

  predicate IsDomainChar(c: char) {
    IsLetter(c) || IsDigit(c) || c == '.' || c == '-'
  }

  /** `s` is a local part, '@' at `at`, a domain, '.' at `dot` and 2 to 64 letters. */
  ghost predicate EmailSplit(s: string, at: int, dot: int) {
    && 0 < at && at + 1 < dot && dot < |s| && 2 <= |s| - (dot + 1) <= 64
    && (forall i :: 0 <= i < at ==> IsLocalChar(s[i]))
    && s[at] == '@'
    && (forall i :: at < i < dot ==> IsDomainChar(s[i]))
    && s[dot] == '.'
    && (forall i :: dot < i < |s| ==> IsLetter(s[i]))
  }

  lemma LocalCharsExact(c: char)
    ensures InClass(c, LocalChars) <==> IsLocalChar(c)
  {
    var r := LocalChars.ranges;
    if IsLocalChar(c) {
      if 'A' <= c <= 'Z' { assert r[0].0 <= c <= r[0].1; }
      else if 'a' <= c <= 'z' { assert r[2].0 <= c <= r[2].1; }
      else if IsDigit(c) { assert r[1].0 <= c <= r[1].1; }
      else if c == '.' { assert r[3].0 <= c <= r[3].1; }
      else if c == '_' { assert r[4].0 <= c <= r[4].1; }
      else if c == '%' { assert r[5].0 <= c <= r[5].1; }
      else if c == '+' { assert r[6].0 <= c <= r[6].1; }
      else { assert r[7].0 <= c <= r[7].1; }
    }
  }

  lemma DomainCharsExact(c: char)
    ensures InClass(c, DomainChars) <==> IsDomainChar(c)
  {
    var r := DomainChars.ranges;
    if IsDomainChar(c) {
      if 'A' <= c <= 'Z' { assert r[0].0 <= c <= r[0].1; }
      else if 'a' <= c <= 'z' { assert r[1].0 <= c <= r[1].1; }
      else if IsDigit(c) { assert r[2].0 <= c <= r[2].1; }
      else if c == '.' { assert r[3].0 <= c <= r[3].1; }
      else { assert r[4].0 <= c <= r[4].1; }
    }
  }

  lemma LetterCharsExact(c: char)
    ensures InClass(c, LetterChars) <==> IsLetter(c)
  {
    var r := LetterChars.ranges;
    if 'A' <= c <= 'Z' { assert r[0].0 <= c <= r[0].1; }
    else if 'a' <= c <= 'z' { assert r[1].0 <= c <= r[1].1; }
  }

  lemma LiteralExact(c: char, d: char)
    ensures InClass(d, Literal(c)) <==> d == c
  {
    if d == c { assert Literal(c).ranges[0].0 <= d <= Literal(c).ranges[0].1; }
  }

  /** A split in the shape of the pattern is a match. */
  lemma SplitMatches(s: string, at: int, dot: int)
    requires EmailSplit(s, at, dot)
    ensures IsValidEmail(s)
  {
    EmailRegexTails();
    var s2 := s[at + 1..];
    DomainMatches(s, at, dot);

    var s1 := s[at..];
    assert s1[1..] == s2;
    LiteralExact('@', s1[0]);
    MatchesCons(EmailRegex[1..], s1, 1);

    forall i | 0 <= i < at ensures InClass(s[i], LocalChars) {
      LocalCharsExact(s[i]);
    }
    assert AllIn(s[..at], LocalChars);
    MatchesCons(EmailRegex, s, at);
  }

  /** The part after the '@' of a split matches the last three pieces. */
  lemma DomainMatches(s: string, at: int, dot: int)
    requires EmailSplit(s, at, dot)
    ensures Matches(EmailRegex[2..], s[at + 1..])
  {
    EmailRegexTails();
    var s4 := s[dot + 1..];
    assert s4[..|s4|] == s4 && s4[|s4|..] == [];
    forall i | 0 <= i < |s4| ensures InClass(s4[i], LetterChars) {
      LetterCharsExact(s4[i]);
    }
    MatchesCons(EmailRegex[4..], s4, |s4|);

    var s3 := s[dot..];
    assert s3[1..] == s4;
    LiteralExact('.', s3[0]);
    MatchesCons(EmailRegex[3..], s3, 1);

    var s2 := s[at + 1..];
    var n := dot - at - 1;
    assert s2[n..] == s3;
    forall i | 0 <= i < n ensures InClass(s2[i], DomainChars) {
      DomainCharsExact(s2[i]);
    }
    assert AllIn(s2[..n], DomainChars);
    MatchesCons(EmailRegex[2..], s2, n);
  }

  /** A match splits in the shape of the pattern. */
  lemma MatchSplits(s: string) returns (at: int, dot: int)
    requires IsValidEmail(s)
    ensures EmailSplit(s, at, dot)
  {
    EmailRegexTails();
    var k0 := MatchesUncons(EmailRegex, s);
    var s1 := s[k0..];
    var k1 := MatchesUncons(EmailRegex[1..], s1);
    var s2 := s1[k1..];
    var k2 := MatchesUncons(EmailRegex[2..], s2);
    var s3 := s2[k2..];
    var k3 := MatchesUncons(EmailRegex[3..], s3);
    var s4 := s3[k3..];
    var k4 := MatchesUncons(EmailRegex[4..], s4);
    assert k1 == 1 && k3 == 1 && k4 == |s4|;

    at, dot := k0, k0 + 1 + k2;
    LocalRun(s, at);
    assert s1[..1][0] == s[at];
    LiteralExact('@', s[at]);
    DomainRun(s, s2, at, k2);
    assert s3[..1][0] == s[dot];
    LiteralExact('.', s[dot]);
    assert s4 == s[dot + 1..];
    LetterRun(s, s4, dot, k4);
  }

  lemma LocalRun(s: string, at: nat)
    requires at <= |s| && AllIn(s[..at], LocalChars)
    ensures forall i :: 0 <= i < at ==> IsLocalChar(s[i])
  {
    forall i | 0 <= i < at ensures IsLocalChar(s[i]) {
      assert InClass(s[..at][i], LocalChars);
      LocalCharsExact(s[i]);
    }
  }

  lemma DomainRun(s: string, s2: string, at: nat, n: nat)
    requires at + 1 + n <= |s| && s2 == s[at + 1..] && AllIn(s2[..n], DomainChars)
    ensures forall i :: at < i < at + 1 + n ==> IsDomainChar(s[i])
  {
    forall i | at < i < at + 1 + n ensures IsDomainChar(s[i]) {
      assert s[i] == s2[..n][i - at - 1];
      DomainCharsExact(s[i]);
    }
  }

  lemma LetterRun(s: string, s4: string, dot: nat, n: nat)
    requires dot + 1 + n == |s| && s4 == s[dot + 1..] && AllIn(s4[..n], LetterChars)
    ensures forall i :: dot < i < |s| ==> IsLetter(s[i])
  {
    forall i | dot < i < |s| ensures IsLetter(s[i]) {
      assert s[i] == s4[..n][i - dot - 1];
      LetterCharsExact(s[i]);
    }
  }

  /** isValidEmail holds exactly when the string splits as a non-empty run of
      [A-Za-z0-9._%+-], '@', a non-empty run of [A-Za-z0-9.-], '.', and 2 to
      64 ASCII letters. */
  lemma IsValidEmailShape(s: string)
    ensures IsValidEmail(s) <==> exists at, dot :: EmailSplit(s, at, dot)
  {
    if IsValidEmail(s) {
      var at, dot := MatchSplits(s);
    } else {
      forall at, dot | EmailSplit(s, at, dot) ensures false {
        SplitMatches(s, at, dot);
      }
    }
  }

  lemma NoAtIn(s: string)
    requires forall i :: 0 <= i < |s| ==> s[i] != '@'
    ensures multiset(s)['@'] == 0
  {
  }

  /** Every accepted address has exactly one '@' and ends in at least two letters. */
  lemma ValidEmailOneAt(s: string)
    requires IsValidEmail(s)
    ensures multiset(s)['@'] == 1
    ensures |s| >= 2 && IsLetter(s[|s| - 1]) && IsLetter(s[|s| - 2])
  {
    var at, dot := MatchSplits(s);
    assert s == s[..at] + [s[at]] + s[at + 1..];
    NoAtIn(s[..at]);
    NoAtIn(s[at + 1..]);
    assert multiset(s) == multiset(s[..at]) + multiset([s[at]]) + multiset(s[at + 1..]);
  }

  /** The accepted address of the extension tests. */
  lemma EmailAcceptsExample()
    ensures IsValidEmail("test@example.com")
  {
    var good := "test@example.com";
    assert EmailSplit(good, 4, 12);
    SplitMatches(good, 4, 12);
  }

  /** A string without '@' is rejected. */
  lemma NoAtRejected(s: string)
    requires forall i :: 0 <= i < |s| ==> s[i] != '@'
    ensures !IsValidEmail(s)
  {
    if IsValidEmail(s) {
      ValidEmailOneAt(s);
      NoAtIn(s);
    }
  }

  /** The rejected addresses of the extension tests. */
  lemma EmailRejectsExamples()
    ensures !IsValidEmail("invalid-email")
    ensures !IsValidEmail("")
  {
    NoAtRejected("invalid-email");
    NoAtRejected("");
  }

  // ---------------------------------------------------------------------
  // truncated(to:trailing:)
  // ---------------------------------------------------------------------

  /** truncated(to:trailing:): strings longer than `length` keep their first
      `length` characters followed by `trailing`. A negative length traps in
      `prefix`, so callers must not pass one. */
  function Truncated(s: string, length: int, trailing: string := "..."): (r: string)
    requires length >= 0
    ensures |s| <= length ==> r == s
    ensures |r| == if |s| <= length then |s| else length + |trailing|
    ensures |s| > length ==> r[..length] == s[..length] && r[length..] == trailing
  {
    if |s| > length then s[..length] + trailing else s
  }

  /** Truncating twice with the same arguments truncates once. */
  lemma TruncatedIdempotent(s: string, length: int, trailing: string)
    requires length >= 0
    ensures Truncated(Truncated(s, length, trailing), length, trailing) == Truncated(s, length, trailing)
  {
    var t := Truncated(s, length, trailing);
    if |t| > length {
      assert t[..length] + trailing == t;
    }
  }

  // ---------------------------------------------------------------------
  // groupedByCategory()
  // ---------------------------------------------------------------------

  /** The grouping key: a transaction's first category, or "Other". */
  function CategoryKey(t: Transaction): string {
    if |t.category| > 0 then t.category[0] else "Other"
  }

  /** The transactions with key k, in input order. */
  function WithKey(ts: seq<Transaction>, k: string): seq<Transaction> {
    if ts == [] then []
    else (if CategoryKey(ts[0]) == k then [ts[0]] else []) + WithKey(ts[1..], k)
  }

  /** A group is a sub-collection of the input whose members all carry its key. */
  lemma {:induction false} WithKeyMembers(ts: seq<Transaction>, k: string)
    ensures |WithKey(ts, k)| <= |ts|
    ensures forall t :: t in WithKey(ts, k) ==> t in ts && CategoryKey(t) == k
  {
    if ts != [] {
      WithKeyMembers(ts[1..], k);
    }
  }

  lemma {:induction false} WithKeyAppend(ts: seq<Transaction>, t: Transaction, k: string)
    ensures WithKey(ts + [t], k) == WithKey(ts, k) + (if CategoryKey(t) == k then [t] else [])
  {
    if ts == [] {
      assert [t][1..] == [];
    } else {
      assert (ts + [t])[1..] == ts[1..] + [t];
      WithKeyAppend(ts[1..], t, k);
    }
  }

  /** Some transaction of `ts` has key k. */
  predicate HasKey(ts: seq<Transaction>, k: string) {
    exists i :: 0 <= i < |ts| && CategoryKey(ts[i]) == k
  }

  /** groupedByCategory(): Dictionary(grouping:) appends each transaction, in
      order, to the group of its key. Every key of the result is the key of
      some transaction, every transaction's key is a key of the result, and
      each group holds exactly the transactions with its key, in input order. */
  function GroupedByCategory(ts: seq<Transaction>): (g: map<string, seq<Transaction>>)
    ensures forall k :: k in g <==> HasKey(ts, k)
    ensures forall k :: k in g ==> g[k] == WithKey(ts, k)
  {
    if ts == [] then map[]
    else
      var g := GroupedByCategory(ts[1..]);
      GroupStep(ts, g);
      PutFirst(ts[0], g)
  }

  /** Puts t in front of the group of its key, creating the group if needed. */
  function PutFirst(t: Transaction, g: map<string, seq<Transaction>>): map<string, seq<Transaction>> {
    var k := CategoryKey(t);
    g[k := [t] + (if k in g then g[k] else [])]
  }

  /** One step of the grouping keeps both halves of its contract. */
  lemma GroupStep(ts: seq<Transaction>, g: map<string, seq<Transaction>>)
    requires ts != []
    requires forall k :: k in g <==> HasKey(ts[1..], k)
    requires forall k :: k in g ==> g[k] == WithKey(ts[1..], k)
    ensures forall k :: k in PutFirst(ts[0], g) <==> HasKey(ts, k)
    ensures forall k :: k in PutFirst(ts[0], g) ==> PutFirst(ts[0], g)[k] == WithKey(ts, k)
  {
    forall k ensures k in PutFirst(ts[0], g) <==> HasKey(ts, k) {
      GroupStepKey(ts, g, k);
    }
    forall k | k in PutFirst(ts[0], g) ensures PutFirst(ts[0], g)[k] == WithKey(ts, k) {
      if k == CategoryKey(ts[0]) && k !in g {
        WithKeyEmpty(ts[1..], k);
      }
    }
  }

  lemma GroupStepKey(ts: seq<Transaction>, g: map<string, seq<Transaction>>, k: string)
    requires ts != []
    requires k in g <==> HasKey(ts[1..], k)
    ensures k in PutFirst(ts[0], g) <==> HasKey(ts, k)
  {
    if HasKey(ts[1..], k) {
      var i :| 0 <= i < |ts[1..]| && CategoryKey(ts[1..][i]) == k;
      assert ts[i + 1] == ts[1..][i];
    }
    if HasKey(ts, k) && k != CategoryKey(ts[0]) {
      var i :| 0 <= i < |ts| && CategoryKey(ts[i]) == k;
      assert ts[1..][i - 1] == ts[i];
    }
  }

  lemma {:induction false} WithKeyEmpty(ts: seq<Transaction>, k: string)
    requires !HasKey(ts, k)
    ensures WithKey(ts, k) == []
  {
    if ts != [] {
      WithKeyEmpty(ts[1..], k);
    }
  }

  /** The groups partition the input: each transaction occurs in the group of
      its own key as often as in the input, and in no other group. */
  lemma {:induction false} GroupsPartition(ts: seq<Transaction>, t: Transaction, k: string)
    requires k in GroupedByCategory(ts)
    ensures multiset(GroupedByCategory(ts)[k])[t] == if CategoryKey(t) == k then multiset(ts)[t] else 0
  {
    WithKeyCount(ts, t, k);
  }

  lemma {:induction false} WithKeyCount(ts: seq<Transaction>, t: Transaction, k: string)
    ensures multiset(WithKey(ts, k))[t] == if CategoryKey(t) == k then multiset(ts)[t] else 0
  {
    if ts != [] {
      WithKeyCount(ts[1..], t, k);
      assert ts == [ts[0]] + ts[1..];
    }
  }
}
