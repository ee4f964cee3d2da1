/** A matcher for the one shape of host pattern the shipped table uses:
    the character class `[a-zA-Z0-9\-_.:]` repeated, then a tail of plain
    characters in which `.` stands for any character but a newline. It is
    matched at the start of the host, as Python's `re.match` does. */
module HostPattern {
  import opened HttpTypes
  import SessionConfig

  const ClassStar: string := SessionConfig.HostCharRun

  predicate InHostClass(c: char) {
    ('a' <= c <= 'z') || ('A' <= c <= 'Z') || ('0' <= c <= '9') || c == '-' || c == '_' || c == '.' || c == ':'
  }

  /** Host character `c` matches pattern character `p` of the tail. */
  predicate CharMatches(p: char, c: char) {
    if p == '.' then c != '\n' else c == p
  }

  /** A character with a meaning of its own in a regular expression, other than `.`. */
  predicate IsMeta(c: char) {
    c == '\\' || c == '[' || c == ']' || c == '(' || c == ')' || c == '{' || c == '}' ||
    c == '*' || c == '+' || c == '?' || c == '|' || c == '^' || c == '$'
  }

  /** The tail of a pattern of the supported shape, or None for any other pattern. */
  function Compile(pattern: string): (r: Option<string>)
    ensures r.Some? <==> ClassStar <= pattern && forall k :: |ClassStar| <= k < |pattern| ==> !IsMeta(pattern[k])
    ensures r.Some? ==> pattern == ClassStar + r.value
  {
    if ClassStar <= pattern && forall k :: |ClassStar| <= k < |pattern| ==> !IsMeta(pattern[k])
    then Some(pattern[|ClassStar|..])
    else None
  }

  /** The tail matches the first characters of `s`. */
  function TailMatchesPrefix(tail: string, s: string): (r: bool)
    ensures r <==> |tail| <= |s| && forall k :: 0 <= k < |tail| ==> CharMatches(tail[k], s[k])
  {
    if tail == [] then true
    else |s| > 0 && CharMatches(tail[0], s[0]) && TailMatchesPrefix(tail[1..], s[1..])
  }

  /** A tail without newlines matches its own text. */
  lemma TailMatchesItself(tail: string)
    requires forall k :: 0 <= k < |tail| ==> tail[k] != '\n'
    ensures TailMatchesPrefix(tail, tail)
  {
  }

  /** The repeated class followed by the tail matches at the start of `s`,
      trying the shortest run of class characters first. */
  function StarThenMatch(tail: string, s: string): (r: bool)
    ensures TailMatchesPrefix(tail, s) ==> r
    ensures r ==> |tail| <= |s|
    decreases |s|
  {
    TailMatchesPrefix(tail, s) || (|s| > 0 && InHostClass(s[0]) && StarThenMatch(tail, s[1..]))
  }

  /** The backtracking search finds a match exactly when one exists: some
      prefix of `s` is made of class characters and the tail matches right
      after it. */
  lemma {:induction false} StarThenMatchIffSplit(tail: string, s: string)
    ensures StarThenMatch(tail, s) <==>
            exists i :: 0 <= i <= |s| && (forall k :: 0 <= k < i ==> InHostClass(s[k])) && TailMatchesPrefix(tail, s[i..])
    decreases |s|
  {
    assert s[0..] == s;
    if |s| > 0 && InHostClass(s[0]) {
      StarThenMatchIffSplit(tail, s[1..]);
      if StarThenMatch(tail, s[1..]) {
        var i :| 0 <= i <= |s[1..]| && (forall k :: 0 <= k < i ==> InHostClass(s[1..][k])) && TailMatchesPrefix(tail, s[1..][i..]);
        assert s[1..][i..] == s[i + 1..];
      } else {
        forall i | 0 < i <= |s| && (forall k :: 0 <= k < i ==> InHostClass(s[k]))
          ensures !TailMatchesPrefix(tail, s[i..])
        {
          assert s[1..][i - 1..] == s[i..];
        }
      }
    }
  }

  /** A regular-expression engine for patterns of the supported shape; it
      matches no host for any other pattern. */
  function FragmentMatches(pattern: string, host: string): (r: bool)
    ensures r ==> Compile(pattern).Some? && |host| >= |pattern| - |ClassStar|
    ensures Compile(pattern).Some? ==> (r <==> StarThenMatch(Compile(pattern).value, host))
  {
    match Compile(pattern)
    case Some(tail) => StarThenMatch(tail, host)
    case None => false
  }
}
