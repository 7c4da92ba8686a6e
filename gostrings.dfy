/**
 * The parts of Go's `strings` package that the front end relies on:
 * `strings.Split` with a one-character separator, `strings.HasPrefix`
 * and `strings.HasSuffix`, on strings as sequences of characters.
 */
module GoStrings {

  /** Position of the first `sep` in `s`, or `|s|` when there is none. */
  function IndexOf(s: string, sep: char): (i: nat)
    ensures i <= |s|
    ensures forall k :: 0 <= k < i ==> s[k] != sep
    ensures i < |s| ==> s[i] == sep
  {
    if s == [] then 0
    else if s[0] == sep then 0
    else 1 + IndexOf(s[1..], sep)
  }

  /**
   * Concatenation of `parts` with `sep` between neighbours. It exists to state
   * `Split`'s round-trip, so it takes at least one part.
   */
  function Join(parts: seq<string>, sep: char): (s: string)
    requires |parts| >= 1
  {
    if |parts| == 1 then parts[0] else parts[0] + [sep] + Join(parts[1..], sep)
  }

  /**
   * `strings.Split(s, string(sep))`: the maximal separator-free pieces of `s`.
   * There is always at least one piece, even for the empty string.
   */
  function Split(s: string, sep: char): (parts: seq<string>)
    ensures |parts| >= 1
    ensures Join(parts, sep) == s
    ensures forall i :: 0 <= i < |parts| ==> sep !in parts[i]
  {
    if s == [] then [[]]
    else if s[0] == sep then [[]] + Split(s[1..], sep)
    else
      var rest := Split(s[1..], sep);
      [[s[0]] + rest[0]] + rest[1..]
  }

  /** The first piece that `Split` yields is everything before the first separator. */
  lemma {:induction false} SplitHead(s: string, sep: char)
    ensures Split(s, sep)[0] == s[..IndexOf(s, sep)]
  {
    if s != [] && s[0] != sep {
      SplitHead(s[1..], sep);
    }
  }

  /** A separator-free `head` followed by the separator splits off as the first piece. */
  lemma SplitHeadOfJoined(head: string, sep: char, tail: string)
    requires sep !in head
    ensures Split(head + [sep] + tail, sep)[0] == head
  {
    var s := head + [sep] + tail;
    IndexOfJoined(head, sep, tail);
    SplitHead(s, sep);
    assert s[..|head|] == head;
  }

  lemma {:induction false} IndexOfJoined(head: string, sep: char, tail: string)
    requires sep !in head
    ensures IndexOf(head + [sep] + tail, sep) == |head|
  {
    if head != [] {
      assert (head + [sep] + tail)[1..] == head[1..] + [sep] + tail;
      IndexOfJoined(head[1..], sep, tail);
    }
  }

  predicate HasPrefix(s: string, prefix: string)
  {
    |prefix| <= |s| && s[..|prefix|] == prefix
  }

  predicate HasSuffix(s: string, suffix: string)
  {
    |suffix| <= |s| && s[|s| - |suffix|..] == suffix
  }
}
