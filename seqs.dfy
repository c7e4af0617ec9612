/** Small facts about sequences, stated for any element type. */
module Seqs {
  /** A non-empty sequence is its front followed by its last element. */
  lemma SplitLast<T>(s: seq<T>)
    requires s != []
    ensures s[..|s| - 1] + [s[|s| - 1]] == s
  {
  }

  /** Appending is associative. */
  lemma AppendAssoc<T>(a: seq<T>, b: seq<T>, c: seq<T>)
    ensures (a + b) + c == a + (b + c)
  {
  }

  /** Appending nothing changes nothing. */
  lemma AppendNothing<T>(a: seq<T>)
    ensures a + [] == a
  {
  }

  /** Dropping one more element from a suffix is the next suffix. */
  lemma DropOneMore<T>(s: seq<T>, i: nat)
    requires i < |s|
    ensures s[i..][1..] == s[i + 1..] && s[i..][0] == s[i]
  {
  }

  /** A prefix of a prefix is a prefix. */
  lemma TakeTake<T>(s: seq<T>, m: nat, n: nat)
    requires n <= m <= |s|
    ensures s[..m][..n] == s[..n]
  {
  }

  /** The front and the last element of the prefix of length `m`. */
  lemma TakeFront<T>(s: seq<T>, m: nat)
    requires 0 < m <= |s|
    ensures s[..m][..|s[..m]| - 1] == s[..m - 1] && s[..m][|s[..m]| - 1] == s[m - 1]
  {
  }

  /** The prefix as long as the sequence is the sequence. */
  lemma TakeAll<T>(s: seq<T>)
    ensures s[..|s|] == s
  {
  }

  /** Without its last element, `a + b` is `a` followed by `b` without its last element. */
  lemma DropLastOfAppend<T>(a: seq<T>, b: seq<T>)
    requires b != []
    ensures (a + b)[..|a + b| - 1] == a + b[..|b| - 1] && (a + b)[|a + b| - 1] == b[|b| - 1]
  {
  }

  /** A prefix of a prefix of `a` is a prefix of `a`. */
  lemma PrefixTransitive<T>(a: seq<T>, b: seq<T>, c: seq<T>)
    requires |c| <= |b| <= |a| && a[..|b|] == b && b[..|c|] == c
    ensures a[..|c|] == c
  {
    assert a[..|c|] == a[..|b|][..|c|];
  }

  /** `log` is `start` followed by the first few entries of `entries`, in order. */
  predicate LogPrefix<T(==)>(start: seq<T>, log: seq<T>, entries: seq<T>) {
    |start| <= |log| <= |start| + |entries| && log == start + entries[..|log| - |start|]
  }

  /** Nothing appended yet. */
  lemma LogPrefixEmpty<T>(start: seq<T>, entries: seq<T>)
    ensures LogPrefix(start, start, entries)
  {
    assert start + entries[..0] == start;
  }

  /** A log of the first entries of the front of `entries` is a log of the first entries of `entries`. */
  lemma LogPrefixOfFront<T>(start: seq<T>, log: seq<T>, entries: seq<T>)
    requires entries != [] && LogPrefix(start, log, entries[..|entries| - 1])
    ensures LogPrefix(start, log, entries)
  {
    var k := |log| - |start|;
    assert entries[..|entries| - 1][..k] == entries[..k];
  }

  /** Appending the last entry to a log of the whole front gives a log of all of `entries`. */
  lemma LogPrefixComplete<T>(start: seq<T>, log: seq<T>, log': seq<T>, entries: seq<T>)
    requires entries != [] && log == start + entries[..|entries| - 1] && log' == log + [entries[|entries| - 1]]
    ensures log' == start + entries && LogPrefix(start, log', entries)
  {
    assert entries[..|entries| - 1] + [entries[|entries| - 1]] == entries;
    assert entries[..|log'| - |start|] == entries;
  }

  /** Entry `j` of such a log, past `start`, is the matching entry of `entries`. */
  lemma LogPrefixAt<T>(start: seq<T>, log: seq<T>, entries: seq<T>, j: nat)
    requires LogPrefix(start, log, entries) && |start| <= j < |log|
    ensures log[j] == entries[j - |start|]
  {
  }

  /** The concatenation of a sequence of sequences, in order. */
  function Concat<T>(parts: seq<seq<T>>): seq<T>
    decreases |parts|
  {
    if parts == [] then [] else Concat(parts[..|parts| - 1]) + parts[|parts| - 1]
  }

  /** The concatenation of a non-empty sequence of parts is its first part followed by the concatenation of the rest. */
  lemma {:induction false} ConcatFirst<T>(parts: seq<seq<T>>)
    requires parts != []
    ensures Concat(parts) == parts[0] + Concat(parts[1..])
    decreases |parts|
  {
    var n := |parts|;
    if n == 1 {
      assert parts[..0] == [] && parts[1..] == [];
    } else {
      var front := parts[..n - 1];
      ConcatFirst(front);
      assert front[1..] == parts[1..][..n - 2];
      assert parts[1..][n - 2] == parts[n - 1];
    }
  }
}
