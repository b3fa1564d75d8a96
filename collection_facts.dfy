/** Small facts about sequences and maps, proved once in a context with nothing else in it. */
module CollectionFacts {

  /** A non-empty sequence is its prefix followed by its last element. */
  lemma PrefixAndLast<T>(s: seq<T>)
    requires s != []
    ensures s[..|s| - 1] + [s[|s| - 1]] == s
  {
  }

  /** The head and tail of a concatenation whose first part is non-empty. */
  lemma HeadAndTail<T>(a: seq<T>, b: seq<T>)
    requires a != []
    ensures (a + b)[0] == a[0] && (a + b)[1..] == a[1..] + b
  {
  }

  /** The elements of a non-empty sequence are its head together with those of its tail. */
  lemma MultisetOfHeadAndTail<T>(s: seq<T>)
    requires s != []
    ensures multiset(s) == multiset{s[0]} + multiset(s[1..])
  {
    assert s == [s[0]] + s[1..];
  }

  lemma AppendTwo<T>(s: seq<T>, a: seq<T>, b: seq<T>)
    ensures s + a + b == s + (a + b)
  {
  }

  /** Appending four pieces one at a time is appending them all at once. */
  lemma AppendFour<T>(s: seq<T>, a: seq<T>, b: seq<T>, c: seq<T>, d: seq<T>)
    ensures s + a + b + c + d == s + (a + b + c + d)
  {
    assert s + a + b == s + (a + b);
    assert s + (a + b) + c == s + (a + b + c);
    assert s + (a + b + c) + d == s + (a + b + c + d);
  }

  /** Two maps with the same keys and the same value under every key are equal. */
  lemma MapsEqual<K, V>(x: map<K, V>, y: map<K, V>)
    requires x.Keys == y.Keys
    requires forall k :: k in x ==> x[k] == y[k]
    ensures x == y
  {
  }
}
