/** `String.split` with a one-character pattern and `String.replace` of one character by
    nothing, as `java.lang.String` defines them. */
module JavaStrings {

  /** Every field between occurrences of `sep`, empty ones included (the split with a
      negative limit). */
  function SplitAll(s: string, sep: char): (parts: seq<string>)
    ensures |parts| >= 1
    decreases |s|
  {
    if |s| == 0 then [""]
    else
      var rest := SplitAll(s[1..], sep);
      if s[0] == sep then [""] + rest else [[s[0]] + rest[0]] + rest[1..]
  }

  /** The inverse of `SplitAll`: the fields glued back together with `sep`. */
  function Join(parts: seq<string>, sep: char): string
    requires |parts| >= 1
  {
    if |parts| == 1 then parts[0] else parts[0] + [sep] + Join(parts[1..], sep)
  }

  /** The part of `parts` that remains once the empty strings at its end are dropped. */
  function DropTrailingEmpty(parts: seq<string>): (kept: seq<string>)
    ensures |kept| <= |parts| && kept == parts[..|kept|]
    ensures |kept| > 0 ==> kept[|kept| - 1] != ""
    ensures forall k :: |kept| <= k < |parts| ==> parts[k] == ""
  {
    if |parts| == 0 then []
    else if parts[|parts| - 1] == "" then DropTrailingEmpty(parts[..|parts| - 1])
    else parts
  }

  /** `s.split(String.valueOf(sep))`: when `sep` does not occur the answer is `[s]` (even for
      the empty string); otherwise every field, less the empty fields at the end. */
  function Split(s: string, sep: char): (parts: seq<string>)
    ensures |parts| <= |SplitAll(s, sep)| && parts == SplitAll(s, sep)[..|parts|]
    ensures forall k :: |parts| <= k < |SplitAll(s, sep)| ==> SplitAll(s, sep)[k] == ""
  {
    if sep !in s then
      SplitAllCount(s, sep);
      assert multiset(s)[sep] == 0;
      JoinSplitAll(s, sep);
      [s]
    else DropTrailingEmpty(SplitAll(s, sep))
  }

  /** `s.replace(String.valueOf(c), "")`. */
  function RemoveAll(s: string, c: char): (r: string)
    ensures c !in r
    ensures |r| <= |s|
    ensures forall x :: x != c ==> multiset(r)[x] == multiset(s)[x]
  {
    if |s| == 0 then ""
    else
      assert s == [s[0]] + s[1..];
      if s[0] == c then RemoveAll(s[1..], c) else [s[0]] + RemoveAll(s[1..], c)
  }

  /** Removal keeps the order of what remains: one character is dropped exactly when it is
      `c`, and a concatenation is cleaned part by part. */
  lemma RemoveAllSingle(x: char, c: char)
    ensures RemoveAll([x], c) == if x == c then "" else [x]
  {
    assert [x][1..] == "";
  }

  lemma {:induction false} RemoveAllAppend(a: string, b: string, c: char)
    ensures RemoveAll(a + b, c) == RemoveAll(a, c) + RemoveAll(b, c)
    decreases |a|
  {
    if |a| > 0 {
      assert (a + b)[0] == a[0] && (a + b)[1..] == a[1..] + b;
      RemoveAllAppend(a[1..], b, c);
    } else {
      assert a + b == b;
    }
  }

  /** Removing a character that does not occur changes nothing, so the source's
      `if (str.contains("\r")) str = str.replace("\r", "")` is `RemoveAll` alone. */
  lemma {:induction false} RemoveAllAbsent(s: string, c: char)
    requires c !in s
    ensures RemoveAll(s, c) == s
  {
    if |s| > 0 {
      RemoveAllAbsent(s[1..], c);
    }
  }

  /** Gluing the fields back together gives the string that was split. */
  lemma {:induction false} JoinSplitAll(s: string, sep: char)
    ensures Join(SplitAll(s, sep), sep) == s
    decreases |s|
  {
    if |s| > 0 {
      JoinSplitAll(s[1..], sep);
      var rest := SplitAll(s[1..], sep);
      if s[0] != sep {
        if |rest| == 1 {
          assert SplitAll(s, sep) == [[s[0]] + rest[0]];
        } else {
          assert SplitAll(s, sep)[1..] == rest[1..];
        }
      }
    }
  }

  /** No field contains the separator. */
  lemma {:induction false} SplitAllFieldsFree(s: string, sep: char)
    ensures forall k :: 0 <= k < |SplitAll(s, sep)| ==> sep !in SplitAll(s, sep)[k]
    decreases |s|
  {
    if |s| > 0 {
      SplitAllFieldsFree(s[1..], sep);
    }
  }

  /** There is one field more than there are separators. */
  lemma {:induction false} SplitAllCount(s: string, sep: char)
    ensures |SplitAll(s, sep)| == multiset(s)[sep] + 1
    decreases |s|
  {
    if |s| > 0 {
      SplitAllCount(s[1..], sep);
      assert s == [s[0]] + s[1..];
    }
  }

  /** What `Split` returns: a prefix of the full split, only empty fields dropped, no field
      holding the separator, and at least one field when the separator does not occur. */
  lemma SplitIsPrefixOfSplitAll(s: string, sep: char)
    ensures |Split(s, sep)| <= |SplitAll(s, sep)|
    ensures Split(s, sep) == SplitAll(s, sep)[..|Split(s, sep)|]
    ensures forall k :: |Split(s, sep)| <= k < |SplitAll(s, sep)| ==> SplitAll(s, sep)[k] == ""
    ensures forall k :: 0 <= k < |Split(s, sep)| ==> sep !in Split(s, sep)[k]
    ensures sep !in s ==> Split(s, sep) == [s]
  {
    SplitAllFieldsFree(s, sep);
    if sep !in s {
      SplitAllCount(s, sep);
      assert multiset(s)[sep] == 0;
      JoinSplitAll(s, sep);
    }
  }
}
