/** Small value types and string helpers shared by the page and service models.
    JavaScript's `toLowerCase` and `trim` are modelled on ASCII only. */
module Common {

  datatype Option<+T> = None | Some(value: T)

  datatype Result<+T, +E> = Ok(value: T) | Err(error: E)

  // ---------------------------------------------------------------------------
  // The signed-in user's profile, as the authentication context supplies it

  datatype UserType = Developer | Company

  /** `UserProfile`; optional fields are `None` when absent. The photo URL and the
      timestamps are not read by any modelled code. */
  datatype UserProfile = UserProfile(
    uid: string,
    email: string,
    displayName: string,
    userType: UserType,
    bio: Option<string>,
    website: Option<string>,
    location: Option<string>,
    skills: Option<seq<string>>,
    companyName: Option<string>,
    contactPerson: Option<string>,
    companyWebsite: Option<string>,
    verified: Option<bool>)

  /** `x || ''` for an optional string field. */
  function OrEmpty(x: Option<string>): string
  {
    if x.Some? then x.value else ""
  }

  // ---------------------------------------------------------------------------
  // Case folding (ASCII)

  function LowerChar(c: char): char
  {
    if 'A' <= c <= 'Z' then (c as int + 32) as char else c
  }

  /** `s.toLowerCase()`, restricted to ASCII letters. */
  function Lower(s: string): (r: string)
    ensures |r| == |s|
    ensures forall i :: 0 <= i < |s| ==> r[i] == LowerChar(s[i])
  {
    seq(|s|, i requires 0 <= i < |s| => LowerChar(s[i]))
  }

  lemma LowerIdempotent(s: string)
    ensures Lower(Lower(s)) == Lower(s)
  {
    assert forall i :: 0 <= i < |s| ==> LowerChar(LowerChar(s[i])) == LowerChar(s[i]);
  }

  // ---------------------------------------------------------------------------
  // Substrings

  /** `s.includes(t)`: `t` occurs in `s` at some offset; the empty string occurs everywhere. */
  predicate Contains(s: string, t: string)
  {
    exists i | 0 <= i <= |s| :: OccursAt(s, t, i)
  }

  /** `t` occurs in `s` starting at offset `i`. */
  predicate OccursAt(s: string, t: string, i: int)
  {
    0 <= i && i + |t| <= |s| && s[i..i + |t|] == t
  }

  /** `s.endsWith(suffix)` */
  predicate EndsWith(s: string, suffix: string)
  {
    |suffix| <= |s| && s[|s| - |suffix|..] == suffix
  }

  // ---------------------------------------------------------------------------
  // Whitespace trimming (ASCII white space: space, tab, LF, VT, FF, CR)

  predicate IsSpace(c: char)
  {
    c == ' ' || c == '\t' || c == '\n' || c == '\r' || c as int == 11 || c as int == 12
  }

  /** Neither end of `s` is white space. */
  predicate Trimmed(s: string)
  {
    s == [] || (!IsSpace(s[0]) && !IsSpace(s[|s| - 1]))
  }

  function TrimStart(s: string): (r: string)
    ensures |r| <= |s| && r == s[|s| - |r|..]
    ensures r == [] || !IsSpace(r[0])
  {
    if |s| > 0 && IsSpace(s[0]) then TrimStart(s[1..]) else s
  }

  function TrimEnd(s: string): (r: string)
    ensures |r| <= |s| && r == s[..|r|]
    ensures r == [] || !IsSpace(r[|r| - 1])
  {
    if |s| > 0 && IsSpace(s[|s| - 1]) then TrimEnd(s[..|s| - 1]) else s
  }

  lemma TrimEndKeepsStart(s: string)
    requires s == [] || !IsSpace(s[0])
    ensures TrimEnd(s) == [] || !IsSpace(TrimEnd(s)[0])
  {
    var r := TrimEnd(s);
    if r != [] {
      assert r[0] == s[0];
    }
  }

  /** `s.trim()`: `s` without its leading and trailing white space. */
  function Trim(s: string): (r: string)
    ensures Trimmed(r)
    ensures forall c :: c in r ==> c in s
    ensures Trimmed(s) ==> r == s
  {
    var t := TrimStart(s);
    TrimEndKeepsStart(t);
    var r := TrimEnd(t);
    assert Trimmed(s) ==> t == s && r == s;
    assert forall c :: c in r ==> c in t;
    assert forall c :: c in t ==> c in s;
    r
  }

  /** Every character of `s[lo..hi]` is white space. */
  predicate SpaceOnly(s: string, lo: int, hi: int)
    requires 0 <= lo <= hi <= |s|
  {
    forall k :: lo <= k < hi ==> IsSpace(s[k])
  }

  /** `r` occurs in `s` at offset `lo`. */
  predicate IsSliceAt(r: string, s: string, lo: int)
  {
    0 <= lo && lo + |r| <= |s| && r == s[lo..lo + |r|]
  }

  /** `TrimStart` drops nothing but white space. */
  lemma {:induction false} TrimStartDropsSpace(s: string)
    ensures |TrimStart(s)| <= |s| && SpaceOnly(s, 0, |s| - |TrimStart(s)|)
  {
    if |s| > 0 && IsSpace(s[0]) {
      TrimStartDropsSpace(s[1..]);
      forall k | 1 <= k < |s| - |TrimStart(s)|
        ensures IsSpace(s[k])
      {
        assert s[k] == s[1..][k - 1];
      }
    }
  }

  /** `TrimEnd` drops nothing but white space. */
  lemma {:induction false} TrimEndDropsSpace(s: string)
    ensures |TrimEnd(s)| <= |s| && SpaceOnly(s, |TrimEnd(s)|, |s|)
  {
    if |s| > 0 && IsSpace(s[|s| - 1]) {
      TrimEndDropsSpace(s[..|s| - 1]);
      forall k | |TrimEnd(s)| <= k < |s| - 1
        ensures IsSpace(s[k])
      {
        assert s[k] == s[..|s| - 1][k];
      }
    }
  }

  /** `Trim(s)` is the slice of `s` that starts after its leading white space; only white
      space lies before and after it. */
  lemma TrimDropsOnlySpace(s: string)
    ensures |Trim(s)| <= |TrimStart(s)| <= |s|
    ensures IsSliceAt(Trim(s), s, |s| - |TrimStart(s)|)
    ensures SpaceOnly(s, 0, |s| - |TrimStart(s)|)
    ensures SpaceOnly(s, |s| - |TrimStart(s)| + |Trim(s)|, |s|)
  {
    var t := TrimStart(s);
    var r := Trim(s);
    assert r == TrimEnd(t);
    TrimStartDropsSpace(s);
    TrimEndDropsSpace(t);
    SliceOfSlice(s, t, r);
  }

  /** A prefix of a suffix of `s` is a slice of `s`; white space after the prefix within the
      suffix is white space within `s`. */
  lemma SliceOfSlice(s: string, t: string, r: string)
    requires |t| <= |s| && t == s[|s| - |t|..]
    requires |r| <= |t| && r == t[..|r|] && SpaceOnly(t, |r|, |t|)
    ensures IsSliceAt(r, s, |s| - |t|)
    ensures SpaceOnly(s, |s| - |t| + |r|, |s|)
  {
    var a := |s| - |t|;
    assert r == s[a..a + |r|];
    forall k | a + |r| <= k < |s|
      ensures IsSpace(s[k])
    {
      assert s[k] == t[k - a];
    }
  }

  /** A single leading space disappears when the rest is already trimmed and non-empty. */
  lemma TrimLeadingSpace(x: string)
    requires x != [] && Trimmed(x)
    ensures Trim(" " + x) == x
  {
    assert (" " + x)[1..] == x;
    assert TrimStart(" " + x) == x;
  }

  // ---------------------------------------------------------------------------
  // Splitting and joining

  /** Position of the first `c` in `s`, or `|s|` when there is none. */
  function IndexOf(s: string, c: char): (i: nat)
    ensures i <= |s|
    ensures i < |s| ==> s[i] == c
    ensures forall k :: 0 <= k < i ==> s[k] != c
  {
    if |s| == 0 then 0 else if s[0] == c then 0 else 1 + IndexOf(s[1..], c)
  }

  /** `s.split(c)` for a one-character separator: always at least one part, none containing `c`. */
  function Split(s: string, c: char): (parts: seq<string>)
    ensures |parts| >= 1
    ensures forall p :: p in parts ==> c !in p
    decreases |s|
  {
    var i := IndexOf(s, c);
    if i == |s| then [s] else [s[..i]] + Split(s[i + 1..], c)
  }

  /** `parts.join(sep)` */
  function Join(parts: seq<string>, sep: string): string
  {
    if |parts| == 0 then ""
    else if |parts| == 1 then parts[0]
    else parts[0] + sep + Join(parts[1..], sep)
  }

  /** Splitting and re-joining with the same separator gives the original string back. */
  lemma {:induction false} JoinSplit(s: string, c: char)
    ensures Join(Split(s, c), [c]) == s
    decreases |s|
  {
    var i := IndexOf(s, c);
    if i < |s| {
      var head, rest := s[..i], s[i + 1..];
      assert s == head + [c] + rest;
      assert c !in head by {
        forall k | 0 <= k < |head| ensures head[k] != c {
          assert head[k] == s[k];
        }
      }
      SplitFirst(head, c, rest);
      JoinSplit(rest, c);
      JoinCons(head, [c], Split(rest, c));
    }
  }



  /** Joining a list with a first element puts the separator right after it. */
  lemma JoinCons(a: string, sep: string, parts: seq<string>)
    requires |parts| >= 1
    ensures Join([a] + parts, sep) == a + sep + Join(parts, sep)
  {
    assert ([a] + parts)[1..] == parts;
  }

  /** The separator ", " is a comma followed by a space. */
  lemma CommaSpace(x: string, y: string)
    ensures x + ", " + y == x + [','] + (" " + y)
  {
  }

  /** A string without the separator splits into itself alone. */
  lemma SplitWhole(a: string, c: char)
    requires c !in a
    ensures Split(a, c) == [a]
  {
    assert IndexOf(a, c) == |a|;
  }

  /** A string splits first at its first separator. */
  lemma SplitFirst(a: string, c: char, b: string)
    requires c !in a
    ensures Split(a + [c] + b, c) == [a] + Split(b, c)
  {
    var s := a + [c] + b;
    assert s[|a|] == c;
    assert forall k :: 0 <= k < |a| ==> s[k] == a[k];
    assert IndexOf(s, c) == |a|;
    assert s[..|a|] == a;
    assert s[|a| + 1..] == b;
  }

  /** Splitting `pre + Join(items, ", ")` on ',' gives `pre + items[0]` followed by each
      later item with the one space that followed its comma. */
  lemma {:induction false} SplitJoinComma(pre: string, items: seq<string>)
    requires |items| >= 1
    requires ',' !in pre
    requires forall x :: x in items ==> ',' !in x
    ensures var parts := Split(pre + Join(items, ", "), ',');
            |parts| == |items| && parts[0] == pre + items[0] &&
            forall k :: 1 <= k < |items| ==> parts[k] == " " + items[k]
    decreases |items|
  {
    var first := pre + items[0];
    assert items[0] in items;
    assert ',' !in first;
    if |items| == 1 {
      assert pre + Join(items, ", ") == first;
      SplitWhole(first, ',');
    } else {
      var rest := items[1..];
      var tail := " " + Join(rest, ", ");
      assert items == [items[0]] + rest;
      JoinCons(items[0], ", ", rest);
      CommaSpace(first, Join(rest, ", "));
      assert pre + Join(items, ", ") == first + [','] + tail;
      SplitFirst(first, ',', tail);
      assert forall x :: x in rest ==> x in items;
      SplitJoinComma(" ", rest);
      ShiftedParts(first, Split(tail, ','), items);
    }
  }

  /** The pieces after the first one, each behind one space, shifted by one place. */
  lemma ShiftedParts(first: string, later: seq<string>, items: seq<string>)
    requires |items| >= 2 && |later| == |items| - 1
    requires later[0] == " " + items[1..][0]
    requires forall k :: 1 <= k < |items| - 1 ==> later[k] == " " + items[1..][k]
    ensures |[first] + later| == |items| && ([first] + later)[0] == first
    ensures forall k :: 1 <= k < |items| ==> ([first] + later)[k] == " " + items[k]
  {
    forall k | 1 <= k < |items|
      ensures ([first] + later)[k] == " " + items[k]
    {
      assert ([first] + later)[k] == later[k - 1];
      assert items[1..][k - 1] == items[k];
    }
  }




  // ---------------------------------------------------------------------------
  // Lists used as sets

  /** No element occurs twice. */
  predicate NoDuplicates<T(==)>(s: seq<T>)
  {
    forall i, j :: 0 <= i < j < |s| ==> s[i] != s[j]
  }

  /** `s.filter(y => y !== x)` */
  function RemoveAll(s: seq<string>, x: string): (r: seq<string>)
    ensures |r| <= |s|
    ensures forall y :: y in r <==> y in s && y != x
    ensures forall y :: multiset(r)[y] == if y == x then 0 else multiset(s)[y]
  {
    if s == [] then []
    else
      assert s == [s[0]] + s[1..];
      if s[0] == x then RemoveAll(s[1..], x)
      else [s[0]] + RemoveAll(s[1..], x)
  }

  /** `r` is `s` with some elements dropped, the rest kept in order. */
  predicate IsSubsequence<T(==)>(r: seq<T>, s: seq<T>)
    decreases |s|
  {
    r == [] ||
    (s != [] && ((r[0] == s[0] && IsSubsequence(r[1..], s[1..])) || IsSubsequence(r, s[1..])))
  }

  /** `RemoveAll` keeps the other elements in their order and preserves distinctness. */
  lemma {:induction false} RemoveAllOrder(s: seq<string>, x: string)
    ensures IsSubsequence(RemoveAll(s, x), s)
    ensures NoDuplicates(s) ==> NoDuplicates(RemoveAll(s, x))
  {
    if s == [] {
    } else {
      RemoveAllOrder(s[1..], x);
      if NoDuplicates(s) {
        assert NoDuplicates(s[1..]);
        assert s[0] !in s[1..];
      }
    }
  }
}
