/**
 * The comma-separated list syntax of HTTP field values (section 5.6.1 of
 * RFC 9110), as far as a client needs it to read an `Allow` header: split at
 * commas, then strip optional whitespace (SP and HTAB) around each element.
 */
module HttpLists {

  /** Optional whitespace: a space or a horizontal tab. */
  predicate IsOws(c: char) {
    c == ' ' || c == '\t'
  }

  /** The parts written one after another with a comma between neighbours. */
  function JoinWithCommas(parts: seq<string>): string
    requires |parts| >= 1
    decreases |parts|
  {
    if |parts| == 1 then parts[0] else parts[0] + "," + JoinWithCommas(parts[1..])
  }

  /** Cuts `s` at every comma; joining the parts again gives back `s`. */
  function SplitAtCommas(s: string): (parts: seq<string>)
    ensures |parts| >= 1
    ensures forall i :: 0 <= i < |parts| ==> ',' !in parts[i]
    ensures JoinWithCommas(parts) == s
    decreases |s|
  {
    if s == [] then [[]]
    else
      var rest := SplitAtCommas(s[1..]);
      if s[0] == ',' then
        [[]] + rest
      else
        var parts := [[s[0]] + rest[0]] + rest[1..];
        assert parts[1..] == rest[1..];
        assert s == [s[0]] + s[1..];
        parts
  }

  /** `t` is `s[i..j]`, and everything of `s` before `i` and from `j` on is optional whitespace. */
  predicate IsTrimOf(s: string, t: string, i: int, j: int) {
    && 0 <= i <= j <= |s|
    && t == s[i..j]
    && (forall k :: 0 <= k < i ==> IsOws(s[k]))
    && (forall k :: j <= k < |s| ==> IsOws(s[k]))
  }

  /** A leading space or tab widens the whitespace cut off in front. */
  lemma TrimPastLeadingOws(s: string, t: string, i: int, j: int)
    requires s != [] && IsOws(s[0]) && IsTrimOf(s[1..], t, i, j)
    ensures IsTrimOf(s, t, i + 1, j + 1)
  {
    assert s[1..][i..j] == s[i + 1..j + 1];
    forall k | j + 1 <= k < |s| ensures IsOws(s[k]) {
      assert s[k] == s[1..][k - 1];
    }
    forall k | 0 <= k < i + 1 ensures IsOws(s[k]) {
      if k > 0 { assert s[k] == s[1..][k - 1]; }
    }
  }

  /** A trailing space or tab widens the whitespace cut off behind. */
  lemma TrimPastTrailingOws(s: string, t: string, i: int, j: int)
    requires s != [] && IsOws(s[|s| - 1]) && IsTrimOf(s[..|s| - 1], t, i, j)
    ensures IsTrimOf(s, t, i, j)
  {
    assert s[..|s| - 1][i..j] == s[i..j];
    forall k | j <= k < |s| ensures IsOws(s[k]) {
      if k < |s| - 1 { assert s[k] == s[..|s| - 1][k]; }
    }
    forall k | 0 <= k < i ensures IsOws(s[k]) {
      assert s[k] == s[..|s| - 1][k];
    }
  }

  /** `s` without its leading and trailing optional whitespace. */
  function TrimOws(s: string): (t: string)
    ensures exists i, j :: IsTrimOf(s, t, i, j)
    ensures t == [] || (!IsOws(t[0]) && !IsOws(t[|t| - 1]))
    ensures (s == [] || (!IsOws(s[0]) && !IsOws(s[|s| - 1]))) ==> t == s
    decreases |s|
  {
    if s != [] && IsOws(s[0]) then
      var t := TrimOws(s[1..]);
      var i, j :| IsTrimOf(s[1..], t, i, j);
      TrimPastLeadingOws(s, t, i, j);
      t
    else if s != [] && IsOws(s[|s| - 1]) then
      var t := TrimOws(s[..|s| - 1]);
      var i, j :| IsTrimOf(s[..|s| - 1], t, i, j);
      TrimPastTrailingOws(s, t, i, j);
      t
    else
      assert IsTrimOf(s, s, 0, |s|);
      s
  }

  /** The elements of a list-valued field value, in order. */
  function ListMembers(s: string): (members: seq<string>)
  {
    var parts := SplitAtCommas(s);
    seq(|parts|, i requires 0 <= i < |parts| => TrimOws(parts[i]))
  }

  /** A value without commas is a single element. */
  lemma {:induction false} SplitCommaFree(s: string)
    requires ',' !in s
    ensures SplitAtCommas(s) == [s]
    decreases |s|
  {
    if s != [] {
      SplitCommaFree(s[1..]);
      assert [s[0]] + s[1..] == s;
    }
  }

  /** Splitting reads the value up to its first comma as the first element. */
  lemma {:induction false} SplitAtFirstComma(a: string, b: string)
    requires ',' !in a
    ensures SplitAtCommas(a + "," + b) == [a] + SplitAtCommas(b)
    decreases |a|
  {
    var s := a + "," + b;
    if a == [] {
      assert s[1..] == b;
    } else {
      assert s[1..] == a[1..] + "," + b;
      SplitAtFirstComma(a[1..], b);
      assert [a[0]] + a[1..] == a;
    }
  }

  /** A text with no comma and no optional whitespace at either end. */
  predicate IsBareElement(x: string) {
    ',' !in x && (x == [] || (!IsOws(x[0]) && !IsOws(x[|x| - 1])))
  }

  /** Splitting a comma-joined list of comma-free parts gives the parts back. */
  lemma {:induction false} SplitJoin(xs: seq<string>)
    requires |xs| >= 1
    requires forall i :: 0 <= i < |xs| ==> ',' !in xs[i]
    ensures SplitAtCommas(JoinWithCommas(xs)) == xs
    decreases |xs|
  {
    if |xs| == 1 {
      SplitCommaFree(xs[0]);
    } else {
      SplitJoin(xs[1..]);
      SplitAtFirstComma(xs[0], JoinWithCommas(xs[1..]));
      assert [xs[0]] + xs[1..] == xs;
    }
  }

  /** Reading back a list written from bare elements gives exactly those elements. */
  lemma ListMembersOfJoin(xs: seq<string>)
    requires |xs| >= 1
    requires forall i :: 0 <= i < |xs| ==> IsBareElement(xs[i])
    ensures ListMembers(JoinWithCommas(xs)) == xs
  {
    SplitJoin(xs);
  }
}
