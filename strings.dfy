/** Python's `str.strip`, `str.startswith`, `str.split(sep)` and `sep.join`. */
module Strings {

  /** `c.isspace()`: the characters Python's `str.strip()` removes. */
  predicate IsSpace(c: char) {
    var n := c as int;
    || 0x09 <= n <= 0x0D
    || 0x1C <= n <= 0x20
    || n == 0x85 || n == 0xA0 || n == 0x1680
    || 0x2000 <= n <= 0x200A
    || n == 0x2028 || n == 0x2029 || n == 0x202F || n == 0x205F || n == 0x3000
  }

  /** Drops leading whitespace. */
  function TrimStart(s: string): (r: string)
    ensures |r| <= |s| && r == s[|s| - |r|..]
    ensures r == [] || !IsSpace(r[0])
    ensures forall i :: 0 <= i < |s| - |r| ==> IsSpace(s[i])
    decreases |s|
  {
    if |s| > 0 && IsSpace(s[0]) then TrimStart(s[1..]) else s
  }

  /** Drops trailing whitespace. */
  function TrimEnd(s: string): (r: string)
    ensures |r| <= |s| && r == s[..|r|]
    ensures r == [] || !IsSpace(r[|r| - 1])
    ensures forall i :: |r| <= i < |s| ==> IsSpace(s[i])
    decreases |s|
  {
    if |s| > 0 && IsSpace(s[|s| - 1]) then TrimEnd(s[..|s| - 1]) else s
  }

  /**
   * `s.strip()`: the infix of `s` left after cutting whitespace from both
   * ends; it neither starts nor ends with whitespace, and everything cut
   * before and after it is whitespace.
   */
  function Strip(s: string): (r: string)
    ensures |r| <= |TrimStart(s)| <= |s|
    ensures r == s[|s| - |TrimStart(s)|..][..|r|]
    ensures r == [] || (!IsSpace(r[0]) && !IsSpace(r[|r| - 1]))
    ensures forall i :: 0 <= i < |s| - |TrimStart(s)| ==> IsSpace(s[i])
    ensures forall i :: |s| - |TrimStart(s)| + |r| <= i < |s| ==> IsSpace(s[i])
  {
    TrimEnd(TrimStart(s))
  }

  /** `s.startswith(p)`. */
  predicate StartsWith(s: string, p: string) {
    |p| <= |s| && s[..|p|] == p
  }

  /** `s.endswith(p)`. */
  predicate EndsWith(s: string, p: string) {
    |p| <= |s| && s[|s| - |p|..] == p
  }

  /** A string with whitespace at neither end is its own strip. */
  lemma {:induction false} StripUnpadded(s: string)
    requires s == [] || (!IsSpace(s[0]) && !IsSpace(s[|s| - 1]))
    ensures Strip(s) == s
  {
    assert TrimStart(s) == s;
    assert TrimEnd(s) == s;
  }

  /** `s.split(sep)`: the pieces between separators; never empty. */
  function Split(s: string, sep: char): (parts: seq<string>)
    ensures |parts| >= 1
    ensures forall i :: 0 <= i < |parts| ==> sep !in parts[i]
    decreases |s|
  {
    if |s| == 0 then [""]
    else
      var rest := Split(s[1..], sep);
      if s[0] == sep then [""] + rest else [[s[0]] + rest[0]] + rest[1..]
  }

  /** `sep.join(parts)`. */
  function Join(parts: seq<string>, sep: string): string
    decreases |parts|
  {
    if |parts| == 0 then ""
    else if |parts| == 1 then parts[0]
    else parts[0] + sep + Join(parts[1..], sep)
  }

  /** Joining the pieces of a split with the same separator gives the text back. */
  lemma {:induction false} JoinSplit(s: string, sep: char)
    ensures Join(Split(s, sep), [sep]) == s
    decreases |s|
  {
    if |s| > 0 {
      var rest := Split(s[1..], sep);
      JoinSplit(s[1..], sep);
      assert s == [s[0]] + s[1..];
      if s[0] == sep {
        assert Split(s, sep) == [""] + rest;
        assert ([""] + rest)[1..] == rest;
      } else if |rest| > 1 {
        var parts := Split(s, sep);
        assert parts[1..] == rest[1..];
        assert Join(rest, [sep]) == rest[0] + [sep] + Join(rest[1..], [sep]);
      }
    }
  }

  /** Splitting at a separator splits the two sides independently. */
  lemma {:induction false} SplitAround(a: string, sep: char, b: string)
    ensures Split(a + [sep] + b, sep) == Split(a, sep) + Split(b, sep)
    decreases |a|
  {
    var s := a + [sep] + b;
    if |a| == 0 {
      assert s[1..] == b;
    } else {
      var left := Split(a[1..], sep);
      var right := Split(b, sep);
      assert s[0] == a[0] && s[1..] == a[1..] + [sep] + b;
      SplitAround(a[1..], sep, b);
      assert Split(s[1..], sep) == left + right;
      if a[0] != sep {
        assert Split(s, sep) == [[a[0]] + (left + right)[0]] + (left + right)[1..];
        assert Split(a, sep) == [[a[0]] + left[0]] + left[1..];
        FirstPieceExtended([a[0]], left, right);
      } else {
        assert Split(s, sep) == [""] + (left + right);
        assert Split(a, sep) == [""] + left;
        assert [""] + (left + right) == [""] + left + right;
      }
    }
  }

  /** Extending the first piece of a concatenation extends the first piece of its left part. */
  lemma FirstPieceExtended(x: string, left: seq<string>, right: seq<string>)
    requires |left| >= 1
    ensures [x + (left + right)[0]] + (left + right)[1..] == [x + left[0]] + left[1..] + right
  {
    assert (left + right)[1..] == left[1..] + right;
  }

  /** A string without the separator splits into itself. */
  lemma {:induction false} SplitWithoutSeparator(s: string, sep: char)
    requires sep !in s
    ensures Split(s, sep) == [s]
    decreases |s|
  {
    if |s| > 0 {
      assert sep !in s[1..] by {
        forall i | 0 <= i < |s| - 1 ensures s[1..][i] != sep { assert s[1..][i] == s[i + 1]; }
      }
      SplitWithoutSeparator(s[1..], sep);
      assert s == [s[0]] + s[1..];
    }
  }

  /** Pieces free of the separator come back from a join by a split, in order. */
  lemma {:induction false} SplitJoin(parts: seq<string>, sep: char)
    requires |parts| >= 1
    requires forall i :: 0 <= i < |parts| ==> sep !in parts[i]
    ensures Split(Join(parts, [sep]), sep) == parts
    decreases |parts|
  {
    if |parts| == 1 {
      SplitWithoutSeparator(parts[0], sep);
    } else {
      SplitJoin(parts[1..], sep);
      SplitAround(parts[0], sep, Join(parts[1..], [sep]));
      SplitWithoutSeparator(parts[0], sep);
      assert [parts[0]] + parts[1..] == parts;
    }
  }

  /** A concatenation starts with its first part and ends with its last. */
  lemma ConcatEnds(a: string, b: string)
    ensures StartsWith(a + b, a) && EndsWith(a + b, b)
  {
    assert (a + b)[..|a|] == a;
    assert (a + b)[|a|..] == b;
  }

  /** A concatenation ends with the end of its last part. */
  lemma SuffixOfSuffix(a: string, b: string, c: string)
    ensures EndsWith(a + (b + c), c)
  {
    assert (a + (b + c))[|a + b|..] == c;
  }

  /** Texts that share a lead and then differ in their next character do not prefix each other. */
  lemma Diverge(lead: string, a: string, b: string, tail: string)
    requires a != [] && b != [] && a[0] != b[0]
    ensures !StartsWith(lead + a + tail, lead + b)
  {
    assert (lead + a + tail)[|lead|] == a[0];
    assert |lead + b| > |lead| ==> (lead + b)[|lead|] == b[0];
  }

  /** A text framed by two separator-free lines splits into those lines around the split of the text. */
  lemma {:induction false} SplitFramed(first: string, body: string, last: string, sep: char)
    requires sep !in first && sep !in last
    ensures Split(first + [sep] + body + [sep] + last, sep) == [first] + Split(body, sep) + [last]
  {
    assert first + [sep] + body + [sep] + last == first + [sep] + (body + [sep] + last);
    SplitAround(first, sep, body + [sep] + last);
    SplitAround(body, sep, last);
    SplitWithoutSeparator(first, sep);
    SplitWithoutSeparator(last, sep);
  }

  /** Each item in single quotes, separated by ", ". */
  function QuotedItems(items: seq<string>): string
    decreases |items|
  {
    if |items| == 0 then ""
    else if |items| == 1 then "'" + items[0] + "'"
    else "'" + items[0] + "', " + QuotedItems(items[1..])
  }

  /** `str(list_of_str)` for names that need no escaping: `['a', 'b']`. */
  function PyStrList(items: seq<string>): (r: string)
    ensures StartsWith(r, "[") && EndsWith(r, "]")
    ensures items == [] <==> r == "[]"
    ensures |items| == 1 ==> r == "['" + items[0] + "']"
  {
    var inner := QuotedItems(items);
    assert items != [] ==> |inner| > 0 && inner[0] == '\'';
    "[" + inner + "]"
  }

  /** Each further item is quoted and added after ", " before the closing bracket. */
  lemma PyStrListAppend(items: seq<string>, x: string)
    requires items != []
    ensures var r := PyStrList(items);
      PyStrList(items + [x]) == r[..|r| - 1] + ", '" + x + "']"
  {
    var r := PyStrList(items);
    QuotedItemsAppend(items, x);
    assert r[..|r| - 1] == "[" + QuotedItems(items);
  }

  /** Quoting one more item extends the quoted items by ", " and that item. */
  lemma {:induction false} QuotedItemsAppend(items: seq<string>, x: string)
    requires items != []
    ensures QuotedItems(items + [x]) == QuotedItems(items) + ", '" + x + "'"
    decreases |items|
  {
    var a := items[0];
    if |items| == 1 {
      assert items + [x] == [a, x];
      assert QuotedItems([a, x]) == "'" + a + "', " + QuotedItems([x]);
    } else {
      var rest := items[1..];
      assert (items + [x])[1..] == rest + [x];
      QuotedItemsAppend(rest, x);
      assert QuotedItems(items + [x]) == "'" + a + "', " + QuotedItems(rest + [x]);
    }
  }
}
