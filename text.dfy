/**
 * The JavaScript string operations the editor relies on: `trim`, `split` on a
 * single character and `join`.
 */
module Text {

  /** The characters `String.prototype.trim` removes: white space and line terminators. */
  const Whitespace: set<char> := {
    '\t', '\n', '\U{000B}', '\U{000C}', '\r', ' ', '\U{00A0}', '\U{1680}',
    '\U{2000}', '\U{2001}', '\U{2002}', '\U{2003}', '\U{2004}', '\U{2005}',
    '\U{2006}', '\U{2007}', '\U{2008}', '\U{2009}', '\U{200A}',
    '\U{2028}', '\U{2029}', '\U{202F}', '\U{205F}', '\U{3000}', '\U{FEFF}'
  }

  predicate IsWhitespace(c: char) {
    c in Whitespace
  }

  /** Neither the first nor the last character is white space. */
  predicate IsTrimmed(s: string) {
    s == "" || (!IsWhitespace(s[0]) && !IsWhitespace(s[|s| - 1]))
  }

  /** The index of the first character at or after `i` that is not white space, or `|s|`. */
  function SkipStart(s: string, i: nat): (j: nat)
    requires i <= |s|
    ensures i <= j <= |s|
    ensures j < |s| ==> !IsWhitespace(s[j])
    ensures forall k :: i <= k < j ==> IsWhitespace(s[k])
    decreases |s| - i
  {
    if i < |s| && IsWhitespace(s[i]) then SkipStart(s, i + 1) else i
  }

  /** The index just past the last character before `j` that is not white space, but not below `i`. */
  function SkipEnd(s: string, i: nat, j: nat): (k: nat)
    requires i <= j <= |s|
    ensures i <= k <= j
    ensures i < k ==> !IsWhitespace(s[k - 1])
    ensures forall m :: k <= m < j ==> IsWhitespace(s[m])
  {
    if i < j && IsWhitespace(s[j - 1]) then SkipEnd(s, i, j - 1) else j
  }

  /**
   * `s.trim()`: the slice of `s` left after dropping the white space at
   * either end; it is empty exactly when `s` is all white space.
   */
  function Trim(s: string): (r: string)
    ensures IsTrimmed(r)
    ensures exists i, j :: 0 <= i <= j <= |s| && r == s[i..j]
              && (forall k :: 0 <= k < i ==> IsWhitespace(s[k]))
              && (forall k :: j <= k < |s| ==> IsWhitespace(s[k]))
    ensures r == "" <==> forall k :: 0 <= k < |s| ==> IsWhitespace(s[k])
  {
    var i := SkipStart(s, 0);
    s[i..SkipEnd(s, i, |s|)]
  }

  /** `trim` only removes characters: what is absent from `s` is absent from `s.trim()`. */
  lemma TrimSubstring(s: string, c: char)
    requires c !in s
    ensures c !in Trim(s)
  {
    var i := SkipStart(s, 0);
    var j := SkipEnd(s, i, |s|);
    assert forall k :: 0 <= k < j - i ==> s[i..j][k] == s[i + k];
  }

  /** A string that is already trimmed is left alone by `trim`. */
  lemma TrimTrimmed(s: string)
    requires IsTrimmed(s)
    ensures Trim(s) == s
  {
    assert SkipStart(s, 0) == 0;
    if s != "" {
      assert SkipEnd(s, 0, |s|) == |s|;
    }
  }

  /** Skipping over a prefix: the indices in `p + s` are those in `s`, shifted by `|p|`. */
  lemma {:induction false} SkipStartShift(p: string, s: string, i: nat)
    requires i <= |s|
    ensures SkipStart(p + s, |p| + i) == |p| + SkipStart(s, i)
    decreases |s| - i
  {
    assert (p + s)[|p| + i..] == s[i..];
    if i < |s| {
      assert (p + s)[|p| + i] == s[i];
      SkipStartShift(p, s, i + 1);
    }
  }

  lemma {:induction false} SkipEndShift(p: string, s: string, i: nat, j: nat)
    requires i <= j <= |s|
    ensures SkipEnd(p + s, |p| + i, |p| + j) == |p| + SkipEnd(s, i, j)
  {
    if i < j {
      assert (p + s)[|p| + j - 1] == s[j - 1];
      SkipEndShift(p, s, i, j - 1);
    }
  }

  lemma StartAfterSpace(s: string)
    ensures SkipStart(" " + s, 0) == 1 + SkipStart(s, 0)
  {
    assert IsWhitespace((" " + s)[0]);
    SkipStartShift(" ", s, 0);
  }

  lemma SliceAfterSpace(s: string, i: nat, j: nat)
    requires i <= j <= |s|
    ensures (" " + s)[1 + i..1 + j] == s[i..j]
  {
    assert (" " + s)[1..] == s;
  }

  /** A leading space makes no difference to `trim`. */
  lemma TrimLeadingSpace(s: string)
    ensures Trim(" " + s) == Trim(s)
  {
    var i := SkipStart(s, 0);
    StartAfterSpace(s);
    SkipEndShift(" ", s, i, |s|);
    SliceAfterSpace(s, i, SkipEnd(s, i, |s|));
  }

  /** `s.split(sep)` for a one-character separator: always at least one piece. */
  function Split(s: string, sep: char): (r: seq<string>)
    ensures |r| >= 1
    ensures forall piece :: piece in r ==> sep !in piece
  {
    if s == "" then [""]
    else
      var rest := Split(s[1..], sep);
      if s[0] == sep then [""] + rest
      else [[s[0]] + rest[0]] + rest[1..]
  }

  /** `xs.join(sep)`. */
  function Join(xs: seq<string>, sep: string): string {
    if xs == [] then ""
    else if |xs| == 1 then xs[0]
    else xs[0] + sep + Join(xs[1..], sep)
  }

  /** `split` loses nothing: joining the pieces with the separator restores the text. */
  lemma {:induction false} JoinSplit(s: string, sep: char)
    ensures Join(Split(s, sep), [sep]) == s
  {
    if s != "" {
      var rest := Split(s[1..], sep);
      JoinSplit(s[1..], sep);
      if s[0] == sep {
        assert Split(s, sep) == [""] + rest;
        assert ([""] + rest)[1..] == rest;
        assert Join([""] + rest, [sep]) == "" + [sep] + Join(rest, [sep]);
        assert s == [s[0]] + s[1..];
      } else if |rest| == 1 {
        assert Split(s, sep) == [[s[0]] + rest[0]];
        assert s == [s[0]] + s[1..];
      } else {
        var tail := rest[1..];
        assert Split(s, sep) == [[s[0]] + rest[0]] + tail;
        assert ([[s[0]] + rest[0]] + tail)[1..] == tail;
        assert Join(rest, [sep]) == rest[0] + [sep] + Join(tail, [sep]);
        assert s == [s[0]] + s[1..];
      }
    }
  }

  /** Splitting text that contains no separator yields the text itself as the only piece. */
  lemma {:induction false} SplitWithoutSeparator(a: string, b: string, sep: char)
    requires sep !in a
    ensures Split(a + b, sep) == [a + Split(b, sep)[0]] + Split(b, sep)[1..]
  {
    if a != "" {
      assert (a + b)[0] == a[0];
      assert (a + b)[1..] == a[1..] + b;
      SplitWithoutSeparator(a[1..], b, sep);
      assert [a[0]] + (a[1..] + Split(b, sep)[0]) == a + Split(b, sep)[0];
    } else {
      assert a + b == b;
      var r := Split(b, sep);
      assert a + r[0] == r[0];
      assert r == [r[0]] + r[1..];
    }
  }

  /** `xs.map(s => s.trim())`. */
  function TrimEach(xs: seq<string>): (r: seq<string>)
    ensures |r| == |xs|
    ensures forall i :: 0 <= i < |xs| ==> r[i] == Trim(xs[i])
  {
    if xs == [] then [] else [Trim(xs[0])] + TrimEach(xs[1..])
  }

  /** Trimming the pieces of a comma split leaves each piece trimmed and free of commas. */
  lemma TrimmedPieces(text: string)
    ensures SafeEntries(TrimEach(Split(text, ',')))
  {
    var pieces := Split(text, ',');
    forall i | 0 <= i < |pieces|
      ensures ',' !in Trim(pieces[i])
    {
      assert pieces[i] in pieces;
      TrimSubstring(pieces[i], ',');
    }
  }

  /** A list of entries that are trimmed and free of commas, joined with `", "`. */
  predicate SafeEntries(xs: seq<string>) {
    forall i :: 0 <= i < |xs| ==> IsTrimmed(xs[i]) && ',' !in xs[i]
  }

  lemma TrimEachCons(x: string, ys: seq<string>)
    ensures TrimEach([x] + ys) == [Trim(x)] + TrimEach(ys)
  {
    assert ([x] + ys)[1..] == ys;
  }

  /** The pieces of `a + ", " + j` are `a`, then the first piece of `j` behind a space, then the rest of `j`'s pieces. */
  lemma SplitCommaSpace(a: string, j: string)
    requires ',' !in a
    ensures Split(a + ", " + j, ',') == [a] + ([" " + Split(j, ',')[0]] + Split(j, ',')[1..])
  {
    assert a + ", " + j == a + (", " + j);
    SplitWithoutSeparator(a, ", " + j, ',');
    assert (", " + j)[1..] == " " + j;
    assert Split(", " + j, ',') == [""] + Split(" " + j, ',');
    SplitWithoutSeparator(" ", j, ',');
    assert a + "" == a;
  }

  /** A space in front of the first piece disappears when the pieces are trimmed. */
  lemma TrimSpacedPieces(p: seq<string>)
    requires |p| >= 1
    ensures TrimEach([" " + p[0]] + p[1..]) == TrimEach(p)
  {
    TrimEachCons(" " + p[0], p[1..]);
    TrimLeadingSpace(p[0]);
  }

  /** Trimming the pieces of `a + ", " + j` gives `a` followed by the trimmed pieces of `j`. */
  lemma TrimPieces(a: string, p: seq<string>)
    requires IsTrimmed(a) && |p| >= 1
    ensures TrimEach([a] + ([" " + p[0]] + p[1..])) == [a] + TrimEach(p)
  {
    TrimTrimmed(a);
    TrimEachCons(a, [" " + p[0]] + p[1..]);
    TrimSpacedPieces(p);
  }

  /**
   * Joining safe entries with `", "`, splitting at `','` and trimming every
   * piece gives back the entries.
   */
  lemma {:induction false} TrimSplitJoin(xs: seq<string>)
    requires xs != [] && SafeEntries(xs)
    ensures TrimEach(Split(Join(xs, ", "), ',')) == xs
  {
    var a := xs[0];
    TrimTrimmed(a);
    if |xs| == 1 {
      SplitWithoutSeparator(a, "", ',');
      assert a + "" == a;
      assert Split(a, ',') == [a];
    } else {
      var rest := xs[1..];
      var j := Join(rest, ", ");
      assert Join(xs, ", ") == a + ", " + j;
      SplitCommaSpace(a, j);
      TrimPieces(a, Split(j, ','));
      TrimSplitJoin(rest);
      assert xs == [a] + rest;
    }
  }
}
