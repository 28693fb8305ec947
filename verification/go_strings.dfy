/** Go's strings.TrimSpace, as the playground runner applies it to the text it
    returns on success. A Go string is modelled as a sequence of Unicode scalar
    values (Dafny's char). */
module GoStrings {

  /** unicode.IsSpace: the characters with the Unicode White_Space property.
      In Latin-1 these are '\t', '\n', '\v', '\f', '\r', ' ', U+0085 (NEL) and
      U+00A0 (NBSP); above Latin-1 they are U+1680, U+2000 to U+200A, U+2028,
      U+2029, U+202F, U+205F and U+3000. U+FEFF and U+180E are not white space. */
  predicate IsSpace(c: char) {
    || c == ' '
    || ('\t' <= c <= '\r')
    || c == '\U{85}'
    || c == '\U{A0}'
    || c == '\U{1680}'
    || ('\U{2000}' <= c <= '\U{200A}')
    || c == '\U{2028}'
    || c == '\U{2029}'
    || c == '\U{202F}'
    || c == '\U{205F}'
    || c == '\U{3000}'
  }

  /** Every character of s is white space (true of the empty string). */
  predicate AllSpace(s: string) {
    forall k :: 0 <= k < |s| ==> IsSpace(s[k])
  }

  /** s neither starts nor ends with white space. */
  predicate NoEdgeSpace(s: string) {
    s == [] || (!IsSpace(s[0]) && !IsSpace(s[|s| - 1]))
  }

  /** strings.TrimLeftFunc(s, unicode.IsSpace): the longest suffix of s that
      does not start with white space; what was dropped is all white space. */
  function TrimLeft(s: string): (r: string)
    ensures |r| <= |s| && r == s[|s| - |r|..]
    ensures AllSpace(s[..|s| - |r|])
    ensures r != [] ==> !IsSpace(r[0])
    decreases |s|
  {
    if s != [] && IsSpace(s[0]) then
      var rest := TrimLeft(s[1..]);
      assert s[..|s| - |rest|] == [s[0]] + s[1..][..|s| - 1 - |rest|];
      rest
    else
      s
  }

  /** strings.TrimRightFunc(s, unicode.IsSpace): the longest prefix of s that
      does not end with white space; what was dropped is all white space. */
  function TrimRight(s: string): (r: string)
    ensures |r| <= |s| && r == s[..|r|]
    ensures AllSpace(s[|r|..])
    ensures r != [] ==> !IsSpace(r[|r| - 1])
    decreases |s|
  {
    if s != [] && IsSpace(s[|s| - 1]) then
      var rest := TrimRight(s[..|s| - 1]);
      assert s[|rest|..] == s[..|s| - 1][|rest|..] + [s[|s| - 1]];
      rest
    else
      s
  }

  /** strings.TrimSpace: leading and trailing white space removed. */
  function TrimSpace(s: string): (r: string)
    ensures |r| <= |s|
    ensures NoEdgeSpace(r)
  {
    var left := TrimLeft(s);
    var r := TrimRight(left);
    assert r != [] ==> r[0] == left[0];
    r
  }

  /** s[i..j] is what remains of s when only white space is cut from both ends,
      and nothing more could be cut. */
  ghost predicate IsTrimming(s: string, i: int, j: int) {
    && 0 <= i <= j <= |s|
    && AllSpace(s[..i])
    && AllSpace(s[j..])
    && NoEdgeSpace(s[i..j])
  }

  /** TrimLeft stops exactly at the first character that is not white space. */
  lemma {:induction false} TrimLeftAt(s: string, i: int)
    requires 0 <= i < |s| && AllSpace(s[..i]) && !IsSpace(s[i])
    ensures TrimLeft(s) == s[i..]
    decreases i
  {
    if i > 0 {
      assert s[..i][0] == s[0];
      assert s[1..][..i - 1] == s[..i][1..];
      TrimLeftAt(s[1..], i - 1);
    }
  }

  /** TrimRight stops exactly after the last character that is not white space. */
  lemma {:induction false} TrimRightAt(s: string, j: int)
    requires 0 < j <= |s| && AllSpace(s[j..]) && !IsSpace(s[j - 1])
    ensures TrimRight(s) == s[..j]
    decreases |s| - j
  {
    if j < |s| {
      var init := s[..|s| - 1];
      assert s[j..][|s| - 1 - j] == s[|s| - 1];
      assert init[j..] == s[j..][..|s| - 1 - j];
      assert init[..j] == s[..j];
      TrimRightAt(init, j);
    }
  }

  /** TrimSpace(s) is a trimming of s. */
  lemma TrimSpaceIsTrimming(s: string)
    ensures exists i, j :: IsTrimming(s, i, j) && TrimSpace(s) == s[i..j]
  {
    var left := TrimLeft(s);
    var i := |s| - |left|;
    var j := i + |TrimRight(left)|;
    assert s[j..] == left[|TrimRight(left)|..];
    assert s[i..j] == left[..|TrimRight(left)|];
    assert IsTrimming(s, i, j);
  }

  /** Any trimming of s is TrimSpace(s): the result of TrimSpace is the unique
      text obtained by cutting only white space until both ends are not white
      space. */
  lemma TrimmingIsTrimSpace(s: string, i: int, j: int)
    requires IsTrimming(s, i, j)
    ensures TrimSpace(s) == s[i..j]
  {
    if i == j {
      assert s == s[..i] + s[i..];
      AllSpaceConcat(s[..i], s[i..]);
      TrimSpaceOfBlank(s);
    } else {
      assert s[i..j][0] == s[i];
      TrimLeftAt(s, i);
      var left := s[i..];
      assert left[..j - i] == s[i..j];
      assert left[j - i..] == s[j..];
      assert s[i..j][j - i - 1] == left[j - i - 1];
      TrimRightAt(left, j - i);
    }
  }

  /** Trimming twice changes nothing. */
  lemma TrimSpaceIdempotent(s: string)
    ensures TrimSpace(TrimSpace(s)) == TrimSpace(s)
  {
    var r := TrimSpace(s);
    assert r[0..|r|] == r;
    TrimmingIsTrimSpace(r, 0, |r|);
  }

  /** Text made only of white space, the empty text included, trims to "". */
  lemma TrimSpaceOfBlank(s: string)
    requires AllSpace(s)
    ensures TrimSpace(s) == ""
  {
  }

  /** Joining two blank texts gives a blank text. */
  lemma AllSpaceConcat(a: string, b: string)
    requires AllSpace(a) && AllSpace(b)
    ensures AllSpace(a + b)
  {
  }

  /** A text with a character that is not white space keeps it: it does not
      trim to "". */
  lemma TrimSpaceOfNonBlank(s: string)
    requires !AllSpace(s)
    ensures TrimSpace(s) != ""
  {
    var left := TrimLeft(s);
    assert s[..|s|] == s;
  }

  /** Text after a text that is not blank is untouched by TrimLeft. */
  lemma TrimLeftOfConcat(a: string, x: string)
    requires !AllSpace(a)
    ensures TrimLeft(a + x) == TrimLeft(a) + x
  {
    var left := TrimLeft(a);
    assert left != [] by { assert a[..|a|] == a; }
    var i := |a| - |left|;
    var s := a + x;
    assert s[..i] == a[..i];
    assert s[i] == left[0];
    TrimLeftAt(s, i);
    assert s[i..] == a[i..] + x;
  }

  /** Text before a text that is not blank is untouched by TrimRight. */
  lemma TrimRightOfConcat(y: string, b: string)
    requires !AllSpace(b)
    ensures TrimRight(y + b) == y + TrimRight(b)
  {
    var right := TrimRight(b);
    assert right != [] by { assert b[0..] == b; }
    var j := |y| + |right|;
    var s := y + b;
    assert s[j..] == b[|right|..];
    assert s[j - 1] == right[|right| - 1];
    TrimRightAt(s, j);
    assert s[..j] == y + b[..|right|];
  }

  /** Text placed between two texts that are not blank is kept whole by
      trimming; only the outer edges are cut. */
  lemma TrimSpaceOfInfix(a: string, mid: string, b: string)
    requires !AllSpace(a) && !AllSpace(b)
    ensures TrimSpace(a + mid + b) == TrimLeft(a) + mid + TrimRight(b)
  {
    assert a + mid + b == a + (mid + b);
    TrimLeftOfConcat(a, mid + b);
    assert TrimLeft(a) + (mid + b) == (TrimLeft(a) + mid) + b;
    TrimRightOfConcat(TrimLeft(a) + mid, b);
  }
}
