/** Character-level operations of the Rust standard library that the proxies use. */
module Text {

  // ----- Joining and splitting -----

  /** Joined by a separator. */
  function Join<T>(parts: seq<seq<T>>, sep: T): seq<T> {
    if parts == [] then []
    else if |parts| == 1 then parts[0]
    else parts[0] + [sep] + Join(parts[1..], sep)
  }

  /** Splits at every separator. */
  function Split<T(==)>(s: seq<T>, sep: T): (r: seq<seq<T>>)
    ensures r != []
  {
    if s == [] then [[]]
    else
      var rest := Split(s[1..], sep);
      if s[0] == sep then [[]] + rest else [[s[0]] + rest[0]] + rest[1..]
  }

  lemma {:induction false} SplitFirst<T>(a: seq<T>, b: seq<T>, sep: T)
    requires sep !in a
    ensures Split(a + [sep] + b, sep) == [a] + Split(b, sep)
    ensures Split(a, sep) == [a]
  {
    if a == [] {
      assert a + [sep] + b == [sep] + b;
      assert ([sep] + b)[1..] == b;
    } else {
      assert (a + [sep] + b)[1..] == a[1..] + [sep] + b;
      SplitFirst(a[1..], b, sep);
      assert [a[0]] + a[1..] == a;
    }
  }

  /** Splitting undoes joining when no part has the separator. */
  lemma {:induction false} SplitOfJoin<T>(parts: seq<seq<T>>, sep: T)
    requires parts != [] && forall i :: 0 <= i < |parts| ==> sep !in parts[i]
    ensures Split(Join(parts, sep), sep) == parts
    decreases |parts|
  {
    if |parts| == 1 {
      SplitFirst(parts[0], [], sep);
      assert parts == [parts[0]];
    } else {
      SplitOfJoin(parts[1..], sep);
      SplitFirst(parts[0], Join(parts[1..], sep), sep);
      assert parts == [parts[0]] + parts[1..];
    }
  }

  /** Joining undoes splitting. */
  lemma {:induction false} JoinOfSplit<T>(s: seq<T>, sep: T)
    ensures Join(Split(s, sep), sep) == s
  {
    if s != [] {
      var rest := Split(s[1..], sep);
      JoinOfSplit(s[1..], sep);
      if s[0] == sep {
        assert ([[]] + rest)[1..] == rest;
        assert [] + [sep] + s[1..] == s;
      } else {
        JoinGrows(s[0], rest, sep);
        assert [s[0]] + s[1..] == s;
      }
    }
  }

  lemma JoinGrows<T>(x: T, parts: seq<seq<T>>, sep: T)
    requires parts != []
    ensures Join([[x] + parts[0]] + parts[1..], sep) == [x] + Join(parts, sep)
  {
    var more := [[x] + parts[0]] + parts[1..];
    assert more[1..] == parts[1..];
    if |parts| > 1 {
      assert [x] + parts[0] + [sep] + Join(parts[1..], sep) == [x] + (parts[0] + [sep] + Join(parts[1..], sep));
    }
  }

  /** What stands in some part stands in the whole, and the rest of the whole is separators. */
  lemma {:induction false} JoinHas<T>(parts: seq<seq<T>>, sep: T, x: T)
    requires x != sep
    ensures x in Join(parts, sep) <==> exists i :: 0 <= i < |parts| && x in parts[i]
    decreases |parts|
  {
    if parts != [] {
      JoinHas(parts[1..], sep, x);
      assert x in parts[0] || (exists i :: 0 <= i < |parts| - 1 && x in parts[1..][i])
        <==> exists i :: 0 <= i < |parts| && x in parts[i] by {
        forall i | 0 <= i < |parts| && x in parts[i]
          ensures x in parts[0] || (exists j :: 0 <= j < |parts| - 1 && x in parts[1..][j])
        {
          assert i > 0 ==> parts[1..][i - 1] == parts[i];
        }
      }
    }
  }

  /** Exchanging one part for another changes the whole. */
  lemma {:induction false} JoinTells<T>(parts: seq<seq<T>>, sep: T, i: nat, other: seq<T>)
    requires i < |parts| && other != parts[i]
    ensures Join(parts[i := other], sep) != Join(parts, sep)
    decreases |parts|
  {
    var parts' := parts[i := other];
    if |parts| > 1 {
      if i == 0 {
        assert parts'[1..] == parts[1..];
        SameEnd(parts[0], other, [sep] + Join(parts[1..], sep));
        assert forall a: seq<T> :: a + [sep] + Join(parts[1..], sep) == a + ([sep] + Join(parts[1..], sep));
      } else {
        assert parts'[1..] == parts[1..][i - 1 := other];
        JoinTells(parts[1..], sep, i - 1, other);
        SameStart(parts[0] + [sep], Join(parts'[1..], sep), Join(parts[1..], sep));
      }
    }
  }

  lemma SameEnd<T>(a: seq<T>, b: seq<T>, end: seq<T>)
    requires a != b
    ensures a + end != b + end
  {
    assert a == (a + end)[..|a + end| - |end|] && b == (b + end)[..|b + end| - |end|];
  }

  lemma SameStart<T>(start: seq<T>, a: seq<T>, b: seq<T>)
    requires a != b
    ensures start + a != start + b
  {
    assert a == (start + a)[|start|..] && b == (start + b)[|start|..];
  }

  // ----- White space -----

  /** The Unicode property White_Space. */
  predicate IsSpace(c: char) {
    var n := c as int;
    || 0x09 <= n <= 0x0D || n == 0x20 || n == 0x85 || n == 0xA0 || n == 0x1680
    || 0x2000 <= n <= 0x200A || n == 0x2028 || n == 0x2029 || n == 0x202F || n == 0x205F || n == 0x3000
  }

  predicate NoSpace(s: string) {
    forall i :: 0 <= i < |s| ==> !IsSpace(s[i])
  }

  /** The length of the leading run of characters that are not white space. */
  function WordLength(s: string): (n: nat)
    ensures n <= |s| && NoSpace(s[..n])
    ensures n < |s| ==> IsSpace(s[n])
  {
    if s == "" || IsSpace(s[0]) then 0 else
      var n := WordLength(s[1..]);
      assert s[..1 + n] == [s[0]] + s[1..][..n];
      1 + n
  }

  /** `str::split_whitespace`: the maximal runs without white space. */
  function Words(s: string): seq<string> {
    if s == "" then []
    else if IsSpace(s[0]) then Words(s[1..])
    else
      var n := WordLength(s);
      assert n > 0;
      [s[..n]] + Words(s[n..])
  }

  lemma {:induction false} WordLengthOf(w: string, rest: string)
    requires NoSpace(w) && rest != "" && IsSpace(rest[0])
    ensures WordLength(w + rest) == |w|
  {
    if w == "" {
      assert w + rest == rest;
    } else {
      assert (w + rest)[1..] == w[1..] + rest;
      WordLengthOf(w[1..], rest);
    }
  }

  lemma WordsOf(w: string, rest: string)
    requires w != "" && NoSpace(w) && rest != "" && IsSpace(rest[0])
    ensures Words(w + rest) == [w] + Words(rest[1..])
  {
    WordLengthOf(w, rest);
    assert (w + rest)[0] == w[0];
    assert (w + rest)[..|w|] == w && (w + rest)[|w|..] == rest;
  }

  function TrimStart(s: string): string {
    if s != "" && IsSpace(s[0]) then TrimStart(s[1..]) else s
  }

  function TrimEnd(s: string): string {
    if s != "" && IsSpace(s[|s| - 1]) then TrimEnd(s[..|s| - 1]) else s
  }

  /** `str::trim`. */
  function Trim(s: string): string {
    TrimEnd(TrimStart(s))
  }

  predicate AllSpace(s: string) {
    forall i :: 0 <= i < |s| ==> IsSpace(s[i])
  }

  /** White space in front does not survive trimming. */
  lemma {:induction false} TrimSkips(pad: string, s: string)
    requires AllSpace(pad)
    ensures Trim(pad + s) == Trim(s)
    decreases |pad|
  {
    if pad == "" {
      assert pad + s == s;
    } else {
      assert IsSpace(pad[0]) && (pad + s)[0] == pad[0];
      assert (pad + s)[1..] == pad[1..] + s;
      TrimSkips(pad[1..], s);
    }
  }

  // ----- Decimal numbers -----

  predicate IsDigit(c: char) {
    '0' <= c <= '9'
  }

  function Digit(n: nat): (c: char)
    requires n < 10
    ensures IsDigit(c) && c as int == '0' as int + n
  {
    '0' + n as char
  }

  /** A number as `Display` writes it. */
  function Decimal(n: nat): (s: string)
    ensures s != "" && forall i :: 0 <= i < |s| ==> IsDigit(s[i])
    ensures n > 0 ==> s[0] != '0'
  {
    if n < 10 then [Digit(n)] else Decimal(n / 10) + [Digit(n % 10)]
  }

  function ValueOf(s: string): nat
    requires forall i :: 0 <= i < |s| ==> IsDigit(s[i])
  {
    if s == "" then 0 else
      assert IsDigit(s[|s| - 1]);
      ValueOf(s[..|s| - 1]) * 10 + (s[|s| - 1] as int - '0' as int)
  }

  lemma {:induction false} ValueOfDecimal(n: nat)
    ensures ValueOf(Decimal(n)) == n
    ensures n < 10 ==> |Decimal(n)| == 1
    ensures n >= 10 ==> |Decimal(n)| == |Decimal(n / 10)| + 1
  {
    if n >= 10 {
      var s := Decimal(n);
      assert s[..|s| - 1] == Decimal(n / 10);
      ValueOfDecimal(n / 10);
    } else {
      assert ValueOf([Digit(n)][..0]) == 0;
    }
  }

  /** A number has one decimal text without a leading zero. */
  lemma {:induction false} DecimalOfValue(s: string)
    requires s != "" && (forall i :: 0 <= i < |s| ==> IsDigit(s[i])) && (|s| > 1 ==> s[0] != '0')
    ensures Decimal(ValueOf(s)) == s
    ensures |s| > 1 ==> ValueOf(s) >= 10
    decreases |s|
  {
    var front, last := s[..|s| - 1], s[|s| - 1] as int - '0' as int;
    assert IsDigit(s[|s| - 1]);
    if |s| == 1 {
      assert front == "" && ValueOf(front) == 0;
      assert [Digit(last)] == s;
    } else {
      assert front[0] == s[0] && s[0] != '0';
      DecimalOfValue(front);
      NonZero(front);
      assert ValueOf(s) == ValueOf(front) * 10 + last;
      assert ValueOf(s) / 10 == ValueOf(front) && ValueOf(s) % 10 == last;
      assert s == front + [Digit(last)];
    }
  }

  lemma {:induction false} NonZero(s: string)
    requires s != "" && (forall i :: 0 <= i < |s| ==> IsDigit(s[i])) && s[0] != '0'
    ensures ValueOf(s) > 0
    decreases |s|
  {
    assert IsDigit(s[0]) && IsDigit(s[|s| - 1]);
    if |s| > 1 {
      NonZero(s[..|s| - 1]);
    }
  }

  lemma DecimalLength(n: nat)
    ensures n < 1000 ==> |Decimal(n)| <= 3
    ensures n < 100000 ==> |Decimal(n)| <= 5
  {
    ValueOfDecimal(n);
    ValueOfDecimal(n / 10);
    ValueOfDecimal(n / 10 / 10);
    ValueOfDecimal(n / 10 / 10 / 10);
    ValueOfDecimal(n / 10 / 10 / 10 / 10);
  }
}
