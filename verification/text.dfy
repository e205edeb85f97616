/** The handful of JavaScript string operations the studio relies on:
    `trim`, `replace` with a one-character pattern, `split(' ')[0]`,
    `Array.prototype.join` and `Number.prototype.toString`. */
module Text {
  import opened Wrappers
  import opened Seqs

  /** The characters `String.prototype.trim` removes: ECMAScript's WhiteSpace
      code points (tab, vertical tab, form feed, space, no-break space, byte
      order mark and the other space separators) and its LineTerminator code
      points. */
  predicate IsWhitespace(c: char) {
    || c == '\t' || c == '\n' || c == '\U{000B}' || c == '\U{000C}' || c == '\r'
    || c == ' ' || c == '\U{00A0}' || c == '\U{1680}'
    || ('\U{2000}' <= c <= '\U{200A}')
    || c == '\U{2028}' || c == '\U{2029}' || c == '\U{202F}' || c == '\U{205F}'
    || c == '\U{3000}' || c == '\U{FEFF}'
  }

  /** A string holding nothing but white space (the empty string included). */
  predicate IsBlank(s: string) {
    forall i :: 0 <= i < |s| ==> IsWhitespace(s[i])
  }

  /** Length of the white-space run that opens `s`. */
  function LeadingSpace(s: string): (n: nat)
    ensures n <= |s|
    ensures forall i :: 0 <= i < n ==> IsWhitespace(s[i])
    ensures n < |s| ==> !IsWhitespace(s[n])
  {
    if |s| == 0 || !IsWhitespace(s[0]) then 0 else 1 + LeadingSpace(s[1..])
  }

  /** Length of the white-space run that closes `s`. */
  function TrailingSpace(s: string): (n: nat)
    ensures n <= |s|
    ensures forall i :: |s| - n <= i < |s| ==> IsWhitespace(s[i])
    ensures n < |s| ==> !IsWhitespace(s[|s| - 1 - n])
  {
    if |s| == 0 || !IsWhitespace(s[|s| - 1]) then 0
    else 1 + TrailingSpace(s[..|s| - 1])
  }

  /** `s.trim()`: the slice of `s` left once the white space at both ends is
      cut away. It is empty exactly when `s` is blank, which is the test
      `!s.trim()` performs. */
  function Trim(s: string): (r: string)
    ensures LeadingSpace(s) + |r| <= |s|
    ensures r == s[LeadingSpace(s)..LeadingSpace(s) + |r|]
    ensures IsBlank(s[LeadingSpace(s) + |r|..])
    ensures |r| > 0 ==> !IsWhitespace(r[0]) && !IsWhitespace(r[|r| - 1])
    ensures r == [] <==> IsBlank(s)
  {
    var n := LeadingSpace(s);
    var t := s[n..];
    var r := t[..|t| - TrailingSpace(t)];
    assert IsBlank(s) ==> n == |s|;
    assert r == [] ==> n == |s|;
    r
  }

  lemma TrimIdempotent(s: string)
    ensures Trim(Trim(s)) == Trim(s)
  {
    var r := Trim(s);
    if |r| > 0 {
      assert LeadingSpace(r) == 0;
      assert TrailingSpace(r) == 0;
      assert r[0..][..|r|] == r;
    }
  }

  /** Position of the first `c` in `s`. */
  function FirstIndexOf(s: string, c: char): (k: nat)
    requires c in s
    ensures k < |s| && s[k] == c
    ensures c !in s[..k]
  {
    if s[0] == c then 0
    else
      assert c in s[1..] by {
        var j :| 0 <= j < |s| && s[j] == c;
        assert s[1..][j - 1] == c;
      }
      var k := 1 + FirstIndexOf(s[1..], c);
      assert s[..k] == [s[0]] + s[1..][..k - 1];
      k
  }

  /** `s.replace(c, '')` with a one-character string pattern: JavaScript
      replaces the first occurrence only. */
  function RemoveFirst(s: string, c: char): (r: string)
    ensures c !in s ==> r == s
    ensures c in s ==> r == s[..FirstIndexOf(s, c)] + s[FirstIndexOf(s, c) + 1..]
  {
    if |s| == 0 then s
    else if s[0] == c then s[1..]
    else
      var rest := RemoveFirst(s[1..], c);
      assert c in s ==> c in s[1..] by {
        if c in s {
          var j :| 0 <= j < |s| && s[j] == c;
          assert s[1..][j - 1] == c;
        }
      }
      assert c in s ==> [s[0]] + rest == s[..FirstIndexOf(s, c)] + s[FirstIndexOf(s, c) + 1..] by {
        if c in s {
          var k := FirstIndexOf(s[1..], c);
          assert FirstIndexOf(s, c) == k + 1;
          assert s[..k + 1] == [s[0]] + s[1..][..k];
          assert s[k + 2..] == s[1..][k + 1..];
        }
      }
      [s[0]] + rest
  }

  /** `RemoveFirst` takes away exactly one `c` when there is one, and no
      other character. */
  lemma RemoveFirstCount(s: string, c: char, d: char)
    ensures Count(RemoveFirst(s, c), d) == Count(s, d) - (if c in s && d == c then 1 else 0)
  {
    if c in s {
      var k := FirstIndexOf(s, c);
      assert s == s[..k] + [s[k]] + s[k + 1..];
      CountAppend(s[..k] + [s[k]], s[k + 1..], d);
      CountAppend(s[..k], [s[k]], d);
      CountAppend(s[..k], s[k + 1..], d);
    }
  }

  /** `s.split(sep)[0]`: the part of `s` before the first `sep`, the whole of
      `s` when it has none, empty when `s` starts with `sep`. */
  function BeforeFirst(s: string, sep: char): (r: string)
    ensures r <= s
    ensures sep !in r
    ensures |r| == |s| || s[|r|] == sep
  {
    if |s| == 0 || s[0] == sep then []
    else [s[0]] + BeforeFirst(s[1..], sep)
  }

  /** The three properties of `BeforeFirst` pin its result down: no other
      string has them. */
  lemma BeforeFirstUnique(s: string, sep: char, r: string)
    requires r <= s && sep !in r && (|r| == |s| || s[|r|] == sep)
    ensures r == BeforeFirst(s, sep)
  {
    var b := BeforeFirst(s, sep);
    assert |r| == |b|;
  }

  /** `parts.join(sep)`. */
  function Join(parts: seq<string>, sep: string): (r: string)
    ensures |parts| == 0 ==> r == ""
    ensures |parts| > 0 ==> parts[0] <= r
  {
    if |parts| == 0 then ""
    else if |parts| == 1 then parts[0]
    else parts[0] + sep + Join(parts[1..], sep)
  }

  /** Total length of a list of strings. */
  function TotalLength(parts: seq<string>): nat {
    if |parts| == 0 then 0 else |parts[0]| + TotalLength(parts[1..])
  }

  /** A joined string is its parts plus one separator between each
      neighbouring pair. */
  lemma {:induction false} JoinLength(parts: seq<string>, sep: string)
    ensures |parts| > 0 ==> |Join(parts, sep)| == TotalLength(parts) + (|parts| - 1) * |sep|
  {
    if |parts| > 1 {
      JoinLength(parts[1..], sep);
    }
  }

  /** Where part `i` starts in `Join(parts, sep)`: after the `i` parts
      before it and one separator behind each of them. */
  function PartOffset(parts: seq<string>, sep: string, i: nat): nat
    requires i <= |parts|
  {
    TotalLength(parts[..i]) + i * |sep|
  }

  /** Past the first part and its separator, offsets count in the rest. */
  lemma OffsetStep(parts: seq<string>, sep: string, i: nat)
    requires 0 < i <= |parts|
    ensures PartOffset(parts, sep, i) == |parts[0]| + |sep| + PartOffset(parts[1..], sep, i - 1)
  {
    assert parts[..i][0] == parts[0];
    assert parts[..i][1..] == parts[1..][..i - 1];
    assert i * |sep| == (i - 1) * |sep| + |sep|;
  }

  /** A slice behind a prefix is a slice of what follows it. */
  lemma SliceBehind(x: string, rest: string, lo: nat, hi: nat)
    requires lo <= hi <= |rest|
    ensures (x + rest)[|x| + lo..|x| + hi] == rest[lo..hi]
  {
  }

  /** The joined string is laid out part by part: part `i` sits at its
      offset, and a separator follows it unless it is the last part. */
  lemma {:induction false} JoinLayout(parts: seq<string>, sep: string, i: nat)
    requires i < |parts|
    ensures PartOffset(parts, sep, i) + |parts[i]| <= |Join(parts, sep)|
    ensures Join(parts, sep)[PartOffset(parts, sep, i)..PartOffset(parts, sep, i) + |parts[i]|] == parts[i]
    ensures i + 1 < |parts| ==>
      && PartOffset(parts, sep, i) + |parts[i]| + |sep| <= |Join(parts, sep)|
      && Join(parts, sep)[PartOffset(parts, sep, i) + |parts[i]|..PartOffset(parts, sep, i) + |parts[i]| + |sep|] == sep
    decreases |parts|
  {
    if i == 0 {
      assert parts[..0] == [];
      if |parts| > 1 {
        var tail := Join(parts[1..], sep);
        assert Join(parts, sep) == parts[0] + (sep + tail);
        SliceBehind(parts[0], sep + tail, 0, |sep|);
      }
    } else {
      var tail := Join(parts[1..], sep);
      var front := parts[0] + sep;
      assert Join(parts, sep) == front + tail;
      JoinLayout(parts[1..], sep, i - 1);
      OffsetStep(parts, sep, i);
      var off := PartOffset(parts[1..], sep, i - 1);
      var n := |parts[i]|;
      assert parts[1..][i - 1] == parts[i];
      SliceBehind(front, tail, off, off + n);
      if i + 1 < |parts| {
        SliceBehind(front, tail, off + n, off + n + |sep|);
      }
    }
  }

  /** Every part appears in the joined string. */
  lemma {:induction false} JoinContainsParts(parts: seq<string>, sep: string, i: nat)
    requires i < |parts|
    ensures Contains(Join(parts, sep), parts[i])
    decreases |parts|
  {
    if |parts| == 1 {
      ContainsMiddle([], parts[0], []);
      assert [] + parts[0] + [] == Join(parts, sep);
    } else if i == 0 {
      ContainsMiddle([], parts[0], sep + Join(parts[1..], sep));
      assert [] + parts[0] + (sep + Join(parts[1..], sep)) == Join(parts, sep);
    } else {
      JoinContainsParts(parts[1..], sep, i - 1);
      ContainsWithin(parts[0] + sep, Join(parts[1..], sep), [], parts[i]);
      assert parts[0] + sep + Join(parts[1..], sep) + [] == Join(parts, sep);
    }
  }

  /** The decimal digit character for `d`. */
  function DigitChar(d: nat): (c: char)
    requires d < 10
    ensures '0' <= c <= '9'
  {
    ('0' as int + d) as char
  }

  /** `n.toString()` for a non-negative integer: decimal, no sign, no
      leading zero. */
  function NatToString(n: nat): (r: string)
    ensures |r| > 0
    ensures forall i :: 0 <= i < |r| ==> '0' <= r[i] <= '9'
    ensures |r| > 1 ==> r[0] != '0'
  {
    if n < 10 then [DigitChar(n)]
    else NatToString(n / 10) + [DigitChar(n % 10)]
  }

  /** Reads back a string of decimal digits. */
  function ParseDecimal(s: string): nat
    requires forall i :: 0 <= i < |s| ==> '0' <= s[i] <= '9'
  {
    if |s| == 0 then 0
    else ParseDecimal(s[..|s| - 1]) * 10 + (s[|s| - 1] as int - '0' as int)
  }

  lemma {:induction false} DecimalRoundTrip(n: nat)
    ensures ParseDecimal(NatToString(n)) == n
  {
    if n >= 10 {
      var r := NatToString(n);
      assert r[..|r| - 1] == NatToString(n / 10);
      DecimalRoundTrip(n / 10);
    }
  }

  /** Distinct numbers print differently, so two printed clock readings
      agree exactly when the readings do. */
  lemma NatToStringInjective(a: nat, b: nat)
    ensures NatToString(a) == NatToString(b) <==> a == b
  {
    if NatToString(a) == NatToString(b) {
      DecimalRoundTrip(a);
      DecimalRoundTrip(b);
    }
  }

  /** The text between `head` and `tail`, when `s` has that frame. */
  function Enclosed(s: string, head: string, tail: string): (r: Option<string>)
    ensures r.Some? ==> s == head + r.value + tail
  {
    if |head| + |tail| <= |s| && head <= s && s[|s| - |tail|..] == tail then
      var r := s[|head|..|s| - |tail|];
      assert s == s[..|head|] + r + s[|s| - |tail|..];
      Some(r)
    else None
  }

  /** Framing a text and then reading the frame's content gives the text
      back. */
  lemma EnclosedFrame(head: string, x: string, tail: string)
    ensures Enclosed(head + x + tail, head, tail) == Some(x)
  {
    var s := head + x + tail;
    assert s[|s| - |tail|..] == tail;
    assert s[|head|..|s| - |tail|] == x;
  }
}
