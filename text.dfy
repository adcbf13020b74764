/** The string operations of JavaScript that the application relies on, over
    `seq<char>`: `toLowerCase` (ASCII letters only), `includes`, `trim`,
    `split` on a fixed separator and on `/\s+/`, `join`, `endsWith`, the
    UTF-16 `length` and the decimal rendering of a non-negative integer in a template literal. */
module Text {

  predicate IsUpper(c: char)
  {
    'A' <= c <= 'Z'
  }

  function LowerChar(c: char): char
  {
    if IsUpper(c) then (c as int + 32) as char else c
  }

  /** `s.toLowerCase()`, restricted to the ASCII letters. */
  function Lower(s: string): (r: string)
    ensures |r| == |s|
    ensures forall i :: 0 <= i < |s| ==> r[i] == LowerChar(s[i])
    ensures forall i :: 0 <= i < |r| ==> !IsUpper(r[i])
    decreases |s|
  {
    if s == [] then [] else [LowerChar(s[0])] + Lower(s[1..])
  }

  lemma LowerIdempotent(s: string)
    ensures Lower(Lower(s)) == Lower(s)
  {
  }

  lemma LowerAppend(a: string, b: string)
    ensures Lower(a + b) == Lower(a) + Lower(b)
  {
  }

  /** Lower-casing commutes with taking a suffix. */
  lemma LowerSuffix(s: string, i: nat)
    requires i <= |s|
    ensures Lower(s[i..]) == Lower(s)[i..]
  {
  }

  /** Lower-casing never creates or removes white space. */
  lemma LowerKeepsNoWhitespace(s: string)
    requires NoWhitespace(s)
    ensures NoWhitespace(Lower(s))
  {
    var r := Lower(s);
    forall i | 0 <= i < |r| ensures !IsWhitespace(r[i]) {
      assert r[i] == LowerChar(s[i]);
    }
  }

  /** `s.length`: JavaScript strings count UTF-16 code units, so a character
      outside the Basic Multilingual Plane counts twice. */
  function Utf16Length(s: string): (n: nat)
    ensures |s| <= n <= 2 * |s|
    decreases |s|
  {
    if s == [] then 0 else (if s[0] as int > 0xFFFF then 2 else 1) + Utf16Length(s[1..])
  }

  /** Over the Basic Multilingual Plane the two lengths agree. */
  lemma {:induction false} Utf16LengthBmp(s: string)
    requires forall i :: 0 <= i < |s| ==> s[i] as int <= 0xFFFF
    ensures Utf16Length(s) == |s|
    decreases |s|
  {
    if s != [] {
      Utf16LengthBmp(s[1..]);
    }
  }

  /** Lower-casing keeps the JavaScript length. */
  lemma {:induction false} LowerKeepsUtf16Length(s: string)
    ensures Utf16Length(Lower(s)) == Utf16Length(s)
    decreases |s|
  {
    if s != [] {
      assert Lower(s)[1..] == Lower(s[1..]);
      LowerKeepsUtf16Length(s[1..]);
    }
  }

  /** `t` occurs in `s` starting at position `i`. */
  predicate OccursAt(s: string, t: string, i: int)
  {
    0 <= i && i + |t| <= |s| && s[i..i + |t|] == t
  }

  predicate IsPrefix(p: string, s: string)
  {
    |p| <= |s| && s[..|p|] == p
  }

  /** `s.includes(t)`: `t` is `s`'s prefix or occurs in its tail. */
  predicate Contains(s: string, t: string)
    decreases |s|
  {
    IsPrefix(t, s) || (|s| > 0 && Contains(s[1..], t))
  }

  /** `includes` holds exactly when there is a position where `t` occurs. */
  lemma {:induction false} ContainsIffOccurs(s: string, t: string)
    ensures Contains(s, t) <==> exists i :: OccursAt(s, t, i)
    decreases |s|
  {
    if exists i :: OccursAt(s, t, i) {
      var i :| OccursAt(s, t, i);
      if i == 0 {
        assert IsPrefix(t, s);
      } else {
        assert s[1..][i - 1..i - 1 + |t|] == s[i..i + |t|];
        assert OccursAt(s[1..], t, i - 1);
        ContainsIffOccurs(s[1..], t);
      }
    }
    if Contains(s, t) {
      if IsPrefix(t, s) {
        assert OccursAt(s, t, 0);
      } else {
        ContainsIffOccurs(s[1..], t);
        var i :| OccursAt(s[1..], t, i);
        assert s[1..][i..i + |t|] == s[i + 1..i + 1 + |t|];
        assert OccursAt(s, t, i + 1);
      }
    }
  }

  /** Every string includes the empty string. */
  lemma ContainsEmpty(s: string)
    ensures Contains(s, [])
  {
    assert IsPrefix([], s);
  }

  /** A string includes every piece it was concatenated from. */
  lemma ContainsInfix(a: string, t: string, b: string)
    ensures Contains(a + t + b, t)
  {
    var s := a + t + b;
    assert s[|a|..|a| + |t|] == t;
    assert OccursAt(s, t, |a|);
    ContainsIffOccurs(s, t);
  }

  /** A template `lead# topic\nbody` holds the heading line `# topic`, and
      different topics fill it differently. */
  lemma HeadedTemplate(lead: string, body: string, topic: string, other: string)
    ensures Contains((lead + "# ") + topic + ("\n" + body), "# " + topic + "\n")
    ensures topic != other ==>
              (lead + "# ") + topic + ("\n" + body) != (lead + "# ") + other + ("\n" + body)
  {
    var t := (lead + "# ") + topic + ("\n" + body);
    assert t == lead + ("# " + topic + "\n") + body;
    ContainsInfix(lead, "# " + topic + "\n", body);
    var o := (lead + "# ") + other + ("\n" + body);
    if topic != other && |topic| == |other| {
      assert t[|lead| + 2..|lead| + 2 + |topic|] == topic;
      assert o[|lead| + 2..|lead| + 2 + |other|] == other;
    }
  }

  /** `"...".includes(t)` fails when `t` is longer than the string. */
  lemma ContainsNeedsLength(s: string, t: string)
    requires Contains(s, t)
    ensures |t| <= |s|
  {
    ContainsIffOccurs(s, t);
  }

  // ---------------------------------------------------------------------
  // Whitespace and trim

  /** The characters JavaScript's `trim` and `\s` treat as white space: the
      WhiteSpace and LineTerminator code points of ECMAScript, that is tab,
      vertical tab, form feed, the space separators of Unicode (space, no-break
      space, the Ogham space mark, the en quad to the hair space, the narrow
      no-break space, the medium mathematical space and the ideographic
      space), the byte order mark, line feed, carriage return and the line and
      paragraph separators. */
  predicate IsWhitespace(c: char)
  {
    c == ' ' || c == '\t' || c == '\n' || c == '\r' || c == '\U{000B}' || c == '\U{000C}'
    || c == '\U{00A0}' || c == '\U{1680}' || ('\U{2000}' <= c <= '\U{200A}')
    || c == '\U{2028}' || c == '\U{2029}' || c == '\U{202F}' || c == '\U{205F}'
    || c == '\U{3000}' || c == '\U{FEFF}'
  }

  predicate NoWhitespace(s: string)
  {
    forall i :: 0 <= i < |s| ==> !IsWhitespace(s[i])
  }

  predicate AllWhitespace(s: string)
  {
    forall i :: 0 <= i < |s| ==> IsWhitespace(s[i])
  }

  /** `s.trimStart()` */
  function TrimStart(s: string): string
    decreases |s|
  {
    if s != [] && IsWhitespace(s[0]) then TrimStart(s[1..]) else s
  }

  /** `trimStart` removes the longest all-white-space prefix: what is left is a
      suffix that does not start with white space. */
  lemma {:induction false} TrimStartShape(s: string)
    ensures var r := TrimStart(s);
      |r| <= |s| && r == s[|s| - |r|..] && (r == [] || !IsWhitespace(r[0]))
      && AllWhitespace(s[..|s| - |r|])
    decreases |s|
  {
    if s != [] && IsWhitespace(s[0]) {
      TrimStartShape(s[1..]);
      var r := TrimStart(s);
      assert r == TrimStart(s[1..]);
      var cut := |s| - |r|;
      assert s[1..][cut - 1..] == s[cut..];
      assert AllWhitespace(s[..cut]) by {
        forall i | 0 <= i < cut ensures IsWhitespace(s[..cut][i]) {
          if i > 0 {
            assert s[..cut][i] == s[1..][..cut - 1][i - 1];
          }
        }
      }
    }
  }

  /** `s.trimEnd()` */
  function TrimEnd(s: string): string
    decreases |s|
  {
    if s != [] && IsWhitespace(s[|s| - 1]) then TrimEnd(s[..|s| - 1]) else s
  }

  /** `trimEnd` removes the longest all-white-space suffix: what is left is a
      prefix that does not end with white space. */
  lemma {:induction false} TrimEndShape(s: string)
    ensures var r := TrimEnd(s);
      |r| <= |s| && r == s[..|r|] && (r == [] || !IsWhitespace(r[|r| - 1]))
      && AllWhitespace(s[|r|..])
    decreases |s|
  {
    if s != [] && IsWhitespace(s[|s| - 1]) {
      var n := |s| - 1;
      TrimEndShape(s[..n]);
      var r := TrimEnd(s);
      assert s[..n][..|r|] == s[..|r|];
      forall i | |r| <= i < |s| ensures IsWhitespace(s[i]) {
        if i < n {
          assert s[..n][|r|..][i - |r|] == s[i];
        }
      }
    }
  }

  /** `s.trim()` */
  function Trim(s: string): string
  {
    TrimEnd(TrimStart(s))
  }

  /** `!s.trim()`: the trimmed string is empty. */
  predicate IsBlank(s: string)
  {
    |Trim(s)| == 0
  }

  /** A string is blank exactly when it consists of white space only. */
  lemma BlankIffAllWhitespace(s: string)
    ensures IsBlank(s) <==> AllWhitespace(s)
  {
    var t := TrimStart(s);
    TrimStartShape(s);
    TrimEndShape(t);
    if |Trim(s)| == 0 {
      assert AllWhitespace(t[0..]);
      assert t == [];
      assert s[..|s|] == s;
    } else {
      var r := Trim(s);
      assert !IsWhitespace(r[0]);
      assert r[0] == t[0] == s[|s| - |t|];
    }
  }

  /** The no-break space, the byte order mark and the ideographic space are
      white space to `trim`, as the ASCII ones are; a letter is not. */
  lemma UnicodeSpacesAreBlank()
    ensures IsBlank("\U{00A0}\U{FEFF}\U{3000}")
    ensures !IsBlank("\U{00A0}x")
  {
    BlankIffAllWhitespace("\U{00A0}\U{FEFF}\U{3000}");
    BlankIffAllWhitespace("\U{00A0}x");
    assert !IsWhitespace("\U{00A0}x"[1]);
  }

  // ---------------------------------------------------------------------
  // split and join

  /** `split(sep)` scanning left to right, `cur` holding the pending piece. */
  function SplitFrom(s: string, sep: string, cur: string): (r: seq<string>)
    requires |sep| > 0
    ensures |r| >= 1
    decreases |s|
  {
    if s == [] then [cur]
    else if IsPrefix(sep, s) then [cur] + SplitFrom(s[|sep|..], sep, [])
    else SplitFrom(s[1..], sep, cur + [s[0]])
  }

  /** `s.split(sep)` for a non-empty separator string. */
  function Split(s: string, sep: string): (r: seq<string>)
    requires |sep| > 0
    ensures |r| >= 1
  {
    SplitFrom(s, sep, [])
  }

  /** `parts.join(sep)` */
  function Join(parts: seq<string>, sep: string): string
    decreases |parts|
  {
    if |parts| == 0 then []
    else if |parts| == 1 then parts[0]
    else parts[0] + sep + Join(parts[1..], sep)
  }

  lemma {:induction false} JoinSplitFrom(s: string, sep: string, cur: string)
    requires |sep| > 0
    ensures Join(SplitFrom(s, sep, cur), sep) == cur + s
    decreases |s|
  {
    if s == [] {
    } else if IsPrefix(sep, s) {
      var rest := SplitFrom(s[|sep|..], sep, []);
      JoinSplitFrom(s[|sep|..], sep, []);
      assert ([cur] + rest)[1..] == rest;
      assert s == sep + s[|sep|..];
    } else {
      JoinSplitFrom(s[1..], sep, cur + [s[0]]);
      assert cur + [s[0]] + s[1..] == cur + s;
    }
  }

  /** Joining the pieces of a split with the same separator gives back the string. */
  lemma JoinSplit(s: string, sep: string)
    requires |sep| > 0
    ensures Join(Split(s, sep), sep) == s
  {
    JoinSplitFrom(s, sep, []);
  }

  /** Joining two non-empty runs of pieces puts one separator between their joins. */
  lemma {:induction false} JoinAppend(a: seq<string>, b: seq<string>, sep: string)
    requires |a| > 0 && |b| > 0
    ensures Join(a + b, sep) == Join(a, sep) + sep + Join(b, sep)
    decreases |a|
  {
    if |a| == 1 {
      assert (a + b)[1..] == b;
    } else {
      assert (a + b)[1..] == a[1..] + b;
      JoinAppend(a[1..], b, sep);
    }
  }

  // ---------------------------------------------------------------------
  // split on /\s+/

  /** `split(/\s+/)` scanning left to right, `cur` holding the pending word. */
  function SplitWordsFrom(s: string, cur: string): (r: seq<string>)
    requires NoWhitespace(cur)
    ensures |r| >= 1
    ensures forall w :: w in r ==> NoWhitespace(w)
    decreases |s|
  {
    if s == [] then [cur]
    else if IsWhitespace(s[0]) then
      TrimStartShape(s[1..]);
      [cur] + SplitWordsFrom(TrimStart(s[1..]), [])
    else SplitWordsFrom(s[1..], cur + [s[0]])
  }

  /** `s.split(/\s+/)`: the maximal runs of non-white-space characters, with an
      empty first or last piece when `s` starts or ends with white space. */
  function SplitWords(s: string): (r: seq<string>)
    ensures |r| >= 1
    ensures forall w :: w in r ==> NoWhitespace(w)
  {
    SplitWordsFrom(s, [])
  }

  lemma {:induction false} SplitWordsFromSingle(s: string, cur: string)
    requires NoWhitespace(cur) && NoWhitespace(s)
    ensures SplitWordsFrom(s, cur) == [cur + s]
    decreases |s|
  {
    if s == [] {
      assert cur + s == cur;
    } else {
      assert !IsWhitespace(s[0]);
      assert SplitWordsFrom(s, cur) == SplitWordsFrom(s[1..], cur + [s[0]]);
      SplitWordsFromSingle(s[1..], cur + [s[0]]);
      assert cur + [s[0]] + s[1..] == cur + s;
    }
  }

  /** A string without white space is a single word. */
  lemma SplitWordsSingle(s: string)
    requires NoWhitespace(s)
    ensures SplitWords(s) == [s]
  {
    SplitWordsFromSingle(s, []);
    assert [] + s == s;
  }

  // ---------------------------------------------------------------------
  // endsWith

  predicate EndsWith(s: string, suffix: string)
  {
    |suffix| <= |s| && s[|s| - |suffix|..] == suffix
  }

  /** A string ends with the last of three pieces. */
  lemma EndsWithLast(a: string, b: string, c: string)
    ensures EndsWith(a + (b + c), c)
  {
    assert (a + (b + c))[|a| + |b|..] == c;
  }

  /** A string ends with what is appended last, and with every ending of that. */
  lemma EndsWithAppend(a: string, b: string)
    ensures EndsWith(a + b, b)
    ensures forall c :: EndsWith(b, c) ==> EndsWith(a + b, c)
  {
    forall c | EndsWith(b, c) ensures EndsWith(a + b, c) {
      assert (a + b)[|a + b| - |c|..] == b[|b| - |c|..];
    }
  }

  // ---------------------------------------------------------------------
  // Decimal rendering of numbers in template literals

  predicate IsDigit(c: char)
  {
    '0' <= c <= '9'
  }

  function DigitChar(d: nat): (c: char)
    requires d < 10
    ensures IsDigit(c)
  {
    ('0' as int + d) as char
  }

  /** `${n}` for a non-negative integer: its decimal digits, no leading zero. */
  function NatToString(n: nat): (r: string)
    ensures |r| >= 1
    ensures forall i :: 0 <= i < |r| ==> IsDigit(r[i])
    ensures |r| > 1 ==> r[0] != '0'
    decreases n
  {
    if n < 10 then [DigitChar(n)] else NatToString(n / 10) + [DigitChar(n % 10)]
  }

  /** Reads a string of decimal digits back as a number. */
  function ParseNat(s: string): nat
    requires forall i :: 0 <= i < |s| ==> IsDigit(s[i])
    decreases |s|
  {
    if s == [] then 0
    else
      var last := s[|s| - 1];
      assert IsDigit(last);
      ParseNat(s[..|s| - 1]) * 10 + (last as int - '0' as int)
  }

  /** Rendering a number and reading it back gives the number. */
  lemma {:induction false} ParseNatToString(n: nat)
    ensures ParseNat(NatToString(n)) == n
    decreases n
  {
    if n >= 10 {
      var s := NatToString(n);
      assert s[..|s| - 1] == NatToString(n / 10);
      ParseNatToString(n / 10);
    }
  }

  /** Distinct numbers render as distinct strings. */
  lemma NatToStringInjective(m: nat, n: nat)
    requires m != n
    ensures NatToString(m) != NatToString(n)
  {
    ParseNatToString(m);
    ParseNatToString(n);
  }
}
