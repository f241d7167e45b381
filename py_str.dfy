/**
 * The Python `str` operations the pipeline uses, with Python's semantics:
 * `strip`, `lower`, `in`, `startswith`/`endswith`, `split` (with a separator,
 * with a limit of one split, and on whitespace), `join`, `replace`, `find`/`rfind`
 * and `int()` on a decimal string.
 */
module PyStr {
  import opened Results

  /** Python's str.isspace() for a single character. */
  predicate IsSpace(c: char) {
    c == ' ' || ('\t' <= c <= '\r') || ('\U{1C}' <= c <= '\U{1F}') || c == '\U{85}' || c == '\U{A0}'
    || c == '\U{1680}' || ('\U{2000}' <= c <= '\U{200A}') || c == '\U{2028}' || c == '\U{2029}'
    || c == '\U{202F}' || c == '\U{205F}' || c == '\U{3000}'
  }

  /** s.lstrip() */
  function LStrip(s: string): (r: string)
    ensures |r| <= |s| && r == s[|s| - |r|..]
    ensures r == [] || !IsSpace(r[0])
    ensures forall i :: 0 <= i < |s| - |r| ==> IsSpace(s[i])
  {
    if s != [] && IsSpace(s[0]) then LStrip(s[1..]) else s
  }

  /** s.rstrip() */
  function RStrip(s: string): (r: string)
    ensures |r| <= |s| && r == s[..|r|]
    ensures r == [] || !IsSpace(r[|r| - 1])
    ensures forall i :: |r| <= i < |s| ==> IsSpace(s[i])
  {
    if s != [] && IsSpace(s[|s| - 1]) then RStrip(s[..|s| - 1]) else s
  }

  /** s.strip() */
  function Strip(s: string): (r: string)
    ensures |r| <= |s|
    ensures r == [] || (!IsSpace(r[0]) && !IsSpace(r[|r| - 1]))
    ensures forall c :: c in r ==> c in s
  {
    RStrip(LStrip(s))
  }

  /** strip() only removes whitespace: every other character survives. */
  lemma StripKeeps(s: string, c: char)
    requires c in s && !IsSpace(c)
    ensures c in Strip(s)
  {
    var i :| 0 <= i < |s| && s[i] == c;
    var j := LStripKeeps(s, i);
    RStripKeeps(LStrip(s), j);
  }

  /** A non-space character at i is still there after lstrip, at the returned index. */
  lemma LStripKeeps(s: string, i: nat) returns (j: nat)
    requires i < |s| && !IsSpace(s[i])
    ensures j < |LStrip(s)| && LStrip(s)[j] == s[i]
  {
    var l := LStrip(s);
    j := i - (|s| - |l|);
  }

  /** A non-space character at j is still there after rstrip. */
  lemma RStripKeeps(s: string, j: nat)
    requires j < |s| && !IsSpace(s[j])
    ensures j < |RStrip(s)| && RStrip(s)[j] == s[j]
  {
  }

  /** s.rstrip(chars): drops trailing characters that belong to `cs`. */
  function RStripChars(s: string, cs: set<char>): (r: string)
    ensures |r| <= |s| && r == s[..|r|]
    ensures r == [] || r[|r| - 1] !in cs
    ensures forall i :: |r| <= i < |s| ==> s[i] in cs
  {
    if s != [] && s[|s| - 1] in cs then RStripChars(s[..|s| - 1], cs) else s
  }

  function LowerChar(c: char): char {
    if 'A' <= c <= 'Z' then (c as int - 'A' as int + 'a' as int) as char else c
  }

  /** s.lower(), for the ASCII letters. */
  function Lower(s: string): (r: string)
    ensures |r| == |s|
    ensures forall i :: 0 <= i < |s| ==> r[i] == LowerChar(s[i])
  {
    if s == [] then [] else [LowerChar(s[0])] + Lower(s[1..])
  }

  /** `sub in s` */
  function Contains(s: string, sub: string): bool
    decreases |s|
  {
    sub <= s || (s != [] && Contains(s[1..], sub))
  }

  predicate StartsWith(s: string, p: string) {
    p <= s
  }

  predicate EndsWith(s: string, p: string) {
    |p| <= |s| && s[|s| - |p|..] == p
  }

  /** For a one-character pattern `in` is plain membership. */
  lemma {:induction false} ContainsChar(s: string, c: char)
    ensures Contains(s, [c]) <==> c in s
  {
    if s != [] {
      ContainsChar(s[1..], c);
      assert s == [s[0]] + s[1..];
    }
  }

  /** s.find(sub): the first position where `sub` occurs. */
  function Find(s: string, sub: string): (r: Option<nat>)
    ensures r.Some? ==> r.value + |sub| <= |s| && s[r.value..r.value + |sub|] == sub
    ensures r.Some? ==> forall j :: 0 <= j < r.value ==> !(sub <= s[j..])
    ensures r.None? <==> !Contains(s, sub)
    decreases |s|
  {
    if sub <= s then Some(0)
    else if s == [] then None
    else match Find(s[1..], sub)
      case None => None
      case Some(k) =>
        assert s[1..][k..] == s[k + 1..];
        assert forall j :: 1 <= j <= k ==> s[1..][j - 1..] == s[j..];
        Some(k + 1)
  }

  /** s.rfind(c) for one character: the last position of `c`. */
  function RFind(s: string, c: char): (r: Option<nat>)
    ensures r.Some? ==> r.value < |s| && s[r.value] == c && c !in s[r.value + 1..]
    ensures r.None? <==> c !in s
    decreases |s|
  {
    if s == [] then None
    else if s[|s| - 1] == c then Some(|s| - 1)
    else
      var r := RFind(s[..|s| - 1], c);
      assert s == s[..|s| - 1] + [s[|s| - 1]];
      r
  }

  /** The positions of every `c` in s, in increasing order (re.finditer on a one-character pattern). */
  function Positions(s: string, c: char): (ps: seq<nat>)
    ensures forall k :: 0 <= k < |ps| ==> ps[k] < |s| && s[ps[k]] == c
    ensures forall i :: 0 <= i < |s| && s[i] == c ==> i in ps
    ensures forall k, l :: 0 <= k < l < |ps| ==> ps[k] < ps[l]
    decreases |s|
  {
    if s == [] then []
    else
      var ps := Positions(s[..|s| - 1], c);
      if s[|s| - 1] == c then ps + [|s| - 1] else ps
  }

  /** A character that does not occur has no positions. */
  lemma {:induction false} PositionsAbsent(s: string, c: char)
    requires c !in s
    ensures Positions(s, c) == []
    decreases |s|
  {
    if s != [] {
      assert c !in s[..|s| - 1] by { assert forall x :: x in s[..|s| - 1] ==> x in s; }
      PositionsAbsent(s[..|s| - 1], c);
    }
  }

  /** s.split(sep), for a non-empty separator. */
  function Split(s: string, sep: string): (r: seq<string>)
    requires |sep| > 0
    ensures |r| >= 1
  {
    SplitFrom(s, sep, [])
  }

  function SplitFrom(s: string, sep: string, cur: string): (r: seq<string>)
    requires |sep| > 0
    ensures |r| >= 1
    decreases |s|
  {
    if s == [] then [cur]
    else if sep <= s then [cur] + SplitFrom(s[|sep|..], sep, [])
    else SplitFrom(s[1..], sep, cur + [s[0]])
  }

  /** sep.join(parts) */
  function Join(parts: seq<string>, sep: string): string {
    if parts == [] then []
    else if |parts| == 1 then parts[0]
    else parts[0] + sep + Join(parts[1..], sep)
  }

  /** Splitting and joining with the same separator gives the string back. */
  lemma JoinSplit(s: string, sep: string)
    requires |sep| > 0
    ensures Join(Split(s, sep), sep) == s
  {
    JoinSplitFrom(s, sep, []);
  }

  lemma {:induction false} JoinSplitFrom(s: string, sep: string, cur: string)
    requires |sep| > 0
    ensures Join(SplitFrom(s, sep, cur), sep) == cur + s
    decreases |s|
  {
    if s == [] {
    } else if sep <= s {
      JoinSplitFrom(s[|sep|..], sep, []);
      assert s == sep + s[|sep|..];
    } else {
      JoinSplitFrom(s[1..], sep, cur + [s[0]]);
      assert s == [s[0]] + s[1..];
    }
  }

  /** Joining pieces free of a one-character separator and splitting again gives the pieces back. */
  lemma {:induction false} SplitJoin(fs: seq<string>, c: char)
    requires |fs| >= 1 && forall f :: f in fs ==> c !in f
    ensures Split(Join(fs, [c]), [c]) == fs
    decreases |fs|
  {
    if |fs| == 1 {
      SplitCharAbsent(fs[0], c, []);
      assert [] + fs[0] == fs[0];
    } else {
      assert fs[0] in fs;
      assert forall f :: f in fs[1..] ==> f in fs;
      SplitFirst(fs[0], c, Join(fs[1..], [c]));
      SplitJoin(fs[1..], c);
      assert fs == [fs[0]] + fs[1..];
    }
  }

  /** A join begins with the first character of its first piece. */
  lemma JoinFirst(fs: seq<string>, sep: string)
    requires |fs| >= 1 && fs[0] != []
    ensures |Join(fs, sep)| > 0 && Join(fs, sep)[0] == fs[0][0]
  {
  }

  /** A join ends with the last character of its last piece. */
  lemma {:induction false} JoinLast(fs: seq<string>, sep: string)
    requires |fs| >= 1 && fs[|fs| - 1] != []
    ensures |Join(fs, sep)| > 0 && Join(fs, sep)[|Join(fs, sep)| - 1] == fs[|fs| - 1][|fs[|fs| - 1]| - 1]
    decreases |fs|
  {
    if |fs| > 1 {
      JoinLast(fs[1..], sep);
    }
  }

  /** No piece of a split on one character contains that character. */
  lemma SplitCharPieces(s: string, c: char)
    ensures forall p :: p in Split(s, [c]) ==> c !in p
  {
    SplitFromCharPieces(s, c, []);
  }

  lemma {:induction false} SplitFromCharPieces(s: string, c: char, cur: string)
    requires c !in cur
    ensures forall p :: p in SplitFrom(s, [c], cur) ==> c !in p
    decreases |s|
  {
    if s == [] {
    } else if [c] <= s {
      SplitFromCharPieces(s[1..], c, []);
    } else {
      assert s[0] != c;
      SplitFromCharPieces(s[1..], c, cur + [s[0]]);
    }
  }

  /** A string without the separator splits into itself alone. */
  lemma {:induction false} SplitCharAbsent(s: string, c: char, cur: string)
    requires c !in s
    ensures SplitFrom(s, [c], cur) == [cur + s]
    decreases |s|
  {
    if s != [] {
      assert s[0] != c by { assert s[0] in s; }
      assert !([c] <= s);
      SplitCharAbsent(s[1..], c, cur + [s[0]]);
      assert s == [s[0]] + s[1..];
      assert cur + [s[0]] + s[1..] == cur + s;
    } else {
      assert cur + s == cur;
    }
  }

  /** One separator, two pieces around it. */
  lemma SplitCharOnce(a: string, b: string, c: char)
    requires c !in a && c !in b
    ensures Split(a + [c] + b, [c]) == [a, b]
  {
    SplitCharOnceFrom(a, b, c, []);
    assert [] + a == a;
  }

  lemma {:induction false} SplitCharOnceFrom(a: string, b: string, c: char, cur: string)
    requires c !in a && c !in b
    ensures SplitFrom(a + [c] + b, [c], cur) == [cur + a, b]
    decreases |a|
  {
    var s := a + [c] + b;
    if a == [] {
      assert s == [c] + b && [c] <= s && s[1..] == b;
      SplitCharAbsent(b, c, []);
      assert [] + b == b && cur + a == cur;
    } else {
      assert s[0] == a[0] && !([c] <= s);
      assert s[1..] == a[1..] + [c] + b;
      SplitCharOnceFrom(a[1..], b, c, cur + [a[0]]);
      assert cur + [a[0]] + a[1..] == cur + a;
    }
  }

  /** The first piece of a split on one character is the text before its first occurrence; the rest is the split of what follows it. */
  lemma SplitFirst(a: string, c: char, b: string)
    requires c !in a
    ensures Split(a + [c] + b, [c]) == [a] + Split(b, [c])
  {
    SplitFirstFrom(a, c, b, []);
    assert [] + a == a;
  }

  lemma {:induction false} SplitFirstFrom(a: string, c: char, b: string, cur: string)
    requires c !in a
    ensures SplitFrom(a + [c] + b, [c], cur) == [cur + a] + SplitFrom(b, [c], [])
    decreases |a|
  {
    var s := a + [c] + b;
    if a == [] {
      assert s == [c] + b && [c] <= s;
      assert s[1..] == b && cur + a == cur;
    } else {
      assert s[0] == a[0] && !([c] <= s);
      assert s[1..] == a[1..] + [c] + b;
      SplitFirstFrom(a[1..], c, b, cur + [a[0]]);
      assert cur + [a[0]] + a[1..] == cur + a;
    }
  }

  /** id.split('.')[0]: an identifier without its version suffix. */
  function NoVersion(id: string): (r: string)
    ensures '.' !in r
  {
    var parts := Split(id, ".");
    SplitCharPieces(id, '.');
    assert parts[0] in parts;
    parts[0]
  }

  /** The version suffix goes: an id without '.' followed by '.' and anything gives the id back. */
  lemma NoVersionDrops(id: string, version: string)
    requires '.' !in id
    ensures NoVersion(id + "." + version) == id
  {
    SplitFirst(id, '.', version);
  }

  /** An id without a version is its own unversioned form. */
  lemma NoVersionKeeps(id: string)
    requires '.' !in id
    ensures NoVersion(id) == id
  {
    SplitCharAbsent(id, '.', []);
    assert [] + id == id;
  }

  /** s.split(sep) has a second piece exactly when sep occurs in s. */
  lemma SplitContains(s: string, sep: string)
    requires |sep| > 0
    ensures |Split(s, sep)| >= 2 <==> Contains(s, sep)
  {
    SplitFromContains(s, sep, []);
  }

  lemma {:induction false} SplitFromContains(s: string, sep: string, cur: string)
    requires |sep| > 0
    ensures |SplitFrom(s, sep, cur)| >= 2 <==> Contains(s, sep)
    decreases |s|
  {
    if s != [] && !(sep <= s) {
      SplitFromContains(s[1..], sep, cur + [s[0]]);
    }
  }

  /** A character that occurs neither in s nor in the piece begun occurs in no piece of the split. */
  lemma {:induction false} SplitFromAbsent(s: string, sep: string, cur: string, c: char)
    requires |sep| > 0 && c !in s && c !in cur
    ensures forall p :: p in SplitFrom(s, sep, cur) ==> c !in p
    decreases |s|
  {
    if s != [] {
      if sep <= s {
        assert forall x :: x in s[|sep|..] ==> x in s;
        SplitFromAbsent(s[|sep|..], sep, [], c);
      } else {
        assert s[0] in s;
        assert forall x :: x in s[1..] ==> x in s;
        SplitFromAbsent(s[1..], sep, cur + [s[0]], c);
      }
    }
  }

  /** s.split(sep, 1) */
  function SplitOnce(s: string, sep: string): (r: seq<string>)
    requires |sep| > 0
    ensures 1 <= |r| <= 2
    ensures |r| == 2 <==> Contains(s, sep)
    ensures |r| == 2 ==> s == r[0] + sep + r[1] && !Contains(r[0], sep)
    ensures |r| == 1 ==> r[0] == s
  {
    match Find(s, sep)
    case None => [s]
    case Some(i) =>
      assert s == s[..i] + sep + s[i + |sep|..];
      NotContainsBeforeFirst(s, sep, i);
      [s[..i], s[i + |sep|..]]
  }

  /** split(c, 1) cuts at the first occurrence of `c`. */
  lemma SplitOnceAt(a: string, c: char, b: string)
    requires c !in a
    ensures SplitOnce(a + [c] + b, [c]) == [a, b]
  {
    var s := a + [c] + b;
    assert [c] <= s[|a|..];
    assert s[|a|] == c;
    ContainsChar(s, c);
    var i := Find(s, [c]).value;
    assert s[i..i + 1] == [c];
    assert s[i] == c;
    assert forall j :: 0 <= j < |a| ==> s[j] == a[j];
    assert i <= |a|;
    assert i == |a|;
    assert s[..i] == a && s[i + 1..] == b;
  }

  lemma {:induction false} NotContainsBeforeFirst(s: string, sub: string, i: nat)
    requires i <= |s| && |sub| > 0
    requires forall j :: 0 <= j < i ==> !(sub <= s[j..])
    requires i + |sub| <= |s|
    ensures !Contains(s[..i], sub)
    decreases i
  {
    if i > 0 {
      assert s[0..] == s;
      assert s[1..][..i - 1] == s[..i][1..];
      forall j | 0 <= j < i - 1 ensures !(sub <= s[1..][j..]) {
        assert s[1..][j..] == s[j + 1..];
      }
      NotContainsBeforeFirst(s[1..], sub, i - 1);
    } else {
      assert s[..i] == [];
    }
  }

  /** s.split(): runs of whitespace separate the words; no empty words. */
  function SplitWs(s: string): (r: seq<string>)
    ensures forall w :: w in r ==> w != [] && forall k :: 0 <= k < |w| ==> !IsSpace(w[k])
  {
    SplitWsFrom(s, [])
  }

  function SplitWsFrom(s: string, cur: string): (r: seq<string>)
    requires forall k :: 0 <= k < |cur| ==> !IsSpace(cur[k])
    ensures forall w :: w in r ==> w != [] && forall k :: 0 <= k < |w| ==> !IsSpace(w[k])
    decreases |s|
  {
    if s == [] then (if cur == [] then [] else [cur])
    else if IsSpace(s[0]) then
      (if cur == [] then SplitWsFrom(s[1..], []) else [cur] + SplitWsFrom(s[1..], []))
    else SplitWsFrom(s[1..], cur + [s[0]])
  }

  /** s.replace(a, b) for single characters. */
  function ReplaceChar(s: string, a: char, b: char): (r: string)
    ensures |r| == |s|
    ensures forall i :: 0 <= i < |s| ==> r[i] == (if s[i] == a then b else s[i])
    ensures a != b ==> a !in r
  {
    if s == [] then [] else [if s[0] == a then b else s[0]] + ReplaceChar(s[1..], a, b)
  }

  /** s.replace(a, '') */
  function RemoveChar(s: string, a: char): (r: string)
    ensures a !in r
    ensures forall c :: c in r ==> c in s
    ensures a !in s ==> r == s
  {
    if s == [] then [] else (if s[0] == a then [] else [s[0]]) + RemoveChar(s[1..], a)
  }

  /** s.replace(pat, rep) for a non-empty `pat`: left to right, non-overlapping. */
  function Replace(s: string, pat: string, rep: string): string
    requires |pat| > 0
    decreases |s|
  {
    if s == [] then []
    else if pat <= s then rep + Replace(s[|pat|..], pat, rep)
    else [s[0]] + Replace(s[1..], pat, rep)
  }

  /** Replacing a text that does not occur changes nothing. */
  lemma {:induction false} ReplaceAbsent(s: string, pat: string, rep: string)
    requires |pat| > 0 && !Contains(s, pat)
    ensures Replace(s, pat, rep) == s
    decreases |s|
  {
    if s != [] {
      ReplaceAbsent(s[1..], pat, rep);
      assert s == [s[0]] + s[1..];
    }
  }

  /** A marker occurring once is replaced in place. */
  lemma {:induction false} ReplaceOnce(a: string, pat: string, b: string, rep: string)
    requires |pat| > 0 && !Contains(a + pat[..|pat| - 1], pat) && !Contains(b, pat)
    ensures Replace(a + pat + b, pat, rep) == a + rep + b
    decreases |a|
  {
    var s := a + pat + b;
    if a == [] {
      assert s == pat + b && pat <= s && s[|pat|..] == b;
      ReplaceAbsent(b, pat, rep);
    } else {
      NoEarlyMatch(a, pat, b);
      assert s[1..] == a[1..] + pat + b;
      assert a + pat[..|pat| - 1] == [a[0]] + (a[1..] + pat[..|pat| - 1]);
      ReplaceOnce(a[1..], pat, b, rep);
    }
  }

  lemma NoEarlyMatch(a: string, pat: string, b: string)
    requires |pat| > 0 && a != [] && !Contains(a + pat[..|pat| - 1], pat)
    ensures !(pat <= a + pat + b)
  {
    var s := a + pat + b;
    var t := a + pat[..|pat| - 1];
    forall k | 0 <= k < |pat| ensures t[k] == s[k] {
      if k >= |a| { assert t[k] == pat[k - |a|] == s[k]; }
    }
    assert t[..|pat|] == s[..|pat|];
    assert pat <= s ==> pat <= t;
  }

  /** Text shorter than `sub` after its first k characters, none of which starts `sub`, cannot hold `sub`. */
  lemma {:induction false} NotContainsShort(s: string, sub: string, k: nat)
    requires |sub| > 0 && k <= |s| && |s| - k < |sub|
    requires forall j :: 0 <= j < k ==> s[j] != sub[0]
    ensures !Contains(s, sub)
    decreases |s|
  {
    if s != [] {
      NotContainsShort(s[1..], sub, if k > 0 then k - 1 else 0);
    }
  }

  /** Text missing one of the characters of `sub` cannot hold `sub`. */
  lemma {:induction false} NotContainsChar(s: string, sub: string, c: char)
    requires c in sub && c !in s
    ensures !Contains(s, sub)
    decreases |s|
  {
    if s != [] {
      assert forall x :: x in s[1..] ==> x in s;
      NotContainsChar(s[1..], sub, c);
    }
  }

  predicate IsDigit(c: char) {
    '0' <= c <= '9'
  }

  function DigitValue(c: char): nat
    requires IsDigit(c)
  {
    c as int - '0' as int
  }

  function DigitChar(d: nat): (c: char)
    requires d < 10
    ensures IsDigit(c) && DigitValue(c) == d
  {
    ('0' as int + d) as char
  }

  predicate AllDigits(s: string) {
    forall i :: 0 <= i < |s| ==> IsDigit(s[i])
  }

  /** The value of a string of decimal digits. */
  function DigitsValue(s: string): nat
    requires AllDigits(s)
    decreases |s|
  {
    if s == [] then 0 else DigitsValue(s[..|s| - 1]) * 10 + DigitValue(s[|s| - 1])
  }

  /** str(n) for a natural number. */
  function NatToStr(n: nat): (r: string)
    ensures r != [] && AllDigits(r)
    decreases n
  {
    if n < 10 then [DigitChar(n)] else NatToStr(n / 10) + [DigitChar(n % 10)]
  }

  lemma {:induction false} NatToStrValue(n: nat)
    ensures DigitsValue(NatToStr(n)) == n
    decreases n
  {
    if n >= 10 {
      NatToStrValue(n / 10);
      var s := NatToStr(n);
      assert s[..|s| - 1] == NatToStr(n / 10);
    }
  }

  /** Leading zeros do not change the value of a digit string. */
  lemma {:induction false} LeadingZero(s: string)
    requires AllDigits(s)
    ensures AllDigits("0" + s) && DigitsValue("0" + s) == DigitsValue(s)
    decreases |s|
  {
    if s != [] {
      var t := "0" + s;
      assert t[..|t| - 1] == "0" + s[..|s| - 1];
      LeadingZero(s[..|s| - 1]);
    }
  }

  /** int(s) for a decimal string: surrounding whitespace, an optional sign, digits. */
  function ParseInt(s: string): (r: Option<int>)
    ensures r.Some? ==> exists k :: 0 <= k < |s| && IsDigit(s[k])
  {
    var t := Strip(s);
    if t == [] then None
    else
      var neg := t[0] == '-';
      var body := if t[0] == '-' || t[0] == '+' then t[1..] else t;
      if body == [] || !AllDigits(body) then None
      else if neg then Some(0 - DigitsValue(body)) else Some(DigitsValue(body))
  }

  /** int() reads a plain digit string as its value. */
  lemma ParseDigits(s: string)
    requires AllDigits(s) && s != []
    ensures ParseInt(s) == Some(DigitsValue(s))
  {
    assert !IsSpace(s[0]) && !IsSpace(s[|s| - 1]);
    StripNoSpace(s);
    assert s[0] != '-' && s[0] != '+';
  }

  /** int(str(n)) == n */
  lemma ParseNatToStr(n: nat)
    ensures ParseInt(NatToStr(n)) == Some(n)
  {
    NatToStrValue(n);
    ParseDigits(NatToStr(n));
  }

  /** int() refuses a text holding a character that is neither whitespace, a digit nor a sign. */
  lemma ParseIntRefuses(s: string, c: char)
    requires c in s && !IsSpace(c) && !IsDigit(c) && c != '-' && c != '+'
    ensures ParseInt(s) == None
  {
    StripKeeps(s, c);
    var t := Strip(s);
    var i :| 0 <= i < |t| && t[i] == c;
    if i > 0 {
      assert t[1..][i - 1] == c;
    }
  }

  /** The decimal text of a number has no character besides digits. */
  lemma NatToStrChars(n: nat, c: char)
    requires !IsDigit(c)
    ensures c !in NatToStr(n)
  {
  }

  /** The first field of a split begins with the first character, when that is not the separator. */
  lemma SplitHead(s: string, c: char)
    requires s != [] && s[0] != c
    ensures Split(s, [c])[0] != [] && Split(s, [c])[0][0] == s[0]
  {
    assert !([c] <= s);
    assert [] + [s[0]] == [s[0]];
    assert Split(s, [c]) == SplitFrom(s[1..], [c], [s[0]]);
    SplitFromHead(s[1..], [c], [s[0]]);
  }

  lemma {:induction false} SplitFromHead(s: string, sep: string, cur: string)
    requires |sep| > 0
    ensures cur <= SplitFrom(s, sep, cur)[0]
    decreases |s|
  {
    if s != [] && !(sep <= s) {
      SplitFromHead(s[1..], sep, cur + [s[0]]);
    }
  }

  /** A string without whitespace at either end is its own strip. */
  lemma StripNoSpace(s: string)
    requires s == [] || (!IsSpace(s[0]) && !IsSpace(s[|s| - 1]))
    ensures Strip(s) == s
  {
  }
}
