/** The regex fast path of the classifier (src-tauri/src/ai/mod.rs,
    `extract_verification_code` and `extract_verification_link`).

    Each pattern is a hand-written matcher anchored at a start index, and one
    scanner finds the leftmost start, which is what `Regex::captures` reports
    (leftmost-first semantics). For every matcher a ghost predicate states the
    regex itself as "some way of splitting the text fits the pattern", and a
    lemma proves the matcher accepts exactly those start indices and returns
    the capture the greedy quantifiers prefer. */
module Extract {
  import opened Wrappers
  import opened Text

  // ---------------------------------------------------------------------------
  // Character classes

  /** `\s` in the regex crate's default Unicode mode: the White_Space property. */
  predicate IsSpace(c: char)
  {
    var n := c as int;
    (0x09 <= n <= 0x0D) || n == 0x20 || n == 0x85 || n == 0xA0 || n == 0x1680
    || (0x2000 <= n <= 0x200A) || n == 0x2028 || n == 0x2029 || n == 0x202F
    || n == 0x205F || n == 0x3000
  }

  predicate IsDigit(c: char)
  {
    '0' <= c <= '9'
  }

  /** `(?i)[A-Z0-9]`: simple case folding adds a-z, the long s U+017F and the
      Kelvin sign U+212A. */
  predicate IsCodeChar(c: char)
  {
    IsDigit(c) || 'A' <= c <= 'Z' || 'a' <= c <= 'z' || c == '\U{017F}' || c == '\U{212A}'
  }

  /** `[:：\s]`: ASCII colon, full-width colon U+FF1A, or white space. */
  predicate IsLabelSep(c: char)
  {
    c == ':' || c == '\U{FF1A}' || IsSpace(c)
  }

  /** A word character for `\b`, ASCII only. */
  predicate IsWordChar(c: char)
  {
    IsDigit(c) || 'A' <= c <= 'Z' || 'a' <= c <= 'z' || c == '_'
  }

  /** `[^\s<>"]` */
  predicate IsUrlChar(c: char)
  {
    !IsSpace(c) && c != '<' && c != '>' && c != '"'
  }

  datatype CharClass = LabelSep | CodeChar | Digit | Space | UrlChar

  predicate In(c: char, cls: CharClass)
  {
    match cls
    case LabelSep => IsLabelSep(c)
    case CodeChar => IsCodeChar(c)
    case Digit => IsDigit(c)
    case Space => IsSpace(c)
    case UrlChar => IsUrlChar(c)
  }

  /** Every character of `s[lo..hi]` is in the class. */
  ghost predicate AllIn(s: string, lo: nat, hi: nat, cls: CharClass)
  {
    lo <= hi <= |s| && forall k :: lo <= k < hi ==> In(s[k], cls)
  }

  /** The end of the longest run of class characters starting at `i`. */
  function RunEnd(s: string, i: nat, cls: CharClass): (e: nat)
    requires i <= |s|
    ensures i <= e <= |s| && AllIn(s, i, e, cls)
    ensures e < |s| ==> !In(s[e], cls)
    decreases |s| - i
  {
    if i < |s| && In(s[i], cls) then RunEnd(s, i + 1, cls) else i
  }

  /** Under `(?i)` a lowercase ASCII letter of the pattern matches itself, its
      uppercase form, and the one non-ASCII character that folds to it. */
  predicate FoldEq(c: char, l: char)
  {
    c == l
    || ('a' <= l <= 'z' && c as int == l as int - 32)
    || (l == 's' && c == '\U{017F}')
    || (l == 'k' && c == '\U{212A}')
  }

  /** The case-insensitive literal `lit` occurs at `i`. */
  predicate FoldAt(s: string, i: nat, lit: string)
  {
    i + |lit| <= |s| && forall j :: 0 <= j < |lit| ==> FoldEq(s[i + j], lit[j])
  }

  // ---------------------------------------------------------------------------
  // The patterns, anchored at a start index

  datatype Pattern =
    | CodeLabel          // (?i)code[:：\s]+([A-Z0-9]{4,8})
    | VerificationLabel  // (?i)verification[:：\s]+([A-Z0-9]{4,8})
    | IsYourCode         // (?i)([0-9]{4,8})\s+is\s+your\s+code
    | SixDigits          // \b([0-9]{6})\b
    | VerificationLink   // https?://[^\s<>"]+(?:verify|confirm|activate|validation)[^\s<>"]*

  /** The code patterns in the order they are tried. */
  const CodePatterns: seq<Pattern> := [CodeLabel, VerificationLabel, IsYourCode, SixDigits]

  const Keywords: seq<string> := ["verify", "confirm", "activate", "validation"]

  /** `(?i)<name>[:：\s]+([A-Z0-9]{4,8})` at `i`, giving capture group 1. The
      separator run and the code run use disjoint classes, so the greedy
      separator takes the whole run and the code takes up to eight characters. */
  function LabelAt(s: string, i: nat, name: string): (r: Option<string>)
    requires i <= |s|
    ensures r.Some? ==> 4 <= |r.value| <= 8 && Occurs(s, r.value)
  {
    if !FoldAt(s, i, name) then None
    else
      var k := RunEnd(s, i + |name|, LabelSep);
      var e := RunEnd(s, k, CodeChar);
      if k == i + |name| || e - k < 4 then None
      else
        var t := s[k..k + Min(e - k, 8)];
        assert OccursAt(s, t, k);
        Some(t)
  }

  /** `\s+<word>` (case-insensitive) at `i`, giving the index after the word. */
  function SpacedWordAt(s: string, i: nat, word: string): (r: Option<nat>)
    requires i <= |s|
    ensures r.Some? ==> r.value <= |s|
  {
    var k := RunEnd(s, i, Space);
    if k > i && FoldAt(s, k, word) then Some(k + |word|) else None
  }

  /** `(?i)([0-9]{4,8})\s+is\s+your\s+code` at `i`. A digit run longer than
      eight cannot be followed by white space after eight digits, so the
      capture is the whole digit run from `i`, which must have 4 to 8 digits. */
  function YourCodeAt(s: string, i: nat): (r: Option<string>)
    requires i <= |s|
    ensures r.Some? ==> 4 <= |r.value| <= 8 && Occurs(s, r.value)
  {
    var e := RunEnd(s, i, Digit);
    if !(4 <= e - i <= 8) then None
    else match SpacedWordAt(s, e, "is")
      case None => None
      case Some(a) =>
        match SpacedWordAt(s, a, "your")
        case None => None
        case Some(b) =>
          match SpacedWordAt(s, b, "code")
          case None => None
          case Some(_) =>
            assert OccursAt(s, s[i..e], i);
            Some(s[i..e])
  }

  /** `\b([0-9]{6})\b` at `i`: six digits with no word character on either side. */
  function SixDigitsAt(s: string, i: nat): (r: Option<string>)
    requires i <= |s|
    ensures r.Some? ==> |r.value| == 6 && Occurs(s, r.value)
  {
    if (i == 0 || !IsWordChar(s[i - 1])) && RunEnd(s, i, Digit) == i + 6
       && (i + 6 == |s| || !IsWordChar(s[i + 6]))
    then
      assert OccursAt(s, s[i..i + 6], i);
      Some(s[i..i + 6])
    else None
  }

  /** The index just after `https?://` at `i`. */
  function SchemeEnd(s: string, i: nat): Option<nat>
  {
    if OccursAt(s, "https://", i) then Some(i + 8)
    else if OccursAt(s, "http://", i) then Some(i + 7)
    else None
  }

  /** Some keyword lies entirely inside `s[lo..hi]`. */
  function KeywordWithin(s: string, lo: nat, hi: nat): (b: bool)
    requires lo <= hi <= |s|
    ensures b <==> exists q, k :: lo <= q && 0 <= k < |Keywords| && OccursAt(s, Keywords[k], q)
                                 && q + |Keywords[k]| <= hi
    decreases hi - lo
  {
    if lo == hi then false
    else
      (exists k | 0 <= k < |Keywords| :: OccursAt(s, Keywords[k], lo) && lo + |Keywords[k]| <= hi)
      || KeywordWithin(s, lo + 1, hi)
  }

  /** The link pattern at `i`. After the scheme, the two URL-character runs and
      the keyword between them all consist of URL characters, and the trailing
      `[^\s<>"]*` is greedy, so a match always extends to the end of the URL
      run; it exists when a keyword fits in that run after at least one
      character. */
  function LinkAt(s: string, i: nat): (r: Option<string>)
    requires i <= |s|
    ensures r.Some? ==> OccursAt(s, r.value, i)
  {
    match SchemeEnd(s, i)
    case None => None
    case Some(p) =>
      var e := RunEnd(s, p, UrlChar);
      if p + 1 <= e && KeywordWithin(s, p + 1, e) then Some(s[i..e]) else None
  }

  /** What a pattern matches at `i`: capture group 1 for the code patterns, the
      whole match for the link pattern. */
  function MatchAt(p: Pattern, s: string, i: nat): (r: Option<string>)
    requires i <= |s|
    ensures r.Some? ==> Occurs(s, r.value)
    ensures r.Some? && p != VerificationLink ==> 4 <= |r.value| <= 8
  {
    match p
    case CodeLabel => LabelAt(s, i, "code")
    case VerificationLabel => LabelAt(s, i, "verification")
    case IsYourCode => YourCodeAt(s, i)
    case SixDigits => SixDigitsAt(s, i)
    case VerificationLink => LinkAt(s, i)
  }

  // ---------------------------------------------------------------------------
  // Leftmost search

  datatype Hit = Hit(start: nat, text: string)

  /** The first index at or after `from` holding a value. */
  function FirstSomeFrom<T>(xs: seq<Option<T>>, from: nat): (r: Option<nat>)
    requires from <= |xs|
    ensures r.Some? ==> from <= r.value < |xs| && xs[r.value].Some?
    ensures forall k :: from <= k < |xs| && (r.None? || k < r.value) ==> xs[k].None?
    decreases |xs| - from
  {
    if from == |xs| then None
    else if xs[from].Some? then Some(from)
    else FirstSomeFrom(xs, from + 1)
  }

  /** What the pattern matches at each index of `s`, the end included. */
  function Starts(p: Pattern, s: string): (xs: seq<Option<string>>)
    ensures |xs| == |s| + 1
    ensures forall k :: 0 <= k <= |s| ==> xs[k] == MatchAt(p, s, k)
  {
    seq(|s| + 1, k requires 0 <= k <= |s| => MatchAt(p, s, k))
  }

  /** The leftmost index at or after `from` where the pattern matches. */
  function FindFrom(p: Pattern, s: string, from: nat): (r: Option<Hit>)
    requires from <= |s|
    ensures r.Some? ==> from <= r.value.start <= |s| && MatchAt(p, s, r.value.start) == Some(r.value.text)
    ensures r.Some? ==> forall k :: from <= k < r.value.start ==> MatchAt(p, s, k).None?
    ensures r.None? ==> forall k :: from <= k <= |s| ==> MatchAt(p, s, k).None?
  {
    var xs := Starts(p, s);
    match FirstSomeFrom(xs, from)
    case None => None
    case Some(k) => Some(Hit(k, xs[k].value))
  }

  /** The pattern matches somewhere in `s`. */
  ghost predicate Matches(p: Pattern, s: string)
  {
    exists i :: 0 <= i <= |s| && MatchAt(p, s, i).Some?
  }

  /** No match starts before `i`. */
  ghost predicate IsLeftmost(p: Pattern, s: string, i: nat)
  {
    i <= |s| && forall k :: 0 <= k < i ==> MatchAt(p, s, k).None?
  }

  /** `pattern.captures(text)`: the leftmost match, if any. */
  function Leftmost(p: Pattern, s: string): (r: Option<Hit>)
    ensures r.None? <==> !Matches(p, s)
    ensures r.Some? ==> r.value.start <= |s| && MatchAt(p, s, r.value.start) == Some(r.value.text)
    ensures r.Some? ==> forall k :: 0 <= k < r.value.start ==> MatchAt(p, s, k).None?
  {
    FindFrom(p, s, 0)
  }

  /** The index of the first code pattern, from `k` on, that matches anywhere. */
  function FirstCodePattern(s: string, k: nat): (r: Option<nat>)
    requires k <= |CodePatterns|
    ensures r.Some? ==> k <= r.value < |CodePatterns| && Matches(CodePatterns[r.value], s)
    ensures forall m :: k <= m < |CodePatterns| && (r.None? || m < r.value) ==> !Matches(CodePatterns[m], s)
    decreases |CodePatterns| - k
  {
    if k == |CodePatterns| then None
    else if Leftmost(CodePatterns[k], s).Some? then Some(k)
    else FirstCodePattern(s, k + 1)
  }

  /** `extract_verification_code`: capture group 1 of the leftmost match of the
      first pattern, in the fixed order, that matches anywhere in the text. */
  function ExtractCode(s: string): (r: Option<string>)
    ensures r.Some? ==> 4 <= |r.value| <= 8 && Occurs(s, r.value)
    ensures r.None? <==> forall j :: 0 <= j < |CodePatterns| ==> !Matches(CodePatterns[j], s)
    ensures r.Some? ==> exists j :: 0 <= j < |CodePatterns| && Matches(CodePatterns[j], s)
                                   && r == Some(Leftmost(CodePatterns[j], s).value.text)
                                   && forall m :: 0 <= m < j ==> !Matches(CodePatterns[m], s)
  {
    match FirstCodePattern(s, 0)
    case None => None
    case Some(j) =>
      var h := Leftmost(CodePatterns[j], s).value;
      assert MatchAt(CodePatterns[j], s, h.start) == Some(h.text);
      Some(h.text)
  }

  /** `extract_verification_link`: the leftmost link match, or None. */
  function ExtractLink(s: string): (r: Option<string>)
    ensures r.None? <==> !Matches(VerificationLink, s)
    ensures r.Some? ==> IsLinkShaped(r.value)
    ensures r.Some? ==> exists i :: 0 <= i <= |s| && LinkAt(s, i) == r && IsLeftmost(VerificationLink, s, i)
  {
    match Leftmost(VerificationLink, s)
    case None => None
    case Some(h) =>
      LinkAtShape(s, h.start);
      assert IsLeftmost(VerificationLink, s, h.start);
      Some(h.text)
  }

  // ---------------------------------------------------------------------------
  // What a link result looks like

  /** Starts with `http://` or `https://`, consists of URL characters only, and
      contains a keyword that begins at least one character after `://`. */
  ghost predicate IsLinkShaped(u: string)
  {
    var scheme := if OccursAt(u, "https://", 0) then 8 else 7;
    && (OccursAt(u, "http://", 0) || OccursAt(u, "https://", 0))
    && (forall j :: 0 <= j < |u| ==> IsUrlChar(u[j]))
    && exists q, k :: 0 <= k < |Keywords| && scheme + 1 <= q && OccursAt(u, Keywords[k], q)
  }

  lemma SchemeIsUrl(s: string, i: nat, p: nat)
    requires SchemeEnd(s, i) == Some(p)
    ensures i + 7 <= p <= |s| && AllIn(s, i, p, UrlChar)
  {
    if OccursAt(s, "https://", i) {
      forall k | i <= k < p ensures IsUrlChar(s[k]) {
        assert s[k] == "https://"[k - i];
      }
    } else {
      forall k | i <= k < p ensures IsUrlChar(s[k]) {
        assert s[k] == "http://"[k - i];
      }
    }
  }

  lemma LinkAtShape(s: string, i: nat)
    requires i <= |s|
    requires LinkAt(s, i).Some?
    ensures IsLinkShaped(LinkAt(s, i).value)
  {
    var p := SchemeEnd(s, i).value;
    var e := RunEnd(s, p, UrlChar);
    var u := s[i..e];
    SchemeIsUrl(s, i, p);
    if OccursAt(s, "https://", i) {
      assert u[..8] == s[i..i + 8];
      assert OccursAt(u, "https://", 0);
    } else {
      assert u[..7] == s[i..i + 7];
      assert OccursAt(u, "http://", 0);
      assert u[4] == s[i + 4] == ':';
    }
    assert forall j :: 0 <= j < |u| ==> IsUrlChar(u[j]) by {
      forall j | 0 <= j < |u| ensures IsUrlChar(u[j]) {
        assert u[j] == s[i + j];
        if i + j >= p { assert In(s[i + j], UrlChar); }
      }
    }
    var q, k :| p + 1 <= q && 0 <= k < |Keywords| && OccursAt(s, Keywords[k], q)
               && q + |Keywords[k]| <= e;
    assert u[q - i..q - i + |Keywords[k]|] == s[q..q + |Keywords[k]|];
    assert OccursAt(u, Keywords[k], q - i);
  }
}
