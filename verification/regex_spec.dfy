/** The extraction patterns stated as regular expressions: a pattern matches
    at `i` when SOME choice of repetition counts fits it. Each lemma proves the
    hand-written matcher of module Extract accepts exactly those start
    indices, and that its result is the one the greedy quantifiers select. */
module RegexSpec {
  import opened Wrappers
  import opened Text
  import opened Extract

  // ---------------------------------------------------------------------------
  // Facts about the character classes

  lemma SeparatorsAreNotCodeChars(c: char)
    ensures IsLabelSep(c) ==> !IsCodeChar(c)
  {
  }

  /** A character matching a lowercase letter of a pattern is neither white
      space, nor a digit. */
  lemma FoldedLetterIsNotSpace(c: char, l: char)
    requires 'a' <= l <= 'z'
    requires FoldEq(c, l)
    ensures !IsSpace(c) && !IsDigit(c)
  {
  }

  /** A run of class characters up to `m` is covered by the longest run. */
  lemma RunEndCovers(s: string, i: nat, m: nat, cls: CharClass)
    requires i <= |s| && AllIn(s, i, m, cls)
    ensures m <= RunEnd(s, i, cls)
  {
  }

  /** The longest run stops at `m` when `s[m]` is outside the class. */
  lemma RunEndExact(s: string, i: nat, m: nat, cls: CharClass)
    requires i <= |s| && AllIn(s, i, m, cls)
    requires m < |s| && !In(s[m], cls)
    ensures RunEnd(s, i, cls) == m
  {
    RunEndCovers(s, i, m, cls);
  }

  // ---------------------------------------------------------------------------
  // (?i)<name>[:：\s]+([A-Z0-9]{4,8})

  /** The label pattern matches at `i` with `sep` separator characters and a
      capture of `len` code characters. */
  ghost predicate LabelMatch(s: string, i: nat, name: string, sep: nat, len: nat)
  {
    var j := i + |name|;
    && FoldAt(s, i, name)
    && 1 <= sep && 4 <= len <= 8
    && AllIn(s, j, j + sep, LabelSep)
    && AllIn(s, j + sep, j + sep + len, CodeChar)
  }

  lemma LabelAtIsRegex(s: string, i: nat, name: string)
    requires i <= |s|
    ensures LabelAt(s, i, name).Some? <==> exists sep, len :: LabelMatch(s, i, name, sep, len)
    ensures LabelAt(s, i, name).Some? ==>
              exists sep, len :: LabelMatch(s, i, name, sep, len)
                                 && LabelAt(s, i, name).value == s[i + |name| + sep..i + |name| + sep + len]
                                 && forall sep', len' :: LabelMatch(s, i, name, sep', len') ==> sep' == sep && len' <= len
  {
    if FoldAt(s, i, name) {
      var j := i + |name|;
      var k := RunEnd(s, j, LabelSep);
      var e := RunEnd(s, k, CodeChar);
      forall sep': nat, len': nat | LabelMatch(s, i, name, sep', len')
        ensures sep' == k - j && len' <= Min(e - k, 8)
      {
        assert In(s[j + sep'], CodeChar);
        SeparatorsAreNotCodeChars(s[j + sep']);
        RunEndExact(s, j, j + sep', LabelSep);
        RunEndCovers(s, k, k + len', CodeChar);
      }
      if LabelAt(s, i, name).Some? {
        assert LabelMatch(s, i, name, k - j, Min(e - k, 8));
      }
    }
  }

  // ---------------------------------------------------------------------------
  // (?i)([0-9]{4,8})\s+is\s+your\s+code

  /** `\s+<word>` with a gap of `gap` white-space characters, starting at `a`. */
  ghost predicate SpacedWord(s: string, a: nat, gap: nat, word: string)
  {
    1 <= gap && AllIn(s, a, a + gap, Space) && FoldAt(s, a + gap, word)
  }

  ghost predicate YourCodeMatch(s: string, i: nat, n: nat, g1: nat, g2: nat, g3: nat)
  {
    && 4 <= n <= 8
    && AllIn(s, i, i + n, Digit)
    && SpacedWord(s, i + n, g1, "is")
    && SpacedWord(s, i + n + g1 + 2, g2, "your")
    && SpacedWord(s, i + n + g1 + 2 + g2 + 4, g3, "code")
  }

  lemma SpacedWordAtIsRegex(s: string, a: nat, gap: nat, word: string)
    requires a <= |s|
    requires |word| > 0 && 'a' <= word[0] <= 'z'
    ensures SpacedWord(s, a, gap, word) <==> SpacedWordAt(s, a, word) == Some(a + gap + |word|)
  {
    var k := RunEnd(s, a, Space);
    if SpacedWord(s, a, gap, word) {
      assert FoldEq(s[a + gap + 0], word[0]);
      FoldedLetterIsNotSpace(s[a + gap], word[0]);
      RunEndExact(s, a, a + gap, Space);
    }
  }

  /** A regex match makes `YourCodeAt` capture its digits. */
  lemma YourCodeMatchFound(s: string, i: nat, n: nat, g1: nat, g2: nat, g3: nat)
    requires i <= |s| && YourCodeMatch(s, i, n, g1, g2, g3)
    ensures YourCodeAt(s, i) == Some(s[i..i + n])
  {
    var a := i + n + g1 + 2;
    var b := a + g2 + 4;
    assert In(s[i + n], Space);
    RunEndExact(s, i, i + n, Digit);
    assert SpacedWordAt(s, i + n, "is") == Some(a) by {
      SpacedWordAtIsRegex(s, i + n, g1, "is");
    }
    assert SpacedWordAt(s, a, "your") == Some(b) by {
      SpacedWordAtIsRegex(s, a, g2, "your");
    }
    assert SpacedWordAt(s, b, "code").Some? by {
      SpacedWordAtIsRegex(s, b, g3, "code");
    }
  }

  /** A `YourCodeAt` match is a regex match. */
  lemma YourCodeAtMatches(s: string, i: nat)
    requires i <= |s| && YourCodeAt(s, i).Some?
    ensures exists n, g1, g2, g3 :: YourCodeMatch(s, i, n, g1, g2, g3)
  {
    var e := RunEnd(s, i, Digit);
    var a := SpacedWordAt(s, e, "is").value;
    var b := SpacedWordAt(s, a, "your").value;
    var g1 := RunEnd(s, e, Space) - e;
    var g2 := RunEnd(s, a, Space) - a;
    var g3 := RunEnd(s, b, Space) - b;
    SpacedWordAtIsRegex(s, e, g1, "is");
    SpacedWordAtIsRegex(s, a, g2, "your");
    SpacedWordAtIsRegex(s, b, g3, "code");
    assert YourCodeMatch(s, i, e - i, g1, g2, g3);
  }

  lemma YourCodeAtIsRegex(s: string, i: nat)
    requires i <= |s|
    ensures YourCodeAt(s, i).Some? <==> exists n, g1, g2, g3 :: YourCodeMatch(s, i, n, g1, g2, g3)
    ensures forall n, g1, g2, g3 :: YourCodeMatch(s, i, n, g1, g2, g3) ==> YourCodeAt(s, i) == Some(s[i..i + n])
  {
    forall n: nat, g1: nat, g2: nat, g3: nat | YourCodeMatch(s, i, n, g1, g2, g3)
      ensures YourCodeAt(s, i) == Some(s[i..i + n])
    {
      YourCodeMatchFound(s, i, n, g1, g2, g3);
    }
    if YourCodeAt(s, i).Some? {
      YourCodeAtMatches(s, i);
    }
  }

  // ---------------------------------------------------------------------------
  // \b([0-9]{6})\b

  ghost predicate SixDigitsMatch(s: string, i: nat)
  {
    && (i == 0 || (i <= |s| && !IsWordChar(s[i - 1])))
    && AllIn(s, i, i + 6, Digit)
    && (i + 6 == |s| || !IsWordChar(s[i + 6]))
  }

  lemma SixDigitsAtIsRegex(s: string, i: nat)
    requires i <= |s|
    ensures SixDigitsAt(s, i).Some? <==> SixDigitsMatch(s, i)
    ensures SixDigitsAt(s, i).Some? ==> SixDigitsAt(s, i).value == s[i..i + 6]
  {
    if SixDigitsMatch(s, i) {
      if i + 6 < |s| {
        RunEndExact(s, i, i + 6, Digit);
      } else {
        RunEndCovers(s, i, i + 6, Digit);
      }
    }
  }

  // ---------------------------------------------------------------------------
  // https?://[^\s<>"]+(?:verify|confirm|activate|validation)[^\s<>"]*

  /** The link pattern matches at `i` with the scheme ending at `p`, `pre`
      URL characters, keyword number `k`, then `post` URL characters. */
  ghost predicate LinkMatch(s: string, i: nat, p: nat, pre: nat, k: nat, post: nat)
  {
    && ((OccursAt(s, "http://", i) && p == i + 7) || (OccursAt(s, "https://", i) && p == i + 8))
    && 1 <= pre
    && AllIn(s, p, p + pre, UrlChar)
    && k < |Keywords|
    && OccursAt(s, Keywords[k], p + pre)
    && AllIn(s, p + pre + |Keywords[k]|, p + pre + |Keywords[k]| + post, UrlChar)
  }

  /** Where a link match ends. */
  function LinkEnd(p: nat, pre: nat, k: nat, post: nat): nat
    requires k < |Keywords|
  {
    p + pre + |Keywords[k]| + post
  }

  lemma KeywordsAreUrlChars(k: nat, j: nat)
    requires k < |Keywords| && j < |Keywords[k]|
    ensures 'a' <= Keywords[k][j] <= 'z'
    ensures IsUrlChar(Keywords[k][j])
  {
    var w := Keywords[k];
    if k == 0 { assert w == "verify"; }
    else if k == 1 { assert w == "confirm"; }
    else if k == 2 { assert w == "activate"; }
    else { assert w == "validation"; }
  }

  /** Both schemes cannot occur at the same index. */
  lemma SchemesExclusive(s: string, i: nat)
    requires OccursAt(s, "http://", i)
    ensures !OccursAt(s, "https://", i)
  {
    assert s[i + 4] == "http://"[4];
  }

  /** A regex match makes `LinkAt` match, at least as far. */
  lemma LinkMatchFound(s: string, i: nat, p: nat, pre: nat, k: nat, post: nat)
    requires i <= |s| && LinkMatch(s, i, p, pre, k, post)
    ensures LinkAt(s, i).Some? && i + |LinkAt(s, i).value| >= LinkEnd(p, pre, k, post)
  {
    if OccursAt(s, "http://", i) { SchemesExclusive(s, i); }
    assert SchemeEnd(s, i) == Some(p);
    var q := p + pre;
    var w := Keywords[k];
    var end := LinkEnd(p, pre, k, post);
    assert AllIn(s, p, end, UrlChar) by {
      forall m | p <= m < end ensures In(s[m], UrlChar) {
        if q <= m < q + |w| {
          assert s[m] == s[q..q + |w|][m - q] == w[m - q];
          KeywordsAreUrlChars(k, m - q);
        }
      }
    }
    RunEndCovers(s, p, end, UrlChar);
    var e := RunEnd(s, p, UrlChar);
    assert KeywordWithin(s, p + 1, e);
  }

  /** A `LinkAt` match is a regex match ending where it ends. */
  lemma LinkAtMatches(s: string, i: nat)
    requires i <= |s| && LinkAt(s, i).Some?
    ensures exists p, pre, k, post :: LinkMatch(s, i, p, pre, k, post)
                                      && LinkEnd(p, pre, k, post) == i + |LinkAt(s, i).value|
  {
    var p := SchemeEnd(s, i).value;
    var e := RunEnd(s, p, UrlChar);
    var q, k :| p + 1 <= q && 0 <= k < |Keywords| && OccursAt(s, Keywords[k], q)
               && q + |Keywords[k]| <= e;
    assert LinkMatch(s, i, p, q - p, k, e - (q + |Keywords[k]|));
  }

  lemma LinkAtIsRegex(s: string, i: nat)
    requires i <= |s|
    ensures LinkAt(s, i).Some? <==> exists p, pre, k, post :: LinkMatch(s, i, p, pre, k, post)
    ensures forall p, pre, k, post :: LinkMatch(s, i, p, pre, k, post) ==>
              LinkAt(s, i).Some? && i + |LinkAt(s, i).value| >= LinkEnd(p, pre, k, post)
    ensures LinkAt(s, i).Some? ==>
              exists p, pre, k, post :: LinkMatch(s, i, p, pre, k, post)
                                        && LinkEnd(p, pre, k, post) == i + |LinkAt(s, i).value|
  {
    forall p: nat, pre: nat, k: nat, post: nat | LinkMatch(s, i, p, pre, k, post)
      ensures LinkAt(s, i).Some? && i + |LinkAt(s, i).value| >= LinkEnd(p, pre, k, post)
    {
      LinkMatchFound(s, i, p, pre, k, post);
    }
    if LinkAt(s, i).Some? {
      LinkAtMatches(s, i);
    }
  }
}
