/** Worked examples on concrete inputs: the body of the demo email the fetch
    stub produces (src-tauri/src/email/mod.rs) and a labelled code. */
module Scenarios {
  import opened Wrappers
  import opened Text
  import opened Extract
  import opened RegexSpec

  // ---------------------------------------------------------------------------
  // Small facts used to evaluate the matchers by hand

  /** A case-insensitive literal needs its first letter at the start. */
  lemma FoldAtStarts(s: string, i: nat, lit: string)
    requires |lit| >= 2 && FoldAt(s, i, lit)
    ensures FoldEq(s[i], lit[0]) && FoldEq(s[i + 1], lit[1])
  {
    assert FoldEq(s[i + 0], lit[0]) && FoldEq(s[i + 1], lit[1]);
  }

  /** A literal spelled out exactly matches itself case-insensitively. */
  lemma ExactFoldAt(s: string, i: nat, lit: string)
    requires i + |lit| <= |s| && s[i..i + |lit|] == lit
    ensures FoldAt(s, i, lit)
  {
    forall j | 0 <= j < |lit| ensures FoldEq(s[i + j], lit[j]) {
      assert s[i + j] == s[i..i + |lit|][j];
    }
  }

  /** Inside a stretch of text without "c" or "C", no case-insensitive
      literal starting with "c" begins. */
  lemma NoCodeStartIn(s: string, lo: nat, piece: string, k: nat)
    requires lo + |piece| <= |s| && s[lo..lo + |piece|] == piece
    requires 'c' !in piece && 'C' !in piece
    requires lo <= k < lo + |piece|
    ensures !FoldAt(s, k, "code")
  {
    assert s[k] == piece[k - lo];
    if FoldAt(s, k, "code") { FoldAtStarts(s, k, "code"); }
  }

  /** A link needs an "h" where it starts. */
  lemma LinkStartsWithH(s: string, k: nat)
    requires k <= |s| && LinkAt(s, k).Some?
    ensures k < |s| && s[k] == 'h'
  {
    if OccursAt(s, "https://", k) { assert s[k] == s[k..k + 8][0]; }
    else { assert s[k] == s[k..k + 7][0]; }
  }

  // ---------------------------------------------------------------------------
  // The demo email's body

  /** "Your verification code is: 123456. Please use it to verify your
      account.", cut where the letter c occurs. */
  function DemoBody(): string
  {
    "Your verifi" + "cation " + "code is: 123456." + " Please use it to verify your a" + "ccount."
  }

  lemma DemoBodyText()
    ensures DemoBody() == "Your verification code is: 123456." + " Please use it to verify your account."
    ensures |DemoBody()| == 72
  {
  }

  /** Pattern (a) fails at the occurrences of "c" that do not start "code". */
  lemma DemoCodeLabelFailsAtC(k: nat)
    requires k == 11 || k == 65 || k == 66
    ensures MatchAt(CodeLabel, DemoBody(), k).None?
  {
    var d := DemoBody();
    if FoldAt(d, k, "code") {
      FoldAtStarts(d, k, "code");
      if k == 66 { assert FoldEq(d[k + 2], "code"[2]); }
    }
  }

  /** Pattern (a) fails where "code" does occur: after the separator comes
      "is", two code characters where four are needed. */
  lemma DemoCodeLabelFailsAtCode()
    ensures MatchAt(CodeLabel, DemoBody(), 18).None?
  {
    var d := DemoBody();
    assert d[22] == ' ' && d[23] == 'i' && d[24] == 's' && d[25] == ':';
    RunEndExact(d, 22, 23, LabelSep);
    RunEndExact(d, 23, 25, CodeChar);
  }

  /** Pattern (a) fails wherever the text has no "c": the stretches between
      the occurrences of "c". */
  lemma DemoCodeLabelFailsIn0(k: nat)
    requires 0 <= k < 11
    ensures MatchAt(CodeLabel, DemoBody(), k).None?
  {
    assert DemoBody()[0..11] == "Your verifi";
    NoCodeStartIn(DemoBody(), 0, "Your verifi", k);
  }

  lemma DemoCodeLabelFailsIn1(k: nat)
    requires 12 <= k < 18
    ensures MatchAt(CodeLabel, DemoBody(), k).None?
  {
    assert DemoBody()[12..18] == "ation ";
    NoCodeStartIn(DemoBody(), 12, "ation ", k);
  }

  lemma DemoCodeLabelFailsIn2(k: nat)
    requires 19 <= k < 34
    ensures MatchAt(CodeLabel, DemoBody(), k).None?
  {
    assert DemoBody()[19..34] == "ode is: 123456.";
    NoCodeStartIn(DemoBody(), 19, "ode is: 123456.", k);
  }

  lemma DemoCodeLabelFailsIn3(k: nat)
    requires 34 <= k < 65
    ensures MatchAt(CodeLabel, DemoBody(), k).None?
  {
    assert DemoBody()[34..65] == " Please use it to verify your a";
    NoCodeStartIn(DemoBody(), 34, " Please use it to verify your a", k);
  }

  lemma DemoCodeLabelFailsIn4(k: nat)
    requires 67 <= k < 72
    ensures MatchAt(CodeLabel, DemoBody(), k).None?
  {
    assert DemoBody()[67..72] == "ount.";
    NoCodeStartIn(DemoBody(), 67, "ount.", k);
  }

  /** Pattern (a), `code` followed by a label, matches nowhere in the demo
      body. */
  lemma DemoHasNoCodeLabel()
    ensures !Matches(CodeLabel, DemoBody())
  {
    forall k | 0 <= k <= |DemoBody()| ensures MatchAt(CodeLabel, DemoBody(), k).None? {
      if k == 11 || k == 65 || k == 66 { DemoCodeLabelFailsAtC(k); }
      else if k == 18 { DemoCodeLabelFailsAtCode(); }
      else if k < 11 { DemoCodeLabelFailsIn0(k); }
      else if k < 18 { DemoCodeLabelFailsIn1(k); }
      else if k < 34 { DemoCodeLabelFailsIn2(k); }
      else if k < 65 { DemoCodeLabelFailsIn3(k); }
      else if k < 72 { DemoCodeLabelFailsIn4(k); }
    }
  }

  /** Pattern (b), `verification` followed by a label, matches at index 5,
      and its capture is the word "code". */
  lemma DemoVerificationLabelAt5()
    ensures MatchAt(VerificationLabel, DemoBody(), 5) == Some("code")
  {
    var d := DemoBody();
    assert d[5..17] == "verification";
    assert d[17] == ' ' && d[18..22] == "code" && d[22] == ' ';
    ExactFoldAt(d, 5, "verification");
    RunEndExact(d, 17, 18, LabelSep);
    assert AllIn(d, 18, 22, CodeChar) by {
      forall m | 18 <= m < 22 ensures In(d[m], CodeChar) {
        assert d[m] == d[18..22][m - 18];
      }
    }
    RunEndExact(d, 18, 22, CodeChar);
    assert LabelAt(d, 5, "verification") == Some(d[18..22]);
  }

  /** ... and nowhere before. */
  lemma DemoVerificationLabelNotBefore5()
    ensures forall k :: 0 <= k < 5 ==> MatchAt(VerificationLabel, DemoBody(), k).None?
  {
    var d := DemoBody();
    assert d[0..5] == "Your ";
    forall k | 0 <= k < 5 ensures MatchAt(VerificationLabel, d, k).None? {
      assert d[k] == "Your "[k];
      if FoldAt(d, k, "verification") { FoldAtStarts(d, k, "verification"); }
    }
  }

  /** On the demo body the code extractor returns "code", not the six-digit
      number: the first pattern that matches anywhere wins, and pattern (b)
      accepts the word after "verification ". */
  lemma DemoCodeIsTheWordCode()
    ensures ExtractCode(DemoBody()) == Some("code")
  {
    var d := DemoBody();
    DemoHasNoCodeLabel();
    DemoVerificationLabelAt5();
    DemoVerificationLabelNotBefore5();
    assert CodePatterns[0] == CodeLabel && CodePatterns[1] == VerificationLabel;
    assert Matches(VerificationLabel, d);
    assert FirstCodePattern(d, 0) == Some(1);
  }

  /** The demo body has no link: it has no "h", so no scheme. */
  lemma DemoHasNoLink()
    ensures ExtractLink(DemoBody()) == None
  {
    var d := DemoBody();
    assert 'h' !in d;
    forall k | 0 <= k <= |d| ensures MatchAt(VerificationLink, d, k).None? {
      if LinkAt(d, k).Some? { LinkStartsWithH(d, k); }
    }
  }

  // ---------------------------------------------------------------------------
  // A labelled code

  function LabelledBody(): string
  {
    "code: AB12CD 654321"
  }

  /** "code: AB12CD 654321" yields "AB12CD": pattern (a) matches at the start,
      so the six-digit number later in the text is never considered. */
  lemma LabelledCodeWins()
    ensures ExtractCode(LabelledBody()) == Some("AB12CD")
  {
    var s := LabelledBody();
    assert s[0..4] == "code" && s[4] == ':' && s[5] == ' ' && s[6..12] == "AB12CD" && s[12] == ' ';
    ExactFoldAt(s, 0, "code");
    assert AllIn(s, 4, 6, LabelSep) by {
      forall m | 4 <= m < 6 ensures In(s[m], LabelSep) { }
    }
    RunEndExact(s, 4, 6, LabelSep);
    assert AllIn(s, 6, 12, CodeChar) by {
      forall m | 6 <= m < 12 ensures In(s[m], CodeChar) {
        assert s[m] == s[6..12][m - 6];
      }
    }
    RunEndExact(s, 6, 12, CodeChar);
    assert MatchAt(CodeLabel, s, 0) == Some("AB12CD");
    assert CodePatterns[0] == CodeLabel;
    assert FirstCodePattern(s, 0) == Some(0);
  }
}
