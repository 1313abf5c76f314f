/**
 * The pure text logic of the voice service: the prosody clean-up applied to every
 * reply before it is spoken, the canned replies, wake-phrase matching and the
 * playback safety timeout.
 */
module VoiceText {
  import opened Text

  /** The characters after which the clean-up inserts a pause. */
  predicate IsPausePunctuation(c: char) {
    c == ',' || c == '.' || c == ':' || c == '?' || c == '!'
  }

  /** `replace(/(\d+\.)/g, '$1 ')`: a space after every dot that follows a digit. */
  function SpaceAfterNumberDot(s: string): (r: string)
    ensures |s| <= |r|
    ensures |s| > 0 ==> r[0] == s[0]
    decreases |s|
  {
    if |s| < 2 then s
    else if IsDigit(s[0]) && s[1] == '.' then [s[0], '.', ' '] + SpaceAfterNumberDot(s[2..])
    else [s[0]] + SpaceAfterNumberDot(s[1..])
  }

  /**
   * The replacement chain before white space is normalised, in the order the source
   * applies it: afterwards each of the five pause marks is followed by white space.
   */
  function AddPauses(text: string): (r: string)
    ensures forall c :: IsPausePunctuation(c) ==> SpacedAfter(r, c)
  {
    var s1 := ReplaceAll(text, ",", ", ");
    var s2 := ReplaceAll(s1, ".", ". ");
    var s3 := ReplaceAll(s2, ":", ": ");
    var s4 := ReplaceAll(s3, "?", "? ");
    var s5 := ReplaceAll(s4, "!", "! ");
    var s6 := ReplaceAll(s5, " y ", " y ");
    var s7 := ReplaceAll(s6, " o ", " o ");
    assert forall c :: IsPausePunctuation(c) ==> SpacedAfter(SpaceAfterNumberDot(s7), c) by {
      ExpandSpaced(text, ',', ',');
      ExpandSpaced(s1, '.', ',');
      ExpandSpaced(s2, ':', ',');
      ExpandSpaced(s2, ':', '.');
      ExpandSpaced(s3, '?', ',');
      ExpandSpaced(s3, '?', '.');
      ExpandSpaced(s3, '?', ':');
      ExpandSpaced(s4, '!', ',');
      ExpandSpaced(s4, '!', '.');
      ExpandSpaced(s4, '!', ':');
      ExpandSpaced(s4, '!', '?');
      ReplaceAllSelf(s5, " y ");
      ReplaceAllSelf(s5, " o ");
      forall c | IsPausePunctuation(c) ensures SpacedAfter(SpaceAfterNumberDot(s7), c) {
        NumberDotKeepsSpaced(s7, c);
      }
    }
    SpaceAfterNumberDot(s7)
  }

  /** Every occurrence of `c` in `s` is followed by a white-space character. */
  ghost predicate SpacedAfter(s: string, c: char) {
    forall i :: 0 <= i < |s| && s[i] == c ==> i + 1 < |s| && IsWhitespace(s[i + 1])
  }

  /** The characters of `s` that are not white space, in order. */
  function StripWhitespace(s: string): string {
    if s == [] then []
    else if IsWhitespace(s[0]) then StripWhitespace(s[1..])
    else [s[0]] + StripWhitespace(s[1..])
  }

  /**
   * `improveTextNaturalness`: a space after each pause mark, every run of white
   * space made one space, and the ends trimmed.
   */
  function ImproveTextNaturalness(text: string): (r: string)
    ensures |r| > 0 ==> !IsWhitespace(r[0]) && !IsWhitespace(r[|r| - 1])
    ensures SingleSpaced(r)
    ensures PausesThenSpace(r)
  {
    ShapeOfImproved(text);
    Trim(CollapseWhitespace(AddPauses(text)))
  }

  /** White space only as single spaces: never two white-space characters in a row, never one that is not ' '. */
  ghost predicate SingleSpaced(r: string) {
    && (forall i :: 0 <= i < |r| && IsWhitespace(r[i]) ==> r[i] == ' ')
    && (forall i, j {:trigger r[i], r[j]} :: 0 <= i && j == i + 1 && j < |r| ==> !IsWhitespace(r[i]) || !IsWhitespace(r[j]))
  }

  /** Every pause mark is the last character or is followed by a space. */
  ghost predicate PausesThenSpace(r: string) {
    forall i, j {:trigger r[i], r[j]} :: 0 <= i && j == i + 1 && j < |r| && IsPausePunctuation(r[i]) ==> r[j] == ' '
  }

  lemma ShapeOfImproved(text: string)
    ensures var r := Trim(CollapseWhitespace(AddPauses(text)));
      SingleSpaced(r) && PausesThenSpace(r)
  {
    var p := AddPauses(text);
    var c := CollapseWhitespace(p);
    assert PausesFollowedByWhitespace(p) by {
      forall i | 0 <= i < |p| && IsPausePunctuation(p[i]) ensures i + 1 < |p| && IsWhitespace(p[i + 1]) {
        assert SpacedAfter(p, p[i]);
      }
    }
    CollapseKeepsSpaced(p);
    TrimStartKeepsCollapsed(c);
    TrimEndKeepsShape(TrimStart(c));
  }

  /** The clean-up only touches white space: the other characters stay, in order. */
  lemma ImproveKeepsNonWhitespace(text: string)
    ensures StripWhitespace(ImproveTextNaturalness(text)) == StripWhitespace(text)
  {
    var p := AddPauses(text);
    var c := CollapseWhitespace(p);
    StripAddPauses(text);
    StripCollapse(p);
    StripTrimStart(c);
    StripTrimEnd(TrimStart(c));
  }

  /**
   * One pass of `replace(/c/g, c + ' ')` puts white space after every `c` and keeps
   * white space after every other non-space character `d` that had it.
   */
  lemma {:induction false} ExpandSpaced(s: string, c: char, d: char)
    requires !IsWhitespace(c) && !IsWhitespace(d)
    ensures SpacedAfter(ReplaceAll(s, [c], [c, ' ']), c)
    ensures SpacedAfter(s, d) ==> SpacedAfter(ReplaceAll(s, [c], [c, ' ']), d)
    decreases |s|
  {
    if |s| >= 1 {
      var rest := ReplaceAll(s[1..], [c], [c, ' ']);
      ExpandSpaced(s[1..], c, d);
      if SpacedAfter(s, d) {
        assert SpacedAfter(s[1..], d) by {
          forall i | 0 <= i < |s[1..]| && s[1..][i] == d ensures i + 1 < |s[1..]| && IsWhitespace(s[1..][i + 1]) {
            assert s[i + 1] == d;
          }
        }
      }
      if [c] <= s {
        assert ReplaceAll(s, [c], [c, ' ']) == [c, ' '] + rest;
      } else {
        assert ReplaceAll(s, [c], [c, ' ']) == [s[0]] + rest;
        if s[0] == d && SpacedAfter(s, d) {
          assert IsWhitespace(s[1]);
          assert rest[0] == s[1];
        }
      }
    }
  }

  /** Inserting spaces after numbered dots keeps every pause mark followed by white space. */
  lemma {:induction false} NumberDotKeepsSpaced(s: string, c: char)
    requires IsPausePunctuation(c)
    requires SpacedAfter(s, c)
    ensures SpacedAfter(SpaceAfterNumberDot(s), c)
    decreases |s|
  {
    if |s| >= 2 {
      if IsDigit(s[0]) && s[1] == '.' {
        var tail := s[2..];
        assert SpacedAfter(tail, c) by {
          forall i | 0 <= i < |tail| && tail[i] == c ensures i + 1 < |tail| && IsWhitespace(tail[i + 1]) {
            assert s[i + 2] == c;
          }
        }
        NumberDotKeepsSpaced(tail, c);
      } else {
        var tail := s[1..];
        assert SpacedAfter(tail, c) by {
          forall i | 0 <= i < |tail| && tail[i] == c ensures i + 1 < |tail| && IsWhitespace(tail[i + 1]) {
            assert s[i + 1] == c;
          }
        }
        NumberDotKeepsSpaced(tail, c);
      }
    }
  }

  /** Every pause mark in `s` is followed by a white-space character. */
  ghost predicate PausesFollowedByWhitespace(s: string) {
    forall i :: 0 <= i < |s| && IsPausePunctuation(s[i]) ==> i + 1 < |s| && IsWhitespace(s[i + 1])
  }

  /** Collapsing white space keeps each pause mark followed by a space. */
  lemma {:induction false} CollapseKeepsSpaced(s: string)
    requires PausesFollowedByWhitespace(s)
    ensures PausesFollowedBySpace(CollapseWhitespace(s))
    decreases |s|
  {
    if s != [] && IsWhitespace(s[0]) {
      var t := TrimStart(s);
      SuffixKeepsPausesSpaced(s, |s| - |t|);
      CollapseKeepsSpaced(t);
      ConsKeepsPausesSpaced(' ', CollapseWhitespace(t));
    } else if s != [] {
      SuffixKeepsPausesSpaced(s, 1);
      CollapseKeepsSpaced(s[1..]);
      ConsKeepsPausesSpaced(s[0], CollapseWhitespace(s[1..]));
    }
  }

  /** Every suffix of a string whose pause marks are followed by white space is one too. */
  lemma SuffixKeepsPausesSpaced(s: string, k: nat)
    requires PausesFollowedByWhitespace(s) && k <= |s|
    ensures PausesFollowedByWhitespace(s[k..])
  {
    var t := s[k..];
    assert forall i :: 0 <= i < |t| ==> t[i] == s[k + i];
  }

  /** Putting a character in front keeps pause marks followed by a space, if that character's own mark is. */
  lemma ConsKeepsPausesSpaced(c: char, tail: string)
    requires PausesFollowedBySpace(tail)
    requires IsPausePunctuation(c) ==> |tail| > 0 && tail[0] == ' '
    ensures PausesFollowedBySpace([c] + tail)
  {
    var r := [c] + tail;
    forall i | 0 <= i < |r| && IsPausePunctuation(r[i]) ensures i + 1 < |r| && r[i + 1] == ' ' {
      if i > 0 {
        assert r[i] == tail[i - 1];
      }
    }
  }

  /** A collapsed string: white space only as single spaces, each pause mark followed by a space. */
  ghost predicate Collapsed(c: string) {
    && (forall i :: 0 <= i < |c| && IsWhitespace(c[i]) ==> c[i] == ' ')
    && (forall i :: 0 <= i < |c| - 1 ==> !IsWhitespace(c[i]) || !IsWhitespace(c[i + 1]))
    && PausesFollowedBySpace(c)
  }

  /** Every pause mark in `c` is followed by a space. */
  ghost predicate PausesFollowedBySpace(c: string) {
    forall i :: 0 <= i < |c| && IsPausePunctuation(c[i]) ==> i + 1 < |c| && c[i + 1] == ' '
  }

  /** Trimming the front of a collapsed string keeps it collapsed. */
  lemma TrimStartKeepsCollapsed(c: string)
    requires Collapsed(c)
    ensures Collapsed(TrimStart(c))
  {
    SuffixKeepsCollapsed(c, |c| - |TrimStart(c)|);
  }

  /** Every suffix of a collapsed string is collapsed. */
  lemma SuffixKeepsCollapsed(c: string, k: nat)
    requires Collapsed(c) && k <= |c|
    ensures Collapsed(c[k..])
  {
    var t := c[k..];
    assert forall i :: 0 <= i < |t| ==> t[i] == c[k + i];
  }

  /**
   * Trimming the end of a collapsed string keeps single spaces and leaves each
   * pause mark last or followed by a space.
   */
  lemma TrimEndKeepsShape(t: string)
    requires Collapsed(t)
    ensures SingleSpaced(TrimEnd(t)) && PausesThenSpace(TrimEnd(t))
  {
    var r := TrimEnd(t);
    assert forall i :: 0 <= i < |r| ==> r[i] == t[i];
  }

  lemma {:induction false} StripConcat(a: string, b: string)
    ensures StripWhitespace(a + b) == StripWhitespace(a) + StripWhitespace(b)
    decreases |a|
  {
    if a == [] {
      assert a + b == b;
    } else {
      assert (a + b)[1..] == a[1..] + b;
      StripConcat(a[1..], b);
    }
  }

  lemma {:induction false} StripExpand(s: string, c: char)
    requires !IsWhitespace(c)
    ensures StripWhitespace(ReplaceAll(s, [c], [c, ' '])) == StripWhitespace(s)
    decreases |s|
  {
    if |s| >= 1 {
      var rest := ReplaceAll(s[1..], [c], [c, ' ']);
      StripExpand(s[1..], c);
      if [c] <= s {
        StripConcat([c, ' '], rest);
      } else {
        StripConcat([s[0]], rest);
      }
    }
  }

  lemma {:induction false} StripNumberDot(s: string)
    ensures StripWhitespace(SpaceAfterNumberDot(s)) == StripWhitespace(s)
    decreases |s|
  {
    if |s| >= 2 {
      if IsDigit(s[0]) && s[1] == '.' {
        StripNumberDot(s[2..]);
        StripConcat([s[0], '.', ' '], SpaceAfterNumberDot(s[2..]));
        assert s == [s[0], '.'] + s[2..];
        StripConcat([s[0], '.'], s[2..]);
        assert StripWhitespace([' ']) == [];
        assert StripWhitespace(['.', ' ']) == ['.'] by {
          assert ['.', ' '][1..] == [' '];
        }
        assert StripWhitespace([s[0], '.', ' ']) == [s[0], '.'] by {
          assert [s[0], '.', ' '][1..] == ['.', ' '];
        }
        assert StripWhitespace([s[0], '.']) == [s[0], '.'] by {
          assert [s[0], '.'][1..] == ['.'];
          assert StripWhitespace(['.']) == ['.'] by {
            assert ['.'][1..] == [];
          }
        }
      } else {
        StripNumberDot(s[1..]);
        StripConcat([s[0]], SpaceAfterNumberDot(s[1..]));
      }
    }
  }

  lemma StripAddPauses(text: string)
    ensures StripWhitespace(AddPauses(text)) == StripWhitespace(text)
  {
    var s1 := ReplaceAll(text, ",", ", ");
    var s2 := ReplaceAll(s1, ".", ". ");
    var s3 := ReplaceAll(s2, ":", ": ");
    var s4 := ReplaceAll(s3, "?", "? ");
    var s5 := ReplaceAll(s4, "!", "! ");
    StripExpand(text, ',');
    StripExpand(s1, '.');
    StripExpand(s2, ':');
    StripExpand(s3, '?');
    StripExpand(s4, '!');
    ReplaceAllSelf(s5, " y ");
    ReplaceAllSelf(s5, " o ");
    StripNumberDot(s5);
  }

  lemma {:induction false} StripTrimStart(s: string)
    ensures StripWhitespace(TrimStart(s)) == StripWhitespace(s)
    decreases |s|
  {
    if |s| > 0 && IsWhitespace(s[0]) {
      StripTrimStart(s[1..]);
    }
  }

  lemma {:induction false} StripTrimEnd(s: string)
    ensures StripWhitespace(TrimEnd(s)) == StripWhitespace(s)
    decreases |s|
  {
    if |s| > 0 && IsWhitespace(s[|s| - 1]) {
      var init := s[..|s| - 1];
      StripTrimEnd(init);
      assert s == init + [s[|s| - 1]];
      StripConcat(init, [s[|s| - 1]]);
    }
  }

  lemma {:induction false} StripCollapse(s: string)
    ensures StripWhitespace(CollapseWhitespace(s)) == StripWhitespace(s)
    decreases |s|
  {
    if s != [] {
      if IsWhitespace(s[0]) {
        var t := TrimStart(s);
        StripCollapse(t);
        StripTrimStart(s);
        StripConcat([' '], CollapseWhitespace(t));
      } else {
        StripCollapse(s[1..]);
        StripConcat([s[0]], CollapseWhitespace(s[1..]));
      }
    }
  }

  /** The phrases that wake the assistant, matched against the lower-cased transcript. */
  const WakeWords: seq<string> := ["hey geo", "hey jorge", "hey george", "ey geo", "george", "jorge"]

  /** `wakeWords.some(word => lowerText.includes(word))`. */
  predicate HasWakeWord(lowerText: string) {
    exists i :: 0 <= i < |WakeWords| && Contains(lowerText, WakeWords[i])
  }

  /**
   * A transcript that wakes the assistant once lower-cased: exactly one that
   * contains "ey geo", "george" or "jorge" in any case.
   */
  predicate IsWakeText(text: string)
    ensures IsWakeText(text) <==>
      Contains(Lower(text), "ey geo") || Contains(Lower(text), "george") || Contains(Lower(text), "jorge")
  {
    WakeWordsReduce(Lower(text));
    HasWakeWord(Lower(text))
  }

  /** Where `pat` occurs in `s`, when it does. */
  lemma {:induction false} ContainsWitness(s: string, pat: string) returns (k: nat)
    requires Contains(s, pat)
    ensures k + |pat| <= |s| && s[k..k + |pat|] == pat
    decreases |s|
  {
    if pat <= s {
      k := 0;
    } else {
      var j := ContainsWitness(s[1..], pat);
      k := j + 1;
      assert s[k..k + |pat|] == s[1..][j..j + |pat|];
    }
  }

  /** A text containing `a` contains everything `a` contains. */
  lemma ContainsTransitive(s: string, a: string, b: string)
    requires Contains(s, a) && Contains(a, b)
    ensures Contains(s, b)
  {
    var i := ContainsWitness(s, a);
    var j := ContainsWitness(a, b);
    assert forall m :: 0 <= m < |a| ==> a[m] == s[i + m];
    assert s[i + j..i + j + |b|] == a[j..j + |b|];
    ContainsAt(s, b, i + j);
  }

  /**
   * Three of the six wake phrases are redundant: a text has a wake phrase exactly
   * when it contains "ey geo", "george" or "jorge".
   */
  lemma WakeWordsReduce(t: string)
    ensures HasWakeWord(t) <==> Contains(t, "ey geo") || Contains(t, "george") || Contains(t, "jorge")
  {
    assert WakeWords[3] == "ey geo" && WakeWords[4] == "george" && WakeWords[5] == "jorge";
    if HasWakeWord(t) {
      var i :| 0 <= i < |WakeWords| && Contains(t, WakeWords[i]);
      if i == 0 {
        ContainsAt("hey geo", "ey geo", 1);
        ContainsTransitive(t, "hey geo", "ey geo");
      } else if i == 1 {
        ContainsAt("hey jorge", "jorge", 4);
        ContainsTransitive(t, "hey jorge", "jorge");
      } else if i == 2 {
        ContainsAt("hey george", "george", 4);
        ContainsTransitive(t, "hey george", "george");
      }
    }
  }

  /** Which canned reply a transcript gets. */
  datatype ReplyKind = Greeting | Farewell | Thanks | Default | NotHeard

  /** The canned replies, before clean-up. */
  function CannedReply(k: ReplyKind): string {
    match k
    case Greeting => "¡Hola! Soy tu asistente virtual experto en aires acondicionados."
    case Farewell => "¡Hasta luego!"
    case Thanks => "De nada."
    case Default => "Soy tu asistente virtual experto en aires acondicionados."
    case NotHeard => "No pude escuchar bien. ¿Podrías repetir tu pregunta?"
  }

  predicate IsGreeting(lowerText: string) {
    Contains(lowerText, "hola") || Contains(lowerText, "buenos días") || Contains(lowerText, "buenas tardes")
  }

  predicate IsFarewell(lowerText: string) {
    Contains(lowerText, "adiós") || Contains(lowerText, "hasta luego") || Contains(lowerText, "nos vemos")
  }

  predicate IsThanks(lowerText: string) {
    Contains(lowerText, "gracias")
  }

  /**
   * The branch `generateResponse` takes for a lower-cased transcript: greetings are
   * recognised first, then farewells, then thanks; anything else gets the default.
   */
  function Classify(lowerText: string): (k: ReplyKind)
    ensures k != NotHeard
    ensures k == Greeting <==> IsGreeting(lowerText)
    ensures k == Farewell <==> !IsGreeting(lowerText) && IsFarewell(lowerText)
    ensures k == Thanks <==> !IsGreeting(lowerText) && !IsFarewell(lowerText) && IsThanks(lowerText)
    ensures k == Default <==> !IsGreeting(lowerText) && !IsFarewell(lowerText) && !IsThanks(lowerText)
  {
    if IsGreeting(lowerText) then Greeting
    else if IsFarewell(lowerText) then Farewell
    else if IsThanks(lowerText) then Thanks
    else Default
  }

  /**
   * `addClosingPhrase`: no phrase is added any more; the reply is only cleaned up,
   * so its words come back unchanged and only its spacing may differ.
   */
  function AddClosingPhrase(response: string): (r: string)
    ensures StripWhitespace(r) == StripWhitespace(response)
    ensures |r| > 0 ==> !IsWhitespace(r[0]) && !IsWhitespace(r[|r| - 1])
    ensures SingleSpaced(r) && PausesThenSpace(r)
  {
    ImproveKeepsNonWhitespace(response);
    ImproveTextNaturalness(response)
  }

  /** The text of a reply as handed to `speak` and to `onResponse`: the canned reply, cleaned up. */
  function ReplyText(k: ReplyKind): string {
    AddClosingPhrase(CannedReply(k))
  }

  /**
   * `generateResponse`: the canned reply for the transcript's branch, with the
   * canned reply's words and single spaces.
   */
  function GenerateResponse(userText: string): (r: string)
    ensures StripWhitespace(r) == StripWhitespace(CannedReply(Classify(Lower(userText))))
    ensures SingleSpaced(r) && PausesThenSpace(r)
  {
    ReplyText(Classify(Lower(userText)))
  }

  /** Lower-casing twice is lower-casing once. */
  lemma LowerIdempotent(s: string)
    ensures Lower(Lower(s)) == Lower(s)
  {
    assert forall i :: 0 <= i < |s| ==> LowerChar(LowerChar(s[i])) == LowerChar(s[i]);
  }

  /** The reply depends only on the lower-cased transcript: matching ignores case. */
  lemma ResponseIgnoresCase(userText: string)
    ensures GenerateResponse(userText) == GenerateResponse(Lower(userText))
  {
    LowerIdempotent(userText);
  }

  /**
   * The playback safety timeout: 200 ms per UTF-16 code unit of the cleaned-up text
   * (`improvedText.length`), at least 3 s and at most 30 s.
   */
  function SpeakTimeout(improvedText: string): (ms: nat)
    ensures 3000 <= ms <= 30000
    ensures 15 <= Utf16Length(improvedText) <= 150 ==> ms == Utf16Length(improvedText) * 200
    ensures Utf16Length(improvedText) < 15 ==> ms == 3000
    ensures Utf16Length(improvedText) > 150 ==> ms == 30000
  {
    var length := Utf16Length(improvedText);
    var estimated := if length * 200 > 3000 then length * 200 else 3000;
    if estimated < 30000 then estimated else 30000
  }
}
