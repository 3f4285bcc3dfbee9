/**
 * The two locally computed substitutes the orchestrator returns when a remote service is
 * skipped or runs out of retries: a chord guessed from the question text with the pattern
 * `/[A-G][#b]?\s*(major|minor|maj|min|m|7|sus|dim)?/i`, and overlay dots placed by a fixed
 * linear map from fret and string numbers to pixels.
 */
module Fallback {
  import opened Wrappers
  import Text
  import opened Replies
  import opened ChordCatalogue

  // ---------------------------------------------------------------------------
  // The chord pattern. With the `i` flag, `[A-G]` also matches a..g and `[#b]` also matches B.
  // ---------------------------------------------------------------------------

  predicate IsRoot(c: char) { 'A' <= c <= 'G' || 'a' <= c <= 'g' }

  predicate IsAccidental(c: char) { c == '#' || c == 'b' || c == 'B' }

  /** The quality alternatives, in the order the pattern tries them. */
  const Qualities: seq<string> := ["major", "minor", "maj", "min", "m", "7", "sus", "dim"]

  /** `t` starts with the lower-case word `w`, ignoring ASCII case. */
  predicate StartsWithWord(t: string, w: string) {
    |w| <= |t| && Text.ToLower(t[..|w|]) == w
  }

  /** The first alternative of `qs` that `t` starts with: how the pattern's group chooses. */
  function FirstQuality(t: string, qs: seq<string>): (r: Option<string>)
    ensures r.Some? ==> r.value in qs && StartsWithWord(t, r.value)
    ensures r.Some? ==> exists i :: 0 <= i < |qs| && qs[i] == r.value && NoneFitsBefore(t, qs, i)
    ensures r.None? ==> forall i :: 0 <= i < |qs| ==> !StartsWithWord(t, qs[i])
    decreases |qs|
  {
    if |qs| == 0 then None
    else if StartsWithWord(t, qs[0]) then Some(qs[0])
    else
      var r := FirstQuality(t, qs[1..]);
      assert r.Some? ==> exists i :: 0 <= i < |qs| && qs[i] == r.value && NoneFitsBefore(t, qs, i) by {
        if r.Some? {
          var i :| 0 <= i < |qs[1..]| && qs[1..][i] == r.value && NoneFitsBefore(t, qs[1..], i);
          assert qs[i + 1] == r.value;
          assert NoneFitsBefore(t, qs, i + 1) by {
            forall j | 0 <= j < i + 1 ensures !StartsWithWord(t, qs[j]) {
              if j > 0 {
                assert qs[j] == qs[1..][j - 1];
              }
            }
          }
        }
      }
      r
  }

  /** No alternative of `qs` before index `i` fits the start of `t`. */
  predicate NoneFitsBefore(t: string, qs: seq<string>, i: int)
    requires i <= |qs|
  {
    forall j :: 0 <= j < i ==> !StartsWithWord(t, qs[j])
  }

  /** The greedy `\s*`: the end of the run of whitespace that starts at `j`. */
  function SkipSpaces(s: string, j: nat): (k: nat)
    requires j <= |s|
    ensures j <= k <= |s|
    ensures forall i :: j <= i < k ==> Text.IsSpace(s[i])
    ensures k < |s| ==> !Text.IsSpace(s[k])
    decreases |s| - j
  {
    if j < |s| && Text.IsSpace(s[j]) then SkipSpaces(s, j + 1) else j
  }

  /** Where the root and optional accidental of a match starting at `t[0]` end. */
  function RootEnd(t: string): (j: nat)
    requires |t| > 0
    ensures 1 <= j <= |t|
    ensures j == 2 <==> |t| > 1 && IsAccidental(t[1])
  {
    if 1 < |t| && IsAccidental(t[1]) then 2 else 1
  }

  /** The length of the text the pattern matches at the start of `t`. */
  function MatchEnd(t: string): (e: nat)
    requires |t| > 0 && IsRoot(t[0])
    ensures 0 < e <= |t|
  {
    var k := SkipSpaces(t, RootEnd(t));
    var q := FirstQuality(t[k..], Qualities);
    if q.Some? then k + |q.value| else k
  }

  /** Every quality alternative is a non-empty word. */
  lemma QualitiesNonEmpty()
    ensures forall i :: 0 <= i < |Qualities| ==> |Qualities[i]| > 0
  {
  }

  /** After the root and its accidental, a match takes the whole run of whitespace. */
  lemma MatchEndSkipsSpaces(t: string)
    requires |t| > 0 && IsRoot(t[0])
    ensures var k := SkipSpaces(t, RootEnd(t));
      && RootEnd(t) <= k <= MatchEnd(t)
      && (forall i :: RootEnd(t) <= i < k ==> Text.IsSpace(t[i]))
      && (k < |t| ==> !Text.IsSpace(t[k]))
  {
  }

  /**
   * After the whitespace, a match takes the first quality alternative that fits, or nothing
   * when none fits.
   */
  lemma MatchEndTakesFirstQuality(t: string)
    requires |t| > 0 && IsRoot(t[0])
    ensures var k := SkipSpaces(t, RootEnd(t));
      MatchEnd(t) == k <==> forall i :: 0 <= i < |Qualities| ==> !StartsWithWord(t[k..], Qualities[i])
    ensures var k := SkipSpaces(t, RootEnd(t));
      MatchEnd(t) > k ==>
        exists i :: (&& 0 <= i < |Qualities|
                     && StartsWithWord(t[k..], Qualities[i])
                     && MatchEnd(t) - k == |Qualities[i]|
                     && NoneFitsBefore(t[k..], Qualities, i))
  {
    var k := SkipSpaces(t, RootEnd(t));
    var u := t[k..];
    var q := FirstQuality(u, Qualities);
    QualityAt(u);
    if q.Some? {
      assert MatchEnd(t) == k + |q.value|;
    } else {
      assert MatchEnd(t) == k;
    }
  }

  /** The quality group at the start of `u`: none iff no alternative fits, else the first that does. */
  lemma QualityAt(u: string)
    ensures FirstQuality(u, Qualities).None? <==> forall i :: 0 <= i < |Qualities| ==> !StartsWithWord(u, Qualities[i])
    ensures FirstQuality(u, Qualities).Some? ==>
      exists i :: (&& 0 <= i < |Qualities|
                   && StartsWithWord(u, Qualities[i])
                   && |FirstQuality(u, Qualities).value| == |Qualities[i]| > 0
                   && NoneFitsBefore(u, Qualities, i))
  {
    QualitiesNonEmpty();
  }

  /** The text the pattern matches at the start of `t`, whose first character is a root letter. */
  function Token(t: string): (m: string)
    requires |t| > 0 && IsRoot(t[0])
    ensures 0 < |m| <= |t| && m == t[..|m|]
    ensures |m| == MatchEnd(t)
  {
    t[..MatchEnd(t)]
  }

  /** The index of the first root letter at or after `from`: where the leftmost match starts. */
  function FirstRoot(s: string, from: nat): (r: Option<nat>)
    ensures r.Some? ==> from <= r.value < |s| && IsRoot(s[r.value])
    ensures r.Some? ==> forall i :: from <= i < r.value ==> !IsRoot(s[i])
    ensures r.None? ==> forall i :: from <= i < |s| ==> !IsRoot(s[i])
    decreases |s| - from
  {
    if from >= |s| then None
    else if IsRoot(s[from]) then Some(from)
    else FirstRoot(s, from + 1)
  }

  /** `question.match(pattern)[0]`: the leftmost match, or `None` when nothing matches. */
  function ChordMention(question: string): (r: Option<string>)
    ensures r.None? <==> forall i :: 0 <= i < |question| ==> !IsRoot(question[i])
    ensures r.Some? ==> 0 < |r.value| && IsRoot(r.value[0])
    ensures r.Some? ==> r.value <= question[FirstRoot(question, 0).value..]
    ensures r.Some? ==>
      var i := FirstRoot(question, 0).value;
      i + MatchEnd(question[i..]) <= |question| && r.value == question[i..i + MatchEnd(question[i..])]
  {
    match FirstRoot(question, 0)
    case None => None
    case Some(i) =>
      TokenAt(question, i);
      Some(Token(question[i..]))
  }

  /** The match starting at `i` is the slice of the text from `i` to the match's end. */
  lemma TokenAt(s: string, i: nat)
    requires i < |s| && IsRoot(s[i])
    ensures i + MatchEnd(s[i..]) <= |s|
    ensures Token(s[i..]) == s[i..i + MatchEnd(s[i..])]
    ensures Token(s[i..]) <= s[i..]
  {
    var t := s[i..];
    assert t[..MatchEnd(t)] == s[i..i + MatchEnd(t)];
  }

  // ---------------------------------------------------------------------------
  // Lemmas about the chord pattern.
  // ---------------------------------------------------------------------------

  /** A word that prefixes a prefix of `t` prefixes `t`. */
  lemma StartsWithPrefix(t: string, n: nat, w: string)
    requires n <= |t|
    requires StartsWithWord(t[..n], w)
    ensures StartsWithWord(t, w)
  {
    assert t[..n][..|w|] == t[..|w|];
  }

  /** Cutting `t` after a chosen alternative keeps that alternative the first one chosen. */
  lemma {:induction false} FirstQualityOfPrefix(t: string, n: nat, qs: seq<string>)
    requires n <= |t|
    requires FirstQuality(t, qs).Some? ==> |FirstQuality(t, qs).value| <= n
    ensures FirstQuality(t[..n], qs) == FirstQuality(t, qs)
    decreases |qs|
  {
    if |qs| > 0 {
      if StartsWithWord(t, qs[0]) {
        assert t[..n][..|qs[0]|] == t[..|qs[0]|];
      } else {
        if StartsWithWord(t[..n], qs[0]) {
          StartsWithPrefix(t, n, qs[0]);
        }
        FirstQualityOfPrefix(t, n, qs[1..]);
      }
    }
  }

  /** Whitespace skipping on a prefix that still contains the whole run stops at the same place. */
  lemma {:induction false} SkipSpacesOfPrefix(t: string, n: nat, j: nat)
    requires j <= n <= |t|
    requires SkipSpaces(t, j) <= n
    ensures SkipSpaces(t[..n], j) == SkipSpaces(t, j)
    decreases |t| - j
  {
    if j < n && Text.IsSpace(t[j]) {
      SkipSpacesOfPrefix(t, n, j + 1);
    }
  }

  /** The match is unchanged when the text is cut anywhere after the match. */
  lemma MatchEndOfPrefix(t: string, n: nat)
    requires |t| > 0 && IsRoot(t[0])
    requires MatchEnd(t) <= n <= |t|
    ensures MatchEnd(t[..n]) == MatchEnd(t)
  {
    var p := t[..n];
    var j := RootEnd(t);
    assert RootEnd(p) == j;
    var k := SkipSpaces(t, j);
    SkipSpacesOfPrefix(t, n, j);
    QualityOfPrefix(t, n, k);
  }

  /** The quality chosen after position `k` is unchanged when the text is cut after it. */
  lemma QualityOfPrefix(t: string, n: nat, k: nat)
    requires k <= n <= |t|
    requires FirstQuality(t[k..], Qualities).Some? ==> k + |FirstQuality(t[k..], Qualities).value| <= n
    ensures FirstQuality(t[..n][k..], Qualities) == FirstQuality(t[k..], Qualities)
  {
    assert t[..n][k..] == t[k..][..n - k];
    FirstQualityOfPrefix(t[k..], n - k, Qualities);
  }

  /**
   * Round trip: matching the pattern against the text it matched gives that text back, so the
   * chord name the fallback reports is exactly one match of the chord grammar.
   */
  lemma ChordMentionIdempotent(question: string)
    requires ChordMention(question).Some?
    ensures ChordMention(ChordMention(question).value) == ChordMention(question)
  {
    var i := FirstRoot(question, 0).value;
    var t := question[i..];
    var m := Token(t);
    MatchEndOfPrefix(t, |m|);
    assert FirstRoot(m, 0) == Some(0);
    assert m[0..] == m;
    assert Token(m) == m[..|m|] == m;
  }

  /** A quality the text starts with begins with the text's first letter, lower-cased. */
  lemma StartsWithFirstLetter(t: string, w: string)
    requires |w| > 0 && StartsWithWord(t, w)
    ensures Text.LowerChar(t[0]) == w[0]
  {
    assert Text.ToLower(t[..|w|])[0] == Text.LowerChar(t[0]);
  }

  /** Text whose first letter begins no quality word carries no quality. */
  lemma NoQualityAfter(t: string)
    requires |t| > 0
    requires Text.LowerChar(t[0]) !in {'m', '7', 's', 'd'}
    ensures FirstQuality(t, Qualities) == None
  {
    assert forall i :: 0 <= i < |Qualities| ==> |Qualities[i]| > 0 && Qualities[i][0] in {'m', '7', 's', 'd'};
    NoneBeginsWith(t, Qualities);
  }

  /** No alternative is chosen when none begins with the text's first letter, lower-cased. */
  lemma {:induction false} NoneBeginsWith(t: string, qs: seq<string>)
    requires |t| > 0
    requires forall i :: 0 <= i < |qs| ==> |qs[i]| > 0 && qs[i][0] != Text.LowerChar(t[0])
    ensures FirstQuality(t, qs) == None
    decreases |qs|
  {
    if |qs| > 0 {
      if StartsWithWord(t, qs[0]) {
        StartsWithFirstLetter(t, qs[0]);
      }
      NoneBeginsWith(t, qs[1..]);
    }
  }

  /** A root letter followed by a letter that is neither an accidental, a space nor a quality's start. */
  lemma LoneRoot(t: string)
    requires |t| > 1 && IsRoot(t[0])
    requires !IsAccidental(t[1]) && !Text.IsSpace(t[1])
    requires Text.LowerChar(t[1]) !in {'m', '7', 's', 'd'}
    ensures Token(t) == t[..1]
  {
    assert RootEnd(t) == 1;
    assert SkipSpaces(t, 1) == 1;
    NoQualityAfter(t[1..]);
  }

  /** The leftmost match in "How do I play B minor?" is the "d" of "do": no quality follows it. */
  lemma MentionInBMinorQuestion(q: string)
    requires q == "How do I play B minor?"
    ensures ChordMention(q) == Some("d")
  {
    FirstRootOfBMinorQuestion(q);
    var t := q[4..];
    assert |t| > 1 && t[0] == 'd' && t[1] == 'o';
    LoneRoot(t);
    assert t[..1] == "d";
  }

  lemma FirstRootOfBMinorQuestion(q: string)
    requires q == "How do I play B minor?"
    ensures FirstRoot(q, 0) == Some(4)
  {
    assert !IsRoot(q[0]) && !IsRoot(q[1]) && !IsRoot(q[2]) && !IsRoot(q[3]) && IsRoot(q[4]);
  }

  /** "m" is the first alternative a text starting "m?" begins with: the longer words do not fit. */
  lemma QualityOfM(t: string)
    requires t == "m?"
    ensures FirstQuality(t, Qualities) == Some("m")
  {
    assert StartsWithWord(t, "m");
    assert !StartsWithWord(t, "major") && !StartsWithWord(t, "minor");
    assert !StartsWithWord(t, "maj") && !StartsWithWord(t, "min");
  }

  /** In "Bm?" the alternatives "major", "minor", "maj" and "min" fail before "m" matches. */
  lemma MentionOfBm(q: string)
    requires q == "Bm?"
    ensures ChordMention(q) == Some("Bm")
  {
    assert IsRoot(q[0]);
    assert FirstRoot(q, 0) == Some(0);
    var t := q[0..];
    MatchEndOfBm(t);
    assert Token(t) == t[..2] == "Bm";
  }

  lemma MatchEndOfBm(t: string)
    requires t == "Bm?"
    ensures MatchEnd(t) == 2
  {
    assert RootEnd(t) == 1;
    assert SkipSpaces(t, 1) == 1;
    QualityOfM(t[1..]);
  }

  // ---------------------------------------------------------------------------
  // The AI fallback.
  // ---------------------------------------------------------------------------

  const RephraseText: string :=
    "I'm having trouble processing your question right now, but try asking about a specific chord like 'A major' and I'll show you the finger positions!"

  function HowToPlayText(chordName: string): string {
    "Here's how to play " + chordName
      + ". Place your fingers as shown in the AR overlay. The AI service will be back online soon!"
  }

  /** `getFallbackAIResponse`: the matched chord, if any, as the only detected chord. */
  function FallbackAI(question: string): (r: AIResponse)
    ensures r.fallback && r.audioUrl.None?
    ensures |r.detectedChords| <= 1
    ensures |r.detectedChords| == 1 <==> exists i :: 0 <= i < |question| && IsRoot(question[i])
    ensures |r.detectedChords| == 1 ==>
      r.detectedChords[0] == ChordMention(question).value && r.response == HowToPlayText(r.detectedChords[0])
    ensures |r.detectedChords| == 0 ==> r.response == RephraseText
  {
    match ChordMention(question)
    case Some(name) => AIResponse(HowToPlayText(name), [name], None, true)
    case None => AIResponse(RephraseText, [], None, true)
  }

  /** The fallback's one detected chord is the pattern's match. */
  lemma FallbackNamesMatch(question: string, name: string)
    requires ChordMention(question) == Some(name)
    ensures FallbackAI(question).detectedChords == [name]
  {
  }

  // ---------------------------------------------------------------------------
  // The CV fallback.
  // ---------------------------------------------------------------------------

  const BaseX: int := 200
  const StepX: int := 35
  const BaseY: int := 150
  const StepY: int := 30

  /** The naive overlay dot for one finger position. */
  function FallbackDot(p: Position): (a: ArPosition)
    ensures a.fret == p.fret && a.stringIndex == p.stringIndex && a.finger == p.finger
    ensures a.confidence == 0.5 && a.fallback
    ensures a.x == BaseX + StepX * p.fret && a.y == BaseY + StepY * p.stringIndex
  {
    ArPosition(BaseX + p.fret * StepX, BaseY + p.stringIndex * StepY, p.finger, p.stringIndex, p.fret, 0.5, true)
  }

  /** The error a stub raises: it has no `positions` to map over. */
  const NoPositionsError: string := "Cannot read properties of undefined (reading 'map')"

  /**
   * `getFallbackCVResponse`: one fallback dot per position of the record, in order, with
   * `guitar_detected` false. A stub has no positions, so the call throws.
   */
  function FallbackCV(chordData: Entry): (r: Result<CVResponse, string>)
    ensures r.Failure? <==> chordData.Redirect?
    ensures r.Success? ==>
      var ps := chordData.chord.positions;
      && !r.value.guitarDetected && r.value.fallback && r.value.success
      && r.value.transformation == Transform(320, 240, 0.0, 1.0)
      && |r.value.chordPositions| == |ps|
      && forall k :: 0 <= k < |ps| ==> r.value.chordPositions[k] == FallbackDot(ps[k])
  {
    match chordData
    case Redirect(_) => Failure(NoPositionsError)
    case Full(chord) =>
      var ps := chord.positions;
      Success(CVResponse(true, false, seq(|ps|, k requires 0 <= k < |ps| => FallbackDot(ps[k])),
                         Transform(320, 240, 0.0, 1.0), true))
  }

  /** The finger position a fallback dot was drawn for, read back from its pixels and finger. */
  function PositionOfDot(a: ArPosition): Position {
    Position((a.y - BaseY) / StepY, (a.x - BaseX) / StepX, a.finger)
  }

  /**
   * Round trip: every fallback dot sits on the grid of 35-pixel fret columns and 30-pixel
   * string rows, and reading the positions back from the dots gives the record's positions.
   */
  lemma FallbackCVRoundTrip(chord: ChordRecord)
    ensures var dots := FallbackCV(Full(chord)).value.chordPositions;
      && |dots| == |chord.positions|
      && (forall k :: 0 <= k < |dots| ==> (dots[k].x - BaseX) % StepX == 0 && (dots[k].y - BaseY) % StepY == 0)
      && (forall k :: 0 <= k < |dots| ==> PositionOfDot(dots[k]) == chord.positions[k])
  {
    var dots := FallbackCV(Full(chord)).value.chordPositions;
    forall k | 0 <= k < |dots|
      ensures (dots[k].x - BaseX) % StepX == 0 && (dots[k].y - BaseY) % StepY == 0
      ensures PositionOfDot(dots[k]) == chord.positions[k]
    {
      var p := chord.positions[k];
      assert dots[k] == FallbackDot(p);
      assert (BaseY + p.stringIndex * StepY - BaseY) / StepY == p.stringIndex;
      assert (BaseX + p.fret * StepX - BaseX) / StepX == p.fret;
      assert (BaseY + p.stringIndex * StepY - BaseY) % StepY == 0;
      assert (BaseX + p.fret * StepX - BaseX) % StepX == 0;
    }
  }

  /** Positions on different frets or strings get fallback dots at different pixels. */
  lemma FallbackCVSeparatesPositions(chord: ChordRecord, j: int, k: int)
    requires 0 <= j < |chord.positions| && 0 <= k < |chord.positions|
    requires chord.positions[j].fret != chord.positions[k].fret
          || chord.positions[j].stringIndex != chord.positions[k].stringIndex
    ensures var dots := FallbackCV(Full(chord)).value.chordPositions;
      dots[j].x != dots[k].x || dots[j].y != dots[k].y
  {
    FallbackCVRoundTrip(chord);
  }
}
