/** `utils/emotion_audio.py`: reading the music2emo service's reply.

    The service is a collaborator that returns a text; `predict` extracts the
    mood tags with their scores, the valence and the arousal from it with
    three regular expressions. Each expression is modelled as the scanner it
    amounts to:

    - `re.search(r"Predicted Mood Tags: (.+?)💖", text, re.DOTALL)`: the
      leftmost occurrence of the prefix followed by at least one character and
      then a heart; the group is everything up to the FIRST such heart.
    - `re.findall(r"([\w\- ]+)\s*\(([\d.]+)\)", tags)`: left-to-right,
      non-overlapping. At one position the name is the maximal run of name
      characters, then whitespace, `(`, the maximal run of digits and dots,
      `)`. No backtracking into a shorter name or number can succeed where the
      maximal runs fail, since every character given back is a name character
      or digit, never `(` or `)`.
    - `re.search(r"Valence:\s*([\d.]+)", text)` (and `Arousal:`): the leftmost
      key followed by optional whitespace and a non-empty run of digits and
      dots.

    `\w` and `\d` are modelled on ASCII characters; `\s` is the whitespace
    of `str.isspace`.
 */
module EmotionAudio {
  import opened Results
  import opened PyText
  import opened PyPath

  const MoodPrefix := "Predicted Mood Tags: "
  const Heart: char := '💖'
  const ValenceLabel := "Valence:"
  const ArousalLabel := "Arousal:"
  const DefaultThreshold: real := 0.5
  const SpaceName := "amaai-lab/music2emo"
  const ApiName := "/analyze_emotions"

  datatype Tag = Tag(name: string, score: real)

  /** The dictionary `predict` returns. */
  datatype AudioEmotion = AudioEmotion(tags: seq<Tag>, valence: Option<real>, arousal: Option<real>, rawText: string)

  /** The call made to the music2emo service, by the Hugging Face space it
      is addressed to; its reply's first element is the text parsed here. */
  datatype ServiceRequest = ServiceRequest(space: string, audioPath: string, threshold: real, apiName: string)

  type Service = ServiceRequest -> Result<string>

  predicate IsWordChar(c: char) {
    ('a' <= c <= 'z') || ('A' <= c <= 'Z') || IsDigit(c) || c == '_'
  }

  /** `[\w\- ]` */
  predicate IsNameChar(c: char) {
    IsWordChar(c) || c == '-' || c == ' '
  }

  /** `[\d.]` */
  predicate IsNumberChar(c: char) {
    IsDigit(c) || c == '.'
  }

  predicate StartsAt(text: string, pat: string, p: nat) {
    p + |pat| <= |text| && text[p..p + |pat|] == pat
  }

  /** End of the longest run of characters of one class starting at `p`. */
  function RunEnd(s: string, p: nat, inClass: char -> bool): (e: nat)
    requires p <= |s|
    ensures p <= e <= |s|
    ensures forall k :: p <= k < e ==> inClass(s[k])
    ensures e < |s| ==> !inClass(s[e])
    decreases |s| - p
  {
    if p < |s| && inClass(s[p]) then RunEnd(s, p + 1, inClass) else p
  }

  /** A run that covers `q..lo` and is broken at `hi` ends between the two. */
  lemma RunEndBetween(s: string, q: nat, inClass: char -> bool, lo: nat, hi: nat)
    requires q <= lo <= hi < |s|
    requires forall k :: q <= k < lo ==> inClass(s[k])
    requires !inClass(s[hi])
    ensures lo <= RunEnd(s, q, inClass) <= hi
  {
  }

  /** Leftmost position in `from..last` where `at` matches, as `re.search`
      tries its start positions. */
  function FirstMatch<T>(at: nat -> Option<T>, from: nat, last: nat): (r: Option<(nat, T)>)
    ensures r.Some? ==> from <= r.value.0 <= last && at(r.value.0) == Some(r.value.1)
    ensures r.Some? ==> forall i :: from <= i < r.value.0 ==> at(i).None?
    ensures r.None? ==> forall i :: from <= i <= last ==> at(i).None?
    decreases last + 1 - from
  {
    if from > last then None
    else match at(from)
      case Some(m) => Some((from, m))
      case None => FirstMatch(at, from + 1, last)
  }

  // ---------------------------------------------------------------------
  // The mood-tag section

  /** The group of `Predicted Mood Tags: (.+?)💖` when the match starts at
      `p`: at least one character, up to the first heart after that. */
  function MoodAt(text: string, p: nat): (r: Option<string>)
    ensures r.Some? ==> StartsAt(text, MoodPrefix, p)
    ensures r.Some? ==> var q := p + |MoodPrefix|;
      && |r.value| >= 1 && q + |r.value| < |text|
      && text[q..q + |r.value|] == r.value && text[q + |r.value|] == Heart
      && Excludes(r.value[1..], Heart)
    ensures r.None? && StartsAt(text, MoodPrefix, p) && p + |MoodPrefix| < |text| ==>
      Excludes(text[p + |MoodPrefix| + 1..], Heart)
  {
    var q := p + |MoodPrefix|;
    if StartsAt(text, MoodPrefix, p) && q + 1 <= |text| then
      match FirstIndex(text[q + 1..], Heart)
      case None => None
      case Some(k) =>
        assert text[q + 1..][k] == Heart;
        assert text[q..q + 1 + k][1..] == text[q + 1..][..k];
        Some(text[q..q + 1 + k])
    else None
  }

  /** The mood-tag group of the whole reply, if the pattern occurs. */
  function MoodSection(text: string): Option<string> {
    match FirstMatch(i => MoodAt(text, i), 0, |text|)
    case None => None
    case Some((_, g)) => Some(g)
  }

  /** The section is absent exactly when no occurrence of the prefix has a
      heart after the character that follows it. */
  lemma MoodSectionAbsent(text: string)
    ensures MoodSection(text).None? <==>
      forall p: nat :: p + |MoodPrefix| < |text| && StartsAt(text, MoodPrefix, p) ==>
        Excludes(text[p + |MoodPrefix| + 1..], Heart)
  {
    var found := FirstMatch(i => MoodAt(text, i), 0, |text|);
    if found.None? {
      forall p: nat | p + |MoodPrefix| < |text| && StartsAt(text, MoodPrefix, p)
        ensures Excludes(text[p + |MoodPrefix| + 1..], Heart)
      {
        assert (i => MoodAt(text, i))(p).None?;
      }
    } else {
      var p := found.value.0;
      var g := found.value.1;
      assert MoodAt(text, p) == Some(g);
      var q := p + |MoodPrefix|;
      assert text[q + 1..][|g| - 1] == text[q + |g|] == Heart;
      assert !Excludes(text[q + 1..], Heart);
    }
  }

  /** `mood_line.group(1).strip().rstrip(',')`: every trailing comma goes. */
  function TagsText(group: string): string {
    StripEndChar(Strip(group), ',')
  }

  // ---------------------------------------------------------------------
  // Tag matches

  /** One match of `([\w\- ]+)\s*\(([\d.]+)\)`: its two groups and its span. */
  datatype TagMatch = TagMatch(name: string, score: string, start: nat, end: nat)

  /** The pattern matches `s` from `p` with the name in `p..e`, whitespace
      in `e..w`, `(` at `w`, the number in `w+1..d` and `)` at `d`. */
  predicate TagShape(s: string, p: nat, e: nat, w: nat, d: nat) {
    && p < e <= w && w + 1 < d < |s|
    && (forall k :: p <= k < e ==> IsNameChar(s[k]))
    && (forall k :: e <= k < w ==> IsSpace(s[k]))
    && s[w] == '('
    && (forall k :: w + 1 <= k < d ==> IsNumberChar(s[k]))
    && s[d] == ')'
  }

  /** The match of the tag pattern at `p`, if any; `TagAtSpells` says where
      its name and score stand in the text. */
  function TagAt(s: string, p: nat): (r: Option<TagMatch>)
    ensures r.Some? ==> r.value.start == p && p < r.value.end <= |s|
    ensures r.Some? ==> |r.value.name| > 0 && forall k :: 0 <= k < |r.value.name| ==> IsNameChar(r.value.name[k])
    ensures r.Some? ==> |r.value.score| > 0 && forall k :: 0 <= k < |r.value.score| ==> IsNumberChar(r.value.score[k])
    ensures r.Some? ==> s[r.value.end - 1] == ')'
  {
    if p >= |s| then None
    else
      var e := RunEnd(s, p, IsNameChar);
      var w := RunEnd(s, e, IsSpace);
      if e == p || w == |s| || s[w] != '(' then None
      else
        var d := RunEnd(s, w + 1, IsNumberChar);
        if d == w + 1 || d == |s| || s[d] != ')' then None
        else Some(TagMatch(s[p..e], s[w + 1..d], p, d + 1))
  }

  /** A match found at `p` is the text itself: the name is the longest run
      of name characters from `p`, then whitespace, `(`, the score, `)`. */
  lemma TagAtSpells(s: string, p: nat)
    requires TagAt(s, p).Some?
    ensures var m := TagAt(s, p).value; var e := p + |m.name|; var w := m.end - 2 - |m.score|;
      && m.end >= |m.score| + 2
      && TagShape(s, p, e, w, m.end - 1)
      && s[p..e] == m.name && !IsNameChar(s[e])
      && s[w + 1..m.end - 1] == m.score
  {
  }

  /** Wherever the pattern can match, the longest runs match too: no
      shorter name or number succeeds where they fail, since `(` and `)`
      belong to neither run. */
  lemma TagAtFromShape(s: string, p: nat, e: nat, w: nat, d: nat)
    requires TagShape(s, p, e, w, d)
    ensures TagAt(s, p) == Some(TagMatch(s[p..RunEnd(s, p, IsNameChar)], s[w + 1..d], p, d + 1))
  {
    var e' := RunEnd(s, p, IsNameChar);
    assert p < e' <= w by {
      RunEndBetween(s, p, IsNameChar, e, w);
    }
    assert RunEnd(s, e', IsSpace) == w by {
      assert forall k :: e' <= k < w ==> IsSpace(s[k]);
      RunEndBetween(s, e', IsSpace, w, w);
    }
    assert RunEnd(s, w + 1, IsNumberChar) == d by {
      RunEndBetween(s, w + 1, IsNumberChar, d, d);
    }
  }

  /** The pattern matches at `p` in some way exactly when `TagAt` finds a
      match there. */
  lemma TagAtComplete(s: string, p: nat)
    ensures TagAt(s, p).Some? <==> exists e: nat, w: nat, d: nat :: TagShape(s, p, e, w, d)
  {
    if exists e: nat, w: nat, d: nat :: TagShape(s, p, e, w, d) {
      var e: nat, w: nat, d: nat :| TagShape(s, p, e, w, d);
      TagAtFromShape(s, p, e, w, d);
    }
    if TagAt(s, p).Some? {
      TagAtSpells(s, p);
    }
  }

  /** `m` is what the pattern matches at `m.start`. */
  predicate IsTagMatch(s: string, m: TagMatch) {
    TagAt(s, m.start) == Some(m)
  }

  /** `ms` are matches of the pattern in `s`, in order and not overlapping,
      all at or after position `p`. */
  predicate InOrder(s: string, p: nat, ms: seq<TagMatch>)
    decreases |ms|
  {
    ms == [] || (p <= ms[0].start && IsTagMatch(s, ms[0]) && InOrder(s, ms[0].end, ms[1..]))
  }

  /** `re.findall` from position `p`: left to right, resuming after each
      match, one position further after a failed attempt. */
  function FindTags(s: string, p: nat): (r: seq<TagMatch>)
    ensures InOrder(s, p, r)
    decreases |s| - p
  {
    if p >= |s| then []
    else match TagAt(s, p)
      case Some(m) => [m] + FindTags(s, m.end)
      case None => FindTags(s, p + 1)
  }

  /** Every score of an in-order match list is a `[\d.]+` lexeme. */
  lemma {:induction false} InOrderScores(s: string, p: nat, ms: seq<TagMatch>)
    requires InOrder(s, p, ms)
    ensures forall k :: 0 <= k < |ms| ==> AllNumberChars(ms[k].score)
    decreases |ms|
  {
    if ms != [] {
      InOrderScores(s, ms[0].end, ms[1..]);
      assert forall k :: 1 <= k < |ms| ==> ms[k] == ms[1..][k - 1];
    }
  }

  /** Some match of `ms` spans position `i`. */
  predicate Covers(ms: seq<TagMatch>, i: nat)
    decreases |ms|
  {
    ms != [] && (ms[0].start <= i < ms[0].end || Covers(ms[1..], i))
  }

  lemma {:induction false} CoversSome(ms: seq<TagMatch>, i: nat)
    requires Covers(ms, i)
    ensures exists k :: 0 <= k < |ms| && ms[k].start <= i < ms[k].end
    decreases |ms|
  {
    if !(ms[0].start <= i < ms[0].end) {
      CoversSome(ms[1..], i);
      var k :| 0 <= k < |ms[1..]| && ms[1..][k].start <= i < ms[1..][k].end;
      assert ms[k + 1] == ms[1..][k];
    }
  }

  lemma {:induction false} FindTagsCovers(s: string, p: nat, i: nat)
    requires p <= i < |s| && TagAt(s, i).Some?
    ensures Covers(FindTags(s, p), i)
    decreases |s| - p
  {
    var r := FindTags(s, p);
    match TagAt(s, p)
    case Some(m) =>
      var rest := FindTags(s, m.end);
      assert r == [m] + rest && r[1..] == rest;
      if i >= m.end {
        FindTagsCovers(s, m.end, i);
      }
    case None =>
      assert i != p;
      FindTagsCovers(s, p + 1, i);
  }

  /** `re.findall` misses nothing: every position from `p` on where the
      pattern matches lies inside one of the reported matches. */
  lemma FindTagsComplete(s: string, p: nat, i: nat)
    requires p <= i < |s| && TagAt(s, i).Some?
    ensures exists k :: 0 <= k < |FindTags(s, p)| && FindTags(s, p)[k].start <= i < FindTags(s, p)[k].end
  {
    FindTagsCovers(s, p, i);
    CoversSome(FindTags(s, p), i);
  }

  // ---------------------------------------------------------------------
  // `float()` of a digits-and-dots lexeme

  function Pow10(n: nat): (r: nat)
    ensures r >= 1
  {
    if n == 0 then 1 else 10 * Pow10(n - 1)
  }

  function Count(s: string, c: char): nat {
    if s == [] then 0 else (if s[0] == c then 1 else 0) + Count(s[1..], c)
  }

  predicate HasDigit(s: string) {
    exists k :: 0 <= k < |s| && IsDigit(s[k])
  }

  /** Which `[\d.]+` lexemes `float()` accepts: one dot at most and at least
      one digit (`"1."`, `".5"` and `"15"` are numbers, `"."` and `"1.2.3"`
      are not). */
  predicate IsDecimal(lex: string) {
    Count(lex, '.') <= 1 && HasDigit(lex)
  }

  predicate AllNumberChars(s: string) {
    forall k :: 0 <= k < |s| ==> IsNumberChar(s[k])
  }

  /** `float(lex)` for a lexeme of digits and dots, as an exact real. */
  function ParseFloat(lex: string): (r: Result<real>)
    requires AllNumberChars(lex)
  {
    match FirstIndex(lex, '.')
    case None =>
      if lex == [] then Raised(FloatError(lex)) else Ok(DigitsValue(lex) as real)
    case Some(i) =>
      var whole := lex[..i];
      var frac := lex[i + 1..];
      if !Excludes(frac, '.') || |whole| + |frac| == 0 then Raised(FloatError(lex))
      else Ok(DigitsValue(whole) as real + DigitsValue(frac) as real / Pow10(|frac|) as real)
  }

  function FloatError(lex: string): string {
    "could not convert string to float: '" + lex + "'"
  }

  lemma {:induction false} CountZero(s: string, c: char)
    ensures Count(s, c) == 0 <==> Excludes(s, c)
  {
    if s != [] {
      CountZero(s[1..], c);
      assert forall k :: 1 <= k < |s| ==> s[k] == s[1..][k - 1];
    }
  }

  lemma {:induction false} CountSplit(s: string, i: nat, c: char)
    requires i <= |s|
    ensures Count(s, c) == Count(s[..i], c) + Count(s[i..], c)
  {
    if i > 0 {
      assert s[..i][1..] == s[1..][..i - 1];
      assert s[i..] == s[1..][i - 1..];
      CountSplit(s[1..], i - 1, c);
    }
  }

  /** `float()` accepts a lexeme exactly when it is a decimal number. */
  lemma ParseFloatAccepts(lex: string)
    requires AllNumberChars(lex)
    ensures ParseFloat(lex).Ok? <==> IsDecimal(lex)
  {
    match FirstIndex(lex, '.')
    case None =>
      CountZero(lex, '.');
      if lex != [] {
        assert IsDigit(lex[0]);
      }
    case Some(i) =>
      var whole := lex[..i];
      var frac := lex[i + 1..];
      CountSplit(lex, i, '.');
      assert lex[i..] == [lex[i]] + frac;
      assert Count(lex[i..], '.') == 1 + Count(frac, '.');
      CountZero(whole, '.');
      CountZero(frac, '.');
      if HasDigit(lex) {
        var k :| 0 <= k < |lex| && IsDigit(lex[k]);
        assert k != i;
        if k < i { assert whole[k] == lex[k]; } else { assert frac[k - i - 1] == lex[k]; }
      }
      if |whole| > 0 {
        assert IsDigit(lex[0]);
      } else if |frac| > 0 && Excludes(frac, '.') {
        assert lex[i + 1] == frac[0];
      }
  }

  /** `float(str(n)) == n`. */
  lemma ParseFloatOfDecimalText(n: nat)
    ensures AllNumberChars(DecimalText(n))
    ensures ParseFloat(DecimalText(n)) == Ok(n as real)
  {
    var s := DecimalText(n);
    assert Excludes(s, '.');
    DecimalRoundTrip(n);
  }

  /** The two lexemes `[\d.]+` lets through that `float()` rejects. */
  lemma ParseFloatRejects()
    ensures AllNumberChars(".") && ParseFloat(".").Raised?
    ensures AllNumberChars("1.2.3") && ParseFloat("1.2.3").Raised?
  {
    assert FirstIndex(".", '.') == Some(0);
    assert FirstIndex("1.2.3", '.') == Some(1);
    assert "1.2.3"[2..] == "2.3";
    assert "2.3"[1] == '.';
  }

  // ---------------------------------------------------------------------
  // Converting the matches

  /** `[(tag.strip(), float(score)) for tag, score in tag_matches]`: the first
      score `float()` rejects raises. */
  function ConvertTags(ms: seq<TagMatch>): (r: Result<seq<Tag>>)
    requires forall k :: 0 <= k < |ms| ==> AllNumberChars(ms[k].score)
    ensures r.Ok? <==> forall k :: 0 <= k < |ms| ==> ParseFloat(ms[k].score).Ok?
    ensures r.Ok? ==> |r.value| == |ms|
    ensures r.Ok? ==> forall k :: 0 <= k < |ms| ==>
      r.value[k] == Tag(Strip(ms[k].name), ParseFloat(ms[k].score).value)
    ensures r.Raised? ==> exists k :: 0 <= k < |ms| && r.error == FloatError(ms[k].score)
  {
    if ms == [] then Ok([])
    else match ParseFloat(ms[0].score)
      case Raised(e) => Raised(e)
      case Ok(v) =>
        match ConvertTags(ms[1..])
        case Raised(e) => Raised(e)
        case Ok(rest) => Ok([Tag(Strip(ms[0].name), v)] + rest)
  }

  /** The exception is the one of the first score `float()` rejects, as the
      list comprehension stops there. */
  lemma {:induction false} ConvertTagsFirstError(ms: seq<TagMatch>, k: nat)
    requires forall j :: 0 <= j < |ms| ==> AllNumberChars(ms[j].score)
    requires k < |ms|
    requires forall j :: 0 <= j < k ==> ParseFloat(ms[j].score).Ok?
    requires ParseFloat(ms[k].score).Raised?
    ensures ConvertTags(ms) == Raised(FloatError(ms[k].score))
    decreases k
  {
    if k > 0 {
      assert forall j :: 0 <= j < k - 1 ==> ms[1..][j] == ms[j + 1];
      assert ParseFloat(ms[0].score).Ok?;
      ConvertTagsFirstError(ms[1..], k - 1);
    }
  }

  /** The tags read from a mood-tag group. */
  function GroupTags(group: string): (r: Result<seq<Tag>>)
    ensures var ms := FindTags(TagsText(group), 0);
      r.Ok? <==> forall k :: 0 <= k < |ms| ==> AllNumberChars(ms[k].score) && ParseFloat(ms[k].score).Ok?
    ensures var ms := FindTags(TagsText(group), 0);
      r.Ok? ==> |r.value| == |ms| && forall k :: 0 <= k < |ms| ==>
        && AllNumberChars(ms[k].score) && ParseFloat(ms[k].score).Ok?
        && r.value[k] == Tag(Strip(ms[k].name), ParseFloat(ms[k].score).value)
  {
    var ms := FindTags(TagsText(group), 0);
    InOrderScores(TagsText(group), 0, ms);
    ConvertTags(ms)
  }

  // ---------------------------------------------------------------------
  // Valence and arousal

  /** A match of `key:\s*([\d.]+)` starting at `p`: the lexeme and where it
      begins. */
  datatype LabelMatch = LabelMatch(at: nat, lexeme: string)

  function LabelAt(text: string, key: string, p: nat): (r: Option<LabelMatch>)
    ensures r.Some? ==> StartsAt(text, key, p)
    ensures r.Some? ==> var m := r.value;
      && p + |key| <= m.at && m.at + |m.lexeme| <= |text| && |m.lexeme| > 0
      && (forall k :: p + |key| <= k < m.at ==> IsSpace(text[k]))
      && text[m.at..m.at + |m.lexeme|] == m.lexeme && AllNumberChars(m.lexeme)
      && (m.at + |m.lexeme| == |text| || !IsNumberChar(text[m.at + |m.lexeme|]))
  {
    if StartsAt(text, key, p) then
      var w := RunEnd(text, p + |key|, IsSpace);
      var d := RunEnd(text, w, IsNumberChar);
      if d > w then Some(LabelMatch(w, text[w..d])) else None
    else None
  }

  /** The lexeme of the leftmost match of `key:\s*([\d.]+)`. */
  function LabelLexeme(text: string, key: string): (r: Option<string>)
    ensures r.Some? ==> AllNumberChars(r.value) && |r.value| > 0
    ensures r.Some? ==> exists p: nat :: (p <= |text|
      && LabelAt(text, key, p).Some? && LabelAt(text, key, p).value.lexeme == r.value
      && forall i: nat :: i < p ==> LabelAt(text, key, i).None?)
    ensures r.None? ==> forall p: nat :: p <= |text| ==> LabelAt(text, key, p).None?
  {
    match FirstMatch(i => LabelAt(text, key, i), 0, |text|)
    case None =>
      assert forall p: nat :: p <= |text| ==> LabelAt(text, key, p).None? by {
        forall p: nat | p <= |text| ensures LabelAt(text, key, p).None? {
          assert (i => LabelAt(text, key, i))(p).None?;
        }
      }
      None
    case Some((q, m)) =>
      assert LabelAt(text, key, q) == Some(m);
      assert forall i: nat :: i < q ==> LabelAt(text, key, i).None? by {
        forall i: nat | i < q ensures LabelAt(text, key, i).None? {
          assert (j => LabelAt(text, key, j))(i).None?;
        }
      }
      Some(m.lexeme)
  }

  /** The key pattern is absent exactly when no occurrence of the key is
      followed, after optional whitespace, by a digit or a dot. */
  lemma LabelAbsent(text: string, key: string)
    ensures LabelLexeme(text, key).None? <==>
      forall p: nat :: p <= |text| && StartsAt(text, key, p) ==> !FollowedByNumber(text, p + |key|)
  {
    var found := FirstMatch(i => LabelAt(text, key, i), 0, |text|);
    if found.None? {
      forall p: nat | p <= |text| && StartsAt(text, key, p)
        ensures !FollowedByNumber(text, p + |key|)
      {
        assert (i => LabelAt(text, key, i))(p).None?;
      }
    } else {
      var p := found.value.0;
      assert LabelAt(text, key, p).Some?;
      assert FollowedByNumber(text, p + |key|);
    }
  }

  /** After optional whitespace from `q` comes a digit or a dot. */
  predicate FollowedByNumber(text: string, q: nat)
    requires q <= |text|
  {
    var w := RunEnd(text, q, IsSpace);
    w < |text| && IsNumberChar(text[w])
  }

  /** `float(match.group(1)) if match else None`. */
  function OptionalFloat(lex: Option<string>): (r: Result<Option<real>>)
    requires lex.Some? ==> AllNumberChars(lex.value)
    ensures r.Ok? ==> (r.value.None? <==> lex.None?)
    ensures r.Raised? <==> lex.Some? && ParseFloat(lex.value).Raised?
    ensures r.Ok? && lex.Some? ==> r.value == Some(ParseFloat(lex.value).value)
  {
    match lex
    case None => Ok(None)
    case Some(l) =>
      match ParseFloat(l)
      case Raised(e) => Raised(e)
      case Ok(v) => Ok(Some(v))
  }

  // ---------------------------------------------------------------------
  // The whole parse

  /** The parsing part of `predict`: tags first, then valence, then arousal;
      the first lexeme `float()` rejects raises. */
  function Parse(text: string): (r: Result<AudioEmotion>)
    ensures r.Raised? <==>
      || (MoodSection(text).Some? && GroupTags(MoodSection(text).value).Raised?)
      || OptionalFloat(LabelLexeme(text, ValenceLabel)).Raised?
      || OptionalFloat(LabelLexeme(text, ArousalLabel)).Raised?
    ensures r.Ok? ==> r.value.rawText == Strip(text)
    ensures r.Ok? && MoodSection(text).None? ==> r.value.tags == []
    ensures r.Ok? && MoodSection(text).Some? ==> r.value.tags == GroupTags(MoodSection(text).value).value
    ensures r.Ok? ==> r.value.valence == OptionalFloat(LabelLexeme(text, ValenceLabel)).value
    ensures r.Ok? ==> r.value.arousal == OptionalFloat(LabelLexeme(text, ArousalLabel)).value
    ensures r.Ok? ==> (r.value.valence.None? <==> LabelLexeme(text, ValenceLabel).None?)
    ensures r.Ok? ==> (r.value.arousal.None? <==> LabelLexeme(text, ArousalLabel).None?)
  {
    var tags := match MoodSection(text) case None => Ok([]) case Some(g) => GroupTags(g);
    match tags
    case Raised(e) => Raised(e)
    case Ok(ts) =>
      match OptionalFloat(LabelLexeme(text, ValenceLabel))
      case Raised(e) => Raised(e)
      case Ok(valence) =>
        match OptionalFloat(LabelLexeme(text, ArousalLabel))
        case Raised(e) => Raised(e)
        case Ok(arousal) => Ok(AudioEmotion(ts, valence, arousal, Strip(text)))
  }

  /** `predict(audio_path)`: one call to the service with the default
      threshold, then the parse; a failing call propagates. */
  function Predict(audioPath: string, service: Service): (r: Result<AudioEmotion>)
    ensures service(ServiceRequest("amaai-lab/music2emo", audioPath, 0.5, "/analyze_emotions")).Raised? ==>
      r == Raised(service(ServiceRequest("amaai-lab/music2emo", audioPath, 0.5, "/analyze_emotions")).error)
    ensures service(ServiceRequest("amaai-lab/music2emo", audioPath, 0.5, "/analyze_emotions")).Ok? ==>
      r == Parse(service(ServiceRequest("amaai-lab/music2emo", audioPath, 0.5, "/analyze_emotions")).value)
  {
    match service(ServiceRequest(SpaceName, audioPath, DefaultThreshold, ApiName))
    case Raised(e) => Raised(e)
    case Ok(reply) => Parse(reply)
  }
}
