/**
 Fencing text that a model must not obey.

 The tag pattern is given twice: as a language of strings, which is what the claims are
 about, and as the left-to-right scanner that substitution runs.
 */
module PromptFence {
  import opened Basics

  datatype Tag = UserData | UpstreamOutput

  function NameOf(tag: Tag): string {
    match tag
    case UserData => "USER_DATA"
    case UpstreamOutput => "UPSTREAM_OUTPUT"
  }

  function OpeningOf(word: string): string { "<<<" + word + ">>>" }

  function ClosingOf(word: string): string { "<<</" + word + ">>>" }

  function Opening(tag: Tag): string { OpeningOf(NameOf(tag)) }

  function Closing(tag: Tag): string { ClosingOf(NameOf(tag)) }

  /** What replaces a delimiter, naming the tag that was removed. */
  function Marker(tag: Tag): string { "[removed delimiter: " + NameOf(tag) + "]" }

  // ----- the pattern as a language ------------------------------------------------

  /** Unicode white space, as the pattern's \s class has it. */
  predicate Space(c: char) {
    var n := c as int;
    || 9 <= n <= 13 || 28 <= n <= 32 || n == 0x85 || n == 0xA0 || n == 0x1680 || 0x2000 <= n <= 0x200A
    || n == 0x2028 || n == 0x2029 || n == 0x202F || n == 0x205F || n == 0x3000
  }

  /** Equality up to case; the long s is the one further character that folds to a letter of the names. */
  predicate Folds(p: char, c: char) {
    || c == p
    || ('A' <= p <= 'Z' && c as int == p as int + 32)
    || (p == 'S' && c as int == 0x17F)
  }

  /** A word that can stand in a tag: capital letters and underscores. */
  predicate IsWord(word: string) {
    |word| > 0 && forall k | 0 <= k < |word| :: 'A' <= word[k] <= 'Z' || word[k] == '_'
  }

  /** The word stands at position i, up to case. */
  predicate FoldsAt(s: string, i: nat, word: string) {
    i + |word| <= |s| && forall k | 0 <= k < |word| :: Folds(word[k], s[i + k])
  }

  predicate Opens(s: string) {
    |s| >= 3 && s[0] == s[1] == s[2] == '<'
  }

  predicate ClosesAt(s: string, i: nat) {
    i + 3 <= |s| && s[i] == s[i + 1] == s[i + 2] == '>'
  }

  /** Between two positions: white space with at most one slash in it. */
  predicate BorderIn(s: string, i: nat, j: nat)
    requires i <= j <= |s|
  {
    && (forall k | i <= k < j :: Space(s[k]) || s[k] == '/')
    && (forall k, m | i <= k < m < j :: s[k] != '/' || s[m] != '/')
  }

  /** Three brackets, a border, the name at position a, a border, three brackets. */
  predicate NamedAt(s: string, a: nat, word: string) {
    && 3 <= a && a + |word| + 3 <= |s|
    && BorderIn(s, 3, a) && FoldsAt(s, a, word) && BorderIn(s, a + |word|, |s| - 3)
  }

  ghost predicate IsWordTag(s: string, word: string) {
    |s| >= 6 && Opens(s) && ClosesAt(s, |s| - 3) && exists a: nat :: NamedAt(s, a, word)
  }

  ghost predicate IsTag(s: string, tag: Tag) {
    IsWordTag(s, NameOf(tag))
  }

  /** No substring of the text is one of these tags. */
  ghost predicate Tagless(s: string, tags: set<Tag>) {
    forall i, j, tag | 0 <= i <= j <= |s| && tag in tags :: !IsTag(s[i..j], tag)
  }

  // ----- the pattern as a scanner ---------------------------------------------------

  function SpaceEnd(s: string, i: nat): (n: nat)
    requires i <= |s|
    ensures i <= n <= |s| && forall k | i <= k < n :: Space(s[k])
    ensures n < |s| ==> !Space(s[n])
    decreases |s| - i
  {
    if i == |s| || !Space(s[i]) then i else SpaceEnd(s, i + 1)
  }

  function BorderEnd(s: string, i: nat): (n: nat)
    requires i <= |s|
    ensures i <= n <= |s| && BorderIn(s, i, n)
  {
    var first := SpaceEnd(s, i);
    if first < |s| && s[first] == '/' then SpaceEnd(s, first + 1) else first
  }

  /** The length of the tag of this name that the text starts with, if it starts with one. */
  function WordTagLen(s: string, word: string): (n: Option<nat>)
    ensures n.Some? ==> 6 <= n.value <= |s|
  {
    if !Opens(s) then None
    else
      var a := BorderEnd(s, 3);
      if !FoldsAt(s, a, word) then None
      else
        var b := BorderEnd(s, a + |word|);
        if ClosesAt(s, b) then Some(b + 3) else None
  }

  function TagLen(s: string, tag: Tag): (n: Option<nat>)
    ensures n.Some? ==> 6 <= n.value <= |s|
  {
    WordTagLen(s, NameOf(tag))
  }

  /** A border is found whole when the character after it cannot belong to one. */
  lemma BorderEndIs(s: string, i: nat, n: nat)
    requires i <= n < |s| && BorderIn(s, i, n) && !Space(s[n]) && s[n] != '/'
    ensures BorderEnd(s, i) == n
  {
  }

  /** A character that folds to a letter of a word is no bracket, slash or space. */
  lemma FoldedLetters(s: string, i: nat, word: string)
    requires IsWord(word) && FoldsAt(s, i, word)
    ensures forall k | i <= k < i + |word| :: s[k] != '<' && s[k] != '>' && s[k] != '[' && s[k] != '/' && !Space(s[k])
  {
    forall k | i <= k < i + |word|
      ensures s[k] != '<' && s[k] != '>' && s[k] != '[' && s[k] != '/' && !Space(s[k])
    {
      assert Folds(word[k - i], s[i + (k - i)]);
    }
  }

  lemma NamedInPrefix(s: string, n: nat, a: nat, word: string)
    requires n <= |s| && NamedAt(s[..n], a, word)
    ensures a + |word| + 3 <= n && BorderIn(s, 3, a) && FoldsAt(s, a, word) && BorderIn(s, a + |word|, n - 3)
  {
    var t := s[..n];
    forall k | 0 <= k < |word|
      ensures Folds(word[k], s[a + k])
    {
      assert t[a + k] == s[a + k];
    }
    assert forall k | 0 <= k < n :: t[k] == s[k];
  }

  lemma ScannerFindsTag(s: string, n: nat, word: string)
    requires IsWord(word) && n <= |s| && IsWordTag(s[..n], word)
    ensures WordTagLen(s, word) == Some(n)
  {
    hide BorderIn, BorderEnd, FoldsAt;
    var a: nat :| NamedAt(s[..n], a, word);
    NamedInPrefix(s, n, a, word);
    FoldedLetters(s, a, word);
    BorderEndIs(s, 3, a);
    BorderEndIs(s, a + |word|, n - 3);
  }

  lemma ScannerFindsOnlyTags(s: string, word: string)
    requires WordTagLen(s, word).Some?
    ensures IsWordTag(s[..WordTagLen(s, word).value], word)
  {
    var t := s[..WordTagLen(s, word).value];
    assert NamedAt(t, BorderEnd(s, 3), word);
  }

  lemma NamesAreWords(tag: Tag)
    ensures IsWord(NameOf(tag)) && |NameOf(tag)| >= 9
  {
  }

  /** The scanner and the language agree, so the length of a match is determined by where it starts. */
  lemma ScannerIsExact(s: string, n: nat, tag: Tag)
    requires n <= |s|
    ensures TagLen(s, tag) == Some(n) <==> IsTag(s[..n], tag)
  {
    NamesAreWords(tag);
    if TagLen(s, tag) == Some(n) {
      ScannerFindsOnlyTags(s, NameOf(tag));
    }
    if IsTag(s[..n], tag) {
      ScannerFindsTag(s, n, NameOf(tag));
    }
  }

  /** Beyond its first three characters a tag has no opening bracket, and it has no square bracket at all. */
  lemma WordTagCharacters(s: string, word: string)
    requires IsWord(word) && IsWordTag(s, word)
    ensures |s| >= 6 + |word| && Opens(s) && ClosesAt(s, |s| - 3)
    ensures forall k | 0 <= k < |s| :: (k >= 3 ==> s[k] != '<') && s[k] != '['
  {
    var a: nat :| NamedAt(s, a, word);
    FoldedLetters(s, a, word);
    forall k | 0 <= k < |s|
      ensures (k >= 3 ==> s[k] != '<') && s[k] != '['
    {
      if 3 <= k < |s| - 3 && !(a <= k < a + |word|) {
        assert Space(s[k]) || s[k] == '/';
      }
    }
  }

  lemma TagCharacters(s: string, tag: Tag)
    requires IsTag(s, tag)
    ensures |s| >= 15 && Opens(s) && ClosesAt(s, |s| - 3)
    ensures forall k | 0 <= k < |s| :: (k >= 3 ==> s[k] != '<') && s[k] != '['
  {
    NamesAreWords(tag);
    WordTagCharacters(s, NameOf(tag));
  }

  lemma WordsExclude(s: string, a: string, b: string)
    requires |a| >= 2 && |b| >= 2 && a[1] == 'S' && b[1] == 'P'
    ensures WordTagLen(s, a).None? || WordTagLen(s, b).None?
  {
    if Opens(s) {
      var i := BorderEnd(s, 3);
      assert FoldsAt(s, i, a) ==> Folds(a[1], s[i + 1]);
    }
  }

  /** A text starts with at most one kind of tag. */
  lemma TagsExclude(s: string)
    ensures TagLen(s, UserData).None? || TagLen(s, UpstreamOutput).None?
  {
    WordsExclude(s, NameOf(UserData), NameOf(UpstreamOutput));
  }

  datatype Found = Found(tag: Tag, len: nat)

  function TagAt(s: string, tags: set<Tag>): (f: Option<Found>)
    ensures f.Some? ==> f.value.tag in tags && TagLen(s, f.value.tag) == Some(f.value.len) && 6 <= f.value.len <= |s|
    ensures f.None? ==> (UserData in tags ==> TagLen(s, UserData).None?)
                        && (UpstreamOutput in tags ==> TagLen(s, UpstreamOutput).None?)
  {
    if UserData in tags && TagLen(s, UserData).Some? then Some(Found(UserData, TagLen(s, UserData).value))
    else if UpstreamOutput in tags && TagLen(s, UpstreamOutput).Some? then
      Some(Found(UpstreamOutput, TagLen(s, UpstreamOutput).value))
    else None
  }

  /** Replace every tag, left to right, by its marker. */
  function Defuse(s: string, tags: set<Tag>): string {
    if s == "" then ""
    else
      var f := TagAt(s, tags);
      if f.Some? then Marker(f.value.tag) + Defuse(s[f.value.len..], tags)
      else [s[0]] + Defuse(s[1..], tags)
  }

  const ALL_TAGS: set<Tag> := {UserData, UpstreamOutput}

  function NeutralizeDelimiters(text: string): string {
    Defuse(text, ALL_TAGS)
  }

  function FenceWith(tag: Tag, text: string): string {
    Opening(tag) + "\n" + Defuse(text, {tag}) + "\n" + Closing(tag)
  }

  function Fence(text: string): string { FenceWith(UserData, text) }

  function FenceUpstream(text: string): string { FenceWith(UpstreamOutput, text) }

  // ----- what substitution leaves behind -----------------------------------------------

  /** A tag starts with a bracket. */
  lemma NoBracketNoTag(s: string, tag: Tag)
    requires s == "" || s[0] != '<'
    ensures TagLen(s, tag).None?
  {
  }

  /** A tag is found where it starts, whatever follows it. */
  lemma TagAtIsLocal(s: string, t: string, n: nat, tag: Tag)
    requires n <= |s| && n <= |t| && s[..n] == t[..n] && TagLen(s, tag) == Some(n)
    ensures TagLen(t, tag) == Some(n)
  {
    ScannerIsExact(s, n, tag);
    ScannerIsExact(t, n, tag);
  }

  lemma FoundCharacters(s: string, tag: Tag)
    requires TagLen(s, tag).Some?
    ensures TagLen(s, tag).value >= 15 && Opens(s) && ClosesAt(s, TagLen(s, tag).value - 3)
    ensures forall k | 0 <= k < TagLen(s, tag).value :: (k >= 3 ==> s[k] != '<') && s[k] != '['
  {
    hide TagLen, IsTag;
    var n := TagLen(s, tag).value;
    ScannerIsExact(s, n, tag);
    TagCharacters(s[..n], tag);
    forall k | 0 <= k < n
      ensures (k >= 3 ==> s[k] != '<') && s[k] != '['
    {
      assert s[..n][k] == s[k];
    }
  }

  /** No tag starts inside another, so two matches never overlap. */
  lemma NothingStartsInside(s: string, tag: Tag, k: nat, other: Tag)
    requires TagLen(s, tag).Some? && 0 < k < TagLen(s, tag).value
    ensures TagLen(s[k..], other).None?
  {
    hide ClosesAt;
    FoundCharacters(s, tag);
    var j := if k < 3 then 3 else k;
    assert s[k..][j - k] == s[j];
  }

  lemma MarkerCharacters(tag: Tag)
    ensures |Marker(tag)| > 0 && Marker(tag)[0] == '['
    ensures forall k | 0 <= k < |Marker(tag)| :: Marker(tag)[k] != '<'
  {
  }

  /** Where the output has no square bracket yet, it is still the input. */
  lemma {:induction false} CopiedPrefix(s: string, tags: set<Tag>, n: nat)
    requires n <= |Defuse(s, tags)| && forall k | 0 <= k < n :: Defuse(s, tags)[k] != '['
    ensures n <= |s| && s[..n] == Defuse(s, tags)[..n]
  {
    if n > 0 {
      var f := TagAt(s, tags);
      if f.Some? {
        assert Defuse(s, tags)[0] != '[';
        MarkerCharacters(f.value.tag);
      } else {
        var rest := Defuse(s[1..], tags);
        assert Defuse(s, tags) == [s[0]] + rest;
        assert forall k | 0 <= k < n - 1 :: rest[k] == Defuse(s, tags)[k + 1];
        CopiedPrefix(s[1..], tags, n - 1);
        assert s[..n] == [s[0]] + s[1..][..n - 1];
      }
    }
  }

  /** Substitution makes no tag: one at the start of the output was at the start of the input. */
  lemma NoNewTag(s: string, tags: set<Tag>, tag: Tag)
    requires TagLen(Defuse(s, tags), tag).Some?
    ensures TagLen(s, tag) == TagLen(Defuse(s, tags), tag)
  {
    hide TagLen;
    var n := TagLen(Defuse(s, tags), tag).value;
    FoundCharacters(Defuse(s, tags), tag);
    CopiedPrefix(s, tags, n);
    TagAtIsLocal(Defuse(s, tags), s, n, tag);
  }

  lemma NoTagInMarker(tag: Tag, rest: string, k: nat, other: Tag)
    requires k < |Marker(tag)|
    ensures TagLen((Marker(tag) + rest)[k..], other).None?
  {
    MarkerCharacters(tag);
    assert (Marker(tag) + rest)[k..][0] == Marker(tag)[k];
  }

  lemma NoTagAtStart(s: string, tags: set<Tag>, tag: Tag)
    requires TagAt(s, tags).None? && tag in tags
    ensures TagLen(Defuse(s, tags), tag).None?
  {
    if TagLen(Defuse(s, tags), tag).Some? {
      NoNewTag(s, tags, tag);
    }
  }

  /** No tag starts anywhere in the text. */
  ghost predicate Clean(s: string, tag: Tag) {
    forall i | 0 <= i <= |s| :: TagLen(s[i..], tag).None?
  }

  lemma CleanAfterMarker(removed: Tag, rest: string, tag: Tag)
    requires Clean(rest, tag)
    ensures Clean(Marker(removed) + rest, tag)
  {
    var m := Marker(removed);
    forall i | 0 <= i <= |m + rest|
      ensures TagLen((m + rest)[i..], tag).None?
    {
      if i < |m| {
        NoTagInMarker(removed, rest, i, tag);
      } else {
        assert (m + rest)[i..] == rest[i - |m|..];
      }
    }
  }

  lemma CleanAfterCharacter(c: char, rest: string, tag: Tag)
    requires Clean(rest, tag) && TagLen([c] + rest, tag).None?
    ensures Clean([c] + rest, tag)
  {
    forall i | 0 <= i <= |[c] + rest|
      ensures TagLen(([c] + rest)[i..], tag).None?
    {
      if i == 0 {
        assert ([c] + rest)[0..] == [c] + rest;
      } else {
        assert ([c] + rest)[i..] == rest[i - 1..];
      }
    }
  }

  lemma {:induction false} DefusedIsClean(s: string, tags: set<Tag>, tag: Tag)
    requires tag in tags
    ensures Clean(Defuse(s, tags), tag)
    decreases |s|
  {
    hide TagLen, Marker;
    if s == "" {
      assert Clean("", tag);
    } else {
      var f := TagAt(s, tags);
      if f.Some? {
        DefusedIsClean(s[f.value.len..], tags, tag);
        CleanAfterMarker(f.value.tag, Defuse(s[f.value.len..], tags), tag);
      } else {
        DefusedIsClean(s[1..], tags, tag);
        NoTagAtStart(s, tags, tag);
        CleanAfterCharacter(s[0], Defuse(s[1..], tags), tag);
      }
    }
  }

  lemma NoTagBetween(s: string, i: nat, j: nat, tag: Tag)
    requires i <= j <= |s| && TagLen(s[i..], tag).None?
    ensures !IsTag(s[i..j], tag)
  {
    MatchAt(s, i, j, tag);
  }

  /** For every text, the defused text contains none of the tags it was defused of. */
  lemma DefusedIsTagless(s: string, tags: set<Tag>)
    ensures Tagless(Defuse(s, tags), tags)
  {
    forall i, j, tag | 0 <= i <= j <= |Defuse(s, tags)| && tag in tags
      ensures !IsTag(Defuse(s, tags)[i..j], tag)
    {
      DefusedIsClean(s, tags, tag);
      NoTagBetween(Defuse(s, tags), i, j, tag);
    }
  }

  lemma TaglessTail(s: string, tags: set<Tag>, n: nat)
    requires Tagless(s, tags) && n <= |s|
    ensures Tagless(s[n..], tags)
  {
    forall i, j, tag | 0 <= i <= j <= |s| - n && tag in tags
      ensures !IsTag(s[n..][i..j], tag)
    {
      assert s[n..][i..j] == s[n + i..n + j];
    }
  }

  lemma TaglessStart(s: string, tags: set<Tag>)
    requires Tagless(s, tags)
    ensures TagAt(s, tags) == None
  {
    var f := TagAt(s, tags);
    if f.Some? {
      assert s[0..f.value.len] == s[..f.value.len];
      ScannerIsExact(s, f.value.len, f.value.tag);
    }
  }

  /** A text is left alone exactly when it has none of the tags. */
  lemma {:induction false} UntouchedIff(s: string, tags: set<Tag>)
    ensures Defuse(s, tags) == s <==> Tagless(s, tags)
    decreases |s|
  {
    DefusedIsTagless(s, tags);
    if s != "" && Tagless(s, tags) {
      TaglessStart(s, tags);
      TaglessTail(s, tags, 1);
      UntouchedIff(s[1..], tags);
    }
  }

  lemma NeutralizeIsIdempotent(text: string)
    ensures NeutralizeDelimiters(NeutralizeDelimiters(text)) == NeutralizeDelimiters(text)
  {
    DefusedIsTagless(text, ALL_TAGS);
    UntouchedIff(NeutralizeDelimiters(text), ALL_TAGS);
  }

  // ----- fences --------------------------------------------------------------------------

  lemma OpeningIsTag(word: string)
    requires IsWord(word)
    ensures IsWordTag(OpeningOf(word), word) && |OpeningOf(word)| == |word| + 6
  {
    assert NamedAt(OpeningOf(word), 3, word);
  }

  /** A near miss is a tag as well: in any case, and with the long s for an S. */
  lemma AnyCaseIsTag(word: string, variant: string)
    requires IsWord(word) && |variant| == |word|
    requires forall k | 0 <= k < |word| ::
               || variant[k] == word[k]
               || (word[k] != '_' && variant[k] as int - 'a' as int == word[k] as int - 'A' as int)
               || (word[k] == 'S' && variant[k] == '\U{17F}')
    ensures IsWordTag("<<<" + variant + ">>>", word)
  {
    var s := "<<<" + variant + ">>>";
    assert forall k | 0 <= k < |word| :: s[3 + k] == variant[k];
    assert NamedAt(s, 3, word);
  }

  lemma ClosingIsTag(word: string)
    requires IsWord(word)
    ensures IsWordTag(ClosingOf(word), word) && |ClosingOf(word)| == |word| + 7
  {
    assert NamedAt(ClosingOf(word), 4, word);
  }

  lemma BreakCharacters(s: string, tail: string)
    requires Opens(tail)
    ensures (s + "\n" + tail)[|s|] == '\n'
    ensures forall k | |s| < k <= |s| + 3 :: (s + "\n" + tail)[k] == '<'
  {
  }

  /** No tag reaches from a text without one, across a line break, into the closing delimiter. */
  lemma NoTagAcross(s: string, tail: string, tag: Tag)
    requires TagLen(s, tag).None? && s != "" && Opens(tail)
    ensures TagLen(s + "\n" + tail, tag).None?
  {
    var whole := s + "\n" + tail;
    BreakCharacters(s, tail);
    assert whole[|s| + 3] == '<';
    if TagLen(whole, tag).Some? {
      var n := TagLen(whole, tag).value;
      if n <= |s| {
        assert whole[..n] == s[..n];
        TagAtIsLocal(whole, s, n, tag);
      } else {
        assert whole[n - 1] == '<' || whole[n - 1] == '\n' || n > |s| + 4;
        FoundCharacters(whole, tag);
      }
    }
  }

  lemma FenceParts(tag: Tag, text: string)
    ensures TagLen(FenceWith(tag, text), tag) == Some(|Opening(tag)|)
    ensures TagLen(Closing(tag), tag) == Some(|Closing(tag)|)
  {
    NamesAreWords(tag);
    OpeningIsTag(NameOf(tag));
    ClosingIsTag(NameOf(tag));
    var whole := FenceWith(tag, text);
    assert whole[..|Opening(tag)|] == Opening(tag);
    assert Closing(tag)[..|Closing(tag)|] == Closing(tag);
    ScannerIsExact(whole, |Opening(tag)|, tag);
    ScannerIsExact(Closing(tag), |Closing(tag)|, tag);
  }

  /** No tag starts in a text without one that a line break and a closing delimiter follow, before that delimiter. */
  lemma NoTagBeforeBreak(s: string, tail: string, k: nat, tag: Tag)
    requires k <= |s| && Opens(tail) && TagLen(s[k..], tag).None?
    ensures TagLen((s + "\n" + tail)[k..], tag).None?
  {
    if k < |s| {
      assert (s + "\n" + tail)[k..] == s[k..] + "\n" + tail;
      NoTagAcross(s[k..], tail, tag);
    } else {
      assert (s + "\n" + tail)[k..][0] == '\n';
    }
  }

  /** A text framed by two lines. */
  function Framed(top: string, inner: string, bottom: string): string {
    top + "\n" + inner + "\n" + bottom
  }

  lemma FramedSuffixes(top: string, inner: string, bottom: string, i: nat)
    requires i <= |Framed(top, inner, bottom)|
    ensures i == |top| ==> Framed(top, inner, bottom)[i..][0] == '\n'
    ensures |top| < i <= |top| + 1 + |inner| ==>
              Framed(top, inner, bottom)[i..] == (inner + "\n" + bottom)[i - |top| - 1..]
    ensures i >= |top| + |inner| + 2 ==> Framed(top, inner, bottom)[i..] == bottom[i - |top| - |inner| - 2..]
  {
  }

  /** Where in a framed text a tag can start, when the frame is two tags and the text inside has none. */
  lemma FramedStarts(top: string, inner: string, bottom: string, tag: Tag, i: nat)
    requires i <= |Framed(top, inner, bottom)| && TagLen(Framed(top, inner, bottom), tag) == Some(|top|)
    requires TagLen(bottom, tag) == Some(|bottom|) && Clean(inner, tag)
    requires TagLen(Framed(top, inner, bottom)[i..], tag).Some?
    ensures i == 0 || i + |bottom| == |Framed(top, inner, bottom)|
  {
    hide TagLen;
    var last := |top| + 1 + |inner| + 1;
    FramedSuffixes(top, inner, bottom, i);
    FoundCharacters(bottom, tag);
    if 0 < i < |top| {
      NothingStartsInside(Framed(top, inner, bottom), tag, i, tag);
    } else if i == |top| {
      NoBracketNoTag(Framed(top, inner, bottom)[i..], tag);
    } else if |top| < i < last {
      NoTagBeforeBreak(inner, bottom, i - |top| - 1, tag);
    } else if last < i < last + |bottom| {
      NothingStartsInside(bottom, tag, i - last, tag);
    }
  }

  lemma FencesAreFramed(tag: Tag, text: string)
    ensures FenceWith(tag, text) == Framed(Opening(tag), Defuse(text, {tag}), Closing(tag))
  {
  }

  lemma SliceOfSuffix(s: string, i: nat, j: nat)
    requires i <= j <= |s|
    ensures s[i..][..j - i] == s[i..j]
  {
  }

  /** A match is determined by where it starts, wherever in the text that is. */
  lemma MatchAt(s: string, i: nat, j: nat, tag: Tag)
    requires i <= j <= |s|
    ensures IsTag(s[i..j], tag) <==> TagLen(s[i..], tag) == Some(j - i)
  {
    hide TagLen, IsTag;
    SliceOfSuffix(s, i, j);
    ScannerIsExact(s[i..], j - i, tag);
  }

  lemma FramedIsClosedOnce(top: string, inner: string, bottom: string, tag: Tag, i: nat, j: nat)
    requires i <= j <= |Framed(top, inner, bottom)| && TagLen(Framed(top, inner, bottom), tag) == Some(|top|)
    requires TagLen(bottom, tag) == Some(|bottom|) && Clean(inner, tag)
    ensures IsTag(Framed(top, inner, bottom)[i..j], tag) <==>
            || (i == 0 && j == |top|)
            || (i == |Framed(top, inner, bottom)| - |bottom| && j == |Framed(top, inner, bottom)|)
  {
    hide TagLen, IsTag;
    var whole := Framed(top, inner, bottom);
    var last := |whole| - |bottom|;
    MatchAt(whole, i, j, tag);
    FramedSuffixes(top, inner, bottom, last);
    assert whole[0..] == whole && bottom[0..] == bottom;
    if TagLen(whole[i..], tag).Some? {
      FramedStarts(top, inner, bottom, tag, i);
    }
  }

  /** A fence cannot be closed from the inside: its own tag occurs in it twice, as its first line and as its last. */
  lemma FenceIsClosedOnce(tag: Tag, text: string, i: nat, j: nat)
    requires i <= j <= |FenceWith(tag, text)|
    ensures IsTag(FenceWith(tag, text)[i..j], tag) <==>
            || (i == 0 && j == |Opening(tag)|)
            || (i == |FenceWith(tag, text)| - |Closing(tag)| && j == |FenceWith(tag, text)|)
  {
    hide TagLen, IsTag;
    FenceParts(tag, text);
    FencesAreFramed(tag, text);
    DefusedIsClean(text, {tag}, tag);
    FramedIsClosedOnce(Opening(tag), Defuse(text, {tag}), Closing(tag), tag, i, j);
  }

  // ----- what substitution leaves alone ---------------------------------------------------

  /** The tags of a text, as they stand in it, left to right. */
  function Tags(s: string, tag: Tag): seq<string>
  {
    if s == "" then []
    else
      var n := TagLen(s, tag);
      if n.Some? then [s[..n.value]] + Tags(s[n.value..], tag) else Tags(s[1..], tag)
  }

  lemma CopyOne(s: string, n: nat, rest: string)
    requires 0 < n <= |s|
    ensures [s[0]] + (s[1..][..n - 1] + rest) == s[..n] + rest
  {
  }

  /** A stretch in which no tag starts is copied. */
  lemma {:induction false} CopyThrough(s: string, tags: set<Tag>, n: nat)
    requires n <= |s| && forall i | 0 <= i < n :: TagAt(s[i..], tags).None?
    ensures Defuse(s, tags) == s[..n] + Defuse(s[n..], tags)
  {
    hide TagAt;
    if n > 0 {
      assert s[0..] == s;
      forall i | 0 <= i < n - 1
        ensures TagAt(s[1..][i..], tags).None?
      {
        assert s[1..][i..] == s[i + 1..];
      }
      CopyThrough(s[1..], tags, n - 1);
      assert s[1..][n - 1..] == s[n..];
      CopyOne(s, n, Defuse(s[n..], tags));
    } else {
      assert s[0..] == s;
    }
  }

  /**
   Substitution replaces the first tag of a removed kind by a marker that names it, copies what is before
   it, and goes on behind it.
   */
  lemma FirstTagIsReplaced(s: string, i: nat, j: nat, tag: Tag, tags: set<Tag>)
    requires i <= j <= |s| && tag in tags && IsTag(s[i..j], tag)
    requires forall m, n, other | 0 <= m < i && m <= n <= |s| && other in tags :: !IsTag(s[m..n], other)
    ensures Defuse(s, tags) ==
            s[..i] + (if tag == UserData then "[removed delimiter: USER_DATA]" else "[removed delimiter: UPSTREAM_OUTPUT]")
            + Defuse(s[j..], tags)
  {
    hide *;
    NoTagBefore(s, i, tags);
    CopyThrough(s, tags, i);
    MatchAt(s, i, j, tag);
    OneTagAt(s[i..], tags, tag);
    ReplacesFirst(s[i..], tags);
    MarkerNames(tag);
    Behind(s, i, j);
    Regroup(s[..i], Marker(tag), Defuse(s[j..], tags));
  }

  lemma MarkerNames(tag: Tag)
    ensures Marker(tag) == if tag == UserData then "[removed delimiter: USER_DATA]" else "[removed delimiter: UPSTREAM_OUTPUT]"
  {
  }

  lemma Behind(s: string, i: nat, j: nat)
    requires i <= j <= |s|
    ensures s[i..][j - i..] == s[j..]
  {
  }

  lemma Regroup(a: string, b: string, c: string)
    ensures a + (b + c) == (a + b) + c
  {
  }

  lemma NoTagBefore(s: string, i: nat, tags: set<Tag>)
    requires i <= |s| && forall m, n, tag | 0 <= m < i && m <= n <= |s| && tag in tags :: !IsTag(s[m..n], tag)
    ensures forall m | 0 <= m < i :: TagAt(s[m..], tags).None?
  {
    hide IsTag, TagLen;
    forall m | 0 <= m < i
      ensures TagAt(s[m..], tags).None?
    {
      var f := TagAt(s[m..], tags);
      if f.Some? {
        MatchAt(s, m, m + f.value.len, f.value.tag);
      }
    }
  }

  /** At one place there is one tag at most. */
  lemma OneTagAt(s: string, tags: set<Tag>, tag: Tag)
    requires tag in tags && TagLen(s, tag).Some?
    ensures TagAt(s, tags) == Some(Found(tag, TagLen(s, tag).value))
  {
    hide TagLen;
    TagsExclude(s);
  }

  lemma ReplacesFirst(s: string, tags: set<Tag>)
    requires TagAt(s, tags).Some?
    ensures Defuse(s, tags) == Marker(TagAt(s, tags).value.tag) + Defuse(s[TagAt(s, tags).value.len..], tags)
  {
    hide TagAt;
  }

  /** A stretch in which no tag starts has none to list. */
  lemma {:induction false} NothingToList(s: string, tag: Tag, n: nat)
    requires n <= |s| && forall i | 0 <= i < n :: TagLen(s[i..], tag).None?
    ensures Tags(s, tag) == Tags(s[n..], tag)
  {
    hide TagLen;
    assert s[0..] == s;
    if n > 0 {
      forall i | 0 <= i < n - 1
        ensures TagLen(s[1..][i..], tag).None?
      {
        assert s[1..][i..] == s[i + 1..];
      }
      NothingToList(s[1..], tag, n - 1);
      assert s[1..][n - 1..] == s[n..];
    }
  }

  /** Inside a tag of one kind nothing of the other kind starts. */
  lemma OnlyOneKind(s: string, tag: Tag, other: Tag, i: nat)
    requires tag != other && TagLen(s, tag).Some? && i < TagLen(s, tag).value
    ensures TagLen(s[i..], other).None?
  {
    hide TagLen;
    if i == 0 {
      assert s[0..] == s;
      TagsExclude(s);
    } else {
      NothingStartsInside(s, tag, i, other);
    }
  }

  /** A tag of the kind that is kept is copied whole. */
  lemma KeptTag(s: string, removed: Tag, kept: Tag)
    requires removed != kept && TagLen(s, kept).Some?
    ensures var n := TagLen(s, kept).value;
            && Defuse(s, {removed}) == s[..n] + Defuse(s[n..], {removed})
            && TagLen(Defuse(s, {removed}), kept) == Some(n)
  {
    hide TagLen;
    var n := TagLen(s, kept).value;
    forall i | 0 <= i < n
      ensures TagAt(s[i..], {removed}).None?
    {
      OnlyOneKind(s, kept, removed, i);
    }
    CopyThrough(s, {removed}, n);
    assert Defuse(s, {removed})[..n] == s[..n];
    TagAtIsLocal(s, Defuse(s, {removed}), n, kept);
  }

  lemma SkipMarker(removed: Tag, rest: string, tag: Tag)
    ensures Tags(Marker(removed) + rest, tag) == Tags(rest, tag)
  {
    hide TagLen, Marker;
    var m := Marker(removed);
    forall i | 0 <= i < |m|
      ensures TagLen((m + rest)[i..], tag).None?
    {
      NoTagInMarker(removed, rest, i, tag);
    }
    NothingToList(m + rest, tag, |m|);
    assert (m + rest)[|m|..] == rest;
  }

  lemma SkipRemoved(s: string, removed: Tag, kept: Tag)
    requires removed != kept && TagLen(s, removed).Some?
    ensures Tags(s, kept) == Tags(s[TagLen(s, removed).value..], kept)
  {
    hide TagLen;
    var n := TagLen(s, removed).value;
    forall i | 0 <= i < n
      ensures TagLen(s[i..], kept).None?
    {
      OnlyOneKind(s, removed, kept, i);
    }
    NothingToList(s, kept, n);
  }

  /** Removing one kind of tag keeps every tag of the other kind, in order and as it was written. */
  lemma {:induction false} OtherTagsSurvive(s: string, removed: Tag, kept: Tag)
    requires removed != kept
    ensures Tags(Defuse(s, {removed}), kept) == Tags(s, kept)
    decreases |s|
  {
    hide TagLen, Marker;
    if s != "" {
      if TagLen(s, removed).Some? {
        var n := TagLen(s, removed).value;
        SkipRemoved(s, removed, kept);
        SkipMarker(removed, Defuse(s[n..], {removed}), kept);
        OtherTagsSurvive(s[n..], removed, kept);
      } else if TagLen(s, kept).Some? {
        var n := TagLen(s, kept).value;
        KeptTag(s, removed, kept);
        OtherTagsSurvive(s[n..], removed, kept);
        assert Defuse(s, {removed})[..n] == s[..n];
        assert Defuse(s, {removed})[n..] == Defuse(s[n..], {removed});
      } else {
        if TagLen(Defuse(s, {removed}), kept).Some? {
          NoNewTag(s, {removed}, kept);
        }
        OtherTagsSurvive(s[1..], removed, kept);
        assert Defuse(s, {removed})[1..] == Defuse(s[1..], {removed});
      }
    }
  }

  /** A last line without tags neither adds one nor completes one. */
  lemma {:induction false} TagsBeforeBreak(s: string, bottom: string, tag: Tag)
    requires Opens(bottom) && Clean(bottom, tag)
    ensures Tags(s + "\n" + bottom, tag) == Tags(s, tag)
    decreases |s|
  {
    hide TagLen;
    var whole := s + "\n" + bottom;
    if s == "" {
      forall i | 0 <= i < |whole|
        ensures TagLen(whole[i..], tag).None?
      {
        if i == 0 {
          assert whole[i..][0] == '\n';
          NoBracketNoTag(whole[i..], tag);
        } else {
          assert whole[i..] == bottom[i - 1..];
        }
      }
      NothingToList(whole, tag, |whole|);
    } else if TagLen(s, tag).Some? {
      var n := TagLen(s, tag).value;
      assert whole[..n] == s[..n] && whole[n..] == s[n..] + "\n" + bottom;
      TagAtIsLocal(s, whole, n, tag);
      TagsBeforeBreak(s[n..], bottom, tag);
    } else {
      NoTagAcross(s, bottom, tag);
      assert whole[1..] == s[1..] + "\n" + bottom;
      TagsBeforeBreak(s[1..], bottom, tag);
    }
  }

  /** A text that is one tag has no tag of the other kind in it. */
  lemma TagIsCleanOfOthers(s: string, tag: Tag, other: Tag)
    requires tag != other && TagLen(s, tag) == Some(|s|)
    ensures Clean(s, other)
  {
    hide TagLen;
    forall i | 0 <= i <= |s|
      ensures TagLen(s[i..], other).None?
    {
      if i < |s| {
        OnlyOneKind(s, tag, other, i);
      } else {
        NoBracketNoTag(s[i..], other);
      }
    }
  }

  lemma FramedTop(top: string, inner: string, bottom: string, tag: Tag, other: Tag)
    requires tag != other && TagLen(Framed(top, inner, bottom), tag) == Some(|top|)
    ensures Tags(Framed(top, inner, bottom), other) == Tags(inner + "\n" + bottom, other)
  {
    hide TagLen;
    var whole := Framed(top, inner, bottom);
    forall i | 0 <= i < |top| + 1
      ensures TagLen(whole[i..], other).None?
    {
      if i < |top| {
        OnlyOneKind(whole, tag, other, i);
      } else {
        FramedSuffixes(top, inner, bottom, i);
        NoBracketNoTag(whole[i..], other);
      }
    }
    NothingToList(whole, other, |top| + 1);
    FramedSuffixes(top, inner, bottom, |top| + 1);
    assert (inner + "\n" + bottom)[0..] == inner + "\n" + bottom;
  }

  /** A fence keeps the other kind of fence nested in it: the fenced text has that kind's tags and no more. */
  lemma FenceKeepsOthers(tag: Tag, text: string, other: Tag)
    requires tag != other
    ensures Tags(FenceWith(tag, text), other) == Tags(text, other)
  {
    hide TagLen;
    FenceParts(tag, text);
    FencesAreFramed(tag, text);
    FramedTop(Opening(tag), Defuse(text, {tag}), Closing(tag), tag, other);
    FoundCharacters(Closing(tag), tag);
    TagIsCleanOfOthers(Closing(tag), tag, other);
    TagsBeforeBreak(Defuse(text, {tag}), Closing(tag), other);
    OtherTagsSurvive(text, tag, other);
  }

  /** A frame of two tags around a text without one has those two tags. */
  lemma FramedOwnTags(top: string, inner: string, bottom: string, tag: Tag)
    requires TagLen(Framed(top, inner, bottom), tag) == Some(|top|)
    requires TagLen(bottom, tag) == Some(|bottom|) && Clean(inner, tag)
    ensures Tags(Framed(top, inner, bottom), tag) == [top, bottom]
  {
    hide TagLen, Framed, Tags;
    var whole := Framed(top, inner, bottom);
    FramedShape(top, inner, bottom);
    FirstTag(whole, tag);
    var rest := whole[|top|..];
    forall i | 0 <= i < |inner| + 2
      ensures TagLen(rest[i..], tag).None?
    {
      assert rest[i..] == whole[|top| + i..];
      if TagLen(rest[i..], tag).Some? {
        FramedStarts(top, inner, bottom, tag, |top| + i);
      }
    }
    NothingToList(rest, tag, |inner| + 2);
    assert rest[|inner| + 2..] == whole[|top| + |inner| + 2..] == bottom;
    FirstTag(bottom, tag);
  }

  lemma FramedShape(top: string, inner: string, bottom: string)
    ensures var whole := Framed(top, inner, bottom);
            && |whole| == |top| + |inner| + |bottom| + 2
            && whole[..|top|] == top && whole[|top| + |inner| + 2..] == bottom
  {
  }

  /** A text that starts with a tag lists it first; nothing follows a text that is one. */
  lemma FirstTag(s: string, tag: Tag)
    requires TagLen(s, tag).Some?
    ensures var n := TagLen(s, tag).value;
            0 < n <= |s| && Tags(s, tag) == [s[..n]] + Tags(s[n..], tag) && (n == |s| ==> Tags(s, tag) == [s])
  {
    hide TagLen;
    assert s[..|s|] == s && s[|s|..] == "";
  }

  /** A fence has its own two tags. */
  lemma FenceTags(tag: Tag, text: string)
    ensures Tags(FenceWith(tag, text), tag) == [Opening(tag), Closing(tag)]
  {
    hide TagLen, Tags, Opening, Closing, FenceWith, Framed;
    FenceParts(tag, text);
    FencesAreFramed(tag, text);
    DefusedIsClean(text, {tag}, tag);
    FramedOwnTags(Opening(tag), Defuse(text, {tag}), Closing(tag), tag);
  }

  lemma DelimitersAreThese()
    ensures Opening(UserData) == "<<<USER_DATA>>>" && Closing(UserData) == "<<</USER_DATA>>>"
    ensures Opening(UpstreamOutput) == "<<<UPSTREAM_OUTPUT>>>" && Closing(UpstreamOutput) == "<<</UPSTREAM_OUTPUT>>>"
  {
  }

  /**
   Another agent's output fenced inside a prompt that is fenced as a whole: whatever the output says,
   the prompt has the two delimiters of each pair and no other.
   */
  lemma NestedFencesHold(output: string)
    ensures Tags(Fence(FenceUpstream(output)), UpstreamOutput) == ["<<<UPSTREAM_OUTPUT>>>", "<<</UPSTREAM_OUTPUT>>>"]
    ensures Tags(Fence(FenceUpstream(output)), UserData) == ["<<<USER_DATA>>>", "<<</USER_DATA>>>"]
  {
    hide TagLen, Tags, Opening, Closing, FenceWith;
    DelimitersAreThese();
    FenceTags(UpstreamOutput, output);
    FenceKeepsOthers(UserData, FenceUpstream(output), UpstreamOutput);
    FenceTags(UserData, FenceUpstream(output));
  }

  lemma MarkerIsCopied(removed: Tag, rest: string, tags: set<Tag>)
    ensures Defuse(Marker(removed) + rest, tags) == Marker(removed) + Defuse(rest, tags)
  {
    hide TagLen, Marker;
    var m := Marker(removed);
    forall i | 0 <= i < |m|
      ensures TagAt((m + rest)[i..], tags).None?
    {
      NoTagInMarker(removed, rest, i, UserData);
      NoTagInMarker(removed, rest, i, UpstreamOutput);
    }
    CopyThrough(m + rest, tags, |m|);
    assert (m + rest)[|m|..] == rest && (m + rest)[..|m|] == m;
  }

  /** Removing both kinds at once is removing one and then the other, in either order. */
  lemma {:induction false} NeutralizeIsEachInTurn(s: string, first: Tag, second: Tag)
    requires first != second
    ensures NeutralizeDelimiters(s) == Defuse(Defuse(s, {first}), {second})
    decreases |s|
  {
    hide TagLen, Marker;
    if s != "" {
      TagsExclude(s);
      if TagLen(s, first).Some? {
        var n := TagLen(s, first).value;
        MarkerIsCopied(first, Defuse(s[n..], {first}), {second});
        NeutralizeIsEachInTurn(s[n..], first, second);
      } else if TagLen(s, second).Some? {
        var n := TagLen(s, second).value;
        KeptTag(s, first, second);
        assert Defuse(s, {first})[n..] == Defuse(s[n..], {first});
        NeutralizeIsEachInTurn(s[n..], first, second);
      } else {
        if TagLen(Defuse(s, {first}), second).Some? {
          NoNewTag(s, {first}, second);
        }
        assert Defuse(s, {first})[1..] == Defuse(s[1..], {first});
        NeutralizeIsEachInTurn(s[1..], first, second);
      }
    }
  }
}
