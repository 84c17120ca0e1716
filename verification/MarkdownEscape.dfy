// Escaping of a run's text for Markdown, in two regular-expression passes, and the reader that undoes it.

module MarkdownEscape {
  /** The characters of the first pass. In its character class `+-.` reads as a range, so that the comma is
      escaped as well. */
  predicate Special(c: char) {
    c in "\\*`!_{}[]()#" || '+' <= c <= '.'
  }

  /** First pass: a backslash before every special character. */
  function EscapeSpecials(text: string): string {
    if text == "" then ""
    else (if Special(text[0]) then ['\\', text[0]] else [text[0]]) + EscapeSpecials(text[1..])
  }

  /** Position of the first '>', or the length. */
  function FirstClose(text: string): (i: nat)
    ensures i <= |text|
    ensures i < |text| ==> text[i] == '>'
    ensures '>' !in text[..i]
  {
    if text == "" || text[0] == '>' then 0 else 1 + FirstClose(text[1..])
  }

  /** The text starts with a tag: '<', at least one character other than '>', then '>'. */
  predicate StartsWithTag(text: string) {
    text != "" && text[0] == '<' && 2 <= FirstClose(text) < |text|
  }

  /** Second pass: a backslash before every tag, from left to right; tags do not overlap. */
  function EscapeTags(text: string): string
    decreases |text|
  {
    if text == "" then ""
    else if StartsWithTag(text) then
      var end := FirstClose(text) + 1;
      "\\" + text[..end] + EscapeTags(text[end..])
    else [text[0]] + EscapeTags(text[1..])
  }

  function EscapeText(text: string): string {
    EscapeTags(EscapeSpecials(text))
  }

  /** The ASCII punctuation characters, which a backslash escapes (section 2.4 of CommonMark 0.30). */
  predicate Punctuation(c: char) {
    '!' <= c <= '/' || ':' <= c <= '@' || '[' <= c <= '`' || '{' <= c <= '~'
  }

  /** What a Markdown reader makes of backslash escapes. */
  function Unescape(text: string): string {
    if text == "" then ""
    else if |text| >= 2 && text[0] == '\\' && Punctuation(text[1]) then [text[1]] + Unescape(text[2..])
    else [text[0]] + Unescape(text[1..])
  }

  /** The second pass when the first `copied` characters are the rest of a tag. */
  function Resume(text: string, copied: nat): string
    requires copied <= |text|
  {
    text[..copied] + EscapeTags(text[copied..])
  }

  /** Nothing is being copied, or copying ends with the end of a tag. */
  predicate TagRest(text: string, copied: nat) {
    copied <= |text| && (copied > 0 ==> text[copied - 1] == '>')
  }

  lemma UnescapePair(c: char, rest: string)
    requires Punctuation(c)
    ensures Unescape(['\\', c] + rest) == [c] + Unescape(rest)
  {
    assert (['\\', c] + rest)[2..] == rest;
  }

  lemma UnescapeOne(c: char, rest: string)
    requires c != '\\'
    ensures Unescape([c] + rest) == [c] + Unescape(rest)
  {
    assert ([c] + rest)[1..] == rest;
  }

  lemma ResumeOne(text: string, copied: nat)
    requires 0 < copied <= |text|
    ensures Resume(text, copied) == [text[0]] + Resume(text[1..], copied - 1)
  {
    assert text[1..][copied - 1..] == text[copied..];
    assert text[..copied] == [text[0]] + text[1..][..copied - 1];
  }

  lemma ResumeNone(text: string)
    ensures Resume(text, 0) == EscapeTags(text)
  {
    assert text[..0] == "";
    assert text[0..] == text;
  }

  /** A tag's '<' gets its backslash, and the rest of the tag is copied. */
  lemma ResumeTag(text: string)
    requires StartsWithTag(text)
    ensures TagRest(text[1..], FirstClose(text))
    ensures EscapeTags(text) == ['\\', '<'] + Resume(text[1..], FirstClose(text))
  {
    var end := FirstClose(text) + 1;
    var tail := EscapeTags(text[end..]);
    assert text[1..][FirstClose(text) - 1] == '>';
    TagSplit(text, end, tail);
    assert text[1..][end - 1..] == text[end..];
  }

  lemma TagSplit(text: string, end: nat, tail: string)
    requires 0 < end <= |text| && text[0] == '<'
    ensures "\\" + text[..end] + tail == ['\\', '<'] + (text[1..][..end - 1] + tail)
  {
    assert text[..end] == ['<'] + text[1..][..end - 1];
  }

  lemma TagsSkip(c: char, rest: string)
    requires c != '<'
    ensures EscapeTags([c] + rest) == [c] + EscapeTags(rest)
  {
    assert ([c] + rest)[1..] == rest;
  }

  lemma Pair(a: char, b: char, rest: string)
    ensures [a, b] + rest == [a] + ([b] + rest)
  {
  }

  lemma ResumeSpecialOutside(c: char, rest: string)
    requires c != '<'
    ensures Resume(['\\', c] + rest, 0) == ['\\', c] + Resume(rest, 0)
  {
    Pair('\\', c, rest);
    Pair('\\', c, EscapeTags(rest));
    TagsSkip('\\', [c] + rest);
    TagsSkip(c, rest);
    ResumeNone(['\\', c] + rest);
    ResumeNone(rest);
  }

  lemma ResumeSpecialInside(c: char, rest: string, copied: nat)
    requires 2 <= copied <= |rest| + 2
    ensures Resume(['\\', c] + rest, copied) == ['\\', c] + Resume(rest, copied - 2)
  {
    var text := ['\\', c] + rest;
    assert text[1..] == [c] + rest && ([c] + rest)[1..] == rest;
    ResumeOne(text, copied);
    ResumeOne(text[1..], copied - 1);
  }

  /** An escaped special is copied whole, inside a tag or outside. */
  lemma ResumeSpecial(c: char, rest: string, copied: nat)
    requires Special(c) && TagRest(['\\', c] + rest, copied)
    ensures copied == 0 || copied >= 2
    ensures var left := if copied == 0 then 0 else copied - 2;
            TagRest(rest, left) && Resume(['\\', c] + rest, copied) == ['\\', c] + Resume(rest, left)
  {
    if copied == 0 {
      ResumeSpecialOutside(c, rest);
    } else {
      assert (['\\', c] + rest)[copied - 1] == '>';
      ResumeSpecialInside(c, rest, copied);
    }
  }

  /** Whether the second pass escapes the first character; and how much of a tag is left to copy behind it. */
  predicate TagHere(text: string, copied: nat) {
    copied == 0 && StartsWithTag(text)
  }

  function LeftToCopy(text: string, copied: nat): nat {
    if TagHere(text, copied) then FirstClose(text) else if copied > 0 then copied - 1 else 0
  }

  /** Any other character is copied, or escaped if it starts a tag. */
  lemma ResumePlain(c: char, rest: string, copied: nat)
    requires TagRest([c] + rest, copied)
    ensures var left := LeftToCopy([c] + rest, copied);
            TagRest(rest, left)
            && Resume([c] + rest, copied)
               == (if TagHere([c] + rest, copied) then ['\\', c] else [c]) + Resume(rest, left)
  {
    var text := [c] + rest;
    assert text[1..] == rest;
    if copied > 0 {
      ResumeOne(text, copied);
      assert copied - 1 > 0 ==> rest[copied - 2] == text[copied - 1];
    } else {
      ResumeNone(text);
      if StartsWithTag(text) {
        ResumeTag(text);
      } else {
        ResumeNone(rest);
      }
    }
  }

  lemma UnescapePlain(c: char, escaped: bool, rest: string)
    requires c != '\\' && (escaped ==> Punctuation(c))
    ensures Unescape((if escaped then ['\\', c] else [c]) + rest) == [c] + Unescape(rest)
  {
    if escaped {
      UnescapePair(c, rest);
    } else {
      UnescapeOne(c, rest);
    }
  }

  lemma SpecialUnescaped(c: char, rest: string, copied: nat) returns (left: nat)
    requires Special(c) && TagRest(['\\', c] + rest, copied)
    ensures TagRest(rest, left)
    ensures Unescape(Resume(['\\', c] + rest, copied)) == [c] + Unescape(Resume(rest, left))
  {
    ResumeSpecial(c, rest, copied);
    left := if copied == 0 then 0 else copied - 2;
    UnescapePair(c, Resume(rest, left));
  }

  lemma PlainUnescaped(c: char, rest: string, copied: nat) returns (left: nat)
    requires c != '\\' && TagRest([c] + rest, copied)
    ensures TagRest(rest, left)
    ensures Unescape(Resume([c] + rest, copied)) == [c] + Unescape(Resume(rest, left))
  {
    ResumePlain(c, rest, copied);
    left := LeftToCopy([c] + rest, copied);
    UnescapePlain(c, TagHere([c] + rest, copied), Resume(rest, left));
  }

  lemma {:induction false} UnescapeResumed(text: string, copied: nat)
    requires TagRest(EscapeSpecials(text), copied)
    ensures Unescape(Resume(EscapeSpecials(text), copied)) == text
  {
    if text != "" {
      var rest := EscapeSpecials(text[1..]);
      var left;
      if Special(text[0]) {
        left := SpecialUnescaped(text[0], rest, copied);
      } else {
        left := PlainUnescaped(text[0], rest, copied);
      }
      UnescapeResumed(text[1..], left);
    }
  }

  /** Escaping loses nothing: a Markdown reader that resolves backslash escapes gets back every text. */
  lemma UnescapeEscapeText(text: string)
    ensures Unescape(EscapeText(text)) == text
  {
    UnescapeResumed(text, 0);
    ResumeNone(EscapeSpecials(text));
  }

  /** Read from left to right, the text has no markup but behind a backslash, and backslashes before nothing but
      markup, commas and the '<' of a tag. */
  predicate Neutral(text: string) {
    if text == "" then true
    else if text[0] == '\\' then |text| >= 2 && text[1] in "\\`*_{}[]()#+-.!,<" && Neutral(text[2..])
    else text[0] !in "`*_{}[]()#+-.!," && Neutral(text[1..])
  }

  lemma NeutralPair(c: char, rest: string)
    requires c in "\\`*_{}[]()#+-.!,<" && Neutral(rest)
    ensures Neutral(['\\', c] + rest)
  {
    assert (['\\', c] + rest)[2..] == rest;
  }

  lemma NeutralOne(c: char, rest: string)
    requires c !in "\\`*_{}[]()#+-.!," && Neutral(rest)
    ensures Neutral([c] + rest)
  {
    assert ([c] + rest)[1..] == rest;
  }

  lemma SpecialIsMarkup(c: char)
    ensures Special(c) <==> c in "\\`*_{}[]()#+-.!,"
  {
  }

  lemma PlainNeutral(c: char, rest: string, copied: nat) returns (left: nat)
    requires !Special(c) && TagRest([c] + rest, copied)
    ensures TagRest(rest, left)
    ensures Neutral(Resume(rest, left)) ==> Neutral(Resume([c] + rest, copied))
  {
    SpecialIsMarkup(c);
    ResumePlain(c, rest, copied);
    left := LeftToCopy([c] + rest, copied);
    if Neutral(Resume(rest, left)) {
      if TagHere([c] + rest, copied) {
        NeutralPair(c, Resume(rest, left));
      } else {
        NeutralOne(c, Resume(rest, left));
      }
    }
  }

  lemma SpecialNeutral(c: char, rest: string, copied: nat) returns (left: nat)
    requires Special(c) && TagRest(['\\', c] + rest, copied)
    ensures TagRest(rest, left)
    ensures Neutral(Resume(rest, left)) ==> Neutral(Resume(['\\', c] + rest, copied))
  {
    SpecialIsMarkup(c);
    ResumeSpecial(c, rest, copied);
    left := if copied == 0 then 0 else copied - 2;
    if Neutral(Resume(rest, left)) {
      NeutralPair(c, Resume(rest, left));
    }
  }

  lemma {:induction false} NeutralResumed(text: string, copied: nat)
    requires TagRest(EscapeSpecials(text), copied)
    ensures Neutral(Resume(EscapeSpecials(text), copied))
  {
    if text != "" {
      var rest := EscapeSpecials(text[1..]);
      var left;
      if Special(text[0]) {
        left := SpecialNeutral(text[0], rest, copied);
      } else {
        left := PlainNeutral(text[0], rest, copied);
      }
      NeutralResumed(text[1..], left);
    }
  }

  /** No character that Markdown reads as markup is left unescaped, and of others only the comma and the '<' of a tag
      are escaped. */
  lemma EscapedIsNeutral(text: string)
    ensures Neutral(EscapeText(text))
  {
    NeutralResumed(text, 0);
    ResumeNone(EscapeSpecials(text));
  }

  /** A '<' with a '>' further on and something in between. */
  predicate Tag(text: string) {
    |text| >= 3 && text[0] == '<' && text[1] != '>' && '>' in text[2..]
  }

  /** Read from left to right, the '<' of every tag that does not start inside another one is behind a backslash,
      and no other is. */
  predicate TagsGuarded(text: string, inside: bool) {
    if text == "" then true
    else if text[0] == '\\' && |text| >= 2 then
      if text[1] == '<' then !inside && Tag(text[1..]) && TagsGuarded(text[2..], true)
      else TagsGuarded(text[2..], inside)
    else if text[0] == '>' then TagsGuarded(text[1..], false)
    else (text[0] == '<' && !inside ==> !Tag(text)) && TagsGuarded(text[1..], inside)
  }

  lemma {:induction false} ResumeKeepsCloses(text: string, copied: nat)
    requires copied <= |text|
    ensures '>' in Resume(text, copied) <==> '>' in text
    ensures text != "" <==> Resume(text, copied) != ""
    ensures text != "" ==> (Resume(text, copied)[0] == '>' <==> text[0] == '>')
    decreases |text|
  {
    if copied > 0 {
      ResumeOne(text, copied);
      ResumeKeepsCloses(text[1..], copied - 1);
      assert text == [text[0]] + text[1..];
    } else if text != "" {
      ResumeNone(text);
      if StartsWithTag(text) {
        ResumeTag(text);
        ResumeKeepsCloses(text[1..], FirstClose(text));
        assert text == [text[0]] + text[1..];
      } else {
        ResumeNone(text[1..]);
        ResumeKeepsCloses(text[1..], 0);
        assert text == [text[0]] + text[1..];
      }
    } else {
      ResumeNone(text);
    }
  }

  lemma {:induction false} CloseIsFound(text: string)
    ensures FirstClose(text) < |text| <==> '>' in text
  {
    if text != "" && text[0] != '>' {
      CloseIsFound(text[1..]);
      assert text == [text[0]] + text[1..];
    }
  }

  lemma TagStartsThere(rest: string)
    ensures StartsWithTag(['<'] + rest) <==> rest != "" && rest[0] != '>' && '>' in rest
  {
    var text := ['<'] + rest;
    assert text[1..] == rest;
    CloseIsFound(rest);
    if rest != "" && rest[0] != '>' {
      assert FirstClose(text) == 1 + FirstClose(rest) >= 2;
    }
  }

  lemma TagIsThere(rest: string)
    ensures Tag(['<'] + rest) <==> rest != "" && rest[0] != '>' && '>' in rest
  {
    var text := ['<'] + rest;
    if rest != "" {
      assert text[1] == rest[0] && text[2..] == rest[1..];
      assert rest == [rest[0]] + rest[1..];
    }
  }

  /** Nothing that is inserted makes or unmakes a tag. */
  lemma SameTag(rest: string, left: nat)
    requires left <= |rest|
    ensures Tag(['<'] + Resume(rest, left)) <==> StartsWithTag(['<'] + rest)
  {
    TagStartsThere(rest);
    TagIsThere(Resume(rest, left));
    ResumeKeepsCloses(rest, left);
  }

  lemma GuardedPair(c: char, rest: string, inside: bool)
    requires c != '<'
    ensures TagsGuarded(['\\', c] + rest, inside) == TagsGuarded(rest, inside)
  {
    assert (['\\', c] + rest)[2..] == rest;
  }

  lemma GuardedTag(rest: string)
    requires Tag(['<'] + rest) && TagsGuarded(rest, true)
    ensures TagsGuarded(['\\', '<'] + rest, false)
  {
    assert (['\\', '<'] + rest)[2..] == rest;
    assert (['\\', '<'] + rest)[1..] == ['<'] + rest;
  }

  lemma GuardedOne(c: char, rest: string, inside: bool)
    requires c != '\\' && (c == '<' && !inside ==> !Tag([c] + rest))
    requires TagsGuarded(rest, c != '>' && inside)
    ensures TagsGuarded([c] + rest, inside)
  {
    assert ([c] + rest)[1..] == rest;
  }

  lemma PlainGuarded(c: char, rest: string, copied: nat) returns (left: nat)
    requires !Special(c) && TagRest([c] + rest, copied) && RestOfTag([c] + rest, copied)
    ensures TagRest(rest, left) && RestOfTag(rest, left)
    ensures TagsGuarded(Resume(rest, left), left > 0) ==> TagsGuarded(Resume([c] + rest, copied), copied > 0)
  {
    ResumePlain(c, rest, copied);
    left := LeftToCopy([c] + rest, copied);
    LeftIsRestOfTag(c, rest, copied);
    if TagsGuarded(Resume(rest, left), left > 0) {
      if c == '<' {
        SameTag(rest, left);
      }
      if TagHere([c] + rest, copied) {
        GuardedTag(Resume(rest, left));
      } else {
        GuardedOne(c, Resume(rest, left), copied > 0);
      }
    }
  }

  /** What is copied ends with the first '>'. */
  predicate RestOfTag(text: string, copied: nat) {
    copied > 0 ==> copied == FirstClose(text) + 1
  }

  lemma LeftIsRestOfTag(c: char, rest: string, copied: nat)
    requires TagRest([c] + rest, copied) && RestOfTag([c] + rest, copied)
    ensures RestOfTag(rest, LeftToCopy([c] + rest, copied))
    ensures copied > 0 ==> (LeftToCopy([c] + rest, copied) > 0 <==> c != '>')
    ensures TagHere([c] + rest, copied) ==> LeftToCopy([c] + rest, copied) > 0 && c == '<'
  {
    assert ([c] + rest)[1..] == rest;
  }

  lemma SpecialGuarded(c: char, rest: string, copied: nat) returns (left: nat)
    requires Special(c) && TagRest(['\\', c] + rest, copied) && RestOfTag(['\\', c] + rest, copied)
    ensures TagRest(rest, left) && RestOfTag(rest, left)
    ensures TagsGuarded(Resume(rest, left), left > 0) ==> TagsGuarded(Resume(['\\', c] + rest, copied), copied > 0)
  {
    ResumeSpecial(c, rest, copied);
    left := if copied == 0 then 0 else copied - 2;
    assert (['\\', c] + rest)[1..] == [c] + rest && ([c] + rest)[1..] == rest;
    GuardedPair(c, Resume(rest, left), copied > 0);
  }

  lemma {:induction false} GuardedResumed(text: string, copied: nat)
    requires TagRest(EscapeSpecials(text), copied) && RestOfTag(EscapeSpecials(text), copied)
    ensures TagsGuarded(Resume(EscapeSpecials(text), copied), copied > 0)
  {
    if text != "" {
      var rest := EscapeSpecials(text[1..]);
      var left;
      if Special(text[0]) {
        left := SpecialGuarded(text[0], rest, copied);
      } else {
        left := PlainGuarded(text[0], rest, copied);
      }
      GuardedResumed(text[1..], left);
    }
  }

  /** Every tag in the escaped text that is not inside another one starts behind a backslash. */
  lemma EscapedTagsAreGuarded(text: string)
    ensures TagsGuarded(EscapeText(text), false)
  {
    GuardedResumed(text, 0);
    ResumeNone(EscapeSpecials(text));
  }

  /** Distinct texts stay distinct. */
  lemma EscapeTextInjective(a: string, b: string)
    ensures EscapeText(a) == EscapeText(b) ==> a == b
  {
    UnescapeEscapeText(a);
    UnescapeEscapeText(b);
  }

  /** One text is the other with backslashes inserted, each directly before a '<'. */
  predicate InsertsBeforeAngles(from: string, to: string)
    decreases |from|
  {
    if from == "" then to == ""
    else
      || (to != "" && to[0] == from[0] && InsertsBeforeAngles(from[1..], to[1..]))
      || (from[0] == '<' && |to| >= 2 && to[..2] == "\\<" && InsertsBeforeAngles(from[1..], to[2..]))
  }

  lemma {:induction false} ResumeInserts(text: string, copied: nat)
    requires copied <= |text|
    ensures InsertsBeforeAngles(text, Resume(text, copied))
    decreases |text|, 1
  {
    if copied > 0 {
      ResumeOne(text, copied);
      ResumeInserts(text[1..], copied - 1);
      assert Resume(text, copied)[1..] == Resume(text[1..], copied - 1);
    } else if text != "" {
      ResumeNone(text);
      TagsInsert(text);
    } else {
      ResumeNone(text);
    }
  }

  lemma TagsInsert(text: string)
    requires text != ""
    ensures InsertsBeforeAngles(text, EscapeTags(text))
    decreases |text|, 0
  {
    if StartsWithTag(text) {
      ResumeTag(text);
      ResumeInserts(text[1..], FirstClose(text));
      var rest := Resume(text[1..], FirstClose(text));
      assert EscapeTags(text)[2..] == rest;
      assert EscapeTags(text)[..2] == "\\<";
    } else {
      ResumeInserts(text[1..], 0);
      ResumeNone(text[1..]);
      assert EscapeTags(text)[1..] == EscapeTags(text[1..]);
    }
  }

  /** The second pass changes the result of the first in one way only: it inserts backslashes, each directly
      before a '<', which the first pass never escapes. */
  lemma SecondPassInserts(text: string)
    ensures InsertsBeforeAngles(EscapeSpecials(text), EscapeText(text)) && !Special('<')
  {
    ResumeInserts(EscapeSpecials(text), 0);
    ResumeNone(EscapeSpecials(text));
  }
}
