/** The pure helpers of `src/utils/helpers.ts`: the share link, the e-mail
    pattern and the avatar initials. */
module Helpers {
  import opened Text

  // ---------------------------------------------------------------------------
  // generateBriefingLink
  // ---------------------------------------------------------------------------

  const BriefingsPath: string := "/briefings/"

  /** The public share link of a briefing; `origin` stands for `window.location.origin`. */
  function GenerateBriefingLink(origin: string, id: string): (link: string)
    ensures |link| == |origin| + |BriefingsPath| + |id|
    ensures link[..|origin|] == origin
    ensures link[|origin|..|origin| + |BriefingsPath|] == BriefingsPath
    ensures link[|origin| + |BriefingsPath|..] == id
  {
    origin + BriefingsPath + id
  }

  /** For a fixed origin, distinct briefings get distinct links. */
  lemma LinkInjective(origin: string, id1: string, id2: string)
    requires GenerateBriefingLink(origin, id1) == GenerateBriefingLink(origin, id2)
    ensures id1 == id2
  {
    var n := |origin| + |BriefingsPath|;
    assert id1 == GenerateBriefingLink(origin, id1)[n..];
  }

  // ---------------------------------------------------------------------------
  // isValidEmail: /^[^\s@]+@[^\s@]+\.[^\s@]+$/
  // ---------------------------------------------------------------------------

  /** A character of the class `[^\s@]`. */
  predicate IsAddressChar(c: char)
  {
    !IsWhitespace(c) && c != '@'
  }

  /** A non-empty run of `[^\s@]`, i.e. `[^\s@]+`. */
  predicate IsAddressPart(s: string)
  {
    |s| > 0 && forall i :: 0 <= i < |s| ==> IsAddressChar(s[i])
  }

  /** `s` is `a@b.c` with each of `a`, `b`, `c` a run of `[^\s@]+`. */
  predicate IsEmailSplit(s: string, a: string, b: string, c: string)
  {
    s == a + "@" + b + "." + c && IsAddressPart(a) && IsAddressPart(b) && IsAddressPart(c)
  }

  /** The language of the regular expression, stated by its three parts. */
  ghost predicate MatchesEmailPattern(s: string)
  {
    exists a, b, c :: IsEmailSplit(s, a, b, c)
  }

  /** The domain after the '@': `[^\s@]+\.[^\s@]+`, i.e. address characters
      only, with a '.' that is neither the first nor the last character. */
  predicate IsDomain(d: string)
  {
    && (forall i :: 0 <= i < |d| ==> IsAddressChar(d[i]))
    && exists j :: 0 < j < |d| - 1 && d[j] == '.'
  }

  /** `isValidEmail`: holds exactly for the strings the regular expression matches. */
  function IsValidEmail(s: string): (ok: bool)
    ensures ok <==> MatchesEmailPattern(s)
  {
    var k := IndexOf(s, '@');
    var ok := k > 0 && IsAddressPart(s[..k]) && IsDomain(s[k + 1..]);
    if ok then
      CheckedAddressMatches(s, k);
      ok
    else
      MatchingAddressPassesCheck(s);
      ok
  }

  /** An address split at its first '@' into a local part and a domain matches the pattern. */
  lemma CheckedAddressMatches(s: string, k: int)
    requires 0 < k < |s| && s[k] == '@'
    requires IsAddressPart(s[..k]) && IsDomain(s[k + 1..])
    ensures MatchesEmailPattern(s)
  {
    var d := s[k + 1..];
    var j :| 0 < j < |d| - 1 && d[j] == '.';
    var a, b, c := s[..k], d[..j], d[j + 1..];
    assert d == b + "." + c;
    assert s == a + "@" + d;
    assert IsEmailSplit(s, a, b, c);
  }

  /** A string that matches the pattern passes the check at its first '@'. */
  lemma MatchingAddressPassesCheck(s: string)
    ensures MatchesEmailPattern(s) ==>
      var k := IndexOf(s, '@');
      k > 0 && IsAddressPart(s[..k]) && IsDomain(s[k + 1..])
  {
    if MatchesEmailPattern(s) {
      var a, b, c :| IsEmailSplit(s, a, b, c);
      assert s[|a|] == '@';
      assert s[..|a|] == a;
      var k := IndexOf(s, '@');
      assert k == |a|;
      var d := s[k + 1..];
      assert d == b + "." + c;
      assert d[|b|] == '.';
    }
  }

  /** A valid address holds no whitespace and exactly one '@'. */
  lemma ValidEmailShape(s: string)
    requires IsValidEmail(s)
    ensures forall i :: 0 <= i < |s| ==> !IsWhitespace(s[i])
    ensures '@' in s
    ensures forall i, j :: 0 <= i < |s| && 0 <= j < |s| && s[i] == '@' && s[j] == '@' ==> i == j
  {
    var a, b, c :| IsEmailSplit(s, a, b, c);
    var n := |a|;
    assert s[n] == '@';
    forall i | 0 <= i < |s| ensures !IsWhitespace(s[i]) && (s[i] == '@' ==> i == n) {
      if i < n {
        assert s[i] == a[i];
      } else if n < i <= n + |b| {
        assert s[i] == b[i - n - 1];
      } else if i == n + |b| + 1 {
        assert s[i] == '.';
      } else if i > n + |b| + 1 {
        assert s[i] == c[i - n - |b| - 2];
      }
    }
  }

  /** Without a '.' after the '@' the address is rejected. */
  lemma RejectsMissingDot(s: string)
    requires '@' in s
    requires '.' !in s[IndexOf(s, '@') + 1..]
    ensures !IsValidEmail(s)
  {
  }

  /** With nothing before the '@' the address is rejected. */
  lemma RejectsEmptyLocalPart(s: string)
    requires |s| > 0 && s[0] == '@'
    ensures !IsValidEmail(s)
  {
    assert IndexOf(s, '@') == 0;
  }

  // ---------------------------------------------------------------------------
  // getInitials
  // ---------------------------------------------------------------------------

  /** `words.map(n => n[0]).join('')`: the first character of every word;
      an empty word yields `undefined`, which `join` renders as ''. */
  function Heads(words: seq<string>): string
  {
    if words == [] then []
    else (if words[0] == [] then [] else [words[0][0]]) + Heads(words[1..])
  }

  /** `getInitials`: the first two characters, upper-cased, of the heads of
      the space-separated words of `name`. */
  function GetInitials(name: string): (r: string)
    ensures |r| <= 2
  {
    var joined := ToUpper(Heads(Split(name, ' ')));
    if |joined| <= 2 then joined else joined[..2]
  }

  /** The characters of `s` that begin a word, read left to right:
      not a space, and either first (when `afterSpace`) or right after a space. */
  function WordStartsFrom(s: string, afterSpace: bool): string
  {
    if s == [] then []
    else (if afterSpace && s[0] != ' ' then [s[0]] else []) + WordStartsFrom(s[1..], s[0] == ' ')
  }

  /** The first characters of the words of `s`, as a reader would pick them. */
  function WordStarts(s: string): string
  {
    WordStartsFrom(s, true)
  }

  /** Inside a word no character begins a word. */
  lemma {:induction false} WordStartsInsideWord(w: string, t: string)
    requires ' ' !in w
    ensures WordStartsFrom(w + t, false) == WordStartsFrom(t, false)
  {
    if w != [] {
      var s := w + t;
      assert s[0] == w[0] && w[0] in w;
      assert s[1..] == w[1..] + t;
      WordStartsInsideWord(w[1..], t);
      assert WordStartsFrom(s, false) == [] + WordStartsFrom(s[1..], false);
    } else {
      assert w + t == t;
    }
  }

  /** The heads of separator-free words equal the word starts of their join. */
  lemma {:induction false} HeadsOfJoin(parts: seq<string>)
    requires |parts| >= 1
    requires forall k :: 0 <= k < |parts| ==> ' ' !in parts[k]
    ensures Heads(parts) == WordStarts(Join(parts, ' '))
    decreases |parts|
  {
    var w := parts[0];
    var t: string := if |parts| == 1 then [] else [' '] + Join(parts[1..], ' ');
    assert Join(parts, ' ') == w + t;
    var tailStarts := if |parts| == 1 then [] else WordStarts(Join(parts[1..], ' '));
    if |parts| > 1 {
      HeadsOfJoin(parts[1..]);
      assert t[1..] == Join(parts[1..], ' ');
    }
    assert forall b :: WordStartsFrom(t, b) == tailStarts;
    if w != [] {
      assert (w + t)[1..] == w[1..] + t;
      WordStartsInsideWord(w[1..], t);
    }
  }

  /** `getInitials` is the first two word starts of the name, upper-cased:
      repeated spaces contribute nothing. */
  lemma GetInitialsIsWordStarts(name: string)
    ensures var u := ToUpper(WordStarts(name));
            GetInitials(name) == if |u| <= 2 then u else u[..2]
  {
    HeadsOfJoin(Split(name, ' '));
  }
}
