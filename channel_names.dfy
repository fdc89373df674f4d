/** The channel-name clean-up both chat services apply after transliteration:
    lower-case, each run of white space to one '-', drop every character
    outside `[a-z0-9-_]`, strip leading and trailing '-', cut to the
    service's length limit, and fall back to "channel" when nothing is left. */
module ChannelNames {
  import opened Text
  import opened Romanize

  const Fallback: string := "channel"
  const SlackNameLimit: nat := 80
  const DiscordNameLimit: nat := 100

  /** The characters `[a-z0-9-_]` keeps. */
  predicate AllowedChar(c: char) {
    ('a' <= c <= 'z') || ('0' <= c <= '9') || c == '-' || c == '_'
  }

  predicate AllAllowed(s: string) {
    forall i :: 0 <= i < |s| ==> AllowedChar(s[i])
  }

  /** A name the clean-up leaves alone: non-empty, only allowed characters,
      no '-' at either end. */
  predicate CleanName(s: string) {
    s != "" && AllAllowed(s) && s[0] != '-' && s[|s| - 1] != '-'
  }

  /** `toLowerCase` on one character, for the ASCII letters. */
  function LowerChar(c: char): (r: char)
    ensures 'A' <= c <= 'Z' ==> 'a' <= r <= 'z'
    ensures !('A' <= c <= 'Z') ==> r == c
  {
    if 'A' <= c <= 'Z' then (c as int + 32) as char else c
  }

  function Lower(s: string): (r: string)
    ensures |r| == |s|
    ensures forall i :: 0 <= i < |s| ==> r[i] == LowerChar(s[i])
  {
    seq(|s|, i requires 0 <= i < |s| => LowerChar(s[i]))
  }

  /** `replace(/\s+/g, '-')`: every maximal run of white space becomes a
      single '-'. */
  function DashSpaces(s: string): (r: string)
    ensures forall i :: 0 <= i < |r| ==> !IsSpace(r[i])
    ensures |r| <= |s|
    decreases |s|
  {
    if s == "" then ""
    else if IsSpace(s[0]) then "-" + DashSpaces(TrimStart(s[1..]))
    else [s[0]] + DashSpaces(s[1..])
  }

  /** `replace(/[^a-z0-9-_]/g, '')`. */
  function KeepAllowed(s: string): (r: string)
    ensures AllAllowed(r)
    ensures forall c :: c in r <==> c in s && AllowedChar(c)
    ensures |r| <= |s|
  {
    if s == "" then ""
    else if AllowedChar(s[0]) then [s[0]] + KeepAllowed(s[1..])
    else KeepAllowed(s[1..])
  }

  function DropLeadingDashes(s: string): (r: string)
    ensures |r| <= |s| && r == s[|s| - |r|..]
    ensures forall k :: 0 <= k < |s| - |r| ==> s[k] == '-'
    ensures r == "" || r[0] != '-'
  {
    if s != "" && s[0] == '-' then DropLeadingDashes(s[1..]) else s
  }

  function DropTrailingDashes(s: string): (r: string)
    ensures |r| <= |s| && r == s[..|r|]
    ensures forall k :: |r| <= k < |s| ==> s[k] == '-'
    ensures r == "" || r[|r| - 1] != '-'
  {
    if s != "" && s[|s| - 1] == '-' then DropTrailingDashes(s[..|s| - 1]) else s
  }

  /** `replace(/^-+|-+$/g, '')`. */
  function TrimDashes(s: string): (r: string)
    ensures AllAllowed(s) ==> AllAllowed(r)
    ensures r == "" || (r[0] != '-' && r[|r| - 1] != '-')
    ensures |r| <= |s|
  {
    var t := DropLeadingDashes(s);
    assert AllAllowed(s) ==> AllAllowed(t);
    DropTrailingDashes(t)
  }

  /** What `TrimDashes` removes is exactly the leading and trailing dashes:
      its result is the middle of `s`. */
  lemma {:induction false} TrimDashesMiddle(s: string)
    ensures var i := |s| - |DropLeadingDashes(s)|;
      var j := i + |TrimDashes(s)|;
      && 0 <= i <= j <= |s| && TrimDashes(s) == s[i..j]
      && (forall k :: 0 <= k < i ==> s[k] == '-')
      && (forall k :: j <= k < |s| ==> s[k] == '-')
  {
    var t := DropLeadingDashes(s);
    var r := DropTrailingDashes(t);
    assert TrimDashes(s) == r;
    SliceOfSuffix(s, |s| - |t|, 0, |r|);
    assert r == t[0..|r|];
  }

  /** Everything before the length cut. */
  function Cleaned(s: string): (r: string)
    ensures AllAllowed(r)
    ensures |r| <= |s|
    ensures r == "" || (r[0] != '-' && r[|r| - 1] != '-')
  {
    TrimDashes(KeepAllowed(DashSpaces(Lower(s))))
  }

  /** The whole clean-up with the given length limit. */
  function Sanitize(s: string, limit: nat): (r: string)
    requires limit >= |Fallback|
    ensures r != "" && AllAllowed(r) && r[0] != '-' && |r| <= limit
    ensures Cleaned(s) == "" ==> r == Fallback
    ensures Cleaned(s) != "" ==> |r| == Min(|Cleaned(s)|, limit) && r == Cleaned(s)[..|r|]
  {
    var c := Cleaned(s);
    var p := Prefix(c, limit);
    if p == "" then
      assert c == "" && CleanName(Fallback);
      Fallback
    else
      assert AllAllowed(p) by {
        forall i | 0 <= i < |p| ensures AllowedChar(p[i]) {
          assert p[i] == c[i];
        }
      }
      p
  }

  /** The Slack channel name derived from a room name. */
  function SlackChannelName(name: string): (r: string)
    ensures CleanName(r) || (|r| == SlackNameLimit && r[|r| - 1] == '-' && AllAllowed(r))
  {
    var r := Sanitize(Romanized(name), SlackNameLimit);
    SanitizedShape(Romanized(name), SlackNameLimit);
    r
  }

  /** The Discord channel name derived from a room name. */
  function DiscordChannelName(name: string): (r: string)
    ensures CleanName(r) || (|r| == DiscordNameLimit && r[|r| - 1] == '-' && AllAllowed(r))
  {
    var r := Sanitize(Romanized(name), DiscordNameLimit);
    SanitizedShape(Romanized(name), DiscordNameLimit);
    r
  }

  /** A character other than white space passes the dash step as it is. */
  lemma {:induction false} DashSpacesCons(c: char, s: string)
    requires !IsSpace(c)
    ensures DashSpaces([c] + s) == [c] + DashSpaces(s)
  {
    assert ([c] + s)[1..] == s;
  }

  /** A run of white space followed by anything else is exactly the
      leading white space. */
  lemma {:induction false} LeadingSpaceRun(w: string, s: string)
    requires forall k :: 0 <= k < |w| ==> IsSpace(w[k])
    requires s == "" || !IsSpace(s[0])
    ensures LeadingSpace(w + s) == |w|
    decreases |w|
  {
    if w == [] {
      assert w + s == s;
    } else {
      assert (w + s)[0] == w[0];
      assert (w + s)[1..] == w[1..] + s;
      LeadingSpaceRun(w[1..], s);
    }
  }

  /** `TrimStart` removes a run of white space up to the next other
      character. */
  lemma {:induction false} TrimStartRun(w: string, s: string)
    requires forall k :: 0 <= k < |w| ==> IsSpace(w[k])
    requires s == "" || !IsSpace(s[0])
    ensures TrimStart(w + s) == s
  {
    LeadingSpaceRun(w, s);
    assert (w + s)[|w|..] == s;
  }

  /** A whole run of white space becomes one '-'. */
  lemma {:induction false} DashSpacesRun(w: string, s: string)
    requires |w| > 0 && forall k :: 0 <= k < |w| ==> IsSpace(w[k])
    requires s == "" || !IsSpace(s[0])
    ensures DashSpaces(w + s) == "-" + DashSpaces(s)
  {
    assert (w + s)[0] == w[0];
    assert (w + s)[1..] == w[1..] + s;
    TrimStartRun(w[1..], s);
  }

  /** Text without white space passes the dash step unchanged, whatever
      follows it. */
  lemma {:induction false} DashSpacesPrefix(a: string, s: string)
    requires forall k :: 0 <= k < |a| ==> !IsSpace(a[k])
    ensures DashSpaces(a + s) == a + DashSpaces(s)
    decreases |a|
  {
    if a == [] {
      assert a + s == s;
    } else {
      assert a + s == [a[0]] + (a[1..] + s);
      DashSpacesCons(a[0], a[1..] + s);
      DashSpacesPrefix(a[1..], s);
    }
  }

  /** The filter keeps the allowed characters in their order: it distributes
      over concatenation. */
  lemma {:induction false} KeepAllowedAppend(a: string, b: string)
    ensures KeepAllowed(a + b) == KeepAllowed(a) + KeepAllowed(b)
    decreases |a|
  {
    if a == [] {
      assert a + b == b;
    } else {
      assert (a + b)[0] == a[0];
      assert (a + b)[1..] == a[1..] + b;
      KeepAllowedAppend(a[1..], b);
    }
  }

  /** Allowed characters are never white space. */
  lemma {:induction false} AllowedNoSpace(s: string)
    requires AllAllowed(s)
    ensures forall k :: 0 <= k < |s| ==> !IsSpace(s[k])
  {
    forall k | 0 <= k < |s| ensures !IsSpace(s[k]) {
      assert AllowedChar(s[k]);
    }
  }

  /** A run of white space before a clean word becomes one '-'. */
  lemma {:induction false} DashSpacesRunWord(w: string, b: string)
    requires CleanName(b)
    requires |w| > 0 && forall k :: 0 <= k < |w| ==> IsSpace(w[k])
    ensures DashSpaces(w + b) == "-" + b
  {
    AllowedNoSpace(b);
    DashSpacesRun(w, b);
    DashSpacesNoSpace(b);
  }

  /** Two clean words around a run of white space, as the dash step sees
      them. */
  lemma {:induction false} DashSpacesJoin(a: string, w: string, b: string)
    requires CleanName(a) && CleanName(b)
    requires |w| > 0 && forall k :: 0 <= k < |w| ==> IsSpace(w[k])
    ensures DashSpaces(a + w + b) == a + "-" + b
  {
    AllowedNoSpace(a);
    var wb := w + b;
    assert a + w + b == a + wb;
    DashSpacesPrefix(a, wb);
    DashSpacesRunWord(w, b);
    assert a + ("-" + b) == a + "-" + b;
  }

  /** Lower-casing leaves text without capitals alone. */
  lemma {:induction false} LowerNoCapitals(x: string)
    requires forall i :: 0 <= i < |x| ==> !('A' <= x[i] <= 'Z')
    ensures Lower(x) == x
  {
  }

  /** A clean name has no dashes to trim. */
  lemma {:induction false} TrimDashesClean(y: string)
    requires CleanName(y)
    ensures TrimDashes(y) == y
  {
    assert DropLeadingDashes(y) == y;
    assert DropTrailingDashes(y) == y;
  }

  /** Two clean words separated by white space are joined by one '-'. */
  lemma {:induction false} CleanedJoinsWords(a: string, w: string, b: string)
    requires CleanName(a) && CleanName(b)
    requires |w| > 0 && forall k :: 0 <= k < |w| ==> IsSpace(w[k])
    ensures Cleaned(a + w + b) == a + "-" + b
  {
    var x := a + w + b;
    forall i | 0 <= i < |x| ensures !('A' <= x[i] <= 'Z') {
      if i < |a| {
        assert x[i] == a[i] && AllowedChar(a[i]);
      } else if i < |a| + |w| {
        assert x[i] == w[i - |a|];
      } else {
        assert x[i] == b[i - |a| - |w|] && AllowedChar(b[i - |a| - |w|]);
      }
    }
    LowerNoCapitals(x);
    DashSpacesJoin(a, w, b);
    var y := a + "-" + b;
    assert CleanName(y);
    KeepAllowedClean(y);
    TrimDashesClean(y);
  }

  /** A sanitised name is clean, except that the length cut may leave a
      trailing '-' on a name of exactly the limit's length. */
  lemma SanitizedShape(s: string, limit: nat)
    requires limit >= |Fallback|
    ensures var r := Sanitize(s, limit);
      CleanName(r) || (|r| == limit && r[|r| - 1] == '-')
  {
  }

  lemma {:induction false} LowerClean(s: string)
    requires AllAllowed(s)
    ensures Lower(s) == s
  {
  }

  lemma {:induction false} DashSpacesNoSpace(s: string)
    requires forall i :: 0 <= i < |s| ==> !IsSpace(s[i])
    ensures DashSpaces(s) == s
    decreases |s|
  {
    if s != "" {
      DashSpacesNoSpace(s[1..]);
    }
  }

  lemma {:induction false} KeepAllowedClean(s: string)
    requires AllAllowed(s)
    ensures KeepAllowed(s) == s
    decreases |s|
  {
    if s != "" {
      KeepAllowedClean(s[1..]);
    }
  }

  /** A clean name is its own cleaned form. */
  lemma {:induction false} CleanedClean(s: string)
    requires CleanName(s)
    ensures Cleaned(s) == s
  {
    LowerClean(s);
    assert forall i :: 0 <= i < |s| ==> !IsSpace(s[i]) by {
      forall i | 0 <= i < |s| ensures !IsSpace(s[i]) {
        assert AllowedChar(s[i]);
      }
    }
    DashSpacesNoSpace(s);
    KeepAllowedClean(s);
    assert KeepAllowed(DashSpaces(Lower(s))) == s;
    assert DropLeadingDashes(s) == s;
    assert DropTrailingDashes(s) == s;
  }

  lemma {:induction false} CleanIsAscii(s: string)
    requires AllAllowed(s)
    ensures AllAscii(s)
  {
    forall i | 0 <= i < |s| ensures IsAscii(s[i]) {
      assert AllowedChar(s[i]);
    }
  }

  /** A clean name passes through the whole clean-up unchanged when it fits
      the limit: the clean-up is the identity on the names it produces. */
  lemma {:induction false} CleanNameUnchanged(s: string, limit: nat)
    requires CleanName(s) && limit >= |Fallback| && |s| <= limit
    ensures Sanitize(s, limit) == s
  {
    CleanedClean(s);
  }

  /** A clean name that fits is its own Slack channel name. */
  lemma {:induction false} SlackNameOfCleanName(s: string)
    requires CleanName(s) && |s| <= SlackNameLimit
    ensures SlackChannelName(s) == s
  {
    CleanIsAscii(s);
    RomanizeAscii(s);
    CleanNameUnchanged(s, SlackNameLimit);
  }

  /** Stripping dashes happens before the cut, so a cut that ends on a '-'
      leaves it there: 79 letters followed by "-b" name a Slack channel
      ending in '-'. */
  lemma {:induction false} TruncationLeavesTrailingDash(p: string)
    requires |p| == SlackNameLimit - 1
    requires forall i :: 0 <= i < |p| ==> 'a' <= p[i] <= 'z'
    ensures SlackChannelName(p + "-b") == p + "-"
    ensures !CleanName(SlackChannelName(p + "-b"))
  {
    var s := p + "-b";
    CutKeepsDash(p, SlackNameLimit);
    RomanizeAscii(s);
    var r := p + "-";
    assert r[|r| - 1] == '-';
  }

  /** The cut of a clean ASCII name that reaches one character past a '-'
      keeps that '-'. */
  lemma {:induction false} CutKeepsDash(p: string, limit: nat)
    requires |p| + 1 == limit && limit >= |Fallback|
    requires forall i :: 0 <= i < |p| ==> 'a' <= p[i] <= 'z'
    ensures AllAscii(p + "-b")
    ensures Sanitize(p + "-b", limit) == p + "-"
  {
    var s := p + "-b";
    assert AllAllowed(s) by {
      forall i | 0 <= i < |s| ensures AllowedChar(s[i]) {
        if i < |p| {
          assert s[i] == p[i];
        }
      }
    }
    assert s[0] == p[0] && s[|s| - 1] == 'b';
    assert CleanName(s);
    CleanNameCut(s, limit);
    CleanIsAscii(s);
    assert s[..limit] == p + "-";
  }

  /** A clean name longer than the limit is only cut. */
  lemma {:induction false} CleanNameCut(s: string, limit: nat)
    requires CleanName(s) && limit >= |Fallback| && |s| > limit
    ensures Sanitize(s, limit) == s[..limit]
  {
    CleanedClean(s);
  }
}
