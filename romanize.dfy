/** The Korean-to-Roman channel-name transliteration shared by the Slack and
    Discord services: a fixed table of whole words, each replaced everywhere,
    one table entry after the other. */
module Romanize {
  import opened Text

  /** The replacement table, in the order its entries are applied. */
  const Table: seq<(string, string)> := [
    ("개발", "dev"),
    ("팀", "team"),
    ("마케팅", "marketing"),
    ("영업", "sales"),
    ("디자인", "design"),
    ("기획", "planning"),
    ("인사", "hr"),
    ("총무", "admin"),
    ("재무", "finance"),
    ("관리", "management"),
    ("프로젝트", "project"),
    ("운영", "operation"),
    ("지원", "support"),
    ("고객", "customer"),
    ("서비스", "service")
  ]

  predicate IsAscii(c: char) {
    c < '\U{80}'
  }

  predicate AllAscii(s: string) {
    forall i :: 0 <= i < |s| ==> IsAscii(s[i])
  }

  predicate NoAscii(s: string) {
    forall i :: 0 <= i < |s| ==> !IsAscii(s[i])
  }

  /** No character of `v` occurs in `w`. */
  predicate Disjoint(v: string, w: string) {
    forall j :: 0 <= j < |v| ==> v[j] !in w
  }

  /** A table entry replaces a non-empty, wholly non-ASCII key by a
      non-empty, wholly ASCII word. */
  predicate EntryOk(e: (string, string)) {
    |e.0| > 0 && |e.1| > 0 && NoAscii(e.0) && AllAscii(e.1)
  }

  lemma TableOk()
    ensures |Table| == 15
    ensures forall i :: 0 <= i < |Table| ==> EntryOk(Table[i])
  {
    forall i | 0 <= i < |Table| ensures EntryOk(Table[i]) {
      var e := Table[i];
      assert forall j :: 0 <= j < |e.1| ==> 'a' <= e.1[j] <= 'z';
      assert forall j :: 0 <= j < |e.0| ==> '\U{AC00}' <= e.0[j] <= '\U{D7A3}';
    }
  }

  /** `s.replace(new RegExp(k, 'g'), v)` for a key without regular-expression
      metacharacters: scan left to right, replacing each non-overlapping
      occurrence of `k` by `v`. */
  function ReplaceAll(s: string, k: string, v: string): (r: string)
    requires |k| > 0
    ensures forall c :: c in r ==> c in s || c in v
    ensures v == k ==> r == s
    decreases |s|
  {
    if |s| < |k| then s
    else if s[..|k|] == k then
      assert s == k + s[|k|..];
      v + ReplaceAll(s[|k|..], k, v)
    else
      assert s == [s[0]] + s[1..];
      [s[0]] + ReplaceAll(s[1..], k, v)
  }

  /** The table applied from entry `i` onwards. */
  function RomanizeFrom(s: string, i: nat): string
    requires i <= |Table|
    decreases |Table| - i
  {
    if i == |Table| then s
    else
      TableOk();
      RomanizeFrom(ReplaceAll(s, Table[i].0, Table[i].1), i + 1)
  }

  /** What `koreanToRoman` returns: every replacement is ASCII, so no key
      survives the transliteration. */
  function Romanized(s: string): (r: string)
    ensures forall j :: 0 <= j < |Table| ==> !Contains(r, Table[j].0)
  {
    RomanizeFromClears(s, 0);
    RomanizeFrom(s, 0)
  }

  /** The imperative replace loop over the table. */
  method KoreanToRoman(text: string) returns (result: string)
    ensures result == Romanized(text)
    ensures forall i :: 0 <= i < |Table| ==> !Contains(result, Table[i].0)
  {
    TableOk();
    result := text;
    var i := 0;
    while i < |Table|
      invariant 0 <= i <= |Table|
      invariant RomanizeFrom(result, i) == Romanized(text)
    {
      result := ReplaceAll(result, Table[i].0, Table[i].1);
      i := i + 1;
    }
  }

  /** If the output of a replacement starts with `p`, and no replacement
      character occurs in `p`, then the input started with `p` too. */
  lemma {:induction false} ReplacedPrefix(s: string, k: string, v: string, p: string)
    requires |k| > 0 && |v| > 0 && Disjoint(v, p)
    requires |p| <= |ReplaceAll(s, k, v)| && ReplaceAll(s, k, v)[..|p|] == p
    ensures |p| <= |s| && s[..|p|] == p
    decreases |s|
  {
    var r := ReplaceAll(s, k, v);
    if |s| < |k| || |p| == 0 {
    } else if s[..|k|] == k {
      // r starts with v[0], which cannot be p[0]
      ReplacedHead(s, k, v);
      assert false;
    } else {
      var rest := ReplaceAll(s[1..], k, v);
      assert r == [s[0]] + rest;
      assert rest[..|p| - 1] == r[1..|p|] == p[1..];
      ReplacedPrefix(s[1..], k, v, p[1..]);
      assert s[..|p|] == [s[0]] + s[1..][..|p| - 1];
    }
  }

  /** Where the key matches at the front, the output starts with `v`. */
  lemma ReplacedHead(s: string, k: string, v: string)
    requires |k| > 0 && |v| > 0 && |s| >= |k| && s[..|k|] == k
    ensures |ReplaceAll(s, k, v)| > 0 && ReplaceAll(s, k, v)[0] == v[0]
  {
  }

  /** A word that `v + t` starts with shares its first character with `v`. */
  lemma SharedHead(v: string, t: string, w: string)
    requires |v| > 0 && 0 < |w| <= |v + t| && (v + t)[..|w|] == w
    ensures v[0] in w
  {
    assert (v + t)[0] == w[0];
  }

  /** Prepending characters that are foreign to `w` cannot create `w`. */
  lemma {:induction false} PrependForeign(v: string, t: string, w: string)
    requires |w| > 0 && Disjoint(v, w) && !Contains(t, w)
    ensures !Contains(v + t, w)
    decreases |v|
  {
    var u := v + t;
    if |v| == 0 {
      assert u == t;
    } else {
      PrependForeign(v[1..], t, w);
      assert u[1..] == v[1..] + t;
      if 0 < |w| <= |u| && u[..|w|] == w {
        SharedHead(v, t, w);
        assert false;
      }
      assert !Contains(u[1..], w);
    }
  }

  /** After replacing `k` by `v`, a word `w` whose characters do not occur in
      `v` is absent, provided it is `k` itself or was absent already. */
  lemma {:induction false} ReplaceAllAvoids(s: string, k: string, v: string, w: string)
    requires |k| > 0 && |v| > 0 && |w| > 0 && Disjoint(v, w)
    requires w == k || !Contains(s, w)
    ensures !Contains(ReplaceAll(s, k, v), w)
    decreases |s|
  {
    var r := ReplaceAll(s, k, v);
    if |s| < |k| {
    } else if s[..|k|] == k {
      if w != k && Contains(s[|k|..], w) {
        ContainsSuffix(s, w, |k|);
      }
      ReplaceAllAvoids(s[|k|..], k, v, w);
      PrependForeign(v, ReplaceAll(s[|k|..], k, v), w);
    } else {
      var rest := ReplaceAll(s[1..], k, v);
      if w != k && Contains(s[1..], w) {
        ContainsTail(s, w);
      }
      ReplaceAllAvoids(s[1..], k, v, w);
      assert r == [s[0]] + rest;
      if Contains(r, w) {
        assert r[..|w|] == w by {
          assert r[1..] == rest;
        }
        assert w[1..] == r[..|w|][1..] == r[1..|w|];
        assert r[1..|w|] == rest[..|w| - 1];
        ReplacedPrefix(s[1..], k, v, w[1..]);
        HeadAndTail(s, w);
        assert false;
      }
    }
  }

  /** A sequence starts with `w` when its head is `w`'s head and its tail
      starts with `w`'s tail. */
  lemma {:induction false} HeadAndTail<T>(s: seq<T>, w: seq<T>)
    requires 0 < |w| <= |s| && s[0] == w[0] && s[1..][..|w| - 1] == w[1..]
    ensures s[..|w|] == w
  {
    assert s[..|w|] == [s[0]] + s[1..][..|w| - 1];
  }

  /** Replacing an absent key changes nothing. */
  lemma {:induction false} ReplaceAllAbsent(s: string, k: string, v: string)
    requires |k| > 0 && !Contains(s, k)
    ensures ReplaceAll(s, k, v) == s
    decreases |s|
  {
    if |s| >= |k| {
      ReplaceAllAbsent(s[1..], k, v);
    }
  }

  /** An ASCII string contains no table key. */
  lemma {:induction false} AsciiHasNoKey(s: string, k: string)
    requires AllAscii(s) && |k| > 0 && NoAscii(k)
    ensures !Contains(s, k)
    decreases |s|
  {
    if |s| >= |k| {
      assert s[0] == s[..|k|][0];
      AsciiHasNoKey(s[1..], k);
    }
  }

  lemma EntriesDisjoint(i: nat, j: nat)
    requires i < |Table| && j < |Table|
    ensures Disjoint(Table[j].1, Table[i].0)
  {
    TableOk();
    var k, v := Table[i].0, Table[j].1;
    assert AllAscii(v) && NoAscii(k);
  }

  /** Once entries before `i` are gone, applying the rest removes every key. */
  lemma {:induction false} RomanizeFromClears(s: string, i: nat)
    requires i <= |Table|
    requires forall j :: 0 <= j < i ==> !Contains(s, Table[j].0)
    ensures forall j :: 0 <= j < |Table| ==> !Contains(RomanizeFrom(s, i), Table[j].0)
    decreases |Table| - i
  {
    TableOk();
    if i < |Table| {
      var t := ReplaceAll(s, Table[i].0, Table[i].1);
      forall j | 0 <= j <= i ensures !Contains(t, Table[j].0) {
        EntriesDisjoint(j, i);
        ReplaceAllAvoids(s, Table[i].0, Table[i].1, Table[j].0);
      }
      RomanizeFromClears(t, i + 1);
    }
  }

  /** A string holding no key is left alone by the rest of the table. */
  lemma {:induction false} RomanizeFromFixes(t: string, i: nat)
    requires i <= |Table|
    requires forall j :: 0 <= j < |Table| ==> !Contains(t, Table[j].0)
    ensures RomanizeFrom(t, i) == t
    decreases |Table| - i
  {
    TableOk();
    if i < |Table| {
      ReplaceAllAbsent(t, Table[i].0, Table[i].1);
      RomanizeFromFixes(t, i + 1);
    }
  }

  /** Transliterating twice is transliterating once. */
  lemma RomanizeIdempotent(s: string)
    ensures Romanized(Romanized(s)) == Romanized(s)
  {
    RomanizeFromFixes(Romanized(s), 0);
  }

  /** ASCII text is left unchanged. */
  lemma RomanizeAscii(s: string)
    requires AllAscii(s)
    ensures Romanized(s) == s
  {
    TableOk();
    forall j | 0 <= j < |Table| ensures !Contains(s, Table[j].0) {
      AsciiHasNoKey(s, Table[j].0);
    }
    RomanizeFromFixes(s, 0);
  }
}
