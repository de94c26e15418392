/** Normalising the URL path prefix: "" when disabled, otherwise "/a/b" without trailing slash. */
module UrlPrefix {
  import opened Options

  // The characters str.strip() removes.
  predicate IsSpace(c: char) {
    || '\U{0009}' <= c <= '\U{000D}' || '\U{001C}' <= c <= '\U{0020}' || c == '\U{0085}' || c == '\U{00A0}'
    || c == '\U{1680}' || '\U{2000}' <= c <= '\U{200A}' || c == '\U{2028}' || c == '\U{2029}'
    || c == '\U{202F}' || c == '\U{205F}' || c == '\U{3000}'
  }

  function StripLeft(s: string): (r: string)
    ensures |r| <= |s| && r == s[|s| - |r|..]
  {
    if s != "" && IsSpace(s[0]) then StripLeft(s[1..]) else s
  }

  function StripRight(s: string): (r: string)
    ensures r <= s && (r != "" ==> !IsSpace(r[|r| - 1]))
  {
    if s != "" && IsSpace(s[|s| - 1]) then StripRight(s[..|s| - 1]) else s
  }

  function Strip(s: string): string {
    StripRight(StripLeft(s))
  }

  function TrimSlash(s: string): (r: string)
    ensures r <= s && (r != "" ==> r[|r| - 1] != '/')
  {
    if s != "" && s[|s| - 1] == '/' then TrimSlash(s[..|s| - 1]) else s
  }

  predicate HasPair(s: string, c: char) {
    exists i :: 0 <= i < |s| - 1 && s[i] == c && s[i + 1] == c
  }

  predicate Forbidden(s: string) {
    '\n' in s || '\r' in s || HasPair(s, '.')
  }

  // s.replace("//", "/"): left to right, without overlaps.
  function ReplaceOnce(s: string): (r: string)
    ensures |r| <= |s| && (s != "" ==> r != "" && r[0] == s[0])
  {
    if |s| < 2 then s
    else if s[0] == '/' && s[1] == '/' then "/" + ReplaceOnce(s[2..])
    else [s[0]] + ReplaceOnce(s[1..])
  }

  /** Every run of slashes becomes one slash, in one pass. */
  function Collapse(s: string): (r: string)
    ensures |r| <= |s| && (s != "" ==> r != "" && r[0] == s[0] && r[|r| - 1] == s[|s| - 1])
  {
    if |s| < 2 then s
    else if s[0] == '/' && s[1] == '/' then Collapse(s[1..])
    else [s[0]] + Collapse(s[1..])
  }

  lemma PairTail(s: string, c: char)
    requires |s| >= 1
    ensures HasPair(s, c) <==> (|s| >= 2 && s[0] == c && s[1] == c) || HasPair(s[1..], c)
  {
    if HasPair(s, c) {
      var i :| 0 <= i < |s| - 1 && s[i] == c && s[i + 1] == c;
      if i > 0 {
        assert s[1..][i - 1] == c && s[1..][i - 1 + 1] == c;
      }
    }
    if HasPair(s[1..], c) {
      var i :| 0 <= i < |s[1..]| - 1 && s[1..][i] == c && s[1..][i + 1] == c;
      assert s[i + 1] == c && s[i + 1 + 1] == c;
    }
  }

  lemma {:induction false} ReplaceShortens(s: string)
    requires HasPair(s, '/')
    ensures |ReplaceOnce(s)| < |s|
  {
    PairTail(s, '/');
    if !(s[0] == '/' && s[1] == '/') {
      ReplaceShortens(s[1..]);
    }
  }

  lemma {:induction false} ReplaceKeepsCollapse(s: string)
    ensures Collapse(ReplaceOnce(s)) == Collapse(s)
  {
    if |s| >= 2 {
      var r := ReplaceOnce(s);
      if s[0] == '/' && s[1] == '/' {
        ReplaceKeepsCollapse(s[2..]);
        assert r[1..] == ReplaceOnce(s[2..]);
        assert s[1..][1..] == s[2..];
      } else {
        ReplaceKeepsCollapse(s[1..]);
        assert r[1..] == ReplaceOnce(s[1..]);
      }
    }
  }

  lemma {:induction false} CollapseFixed(s: string)
    requires !HasPair(s, '/')
    ensures Collapse(s) == s
  {
    if |s| >= 2 {
      PairTail(s, '/');
      CollapseFixed(s[1..]);
    }
  }

  lemma {:induction false} CollapseHasNoPair(s: string)
    ensures !HasPair(Collapse(s), '/')
  {
    if |s| >= 2 {
      CollapseHasNoPair(s[1..]);
      if !(s[0] == '/' && s[1] == '/') {
        var r := Collapse(s);
        assert r[1..] == Collapse(s[1..]);
        PairTail(r, '/');
      }
    }
  }

  lemma {:induction false} CollapseAddsNothing(s: string)
    ensures Forbidden(Collapse(s)) ==> Forbidden(s)
    ensures forall c | c in Collapse(s) :: c in s
  {
    if |s| >= 2 {
      CollapseAddsNothing(s[1..]);
      PairTail(s, '.');
      assert s == [s[0]] + s[1..];
      if !(s[0] == '/' && s[1] == '/') {
        var r := Collapse(s);
        assert r[1..] == Collapse(s[1..]);
        PairTail(r, '.');
      }
    }
  }

  /** The source's loop: replacing until nothing is left to replace is the one-pass collapse. */
  method CollapseByReplacing(s0: string) returns (s: string)
    ensures s == Collapse(s0)
  {
    s := s0;
    while HasPair(s, '/')
      invariant Collapse(s) == Collapse(s0)
      decreases |s|
    {
      ReplaceShortens(s);
      ReplaceKeepsCollapse(s);
      s := ReplaceOnce(s);
    }
    CollapseFixed(s);
  }

  function Rooted(s: string): string {
    if s != "" && s[0] == '/' then s else "/" + s
  }

  // None: ValueError.
  function Normal(raw: string): Option<string> {
    var s := Strip(raw);
    if s == "" then Some("")
    else if Forbidden(s) then None
    else Some(TrimSlash(Collapse(Rooted(s))))
  }

  method NormalizeUrlPathPrefix(raw: string) returns (r: Option<string>)
    ensures r == Normal(raw)
  {
    var s := Strip(raw);
    if s == "" {
      return Some("");
    }
    if Forbidden(s) {
      return None;
    }
    if s[0] != '/' {
      s := "/" + s;
    }
    s := CollapseByReplacing(s);
    s := TrimSlash(s);
    return Some(s);
  }

  lemma PrefixHasPair(p: string, s: string, c: char)
    requires p <= s && HasPair(p, c)
    ensures HasPair(s, c)
  {
    var i :| 0 <= i < |p| - 1 && p[i] == c && p[i + 1] == c;
    assert s[i] == c && s[i + 1] == c;
  }

  // What the loop receives: rooted, and as little forbidden as the input.
  lemma RootedShape(s: string)
    requires s != "" && !Forbidden(s)
    ensures Rooted(s)[0] == '/' && !Forbidden(Rooted(s))
  {
    if s[0] != '/' {
      PairTail("/" + s, '.');
      assert ("/" + s)[1..] == s;
    }
  }

  lemma TrimKeepsShape(x: string)
    requires !HasPair(x, '/') && !Forbidden(x)
    ensures !HasPair(TrimSlash(x), '/') && !Forbidden(TrimSlash(x))
  {
    var p := TrimSlash(x);
    if HasPair(p, '/') { PrefixHasPair(p, x, '/'); }
    if HasPair(p, '.') { PrefixHasPair(p, x, '.'); }
  }

  /** An accepted prefix is empty, or starts with a slash, doubles none and ends with none. */
  lemma NormalShape(raw: string)
    requires Normal(raw).Some?
    ensures var p := Normal(raw).value;
      p == "" || (p[0] == '/' && p[|p| - 1] != '/' && !HasPair(p, '/') && !Forbidden(p))
  {
    var s := Strip(raw);
    if s != "" {
      RootedShape(s);
      CollapseHasNoPair(Rooted(s));
      CollapseAddsNothing(Rooted(s));
      TrimKeepsShape(Collapse(Rooted(s)));
    }
  }

  lemma {:induction false} CollapseSnoc(s: string)
    ensures Collapse(s + "/") == if s != "" && s[|s| - 1] == '/' then Collapse(s) else Collapse(s) + "/"
  {
    if |s| >= 2 {
      CollapseSnoc(s[1..]);
      assert (s + "/")[1..] == s[1..] + "/";
    } else if |s| == 1 {
      assert (s + "/")[1..] == "/";
    }
  }

  lemma {:induction false} TrimCollapse(s: string)
    ensures TrimSlash(Collapse(s)) == Collapse(TrimSlash(s))
  {
    if s != "" && s[|s| - 1] == '/' {
      var front := s[..|s| - 1];
      assert s == front + "/";
      TrimCollapse(front);
      CollapseSnoc(front);
      assert (Collapse(front) + "/")[..|Collapse(front)|] == Collapse(front);
    }
  }

  lemma {:induction false} TrimRooted(s: string)
    requires s != "" && s[0] != '/'
    ensures TrimSlash("/" + s) == "/" + TrimSlash(s) && TrimSlash(s) != ""
  {
    if s[|s| - 1] == '/' {
      assert ("/" + s)[..|s|] == "/" + s[..|s| - 1];
      TrimRooted(s[..|s| - 1]);
    }
  }

  // What is left of the input without outer white space and trailing slashes.
  function Core(raw: string): string {
    TrimSlash(Strip(raw))
  }

  lemma NormalEndsLikeCore(raw: string)
    requires Normal(raw).Some?
    ensures var p, c := Normal(raw).value, Core(raw);
      (p == "" <==> c == "") && (p != "" ==> p[|p| - 1] == c[|c| - 1])
  {
    var s := Strip(raw);
    if s != "" {
      TrimCollapse(Rooted(s));
      if s[0] != '/' {
        TrimRooted(s);
      }
    }
  }

  lemma ShapeIsFixed(p: string)
    requires p != "" && p[0] == '/' && p[|p| - 1] != '/' && !IsSpace(p[|p| - 1])
    requires !HasPair(p, '/') && !Forbidden(p)
    ensures Normal(p) == Some(p)
  {
    assert Strip(p) == p;
    CollapseFixed(p);
  }

  lemma SpaceIsCut(p: string)
    requires p != "" && p[0] == '/' && IsSpace(p[|p| - 1])
    ensures Normal(p) != Some(p)
  {
    assert StripLeft(p) == p;
    assert Strip(p) <= p && |Strip(p)| < |p|;
    assert Strip(p) != "" ==> Rooted(Strip(p)) == Strip(p);
  }

  /**
   Normalising twice is normalising once exactly when the input, without its trailing
   slashes, does not end in white space.
   */
  lemma IdempotentIff(raw: string)
    ensures Normal(raw).Some? ==>
      var p, c := Normal(raw).value, Core(raw);
      Normal(p) == Some(p) <==> c == "" || !IsSpace(c[|c| - 1])
  {
    if Normal(raw).None? {
      return;
    }
    var p := Normal(raw).value;
    NormalShape(raw);
    NormalEndsLikeCore(raw);
    if p != "" {
      if IsSpace(p[|p| - 1]) {
        SpaceIsCut(p);
      } else {
        ShapeIsFixed(p);
      }
    }
  }

  /** An accepted input whose normal form is not normal: "a /" becomes "/a ". */
  lemma NotIdempotent() returns (raw: string)
    ensures raw == ['a', ' ', '/'] && Normal(raw).Some? && Normal(Normal(raw).value) != Normal(raw)
  {
    raw := ['a', ' ', '/'];
    assert StripLeft(raw) == raw && StripRight(raw) == raw;
    assert TrimSlash(raw) == raw[..2];
    NormalEndsLikeCore(raw);
    IdempotentIff(raw);
  }

  lemma NothingToStrip(s: string)
    requires s != "" ==> !IsSpace(s[0]) && !IsSpace(s[|s| - 1])
    ensures Strip(s) == s
  {}

  /** In particular on input without white space. */
  lemma IdempotentWithoutSpace(raw: string)
    requires forall c | c in raw :: !IsSpace(c)
    ensures Normal(raw).Some? ==> Normal(Normal(raw).value) == Normal(raw)
  {
    assert raw != "" ==> raw[0] in raw && raw[|raw| - 1] in raw;
    NothingToStrip(raw);
    IdempotentIff(raw);
    var c := Core(raw);
    if c != "" {
      assert c[|c| - 1] == raw[|c| - 1];
    }
  }

  // ----- outer white space -----

  predicate AllSpace(s: string) {
    forall i | 0 <= i < |s| :: IsSpace(s[i])
  }

  lemma {:induction false} StripLeftDrops(a: string, s: string)
    requires AllSpace(a)
    ensures StripLeft(a + s) == StripLeft(s)
  {
    if a == "" {
      assert a + s == s;
    } else {
      assert (a + s)[1..] == a[1..] + s;
      StripLeftDrops(a[1..], s);
    }
  }

  lemma {:induction false} StripLeftKeeps(s: string, b: string)
    requires AllSpace(b)
    ensures StripLeft(s + b) == if StripLeft(s) == "" then "" else StripLeft(s) + b
  {
    if s == "" {
      assert s + b == b + "" == b;
      StripLeftDrops(b, "");
    } else if IsSpace(s[0]) {
      assert (s + b)[1..] == s[1..] + b;
      StripLeftKeeps(s[1..], b);
    }
  }

  lemma {:induction false} StripRightDrops(s: string, b: string)
    requires AllSpace(b)
    ensures StripRight(s + b) == StripRight(s)
  {
    if b == "" {
      assert s + b == s;
    } else {
      var front := b[..|b| - 1];
      assert (s + b)[..|s + b| - 1] == s + front;
      StripRightDrops(s, front);
    }
  }

  lemma StripIgnoresOuterSpace(a: string, s: string, b: string)
    requires AllSpace(a) && AllSpace(b)
    ensures Strip(a + (s + b)) == Strip(s)
  {
    StripLeftDrops(a, s + b);
    StripLeftKeeps(s, b);
    StripRightDrops(StripLeft(s), b);
  }

  /** White space around the input does not matter. */
  lemma OuterSpaceIgnored(a: string, s: string, b: string)
    requires AllSpace(a) && AllSpace(b)
    ensures Normal(a + s + b) == Normal(s)
  {
    StripIgnoresOuterSpace(a, s, b);
    assert a + s + b == a + (s + b);
  }

  // ----- what the normal form means -----

  // The parts between slashes, empty ones left out.
  function Segments(s: string): (r: seq<string>)
    ensures s != "" && s[0] != '/' ==> r != []
  {
    if s == "" then []
    else if s[0] == '/' then Segments(s[1..])
    else if |s| == 1 || s[1] == '/' then [[s[0]]] + Segments(s[1..])
    else
      var rest := Segments(s[1..]);
      [[s[0]] + rest[0]] + rest[1..]
  }

  function Joined(segments: seq<string>): (s: string)
    ensures segments != [] ==> s != "" && s[0] == '/'
  {
    if segments == [] then "" else "/" + segments[0] + Joined(segments[1..])
  }

  lemma {:induction false} TrimCons(c: char, s: string)
    requires c != '/'
    ensures TrimSlash([c] + s) == [c] + TrimSlash(s)
  {
    if s != "" && s[|s| - 1] == '/' {
      assert ([c] + s)[..|s|] == [c] + s[..|s| - 1];
      TrimCons(c, s[..|s| - 1]);
    }
  }

  // Collapsed and trimmed, an input is its segments, the first slash aside.
  predicate Splits(s: string) {
    var t, j := TrimSlash(Collapse(s)), Joined(Segments(s));
    s != "" && if s[0] == '/' then t == j else j == "/" + t
  }

  lemma SlashSplits(s: string)
    requires |s| >= 2 && s[0] == '/' && Splits(s[1..])
    ensures Splits(s)
  {
    if s[1] != '/' {
      assert Collapse(s) == "/" + Collapse(s[1..]);
      TrimRooted(Collapse(s[1..]));
    }
  }

  lemma SegmentEnds(s: string)
    requires |s| >= 2 && s[0] != '/' && s[1] == '/' && Splits(s[1..])
    ensures Splits(s)
  {
    assert Collapse(s) == [s[0]] + Collapse(s[1..]);
    TrimCons(s[0], Collapse(s[1..]));
    JoinedCons([s[0]], Segments(s[1..]));
  }

  lemma SegmentGoesOn(s: string)
    requires |s| >= 2 && s[0] != '/' && s[1] != '/' && Splits(s[1..])
    ensures Splits(s)
  {
    var segments, t := Segments(s[1..]), TrimSlash(Collapse(s[1..]));
    assert Collapse(s) == [s[0]] + Collapse(s[1..]);
    TrimCons(s[0], Collapse(s[1..]));
    TailJoins(segments, t, s[0]);
  }

  lemma SlashCancels(s: string, t: string)
    requires "/" + s == "/" + t
    ensures s == t
  {
    assert s == ("/" + s)[1..] && t == ("/" + t)[1..];
  }

  lemma Associate(a: string, b: string, c: string)
    ensures (a + b) + c == a + (b + c)
  {}

  lemma TailJoins(segments: seq<string>, t: string, c: char)
    requires segments != [] && Joined(segments) == "/" + t
    ensures Joined([[c] + segments[0]] + segments[1..]) == "/" + ([c] + t)
  {
    var first, rest := segments[0], segments[1..];
    JoinedCons(first, rest);
    JoinedCons([c] + first, rest);
    assert [first] + rest == segments;
    SlashCancels(t, first + Joined(rest));
    Associate([c], first, Joined(rest));
  }

  lemma JoinedCons(first: string, rest: seq<string>)
    ensures Joined([first] + rest) == "/" + (first + Joined(rest))
  {
    assert ([first] + rest)[1..] == rest;
    assert "/" + first + Joined(rest) == "/" + (first + Joined(rest));
  }

  lemma {:induction false} CollapsedIsJoined(s: string)
    requires s != ""
    ensures Splits(s)
  {
    if |s| >= 2 {
      CollapsedIsJoined(s[1..]);
      if s[0] == '/' {
        SlashSplits(s);
      } else if s[1] == '/' {
        SegmentEnds(s);
      } else {
        SegmentGoesOn(s);
      }
    } else if s[0] != '/' {
      JoinedCons(s, []);
    }
  }

  /**
   The normal form of an accepted input is its segments, each behind a slash: nothing but
   outer white space and superfluous slashes is lost.
   */
  lemma NormalIsSegments(raw: string)
    ensures var s := Strip(raw);
      Normal(raw) == if '\n' in s || '\r' in s || HasPair(s, '.') then None else Some(Joined(Segments(s)))
  {
    var s := Strip(raw);
    if s != "" {
      CollapsedIsJoined(Rooted(s));
      assert s[0] != '/' ==> ("/" + s)[1..] == s;
    }
  }
}
