/** The string normalisations that cache keys and routing rules go through. */
module Text {

  /** Unicode White_Space, the class that trimming removes. */
  predicate IsSpace(c: char) {
    || '\U{0009}' <= c <= '\U{000D}' || c == ' ' || c == '\U{0085}' || c == '\U{00A0}' || c == '\U{1680}'
    || '\U{2000}' <= c <= '\U{200A}' || c == '\U{2028}' || c == '\U{2029}' || c == '\U{202F}'
    || c == '\U{205F}' || c == '\U{3000}'
  }

  function TrimStart(s: string): string {
    if s != [] && IsSpace(s[0]) then TrimStart(s[1..]) else s
  }

  function TrimEnd(s: string): string {
    if s != [] && IsSpace(s[|s| - 1]) then TrimEnd(s[..|s| - 1]) else s
  }

  function Trim(s: string): string {
    TrimEnd(TrimStart(s))
  }

  function TrimEndDots(s: string): string {
    if s != [] && s[|s| - 1] == '.' then TrimEndDots(s[..|s| - 1]) else s
  }

  function LowerChar(c: char): char {
    if 'A' <= c <= 'Z' then c - 'A' + 'a' else c
  }

  function UpperChar(c: char): char {
    if 'a' <= c <= 'z' then c - 'a' + 'A' else c
  }

  function AsciiLower(s: string): string {
    seq(|s|, i requires 0 <= i < |s| => LowerChar(s[i]))
  }

  function AsciiUpper(s: string): string {
    seq(|s|, i requires 0 <= i < |s| => UpperChar(s[i]))
  }

  /** Trimmed, without trailing dots, in ASCII lower case. */
  function NormalizeDomain(domain: string): string {
    AsciiLower(TrimEndDots(Trim(domain)))
  }

  predicate EndsWith(s: string, suffix: string) {
    |suffix| <= |s| && s[|s| - |suffix|..] == suffix
  }

  // ----- What the normalisations keep and forget -----

  /** The same character, or the same ASCII letter in the other case. */
  predicate SameLetter(c: char, d: char) {
    || c == d
    || ('a' <= c <= 'z' && 'A' <= d <= 'Z' && c as int - 'a' as int == d as int - 'A' as int)
    || ('a' <= d <= 'z' && 'A' <= c <= 'Z' && d as int - 'a' as int == c as int - 'A' as int)
  }

  ghost predicate SameIgnoringCase(a: string, b: string) {
    |a| == |b| && forall i :: 0 <= i < |a| ==> SameLetter(a[i], b[i])
  }

  lemma LowerMeans(a: string, b: string)
    ensures AsciiLower(a) == AsciiLower(b) <==> SameIgnoringCase(a, b)
  {
    var x, y := AsciiLower(a), AsciiLower(b);
    if x == y {
      forall i | 0 <= i < |a| ensures SameLetter(a[i], b[i]) {
        assert x[i] == y[i];
      }
    }
    if SameIgnoringCase(a, b) {
      forall i | 0 <= i < |a| ensures x[i] == y[i] {
        assert SameLetter(a[i], b[i]);
      }
    }
  }

  lemma UpperMeans(a: string, b: string)
    ensures AsciiUpper(a) == AsciiUpper(b) <==> SameIgnoringCase(a, b)
  {
    var x, y := AsciiUpper(a), AsciiUpper(b);
    if x == y {
      forall i | 0 <= i < |a| ensures SameLetter(a[i], b[i]) {
        assert x[i] == y[i];
      }
    }
    if SameIgnoringCase(a, b) {
      forall i | 0 <= i < |a| ensures x[i] == y[i] {
        assert SameLetter(a[i], b[i]);
      }
    }
  }

  ghost predicate AllSpaces(s: string) {
    forall i :: 0 <= i < |s| ==> IsSpace(s[i])
  }

  ghost predicate AllDots(s: string) {
    forall i :: 0 <= i < |s| ==> s[i] == '.'
  }

  predicate Bare(s: string) {
    s == "" || (!IsSpace(s[0]) && !IsSpace(s[|s| - 1]))
  }

  /** `s` is `middle` between spaces. */
  ghost predicate Around(s: string, before: string, middle: string, after: string) {
    s == before + middle + after && AllSpaces(before) && AllSpaces(after) && Bare(middle)
  }

  /** `name` is what is left of `s` without the spaces around it and then without the dots at its end. */
  ghost predicate IsCore(s: string, name: string) {
    && (name == "" || name[|name| - 1] != '.')
    && exists before, dots, after :: AllDots(dots) && Around(s, before, name + dots, after)
  }

  lemma {:induction false} TrimStartSkips(before: string, rest: string)
    requires AllSpaces(before) && (rest == "" || !IsSpace(rest[0]))
    ensures TrimStart(before + rest) == rest
  {
    if before == "" {
      assert before + rest == rest;
    } else {
      assert (before + rest)[1..] == before[1..] + rest;
      TrimStartSkips(before[1..], rest);
    }
  }

  lemma {:induction false} TrimEndSkips(rest: string, after: string)
    requires AllSpaces(after) && (rest == "" || !IsSpace(rest[|rest| - 1]))
    ensures TrimEnd(rest + after) == rest
  {
    if after == "" {
      assert rest + after == rest;
    } else {
      var n := |after| - 1;
      assert (rest + after)[..|rest| + n] == rest + after[..n];
      TrimEndSkips(rest, after[..n]);
    }
  }

  lemma {:induction false} DotsSkip(name: string, dots: string)
    requires AllDots(dots) && (name == "" || name[|name| - 1] != '.')
    ensures TrimEndDots(name + dots) == name
  {
    if dots == "" {
      assert name + dots == name;
    } else {
      var n := |dots| - 1;
      assert (name + dots)[..|name| + n] == name + dots[..n];
      DotsSkip(name, dots[..n]);
    }
  }

  lemma TrimOf(s: string, before: string, middle: string, after: string)
    requires Around(s, before, middle, after)
    ensures Trim(s) == middle
  {
    if middle == "" {
      assert s == (before + after) + "";
      TrimStartSkips(before + after, "");
    } else {
      assert s == before + (middle + after);
      TrimStartSkips(before, middle + after);
      TrimEndSkips(middle, after);
    }
  }

  lemma {:induction false} TrimStartSplits(s: string) returns (before: string)
    ensures s == before + TrimStart(s) && AllSpaces(before) && (TrimStart(s) == "" || !IsSpace(TrimStart(s)[0]))
  {
    before := "";
    if s != "" && IsSpace(s[0]) {
      var rest := TrimStartSplits(s[1..]);
      before := [s[0]] + rest;
      assert s == [s[0]] + s[1..];
    }
  }

  lemma {:induction false} TrimEndSplits(s: string) returns (after: string)
    ensures s == TrimEnd(s) + after && AllSpaces(after) && (TrimEnd(s) == "" || !IsSpace(TrimEnd(s)[|TrimEnd(s)| - 1]))
    ensures TrimEnd(s) != "" ==> s != "" && TrimEnd(s)[0] == s[0]
  {
    after := "";
    if s != "" && IsSpace(s[|s| - 1]) {
      var n := |s| - 1;
      var rest := TrimEndSplits(s[..n]);
      after := rest + [s[n]];
      assert s == s[..n] + [s[n]];
    }
  }

  lemma {:induction false} DotsSplit(s: string) returns (dots: string)
    ensures s == TrimEndDots(s) + dots && AllDots(dots) && (TrimEndDots(s) == "" || TrimEndDots(s)[|TrimEndDots(s)| - 1] != '.')
  {
    dots := "";
    if s != "" && s[|s| - 1] == '.' {
      var n := |s| - 1;
      var rest := DotsSplit(s[..n]);
      dots := rest + [s[n]];
      assert s == s[..n] + [s[n]];
    }
  }

  lemma CoreExists(s: string)
    ensures IsCore(s, TrimEndDots(Trim(s)))
  {
    var before := TrimStartSplits(s);
    var after := TrimEndSplits(TrimStart(s));
    var dots := DotsSplit(Trim(s));
    assert Around(s, before, TrimEndDots(Trim(s)) + dots, after);
  }

  /** The core of a text exists, is unique, and is what the two trimmings compute. */
  lemma CoreIs(s: string, name: string)
    ensures IsCore(s, name) <==> name == TrimEndDots(Trim(s))
  {
    CoreExists(s);
    if IsCore(s, name) {
      var before, dots, after :| AllDots(dots) && Around(s, before, name + dots, after);
      TrimOf(s, before, name + dots, after);
      DotsSkip(name, dots);
    }
  }

  /** The same domain name, however it is spaced, dotted at the end, or capitalised. */
  ghost predicate SameName(a: string, b: string) {
    exists x, y :: IsCore(a, x) && IsCore(b, y) && SameIgnoringCase(x, y)
  }

  /** Normalising tells two names apart exactly when they differ in more than spaces, trailing dots and ASCII case. */
  lemma NormalizeMeans(a: string, b: string)
    ensures NormalizeDomain(a) == NormalizeDomain(b) <==> SameName(a, b)
  {
    var x, y := TrimEndDots(Trim(a)), TrimEndDots(Trim(b));
    CoreIs(a, x);
    CoreIs(b, y);
    LowerMeans(x, y);
    if SameName(a, b) {
      var x', y' :| IsCore(a, x') && IsCore(b, y') && SameIgnoringCase(x', y');
      CoreIs(a, x');
      CoreIs(b, y');
    }
  }
}
