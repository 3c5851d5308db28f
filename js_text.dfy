/**
 * The two JavaScript string operations the components rely on:
 * `String.prototype.trim` (the chat widget's blank-input test and the text it sends) and
 * `String.prototype.toLowerCase` on the navigation labels (the navbar's section ids).
 */
module JsText {

  /** The characters `trim` removes: ECMAScript WhiteSpace (including every Zs space) and LineTerminator. */
  predicate IsTrimmable(c: char) {
    || c == '\t' || c == '\U{000B}' || c == '\U{000C}' || c == ' ' || c == '\U{00A0}' || c == '\U{FEFF}'
    || c == '\U{1680}' || ('\U{2000}' <= c <= '\U{200A}') || c == '\U{202F}' || c == '\U{205F}' || c == '\U{3000}'
    || c == '\n' || c == '\r' || c == '\U{2028}' || c == '\U{2029}'
  }

  predicate AllTrimmable(s: string) {
    forall i :: 0 <= i < |s| ==> IsTrimmable(s[i])
  }

  /** Drops the leading run of trimmable characters: the result is the suffix that starts at the first other character. */
  function TrimStart(s: string): (r: string)
    ensures |r| <= |s| && r == s[|s| - |r|..]
    ensures AllTrimmable(s[..|s| - |r|])
    ensures r == [] || !IsTrimmable(r[0])
  {
    if |s| > 0 && IsTrimmable(s[0]) then
      var r := TrimStart(s[1..]);
      assert s[..|s| - |r|] == [s[0]] + s[1..][..|s| - 1 - |r|];
      AllTrimmableSplit([s[0]], s[1..][..|s| - 1 - |r|]);
      r
    else s
  }

  /** Drops the trailing run of trimmable characters: the result is the prefix that ends at the last other character. */
  function TrimEnd(s: string): (r: string)
    ensures |r| <= |s| && r == s[..|r|]
    ensures AllTrimmable(s[|r|..])
    ensures r == [] || !IsTrimmable(r[|r| - 1])
  {
    if |s| > 0 && IsTrimmable(s[|s| - 1]) then
      var r := TrimEnd(s[..|s| - 1]);
      assert s[|r|..] == s[..|s| - 1][|r|..] + [s[|s| - 1]];
      AllTrimmableSplit(s[..|s| - 1][|r|..], [s[|s| - 1]]);
      r
    else s
  }

  /** `s.trim()`. */
  function Trim(s: string): (r: string)
    ensures |r| <= |s|
    ensures r == [] <==> AllTrimmable(s)
    ensures r != [] ==> !IsTrimmable(r[0]) && !IsTrimmable(r[|r| - 1])
  {
    var t := TrimStart(s);
    var r := TrimEnd(t);
    AllTrimmableSplit(s[..|s| - |t|], t);
    AllTrimmableSplit(r, t[|r|..]);
    r
  }

  lemma AllTrimmableSplit(a: string, b: string)
    ensures AllTrimmable(a + b) <==> AllTrimmable(a) && AllTrimmable(b)
  {
    if AllTrimmable(a) && AllTrimmable(b) {
      forall i | 0 <= i < |a + b| ensures IsTrimmable((a + b)[i]) {
        if i >= |a| { assert (a + b)[i] == b[i - |a|]; }
      }
    }
    if AllTrimmable(a + b) {
      forall i | 0 <= i < |a| ensures IsTrimmable(a[i]) {
        assert (a + b)[i] == a[i];
      }
      forall i | 0 <= i < |b| ensures IsTrimmable(b[i]) {
        assert (a + b)[|a| + i] == b[i];
      }
    }
  }

  lemma {:induction false} TrimStartOfPadded(lead: string, rest: string)
    requires AllTrimmable(lead)
    requires rest == [] || !IsTrimmable(rest[0])
    ensures TrimStart(lead + rest) == rest
    decreases |lead|
  {
    if lead == [] {
      assert lead + rest == rest;
    } else {
      assert (lead + rest)[1..] == lead[1..] + rest;
      TrimStartOfPadded(lead[1..], rest);
    }
  }

  lemma {:induction false} TrimEndOfPadded(rest: string, trail: string)
    requires AllTrimmable(trail)
    requires rest == [] || !IsTrimmable(rest[|rest| - 1])
    ensures TrimEnd(rest + trail) == rest
    decreases |trail|
  {
    if trail == [] {
      assert rest + trail == rest;
    } else {
      var s := rest + trail;
      assert s[..|s| - 1] == rest + trail[..|trail| - 1];
      TrimEndOfPadded(rest, trail[..|trail| - 1]);
    }
  }

  /**
   * `trim` removes exactly the surrounding whitespace: a text whose ends are not whitespace
   * comes back unchanged from any amount of padding on either side.
   */
  lemma {:induction false} TrimRemovesPadding(lead: string, core: string, trail: string)
    requires AllTrimmable(lead) && AllTrimmable(trail)
    requires core != [] && !IsTrimmable(core[0]) && !IsTrimmable(core[|core| - 1])
    ensures Trim(lead + core + trail) == core
  {
    assert lead + core + trail == lead + (core + trail);
    TrimStartOfPadded(lead, core + trail);
    TrimEndOfPadded(core, trail);
  }

  /** Trimming twice is trimming once. */
  lemma {:induction false} TrimIdempotent(s: string)
    ensures Trim(Trim(s)) == Trim(s)
  {
    var r := Trim(s);
    if r != [] {
      assert [] + r + [] == r;
      TrimRemovesPadding([], r, []);
    }
  }

  /** ASCII upper case to lower case; every other character unchanged. */
  function LowerChar(c: char): char {
    if 'A' <= c <= 'Z' then (c as int + 32) as char else c
  }

  /** `s.toLowerCase()` for the ASCII labels the navbar uses. */
  function ToLower(s: string): (r: string)
    ensures |r| == |s|
  {
    seq(|s|, i requires 0 <= i < |s| => LowerChar(s[i]))
  }
}
