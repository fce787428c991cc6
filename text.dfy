/** The two string operations the pipeline applies to formulas: `trim()` and `replace(/,/g, '.')`. */
module Text {

  /** The characters `String.prototype.trim` strips: ECMAScript WhiteSpace and LineTerminator. */
  predicate IsTrimmable(c: char) {
    || c == '\t' || c == '\n' || c == '\U{000B}' || c == '\U{000C}' || c == '\r'
    || c == ' ' || c == '\U{00A0}' || c == '\U{1680}'
    || ('\U{2000}' <= c <= '\U{200A}')
    || c == '\U{2028}' || c == '\U{2029}' || c == '\U{202F}' || c == '\U{205F}'
    || c == '\U{3000}' || c == '\U{FEFF}'
  }

  /** `s` without its leading trimmable characters. */
  function TrimStart(s: string): (r: string)
    ensures |r| <= |s|
  {
    if s != [] && IsTrimmable(s[0]) then TrimStart(s[1..]) else s
  }

  /** `s` without its trailing trimmable characters. */
  function TrimEnd(s: string): (r: string)
    ensures |r| <= |s|
  {
    if s != [] && IsTrimmable(s[|s| - 1]) then TrimEnd(s[..|s| - 1]) else s
  }

  /** The number of trimmable characters `s` starts with. */
  function Leading(s: string): nat {
    |s| - |TrimStart(s)|
  }

  /** `s.trim()`. */
  function Trim(s: string): (r: string)
    ensures |r| <= |s|
  {
    TrimEnd(TrimStart(s))
  }

  /** `!s.trim()`: the string is empty once trimmed. */
  predicate IsBlank(s: string) {
    Trim(s) == []
  }

  /**
   * Trimming the start keeps a suffix of `s`, cuts off only trimmable
   * characters, and leaves no trimmable character in front.
   */
  lemma {:induction false} TrimStartCutsLeadingSpace(s: string)
    ensures TrimStart(s) == s[|s| - |TrimStart(s)|..]
    ensures forall k :: 0 <= k < |s| - |TrimStart(s)| ==> IsTrimmable(s[k])
    ensures TrimStart(s) == [] || !IsTrimmable(TrimStart(s)[0])
  {
    if s != [] && IsTrimmable(s[0]) {
      TrimStartCutsLeadingSpace(s[1..]);
      assert s[1..][|s[1..]| - |TrimStart(s)|..] == s[|s| - |TrimStart(s)|..];
    }
  }

  /**
   * Trimming the end keeps a prefix of `s`, cuts off only trimmable
   * characters, and leaves no trimmable character at the back.
   */
  lemma {:induction false} TrimEndCutsTrailingSpace(s: string)
    ensures TrimEnd(s) == s[..|TrimEnd(s)|]
    ensures forall k :: |TrimEnd(s)| <= k < |s| ==> IsTrimmable(s[k])
    ensures TrimEnd(s) == [] || !IsTrimmable(TrimEnd(s)[|TrimEnd(s)| - 1])
  {
    if s != [] && IsTrimmable(s[|s| - 1]) {
      TrimEndCutsTrailingSpace(s[..|s| - 1]);
      assert s[..|s| - 1][..|TrimEnd(s)|] == s[..|TrimEnd(s)|];
    }
  }

  /** `Leading(s)` counts exactly the run of trimmable characters `s` starts with. */
  lemma LeadingIsLeadingSpace(s: string)
    ensures Leading(s) <= |s|
    ensures forall k :: 0 <= k < Leading(s) ==> IsTrimmable(s[k])
    ensures Leading(s) == |s| || !IsTrimmable(s[Leading(s)])
  {
    TrimStartCutsLeadingSpace(s);
  }

  /**
   * `s.trim()` is the contiguous middle of `s` after its leading trimmable
   * characters that neither starts nor ends with a trimmable character,
   * everything cut off after it being trimmable; it is empty exactly when
   * every character of `s` is trimmable.
   */
  lemma TrimIsMiddle(s: string)
    ensures var r := Trim(s);
            && (r == [] || (!IsTrimmable(r[0]) && !IsTrimmable(r[|r| - 1])))
            && (r == [] <==> forall k :: 0 <= k < |s| ==> IsTrimmable(s[k]))
            && Leading(s) + |r| <= |s| && r == s[Leading(s)..Leading(s) + |r|]
            && (forall k :: Leading(s) + |r| <= k < |s| ==> IsTrimmable(s[k]))
  {
    var t := TrimStart(s);
    var r := Trim(s);
    TrimStartCutsLeadingSpace(s);
    TrimEndCutsTrailingSpace(t);
    LeadingIsLeadingSpace(s);
    assert r == s[Leading(s)..Leading(s) + |r|];
    forall k | Leading(s) + |r| <= k < |s|
      ensures IsTrimmable(s[k])
    {
      assert s[k] == t[k - Leading(s)];
    }
    if r != [] {
      assert r[0] == t[0];
    }
  }

  /** Trimming an already trimmed formula changes nothing. */
  lemma TrimIdempotent(s: string)
    ensures Trim(Trim(s)) == Trim(s)
  {
    var r := Trim(s);
    TrimIsMiddle(s);
    assert TrimStart(r) == r;
    assert TrimEnd(r) == r;
  }

  /** `s.replace(/,/g, '.')`. */
  function ReplaceCommas(s: string): (r: string)
    ensures |r| == |s|
  {
    if s == [] then [] else [if s[0] == ',' then '.' else s[0]] + ReplaceCommas(s[1..])
  }

  /** Every comma becomes a period and nothing else changes, so no comma is left. */
  lemma {:induction false} ReplaceCommasPointwise(s: string)
    ensures forall k :: 0 <= k < |s| ==> ReplaceCommas(s)[k] == (if s[k] == ',' then '.' else s[k])
    ensures ',' !in ReplaceCommas(s)
  {
    if s != [] {
      ReplaceCommasPointwise(s[1..]);
      assert forall k :: 1 <= k < |s| ==> ReplaceCommas(s)[k] == ReplaceCommas(s[1..])[k - 1];
    }
  }

  /** Replacing commas a second time changes nothing. */
  lemma ReplaceCommasIdempotent(s: string)
    ensures ReplaceCommas(ReplaceCommas(s)) == ReplaceCommas(s)
  {
    var r := ReplaceCommas(s);
    var rr := ReplaceCommas(r);
    ReplaceCommasPointwise(s);
    ReplaceCommasPointwise(r);
    assert forall k :: 0 <= k < |r| ==> rr[k] == r[k];
  }

  /** The comma that separates the arguments of a two-argument call is rewritten too. */
  lemma ReplaceCommasRewritesArgumentSeparators()
    ensures ReplaceCommas("pow(x,2)") == "pow(x.2)"
  {
    ReplaceCommasPointwise("pow(x,2)");
  }
}
