/**
  The two alias-matching helpers the command stages use
  (`utils.EitherTrimEqual` and `utils.EitherCutPrefix`).

  Their bodies are not part of this model; they are given the meaning their
  names and call sites imply:
  - EitherTrimEqual(s, aliases): `s` with surrounding white space removed
    (in the manner of Go's `strings.TrimSpace`) equals one of the aliases;
  - EitherCutPrefix(s, aliases): `s` starts with one of the aliases, tried in
    order; the remainder after the first alias that is a prefix is returned.
*/
module Matching {
  import opened Wrappers

  /** White space as Go's `unicode.IsSpace` reports it. */
  predicate IsSpace(c: char) {
    || '\t' <= c <= '\r' || c == ' ' || c == '\U{0085}' || c == '\U{00A0}' || c == '\U{1680}'
    || '\U{2000}' <= c <= '\U{200A}' || c == '\U{2028}' || c == '\U{2029}' || c == '\U{202F}'
    || c == '\U{205F}' || c == '\U{3000}'
  }

  predicate AllSpace(s: string) {
    forall i :: 0 <= i < |s| ==> IsSpace(s[i])
  }

  /** `s` without its leading white space. */
  function TrimLeft(s: string): (r: string)
    ensures |r| <= |s| && r == s[|s| - |r|..]
    ensures r != [] ==> !IsSpace(r[0])
  {
    if s != [] && IsSpace(s[0]) then TrimLeft(s[1..]) else s
  }

  /** `s` without its trailing white space. */
  function TrimRight(s: string): (r: string)
    ensures |r| <= |s| && r == s[..|r|]
    ensures r != [] ==> !IsSpace(r[|r| - 1])
  {
    if s != [] && IsSpace(s[|s| - 1]) then TrimRight(s[..|s| - 1]) else s
  }

  /** Trimming on the left removes white space only. */
  lemma {:induction false} TrimLeftRemovesSpace(s: string)
    ensures AllSpace(s[..|s| - |TrimLeft(s)|])
  {
    if s != [] && IsSpace(s[0]) {
      var t := s[1..];
      TrimLeftRemovesSpace(t);
      assert forall i :: 1 <= i < |s| - |TrimLeft(s)| ==> s[i] == t[..|t| - |TrimLeft(t)|][i - 1];
    }
  }

  /** Trimming on the right removes white space only. */
  lemma {:induction false} TrimRightRemovesSpace(s: string)
    ensures AllSpace(s[|TrimRight(s)|..])
  {
    if s != [] && IsSpace(s[|s| - 1]) {
      var t := s[..|s| - 1];
      TrimRightRemovesSpace(t);
      assert s[|TrimRight(s)|..] == t[|TrimRight(t)|..] + [s[|s| - 1]];
    }
  }

  /** `s` without leading and trailing white space. */
  function Trim(s: string): string {
    TrimRight(TrimLeft(s))
  }

  /** Whether the trimmed `s` equals one of `aliases`, tried in order. */
  function EitherTrimEqual(s: string, aliases: seq<string>): bool {
    if aliases == [] then false
    else Trim(s) == aliases[0] || EitherTrimEqual(s, aliases[1..])
  }

  /** EitherTrimEqual holds exactly when the trimmed `s` is one of the aliases. */
  lemma {:induction false} TrimEqualMeaning(s: string, aliases: seq<string>)
    ensures EitherTrimEqual(s, aliases) <==> Trim(s) in aliases
  {
    if aliases != [] {
      TrimEqualMeaning(s, aliases[1..]);
      assert Trim(s) in aliases <==> Trim(s) == aliases[0] || Trim(s) in aliases[1..];
    }
  }

  /**
    The remainder of `s` after the first of `aliases` that is a prefix of
    `s`, or `None` when none is.
  */
  function EitherCutPrefix(s: string, aliases: seq<string>): (r: Option<string>)
    ensures r.Some? ==> |r.value| <= |s| && r.value == s[|s| - |r.value|..]
  {
    if aliases == [] then None
    else if aliases[0] <= s then Some(s[|aliases[0]|..])
    else EitherCutPrefix(s, aliases[1..])
  }

  /** EitherCutPrefix finds nothing exactly when no alias is a prefix of `s`. */
  lemma {:induction false} CutPrefixNone(s: string, aliases: seq<string>)
    ensures EitherCutPrefix(s, aliases).None? <==> forall i :: 0 <= i < |aliases| ==> !(aliases[i] <= s)
  {
    if aliases != [] {
      CutPrefixNone(s, aliases[1..]);
      assert forall i :: 1 <= i < |aliases| ==> aliases[i] == aliases[1..][i - 1];
    }
  }

  /**
    When EitherCutPrefix finds something, `s` is the first alias that is a
    prefix of it followed by the remainder returned.
  */
  lemma {:induction false} CutPrefixSome(s: string, aliases: seq<string>)
    requires EitherCutPrefix(s, aliases).Some?
    ensures exists i :: 0 <= i < |aliases| && s == aliases[i] + EitherCutPrefix(s, aliases).value
                        && forall j :: 0 <= j < i ==> !(aliases[j] <= s)
  {
    var r := EitherCutPrefix(s, aliases).value;
    if aliases[0] <= s {
      assert s == aliases[0] + r;
    } else {
      CutPrefixSome(s, aliases[1..]);
      var i :| 0 <= i < |aliases[1..]| && s == aliases[1..][i] + r
               && forall j :: 0 <= j < i ==> !(aliases[1..][j] <= s);
      assert s == aliases[i + 1] + r;
      assert forall j :: 1 <= j < i + 1 ==> aliases[j] == aliases[1..][j - 1];
    }
  }

  /** Trimming text that does not start with white space only drops a white-space tail. */
  lemma {:induction false} TrimUnpadded(s: string)
    requires s != [] && !IsSpace(s[0])
    ensures s == Trim(s) + s[|Trim(s)|..] && AllSpace(s[|Trim(s)|..])
  {
    assert TrimLeft(s) == s;
    var t := TrimRight(s);
    TrimRightRemovesSpace(s);
    assert s == s[..|t|] + s[|t|..];
  }

  /** Trimming one white-space character off each end of an unpadded text gives that text. */
  lemma {:induction false} TrimSurrounded(core: string, l: char, r: char)
    requires IsSpace(l) && IsSpace(r)
    requires core != [] && !IsSpace(core[0]) && !IsSpace(core[|core| - 1])
    ensures Trim([l] + core + [r]) == core
  {
    var s := [l] + core + [r];
    var t := core + [r];
    assert s[1..] == t && TrimLeft(s) == TrimLeft(t);
    assert t[0] == core[0] && TrimLeft(t) == t;
    assert t[..|t| - 1] == core && TrimRight(t) == TrimRight(core);
  }

  /** Trimming text that is only white space leaves nothing. */
  lemma {:induction false} TrimAllSpace(s: string)
    requires AllSpace(s)
    ensures Trim(s) == []
  {
    var l := TrimLeft(s);
  }
}
