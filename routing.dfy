/**
  Which command a message text selects. The commands' aliases are chosen so
  that no text matches two commands; hence the order in which the command
  stages run never changes which of them handles a message.
*/
module Routing {
  import opened Wrappers
  import opened Matching
  import opened Actions

  /** Neither string is a prefix of the other. */
  predicate Apart(a: string, b: string) {
    !(a <= b) && !(b <= a)
  }

  /** `a` and `b` differ within their first three characters. */
  predicate DifferEarly(a: string, b: string) {
    || (0 < |a| && 0 < |b| && a[0] != b[0])
    || (1 < |a| && 1 < |b| && a[1] != b[1])
    || (2 < |a| && 2 < |b| && a[2] != b[2])
  }

  lemma DifferEarlyApart(a: string, b: string)
    requires DifferEarly(a, b)
    ensures Apart(a, b)
  {
  }

  /** Two prefixes of the same text are prefixes of one another. */
  lemma {:induction false} PrefixesComparable(a: string, b: string, q: string)
    requires a <= q && b <= q
    ensures a <= b || b <= a
  {
    if |a| <= |b| {
      assert a == q[..|a|] == b[..|a|];
    } else {
      assert b == q[..|b|] == a[..|b|];
    }
  }

  /** Every alias of one command is apart from every alias of another. */
  lemma AliasesApart(c1: Command, c2: Command)
    requires c1 != c2
    ensures forall a, b :: a in Aliases(c1) && b in Aliases(c2) ==> Apart(a, b)
  {
    var x, y := Aliases(c1), Aliases(c2);
    assert |x| == 2 && |y| == 2;
    forall i, j | 0 <= i < 2 && 0 <= j < 2
      ensures Apart(x[i], y[j])
    {
      assert DifferEarly(x[i], y[j]);
      DifferEarlyApart(x[i], y[j]);
    }
  }

  /** Two commands that match the same text share a pair of comparable aliases. */
  lemma {:induction false} SharedAlias(c1: Command, c2: Command, q: string)
    requires Match(c1, q).Some? && Match(c2, q).Some?
    ensures exists a, b :: a in Aliases(c1) && b in Aliases(c2) && !Apart(a, b)
  {
    MatchMeaning(c1, q);
    MatchMeaning(c2, q);
    if Rule(c1) == TrimEqual && Rule(c2) == TrimEqual {
      assert !Apart(Trim(q), Trim(q));
    } else if Rule(c1) == CutPrefix && Rule(c2) == CutPrefix {
      var i :| 0 <= i < |Aliases(c1)| && Aliases(c1)[i] <= q;
      var j :| 0 <= j < |Aliases(c2)| && Aliases(c2)[j] <= q;
      PrefixesComparable(Aliases(c1)[i], Aliases(c2)[j], q);
      assert !Apart(Aliases(c1)[i], Aliases(c2)[j]);
    } else if Rule(c1) == TrimEqual {
      MixedShared(c1, c2, q);
    } else {
      MixedShared(c2, c1, q);
      var b, a :| b in Aliases(c2) && a in Aliases(c1) && !Apart(b, a);
      assert !Apart(a, b);
    }
  }

  /** A whole-text command and a prefix command that match the same text share comparable aliases. */
  lemma {:induction false} MixedShared(te: Command, cp: Command, q: string)
    requires Rule(te) == TrimEqual && Rule(cp) == CutPrefix
    requires Match(te, q).Some? && Match(cp, q).Some?
    ensures exists a, b :: a in Aliases(te) && b in Aliases(cp) && !Apart(a, b)
  {
    MatchMeaning(te, q);
    MatchMeaning(cp, q);
    var j :| 0 <= j < |Aliases(cp)| && Aliases(cp)[j] <= q;
    var b := Aliases(cp)[j];
    AliasUnpadded(cp, j);
    TrimUnpadded(q);
    var a := Trim(q);
    assert a <= q;
    PrefixesComparable(a, b, q);
    assert a in Aliases(te) && b in Aliases(cp) && !Apart(a, b);
  }

  /** No text matches two different commands. */
  lemma CommandsExclusive(c1: Command, c2: Command, q: string)
    requires Match(c1, q).Some? && Match(c2, q).Some?
    ensures c1 == c2
  {
    SharedAlias(c1, c2, q);
    if c1 != c2 {
      AliasesApart(c1, c2);
      assert false;
    }
  }

  /** The empty text matches no command. */
  lemma EmptyMatchesNothing(c: Command)
    ensures Match(c, []).None?
  {
    assert Trim([]) == [];
    forall i | 0 <= i < |Aliases(c)|
      ensures !(Aliases(c)[i] <= [])
    {
      assert |Aliases(c)[i]| > 0;
    }
  }

  /** "/clear" selects Clear and no other command. */
  lemma ClearSelected(c: Command)
    ensures Match(c, "/clear").Some? <==> c == Clear
  {
    TrimUnpadded("/clear");
    assert Trim("/clear") == "/clear";
    MatchMeaning(Clear, "/clear");
    assert Aliases(Clear)[0] == "/clear";
    if Match(c, "/clear").Some? {
      CommandsExclusive(c, Clear, "/clear");
    }
  }

  /**
    A whole-text alias with white space on both sides, such as " 清除\n",
    selects its own command and no other.
  */
  lemma PaddedAliasSelected(c: Command, d: Command, a: string, l: char, r: char)
    requires Rule(c) == TrimEqual && a in Aliases(c) && IsSpace(l) && IsSpace(r)
    ensures Match(d, [l] + a + [r]).Some? <==> d == c
  {
    var q := [l] + a + [r];
    var i :| 0 <= i < |Aliases(c)| && Aliases(c)[i] == a;
    AliasUnpadded(c, i);
    TrimSurrounded(a, l, r);
    MatchMeaning(c, q);
    if Match(d, q).Some? {
      CommandsExclusive(d, c, q);
    }
  }

  /** Every whole-text alias on its own, such as "清除", selects its own command and no other. */
  lemma BareAliasSelected(c: Command, d: Command, a: string)
    requires Rule(c) == TrimEqual && a in Aliases(c)
    ensures Match(d, a).Some? <==> d == c
  {
    var i :| 0 <= i < |Aliases(c)| && Aliases(c)[i] == a;
    AliasUnpadded(c, i);
    TrimUnpadded(a);
    TrimRightRemovesSpace(a);
    assert TrimLeft(a) == a;
    assert Trim(a) == a;
    MatchMeaning(c, a);
    if Match(d, a).Some? {
      CommandsExclusive(d, c, a);
    }
  }

  /** The role-play alias needs its trailing space: "/system" alone is no command. */
  lemma RolePlayNeedsSpace(c: Command)
    ensures Match(c, "/system").None?
  {
    TrimUnpadded("/system");
    assert Trim("/system") == "/system";
    assert !("/system " <= "/system");
  }

  /** The role-play argument is the text after "/system ". */
  lemma PirateInstruction()
    ensures Match(RolePlay, "/system You are a pirate.") == Some("You are a pirate.")
  {
    assert "/system " <= "/system You are a pirate.";
    assert "/system You are a pirate."[|"/system "|..] == "You are a pirate.";
  }

  /** The AI-mode alias is a bare prefix: any continuation still selects it. */
  lemma AIModeBarePrefix()
    ensures Match(AIModeSwitch, "/ai_modeX") == Some("X")
  {
    assert "/ai_mode" <= "/ai_modeX";
    assert "/ai_modeX"[|"/ai_mode"|..] == "X";
  }
}
