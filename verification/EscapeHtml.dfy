/** Escaping user text for HTML mail: five global replacements, one after the
    other, which must not trip over each other's output. */
module EscapeHtml {
  function ReplaceAll(s: string, c: char, sub: string): string {
    if s == [] then [] else (if s[0] == c then sub else [s[0]]) + ReplaceAll(s[1..], c, sub)
  }

  /** The passes, in the order of the code. */
  const PASSES: seq<(char, string)> := [('&', "&amp;"), ('<', "&lt;"), ('>', "&gt;"), ('"', "&quot;"), ('\'', "&#39;")]

  function Escape(s: string): string {
    ReplaceAll(ReplaceAll(ReplaceAll(ReplaceAll(ReplaceAll(s, '&', "&amp;"), '<', "&lt;"), '>', "&gt;"), '"', "&quot;"),
               '\'', "&#39;")
  }

  /** What the first n passes make of one character. */
  function Entity(c: char, n: nat): string
    requires n <= 5
  {
    if c == '&' && n > 0 then "&amp;"
    else if c == '<' && n > 1 then "&lt;"
    else if c == '>' && n > 2 then "&gt;"
    else if c == '"' && n > 3 then "&quot;"
    else if c == '\'' && n > 4 then "&#39;"
    else [c]
  }

  /** Every character replaced on its own. */
  function Substitute(s: string, n: nat): string
    requires n <= 5
  {
    if s == [] then [] else Entity(s[0], n) + Substitute(s[1..], n)
  }

  lemma {:induction false} ReplaceConcat(a: string, b: string, c: char, sub: string)
    ensures ReplaceAll(a + b, c, sub) == ReplaceAll(a, c, sub) + ReplaceAll(b, c, sub)
  {
    if a == [] {
      assert a + b == b;
    } else {
      var head := if a[0] == c then sub else [a[0]];
      assert (a + b)[0] == a[0] && (a + b)[1..] == a[1..] + b;
      calc {
        ReplaceAll(a + b, c, sub);
        head + ReplaceAll(a[1..] + b, c, sub);
        { ReplaceConcat(a[1..], b, c, sub); }
        head + (ReplaceAll(a[1..], c, sub) + ReplaceAll(b, c, sub));
        (head + ReplaceAll(a[1..], c, sub)) + ReplaceAll(b, c, sub);
      }
    }
  }

  lemma {:induction false} ReplaceAbsent(s: string, c: char, sub: string)
    requires c !in s
    ensures ReplaceAll(s, c, sub) == s
  {
    if s != [] {
      ReplaceAbsent(s[1..], c, sub);
      assert s == [s[0]] + s[1..];
    }
  }

  lemma PassOnEntity(c: char, n: nat)
    requires n < 5
    ensures ReplaceAll(Entity(c, n), PASSES[n].0, PASSES[n].1) == Entity(c, n + 1)
  {
    var e := Entity(c, n);
    if c == PASSES[n].0 {
      assert e == [c] && e[1..] == [];
      assert ReplaceAll(e[1..], PASSES[n].0, PASSES[n].1) == [];
    } else {
      assert PASSES[n].0 !in e;
      ReplaceAbsent(e, PASSES[n].0, PASSES[n].1);
    }
  }

  /** One more pass over the whole text is one more entity per character. */
  lemma {:induction false} PassFuses(s: string, n: nat)
    requires n < 5
    ensures ReplaceAll(Substitute(s, n), PASSES[n].0, PASSES[n].1) == Substitute(s, n + 1)
  {
    if s != [] {
      ReplaceConcat(Entity(s[0], n), Substitute(s[1..], n), PASSES[n].0, PASSES[n].1);
      PassOnEntity(s[0], n);
      PassFuses(s[1..], n);
    }
  }

  lemma {:induction false} NoPass(s: string)
    ensures Substitute(s, 0) == s
  {
    if s != [] {
      NoPass(s[1..]);
    }
  }

  /** The five passes together are one substitution per character. */
  lemma EscapeIsSubstitution(s: string)
    ensures Escape(s) == Substitute(s, 5)
  {
    NoPass(s);
    PassFuses(s, 0);
    PassFuses(s, 1);
    PassFuses(s, 2);
    PassFuses(s, 3);
    PassFuses(s, 4);
  }

  predicate Markup(c: char) {
    c == '<' || c == '>' || c == '"' || c == '\''
  }

  lemma {:induction false} SubstitutionIsPlain(s: string)
    ensures forall c :: c in Substitute(s, 5) ==> !Markup(c)
  {
    if s != [] {
      SubstitutionIsPlain(s[1..]);
      assert forall c :: c in Entity(s[0], 5) ==> !Markup(c);
    }
  }

  /** No raw markup is left in escaped text. */
  lemma EscapedIsPlain(s: string)
    ensures forall c :: c in Escape(s) ==> !Markup(c)
  {
    EscapeIsSubstitution(s);
    SubstitutionIsPlain(s);
  }

  predicate StartsWith(s: string, p: string) {
    |p| <= |s| && s[..|p|] == p
  }

  /** The entity at the start of a text and the character it stands for. */
  function FirstEntity(s: string): (char, nat)
    requires s != []
    ensures 0 < FirstEntity(s).1 <= |s|
  {
    if StartsWith(s, "&amp;") then ('&', 5)
    else if StartsWith(s, "&lt;") then ('<', 4)
    else if StartsWith(s, "&gt;") then ('>', 4)
    else if StartsWith(s, "&quot;") then ('"', 6)
    else if StartsWith(s, "&#39;") then ('\'', 5)
    else (s[0], 1)
  }

  /** What a mail client shows. */
  function Decode(s: string): string {
    if s == [] then [] else [FirstEntity(s).0] + Decode(s[FirstEntity(s).1..])
  }

  lemma EntityDecodes(c: char, rest: string)
    ensures FirstEntity(Entity(c, 5) + rest) == (c, |Entity(c, 5)|)
  {
    var e := Entity(c, 5);
    assert (e + rest)[..|e|] == e;
    assert (e + rest)[0] == e[0];
    if e != [c] {
      assert StartsWith(e + rest, e);
      assert (e + rest)[1] == e[1];
      assert |e + rest| >= 4 && (e + rest)[2] == e[2];
    }
  }

  lemma {:induction false} SubstitutionDecodes(s: string)
    ensures Decode(Substitute(s, 5)) == s
  {
    if s != [] {
      var e, rest := Entity(s[0], 5), Substitute(s[1..], 5);
      EntityDecodes(s[0], rest);
      SubstitutionDecodes(s[1..]);
      assert (e + rest)[|e|..] == rest;
    }
  }

  /** Round trip: nothing the user wrote is lost or invented. */
  lemma EscapeRoundTrip(s: string)
    ensures Decode(Escape(s)) == s
  {
    EscapeIsSubstitution(s);
    SubstitutionDecodes(s);
  }
}
