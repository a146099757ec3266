/** Escaping of user text for LaTeX and the link macro for URLs, as the
    résumé generator's LaTeX serializer uses them. */
module Escape {
  import opened Text

  // --------------------------------------------------------------- escaping

  /** `s.replace(/c/g, rep)` for a single character `c`. */
  function ReplaceChar(s: string, c: char, rep: string): string
  {
    if s == [] then [] else (if s[0] == c then rep else [s[0]]) + ReplaceChar(s[1..], c, rep)
  }

  lemma {:induction false} ReplaceCharAppend(a: string, b: string, c: char, rep: string)
    ensures ReplaceChar(a + b, c, rep) == ReplaceChar(a, c, rep) + ReplaceChar(b, c, rep)
  {
    if a == [] {
      assert a + b == b;
    } else {
      ReplaceCharAppend(a[1..], b, c, rep);
      assert (a + b)[1..] == a[1..] + b;
      var piece := if a[0] == c then rep else [a[0]];
      calc {
        ReplaceChar(a + b, c, rep);
        piece + ReplaceChar(a[1..] + b, c, rep);
        piece + (ReplaceChar(a[1..], c, rep) + ReplaceChar(b, c, rep));
        (piece + ReplaceChar(a[1..], c, rep)) + ReplaceChar(b, c, rep);
      }
    }
  }

  /** One `.replace(/c/g, rep)` of the chain. */
  datatype Rule = Rule(c: char, rep: string)

  /** The ten replacements of `escapeLatex`, in the order they run. */
  const EscapeRules: seq<Rule> := [
    Rule('\\', "\\textbackslash{}"), Rule('{', "\\{"), Rule('}', "\\}"), Rule('$', "\\$"),
    Rule('&', "\\&"), Rule('%', "\\%"), Rule('#', "\\#"), Rule('^', "\\textasciicircum{}"),
    Rule('_', "\\_"), Rule('~', "\\textasciitilde{}")]

  /** The replacements applied one after the other. */
  function ApplyRules(s: string, rules: seq<Rule>): string
    decreases |rules|
  {
    if rules == [] then s else ApplyRules(ReplaceChar(s, rules[0].c, rules[0].rep), rules[1..])
  }

  /** `escapeLatex(text)` */
  function EscapeLatex(s: string): string {
    if s == "" then "" else ApplyRules(s, EscapeRules)
  }

  /** The characters `escapeLatex` rewrites. */
  predicate IsSpecial(c: char) {
    c in "\\{}$&%#^_~"
  }

  /** What one character becomes: the single-pass reading of the chain.
      The backslash's own braces are escaped by the later brace rules; the
      braces added for `^` and `~` are not. */
  function EscapeChar(c: char): (r: string)
    ensures IsSpecial(c) ==> |r| >= 2 && r[0] == '\\'
    ensures !IsSpecial(c) ==> r == [c]
  {
    match c
    case '\\' => "\\textbackslash\\{\\}"
    case '{' => "\\{"
    case '}' => "\\}"
    case '$' => "\\$"
    case '&' => "\\&"
    case '%' => "\\%"
    case '#' => "\\#"
    case '^' => "\\textasciicircum{}"
    case '_' => "\\_"
    case '~' => "\\textasciitilde{}"
    case _ => [c]
  }

  /** Every character replaced by its escape, left to right. */
  function EscapeEach(s: string): string {
    if s == [] then [] else EscapeChar(s[0]) + EscapeEach(s[1..])
  }

  lemma {:induction false} RulesAppend(a: string, b: string, rules: seq<Rule>)
    ensures ApplyRules(a + b, rules) == ApplyRules(a, rules) + ApplyRules(b, rules)
    decreases |rules|
  {
    if rules != [] {
      ReplaceCharAppend(a, b, rules[0].c, rules[0].rep);
      RulesAppend(ReplaceChar(a, rules[0].c, rules[0].rep), ReplaceChar(b, rules[0].c, rules[0].rep), rules[1..]);
    }
  }

  lemma {:induction false} ReplaceAbsent(s: string, c: char, rep: string)
    requires c !in s
    ensures ReplaceChar(s, c, rep) == s
  {
    if s != [] {
      ReplaceAbsent(s[1..], c, rep);
    }
  }

  /** Rules whose characters do not occur change nothing. */
  lemma {:induction false} SkipRules(s: string, rules: seq<Rule>)
    requires forall i :: 0 <= i < |rules| ==> rules[i].c !in s
    ensures ApplyRules(s, rules) == s
    decreases |rules|
  {
    if rules != [] {
      ReplaceAbsent(s, rules[0].c, rules[0].rep);
      SkipRules(s, rules[1..]);
    }
  }

  lemma {:induction false} SkipFirstRules(s: string, rules: seq<Rule>, k: nat)
    requires k <= |rules|
    requires forall i :: 0 <= i < k ==> rules[i].c !in s
    ensures ApplyRules(s, rules) == ApplyRules(s, rules[k..])
    decreases k
  {
    if k > 0 {
      ReplaceAbsent(s, rules[0].c, rules[0].rep);
      SkipFirstRules(s, rules[1..], k - 1);
      assert rules[1..][k - 1..] == rules[k..];
    }
  }

  /** A string that holds `c` once, between two parts that do not. */
  lemma ReplaceOnce(x: string, c: char, y: string, rep: string)
    requires c !in x && c !in y
    ensures ReplaceChar(x + [c] + y, c, rep) == x + rep + y
  {
    ReplaceCharAppend(x + [c], y, c, rep);
    ReplaceCharAppend(x, [c], c, rep);
    ReplaceAbsent(x, c, rep);
    ReplaceAbsent(y, c, rep);
  }

  lemma OneRuleGen(c: char, rules: seq<Rule>, k: nat)
    requires k < |rules| && rules[k].c == c
    requires forall i :: 0 <= i < k ==> rules[i].c != c
    requires forall i :: k < i < |rules| ==> rules[i].c !in rules[k].rep
    ensures ApplyRules([c], rules) == rules[k].rep
  {
    SkipFirstRules([c], rules, k);
    ReplaceOnce([], c, [], rules[k].rep);
    assert [] + [c] + [] == [c] && [] + rules[k].rep + [] == rules[k].rep;
    assert ApplyRules([c], rules[k..]) == ApplyRules(rules[k].rep, rules[k + 1..]);
    SkipRules(rules[k].rep, rules[k + 1..]);
  }

  /** A rule whose character occurs once rewrites that one place. */
  lemma RuleAt(x: string, c: char, y: string, rules: seq<Rule>, z: string)
    requires rules != [] && rules[0].c == c && c !in x && c !in y
    requires z == x + rules[0].rep + y
    ensures ApplyRules(x + [c] + y, rules) == ApplyRules(z, rules[1..])
  {
    ReplaceOnce(x, c, y, rules[0].rep);
  }

  /** The backslash's replacement has its braces escaped by the next two
      rules and is left alone by the rest. */
  lemma BackslashGen(c: char, t: string, rules: seq<Rule>)
    requires |rules| >= 3 && c != '{' && c != '}' && '{' !in t && '}' !in t
    requires rules[0] == Rule(c, t + "{}") && rules[1] == Rule('{', [c, '{']) && rules[2] == Rule('}', [c, '}'])
    requires forall i :: 3 <= i < |rules| ==> rules[i].c !in t && rules[i].c !in "{}" && rules[i].c != c
    ensures ApplyRules([c], rules) == t + [c, '{', c, '}']
  {
    BracesEscaped(c, t, rules);
    var s3 := t + [c, '{', c, '}'];
    forall i | 0 <= i < |rules[3..]|
      ensures rules[3..][i].c !in s3
    {
      assert rules[3..][i] == rules[i + 3];
    }
    SkipRules(s3, rules[3..]);
  }

  lemma BracesEscaped(c: char, t: string, rules: seq<Rule>)
    requires |rules| >= 3 && c != '{' && c != '}' && '{' !in t && '}' !in t
    requires rules[0] == Rule(c, t + "{}") && rules[1] == Rule('{', [c, '{']) && rules[2] == Rule('}', [c, '}'])
    ensures ApplyRules([c], rules) == ApplyRules(t + [c, '{', c, '}'], rules[3..])
  {
    var r1, r2, r3 := rules[1..], rules[2..], rules[3..];
    var s1, s2, s3 := t + ['{'] + "}", t + [c, '{'] + ['}'] + "", t + [c, '{', c, '}'];
    assert [] + [c] + [] == [c];
    RuleAt([], c, [], rules, s1);
    assert r1[1..] == r2;
    RuleAt(t, '{', "}", r1, s2);
    assert r2[1..] == r3;
    RuleAt(t + [c, '{'], '}', "", r2, s3);
  }

  lemma EscapeRulesHead()
    ensures |EscapeRules| == 10
    ensures EscapeRules[0] == Rule('\\', "\\textbackslash" + "{}")
    ensures EscapeRules[1] == Rule('{', ['\\', '{']) && EscapeRules[2] == Rule('}', ['\\', '}'])
  {
  }

  lemma EscapeRulesTail()
    ensures forall i :: 3 <= i < |EscapeRules| ==>
      EscapeRules[i].c !in "\\textbackslash" && EscapeRules[i].c !in "{}" && EscapeRules[i].c != '\\'
  {
  }

  lemma ChainBackslash(c: char)
    requires c == '\\'
    ensures ApplyRules([c], EscapeRules) == "\\textbackslash\\{\\}"
  {
    var t := "\\textbackslash";
    assert t + [c, '{', c, '}'] == "\\textbackslash\\{\\}";
    EscapeRulesHead();
    EscapeRulesTail();
    BackslashGen(c, t, EscapeRules);
  }

  lemma ChainOpenBrace(c: char)
    requires c == '{'
    ensures ApplyRules([c], EscapeRules) == "\\{"
  {
    OneRuleGen(c, EscapeRules, 1);
  }

  lemma ChainCloseBrace(c: char)
    requires c == '}'
    ensures ApplyRules([c], EscapeRules) == "\\}"
  {
    OneRuleGen(c, EscapeRules, 2);
  }

  lemma ChainDollar(c: char)
    requires c == '$'
    ensures ApplyRules([c], EscapeRules) == "\\$"
  {
    OneRuleGen(c, EscapeRules, 3);
  }

  lemma ChainAmpersand(c: char)
    requires c == '&'
    ensures ApplyRules([c], EscapeRules) == "\\&"
  {
    OneRuleGen(c, EscapeRules, 4);
  }

  lemma ChainPercent(c: char)
    requires c == '%'
    ensures ApplyRules([c], EscapeRules) == "\\%"
  {
    OneRuleGen(c, EscapeRules, 5);
  }

  lemma ChainHash(c: char)
    requires c == '#'
    ensures ApplyRules([c], EscapeRules) == "\\#"
  {
    OneRuleGen(c, EscapeRules, 6);
  }

  lemma ChainCaret(c: char)
    requires c == '^'
    ensures ApplyRules([c], EscapeRules) == "\\textasciicircum{}"
  {
    OneRuleGen(c, EscapeRules, 7);
  }

  lemma ChainUnderscore(c: char)
    requires c == '_'
    ensures ApplyRules([c], EscapeRules) == "\\_"
  {
    OneRuleGen(c, EscapeRules, 8);
  }

  lemma ChainTilde(c: char)
    requires c == '~'
    ensures ApplyRules([c], EscapeRules) == "\\textasciitilde{}"
  {
    OneRuleGen(c, EscapeRules, 9);
  }

  lemma ChainPlain(c: char)
    requires !IsSpecial(c)
    ensures ApplyRules([c], EscapeRules) == [c]
  {
    SkipRules([c], EscapeRules);
  }

  /** One character through the chain comes out as its escape. */
  lemma ChainChar(c: char)
    ensures ApplyRules([c], EscapeRules) == EscapeChar(c)
  {
    match c
    case '\\' => ChainBackslash(c);
    case '{' => ChainOpenBrace(c);
    case '}' => ChainCloseBrace(c);
    case '$' => ChainDollar(c);
    case '&' => ChainAmpersand(c);
    case '%' => ChainPercent(c);
    case '#' => ChainHash(c);
    case '^' => ChainCaret(c);
    case '_' => ChainUnderscore(c);
    case '~' => ChainTilde(c);
    case _ => ChainPlain(c);
  }

  /** Each character run through the rules on its own, left to right. */
  function ApplyEach(s: string, rules: seq<Rule>): string {
    if s == [] then [] else ApplyRules([s[0]], rules) + ApplyEach(s[1..], rules)
  }

  /** Replacement chains work character by character. */
  lemma {:induction false} RulesPerChar(s: string, rules: seq<Rule>)
    ensures ApplyRules(s, rules) == ApplyEach(s, rules)
  {
    if s == [] {
      SkipRules(s, rules);
    } else {
      RulesPerChar(s[1..], rules);
      RulesAppend([s[0]], s[1..], rules);
      assert [s[0]] + s[1..] == s;
    }
  }

  lemma {:induction false} EachChainChar(s: string)
    ensures ApplyEach(s, EscapeRules) == EscapeEach(s)
  {
    if s != [] {
      EachChainChar(s[1..]);
      ChainChar(s[0]);
    }
  }

  /** The chain of replacements is the single pass that escapes every
      character on its own. */
  lemma EscapeIsPerChar(s: string)
    ensures EscapeLatex(s) == EscapeEach(s)
  {
    if s != [] {
      RulesPerChar(s, EscapeRules);
      EachChainChar(s);
    }
  }

  /** `escapeLatex` changes a string exactly when it holds one of
      `\ { } $ & % # ^ _ ~`. */
  lemma {:induction false} EscapeIdentity(s: string)
    ensures EscapeLatex(s) == s <==> forall i :: 0 <= i < |s| ==> !IsSpecial(s[i])
  {
    EscapeIsPerChar(s);
    EscapeEachIdentity(s);
  }

  lemma {:induction false} EscapeEachIdentity(s: string)
    ensures |EscapeEach(s)| >= |s|
    ensures EscapeEach(s) == s <==> forall i :: 0 <= i < |s| ==> !IsSpecial(s[i])
  {
    if s != [] {
      EscapeEachIdentity(s[1..]);
      var e := EscapeChar(s[0]);
      assert EscapeEach(s) == e + EscapeEach(s[1..]);
      if IsSpecial(s[0]) {
        assert |EscapeEach(s)| > |s|;
      } else {
        assert s == [s[0]] + s[1..];
        assert forall i :: 1 <= i < |s| ==> s[i] == s[1..][i - 1];
      }
    }
  }

  /** The backslash comes out as `\textbackslash\{\}` and the caret as
      `\textasciicircum{}` with its braces left alone. */
  lemma BackslashAndCaret(b: char, c: char)
    requires b == '\\' && c == '^'
    ensures EscapeLatex([b]) == "\\textbackslash\\{\\}"
    ensures EscapeLatex([c]) == "\\textasciicircum{}"
  {
    ChainBackslash(b);
    ChainCaret(c);
  }

  // ------------------------------------------------------------------- URLs

  /** `url.replace(/^https?:\/\//, '')` */
  function StripProtocol(url: string): (d: string)
    ensures |d| <= |url| && url[|url| - |d|..] == d
  {
    if "https://" <= url then url[8..]
    else if "http://" <= url then url[7..]
    else url
  }

  /** `formatUrl(url)` */
  function FormatUrl(url: string): (r: string)
    ensures url == "" <==> r == ""
    ensures url != "" ==> "\\href{https://www." <= r
  {
    if url == "" then ""
    else
      var d := StripProtocol(url);
      var www := if "www." <= d then "" else "www.";
      assert "\\href{https://www." <= "\\href{https://" + www + d by {
        if www == "" {
          assert "\\href{https://" + www + d == "\\href{https://" + d;
        }
      }
      "\\href{https://" + www + d + "}{\\underline{" + d + "}}"
  }

  /** The protocol does not matter: `http://`, `https://` or none give the
      same link. */
  lemma ProtocolIgnored(u: string)
    requires u != "" && !("http://" <= u) && !("https://" <= u)
    ensures FormatUrl("http://" + u) == FormatUrl("https://" + u) == FormatUrl(u)
  {
    assert !("https://" <= "http://" + u) by {
      assert ("http://" + u)[4] == ':';
    }
    assert ("http://" + u)[7..] == u;
    assert ("https://" + u)[8..] == u;
  }
}
