/**
 Host patterns and the rule pipeline of the egress sidecar
 (native/condukt_egress/src/proxy/policy.rs).
 */
module HostPolicy {
  import opened Common

  datatype Token = Literal(text: string) | Star | DoubleStar

  // ---------------------------------------------------------------- compile

  /** Characters before the first star. */
  function LiteralLength(p: string): (n: nat)
    ensures n <= |p|
    ensures forall i :: 0 <= i < n ==> p[i] != '*'
    ensures n < |p| ==> p[n] == '*'
  {
    if p == [] || p[0] == '*' then 0 else 1 + LiteralLength(p[1..])
  }

  function Printed(t: Token): string {
    match t case Literal(text) => text case Star => "*" case DoubleStar => "**"
  }

  function Print(tokens: seq<Token>): string {
    if tokens == [] then "" else Printed(tokens[0]) + Print(tokens[1..])
  }

  predicate NormalToken(t: Token) { t.Literal? ==> t.text != "" && '*' !in t.text }

  predicate MayFollow(t: Token, next: Token) {
    (t.Literal? ==> !next.Literal?) && (t.Star? ==> next.Literal?)
  }

  /** Star-free nonempty literals, no two in a row, and no single star before a star. */
  predicate Normal(tokens: seq<Token>) {
    && (forall i :: 0 <= i < |tokens| ==> NormalToken(tokens[i]))
    && (forall i :: 0 <= i < |tokens| - 1 ==> MayFollow(tokens[i], tokens[i + 1]))
  }

  /** The first token of a nonempty pattern; it covers |Printed(t)| characters. */
  function Head(p: string): (t: Token)
    requires p != []
    ensures Printed(t) != "" && Printed(t) <= p && NormalToken(t)
    ensures t.Literal? <==> p[0] != '*'
    ensures var n := |Printed(t)|; n < |p| && !t.DoubleStar? ==> (t.Literal? <==> p[n] == '*')
  {
    if p[0] != '*' then Literal(p[..LiteralLength(p)])
    else if |p| > 1 && p[1] == '*' then DoubleStar
    else Star
  }

  /** The token list of a pattern. */
  function Tokens(p: string): seq<Token>
    decreases |p|
  {
    if p == [] then [] else [Head(p)] + Tokens(p[|Printed(Head(p))|..])
  }

  lemma {:induction false} TokensNormal(p: string)
    ensures Normal(Tokens(p))
    ensures p != [] ==> Tokens(p) != [] && Tokens(p)[0] == Head(p)
    decreases |p|
  {
    if p == [] {
    } else {
      var q := p[|Printed(Head(p))|..];
      TokensNormal(q);
      var ts, rest := Tokens(p), Tokens(q);
      assert ts == [Head(p)] + rest;
      forall i | 0 <= i < |ts| - 1
        ensures MayFollow(ts[i], ts[i + 1])
      {
        if i == 0 { assert q != []; } else { assert ts[i] == rest[i - 1] && ts[i + 1] == rest[i]; }
      }
    }
  }

  lemma PrintOfCons(t: Token, rest: seq<Token>)
    ensures Print([t] + rest) == Printed(t) + Print(rest)
  {
    assert ([t] + rest)[1..] == rest;
  }

  lemma TokensOfHead(p: string) returns (t: Token, q: string)
    requires p != []
    ensures p == Printed(t) + q && |q| < |p| && Tokens(p) == [t] + Tokens(q)
  {
    t := Head(p);
    q := p[|Printed(t)|..];
  }

  /** Printing what a pattern compiles to gives the pattern back. */
  lemma {:induction false} PrintOfTokens(p: string)
    ensures Print(Tokens(p)) == p
    decreases |p|
  {
    if p == [] {
    } else {
      var t, q := TokensOfHead(p);
      PrintOfTokens(q);
      PrintOfCons(t, Tokens(q));
    }
  }

  /** A token in front of text that may follow it is the head of the whole. */
  lemma HeadOfPrinted(t: Token, rest: string)
    requires NormalToken(t)
    requires rest != [] ==> (t.Literal? ==> rest[0] == '*') && (t.Star? ==> rest[0] != '*')
    ensures Printed(t) + rest != [] && Head(Printed(t) + rest) == t
  {
    if t.Literal? {
      var p := t.text + rest;
      assert forall k :: 0 <= k < |t.text| ==> p[k] == t.text[k] && t.text[k] in t.text;
      assert rest != [] ==> p[|t.text|] == rest[0];
      assert LiteralLength(p) == |t.text|;
      assert p[..|t.text|] == t.text;
    }
  }

  lemma {:induction false} TokensOfPrint(ts: seq<Token>)
    requires Normal(ts)
    ensures Tokens(Print(ts)) == ts
  {
    if ts == [] {
    } else {
      TokensOfPrint(ts[1..]);
      var rest := Print(ts[1..]);
      if |ts| > 1 {
        assert MayFollow(ts[0], ts[1]) && NormalToken(ts[1]);
        assert rest == Printed(ts[1]) + Print(ts[1..][1..]);
      }
      HeadOfPrinted(ts[0], rest);
      assert (Printed(ts[0]) + rest)[|Printed(ts[0])|..] == rest;
    }
  }

  /** Compiling a printed token list gives it back for exactly the normal forms. */
  lemma NormalFormsAreTheImages(ts: seq<Token>)
    ensures Tokens(Print(ts)) == ts <==> Normal(ts)
  {
    if Normal(ts) { TokensOfPrint(ts); }
    TokensNormal(Print(ts));
  }

  /** `tokens` covers everything of `pattern` up to `rest`. */
  predicate Covered(pattern: string, tokens: seq<Token>, rest: string) {
    tokens + Tokens(rest) == Tokens(pattern)
  }

  lemma CoverToken(pattern: string, tokens: seq<Token>, t: Token, p: string, rest: string)
    requires Covered(pattern, tokens, p) && p == Printed(t) + rest && NormalToken(t)
    requires rest != [] ==> (t.Literal? ==> rest[0] == '*') && (t.Star? ==> rest[0] != '*')
    ensures Covered(pattern, tokens + [t], rest)
  {
    HeadOfPrinted(t, rest);
    assert p[|Printed(t)|..] == rest;
    assert tokens + [t] + Tokens(rest) == tokens + ([t] + Tokens(rest));
  }

  /** The compiler loop: one pass over the characters with a literal being collected. */
  method Compile(pattern: string) returns (tokens: seq<Token>)
    ensures tokens == Tokens(pattern)
    ensures Print(tokens) == pattern && Normal(tokens)
  {
    tokens := [];
    var i := 0;
    var literal := "";
    assert literal + pattern[i..] == pattern;
    while i < |pattern|
      invariant 0 <= i <= |pattern|
      invariant '*' !in literal
      invariant Covered(pattern, tokens, literal + pattern[i..])
    {
      if pattern[i] == '*' {
        tokens := PushLiteral(pattern, tokens, literal, pattern[i..]);
        tokens, i := PushStars(pattern, tokens, i);
        literal := "";
        assert literal + pattern[i..] == pattern[i..];
      } else {
        ShiftChar(literal, pattern, i);
        literal := literal + [pattern[i]];
        i := i + 1;
      }
    }
    assert pattern[i..] == "";
    tokens := PushLiteral(pattern, tokens, literal, "");
    CoveredAll(pattern, tokens);
  }

  /** The literal collected so far, if any, becomes a token. */
  method PushLiteral(pattern: string, tokens: seq<Token>, literal: string, ghost rest: string)
    returns (tokens': seq<Token>)
    requires '*' !in literal && (rest == [] || rest[0] == '*') && Covered(pattern, tokens, literal + rest)
    ensures Covered(pattern, tokens', rest)
  {
    if literal != "" {
      CoverToken(pattern, tokens, Literal(literal), literal + rest, rest);
      tokens' := tokens + [Literal(literal)];
    } else {
      assert literal + rest == rest;
      tokens' := tokens;
    }
  }

  lemma ShiftChar(literal: string, pattern: string, i: nat)
    requires i < |pattern|
    ensures literal + [pattern[i]] + pattern[i + 1..] == literal + pattern[i..]
  {
  }

  lemma CoveredAll(pattern: string, tokens: seq<Token>)
    requires Covered(pattern, tokens, "")
    ensures tokens == Tokens(pattern) && Print(tokens) == pattern && Normal(tokens)
  {
    TokensNormal(pattern);
    PrintOfTokens(pattern);
  }

  lemma StarsAhead(pattern: string, i: nat)
    requires i < |pattern| && pattern[i] == '*'
    ensures pattern[i..] == Printed(Star) + pattern[i + 1..]
    ensures i + 1 < |pattern| && pattern[i + 1] == '*' ==> pattern[i..] == Printed(DoubleStar) + pattern[i + 2..]
  {
  }

  /** The star branch of the loop: two stars in a row are one token. */
  method PushStars(pattern: string, tokens: seq<Token>, i: nat) returns (tokens': seq<Token>, i': nat)
    requires i < |pattern| && pattern[i] == '*' && Covered(pattern, tokens, pattern[i..])
    ensures i < i' <= |pattern| && Covered(pattern, tokens', pattern[i'..])
  {
    StarsAhead(pattern, i);
    if i + 1 < |pattern| && pattern[i + 1] == '*' {
      CoverToken(pattern, tokens, DoubleStar, pattern[i..], pattern[i + 2..]);
      return tokens + [DoubleStar], i + 2;
    } else {
      CoverToken(pattern, tokens, Star, pattern[i..], pattern[i + 1..]);
      return tokens + [Star], i + 1;
    }
  }

  // ---------------------------------------------------------------- matching

  /** Index of the first dot, or the length. */
  function DotAt(s: string): (n: nat)
    ensures n <= |s| && '.' !in s[..n] && (n < |s| ==> s[n] == '.')
  {
    if s == [] || s[0] == '.' then 0
    else
      var n := 1 + DotAt(s[1..]);
      assert s[..n] == [s[0]] + s[1..][..n - 1];
      n
  }

  /** The matcher: a star takes everything up to the next dot and never gives any back;
      a double star tries every nonempty length. */
  predicate Match(tokens: seq<Token>, input: string)
    decreases |tokens|
  {
    if tokens == [] then input == []
    else match tokens[0]
      case Literal(text) => text <= input && Match(tokens[1..], input[|text|..])
      case Star => DotAt(input) > 0 && Match(tokens[1..], input[DotAt(input)..])
      case DoubleStar => exists k | 1 <= k <= |input| :: Match(tokens[1..], input[k..])
  }

  /** What one token stands for. */
  predicate Accepts(t: Token, part: string) {
    match t
    case Literal(text) => part == text
    case Star => part != [] && '.' !in part
    case DoubleStar => part != []
  }

  /** The language of a token list: inputs that split into one accepted part per token. */
  ghost predicate InLanguage(tokens: seq<Token>, input: string) {
    exists parts :: Splits(Accepts, tokens, parts, input)
  }

  /** The matcher accepts nothing outside the language, for any token list. */
  lemma MatchIsSound(tokens: seq<Token>, input: string)
    ensures Match(tokens, input) ==> InLanguage(tokens, input)
  {
    if Match(tokens, input) {
      var parts := MatchGivesGreedySplit(tokens, input);
    }
  }

  /** What a star stands for runs up to the next dot or the end. */
  predicate StarsRunOn(tokens: seq<Token>, parts: seq<string>)
    requires |parts| == |tokens|
  {
    forall i :: 0 <= i < |tokens| && tokens[i].Star? ==>
      Concat(parts[i + 1..]) == [] || Concat(parts[i + 1..])[0] == '.'
  }

  lemma {:induction false} MatchGivesGreedySplit(tokens: seq<Token>, input: string) returns (parts: seq<string>)
    requires Match(tokens, input)
    ensures Splits(Accepts, tokens, parts, input) && StarsRunOn(tokens, parts)
    decreases |tokens|
  {
    if tokens == [] {
      parts := [];
    } else {
      var k: nat;
      match tokens[0] {
        case Literal(text) => k := |text|;
        case Star => k := DotAt(input);
        case DoubleStar => k :| 1 <= k <= |input| && Match(tokens[1..], input[k..]);
      }
      var rest := MatchGivesGreedySplit(tokens[1..], input[k..]);
      SplitsCons(Accepts, tokens, input[..k], rest, input[k..]);
      assert input == input[..k] + input[k..];
      parts := [input[..k]] + rest;
      StarsRunOnCons(tokens, input[..k], rest);
    }
  }

  lemma StarsRunOnCons(tokens: seq<Token>, part: string, rest: seq<string>)
    requires |tokens| == |rest| + 1 && StarsRunOn(tokens[1..], rest)
    requires tokens[0].Star? ==> Concat(rest) == [] || Concat(rest)[0] == '.'
    ensures StarsRunOn(tokens, [part] + rest)
  {
    var parts := [part] + rest;
    forall i | 0 <= i < |tokens| && tokens[i].Star?
      ensures Concat(parts[i + 1..]) == [] || Concat(parts[i + 1..])[0] == '.'
    {
      assert parts[i + 1..] == rest[i..];
      if i == 0 {
        assert rest[0..] == rest;
      } else {
        assert tokens[1..][i - 1] == tokens[i];
      }
    }
  }

  lemma {:induction false} MatchAcceptsGreedySplit(tokens: seq<Token>, parts: seq<string>, input: string)
    requires Splits(Accepts, tokens, parts, input) && StarsRunOn(tokens, parts)
    ensures Match(tokens, input)
    decreases |tokens|
  {
    if tokens == [] {
    } else {
      var k, rest := |parts[0]|, Concat(parts[1..]);
      assert input == parts[0] + rest && input[k..] == rest && input[..k] == parts[0];
      assert Accepts(tokens[0], parts[0]);
      StarsRunOnTail(tokens, parts);
      MatchAcceptsGreedySplit(tokens[1..], parts[1..], rest);
      if tokens[0].Star? {
        DotAtBoundary(input, k);
      }
    }
  }

  lemma StarsRunOnTail(tokens: seq<Token>, parts: seq<string>)
    requires |parts| == |tokens| > 0 && StarsRunOn(tokens, parts)
    ensures StarsRunOn(tokens[1..], parts[1..])
  {
    forall i | 0 <= i < |tokens| - 1 && tokens[1..][i].Star?
      ensures Concat(parts[1..][i + 1..]) == [] || Concat(parts[1..][i + 1..])[0] == '.'
    {
      assert tokens[1..][i] == tokens[i + 1] && parts[1..][i + 1..] == parts[i + 2..];
    }
  }

  /** For every token list the matcher accepts exactly the inputs that split into one part per
      token such that the part of each star runs up to the next dot or the end. */
  lemma MatchIsGreedySplitting(tokens: seq<Token>, input: string)
    ensures Match(tokens, input) <==>
            exists parts :: Splits(Accepts, tokens, parts, input) && StarsRunOn(tokens, parts)
  {
    if Match(tokens, input) {
      var parts := MatchGivesGreedySplit(tokens, input);
    }
    forall parts | Splits(Accepts, tokens, parts, input) && StarsRunOn(tokens, parts)
      ensures Match(tokens, input)
    {
      MatchAcceptsGreedySplit(tokens, parts, input);
    }
  }

  predicate StartsWithDot(t: Token) { t.Literal? && t.text != "" && t.text[0] == '.' }

  /** Every single star is last or stands before a literal that begins with a dot. */
  predicate StarsMeetDots(tokens: seq<Token>) {
    forall i :: 0 <= i < |tokens| - 1 && tokens[i].Star? ==> StartsWithDot(tokens[i + 1])
  }

  lemma MatchAcceptsSplit(tokens: seq<Token>, parts: seq<string>, input: string)
    requires StarsMeetDots(tokens) && Splits(Accepts, tokens, parts, input)
    ensures Match(tokens, input)
  {
    forall i | 0 <= i < |tokens| && tokens[i].Star?
      ensures Concat(parts[i + 1..]) == [] || Concat(parts[i + 1..])[0] == '.'
    {
      if i + 1 < |tokens| {
        assert Accepts(tokens[i + 1], parts[i + 1]);
        assert Concat(parts[i + 1..]) == parts[i + 1] + Concat(parts[i + 1..][1..]);
      }
    }
    MatchAcceptsGreedySplit(tokens, parts, input);
  }

  lemma DotAtBoundary(s: string, k: nat)
    requires k <= |s| && '.' !in s[..k] && (k < |s| ==> s[k] == '.')
    ensures DotAt(s) == k
  {
  }

  // Completeness fails for every other pattern: such a star lets the matcher accept only
  // inputs with more dots than the pattern itself needs.

  function Dots(s: string): nat {
    if s == [] then 0 else (if s[0] == '.' then 1 else 0) + Dots(s[1..])
  }

  lemma {:induction false} DotsOfConcat(a: string, b: string)
    ensures Dots(a + b) == Dots(a) + Dots(b)
  {
    if a == [] {
      assert a + b == b;
    } else {
      DotsOfConcat(a[1..], b);
      assert (a + b)[1..] == a[1..] + b;
    }
  }

  /** The dots in the literals, plus one for each star that does not meet a dot. */
  function DotsNeeded(tokens: seq<Token>): nat {
    if tokens == [] then 0
    else DotsNeeded(tokens[1..])
         + (if tokens[0].Literal? then Dots(tokens[0].text)
            else if tokens[0].Star? && |tokens| > 1 && !StartsWithDot(tokens[1]) then 1 else 0)
  }

  lemma {:induction false} MatchNeedsDots(tokens: seq<Token>, input: string)
    requires forall t :: t in tokens ==> NormalToken(t)
    requires Match(tokens, input)
    ensures Dots(input) >= DotsNeeded(tokens)
    ensures tokens != [] && tokens[0].DoubleStar? && input[0] == '.' ==> Dots(input) >= DotsNeeded(tokens) + 1
    decreases |tokens|
  {
    if tokens == [] {
    } else {
      var k: nat;
      match tokens[0] {
        case Literal(text) => k := |text|;
        case Star => k := DotAt(input);
        case DoubleStar => k :| 1 <= k <= |input| && Match(tokens[1..], input[k..]);
      }
      MatchNeedsDots(tokens[1..], input[k..]);
      assert input == input[..k] + input[k..];
      DotsOfConcat(input[..k], input[k..]);
      assert tokens[0].Literal? ==> input[..k] == tokens[0].text;
      if tokens[0].DoubleStar? {
        assert input[..k][0] == input[0];
      }
      if tokens[0].Star? && |tokens| > 1 && !StartsWithDot(tokens[1]) {
        var next, left := tokens[1..][0], input[k..];
        assert NormalToken(next);
        assert left == [] || left[0] == '.';
        assert next.DoubleStar?;
      }
    }
  }

  /** The plainest member of the language: one letter per star. */
  function Plainest(tokens: seq<Token>): seq<string> {
    seq(|tokens|, i requires 0 <= i < |tokens| => if tokens[i].Literal? then tokens[i].text else "a")
  }

  lemma {:induction false} PlainestSplits(tokens: seq<Token>)
    ensures Splits(Accepts, tokens, Plainest(tokens), Concat(Plainest(tokens)))
    ensures StarsMeetDots(tokens) || Dots(Concat(Plainest(tokens))) < DotsNeeded(tokens)
    ensures Dots(Concat(Plainest(tokens))) <= DotsNeeded(tokens)
  {
    if tokens == [] {
    } else {
      var parts := Plainest(tokens);
      PlainestSplits(tokens[1..]);
      assert parts[1..] == Plainest(tokens[1..]);
      DotsOfConcat(parts[0], Concat(parts[1..]));
      assert Dots("a") == 0;
      if !StarsMeetDots(tokens) && StarsMeetDots(tokens[1..]) {
        var i :| 0 <= i < |tokens| - 1 && tokens[i].Star? && !StartsWithDot(tokens[i + 1]);
        assert i == 0;
      }
    }
  }

  /** A pattern matches its whole language exactly when each of its single stars is last
      or stands before a dot. */
  lemma MatchIsCompleteExactlyWhenStarsMeetDots(pattern: string)
    ensures (forall host :: InLanguage(Tokens(pattern), host) ==> Match(Tokens(pattern), host))
            <==> StarsMeetDots(Tokens(pattern))
  {
    var tokens := Tokens(pattern);
    if StarsMeetDots(tokens) {
      forall host | InLanguage(tokens, host)
        ensures Match(tokens, host)
      {
        var parts :| Splits(Accepts, tokens, parts, host);
        MatchAcceptsSplit(tokens, parts, host);
      }
    } else {
      TokensNormal(pattern);
      PlainestSplits(tokens);
      var host := Concat(Plainest(tokens));
      assert InLanguage(tokens, host);
      if Match(tokens, host) {
        MatchNeedsDots(tokens, host);
      }
    }
  }

  // ------------------------------------------------------------ rule pipeline

  datatype Rule = Allow(hosts: seq<string>) | Deny(hosts: seq<string>) | Decide
  datatype Default = DefaultAllow | DefaultDeny
  datatype Policy = Policy(rules: seq<Rule>, default: Default)

  datatype DenyReason = MatchedDenyList | ByDefault
  datatype Decision = Allowed | Denied(reason: DenyReason) | Ask
  datatype Outcome = Outcome(decision: Decision, matchedRule: Option<nat>)

  predicate MatchesOne(host: string, pattern: string) { Match(Tokens(Lower(pattern)), host) }

  predicate MatchesAny(host: string, patterns: seq<string>) {
    exists i | 0 <= i < |patterns| :: MatchesOne(host, patterns[i])
  }

  /** The rule does not pass the host on to the next one. */
  predicate Fires(rule: Rule, host: string) {
    rule.Decide? || MatchesAny(Lower(host), rule.hosts)
  }

  function FirstFiring(rules: seq<Rule>, host: string): (n: nat)
    ensures n <= |rules|
    ensures forall i :: 0 <= i < n ==> !Fires(rules[i], host)
    ensures n < |rules| ==> Fires(rules[n], host)
  {
    if rules == [] || Fires(rules[0], host) then 0 else 1 + FirstFiring(rules[1..], host)
  }

  function RuleDecision(rule: Rule): Decision {
    match rule case Allow(_) => Allowed case Deny(_) => Denied(MatchedDenyList) case Decide => Ask
  }

  function Evaluate(policy: Policy, host: string): Outcome {
    var n := FirstFiring(policy.rules, host);
    if n < |policy.rules| then Outcome(RuleDecision(policy.rules[n]), Some(n))
    else Outcome(if policy.default == DefaultAllow then Allowed else Denied(ByDefault), None)
  }

  /** Rule n is the first that does not pass the host on. */
  predicate Decides(policy: Policy, host: string, n: int) {
    0 <= n < |policy.rules| && Fires(policy.rules[n], host) && forall m :: 0 <= m < n ==> !Fires(policy.rules[m], host)
  }

  predicate NoneDecides(policy: Policy, host: string) {
    forall m :: 0 <= m < |policy.rules| ==> !Fires(policy.rules[m], host)
  }

  /** An Allow rule decides, or no rule does and the default allows. */
  ghost predicate Permits(policy: Policy, host: string) {
    || (exists n :: Decides(policy, host, n) && policy.rules[n].Allow?)
    || (NoneDecides(policy, host) && policy.default == DefaultAllow)
  }

  /** A Deny rule decides. */
  ghost predicate Forbids(policy: Policy, host: string) {
    exists n :: Decides(policy, host, n) && policy.rules[n].Deny?
  }

  /** No rule decides and the default denies. */
  predicate FallsToDenial(policy: Policy, host: string) {
    NoneDecides(policy, host) && policy.default == DefaultDeny
  }

  /** A Decide rule decides. */
  ghost predicate Defers(policy: Policy, host: string) {
    exists n :: Decides(policy, host, n) && policy.rules[n].Decide?
  }

  /** What each kind of rule and each default answers, and which rule is named. */
  lemma DecisionIsTheFirstRules(policy: Policy, host: string)
    ensures var r := Evaluate(policy, host);
            && (r.decision == Allowed <==> Permits(policy, host))
            && (r.decision == Denied(MatchedDenyList) <==> Forbids(policy, host))
            && (r.decision == Denied(ByDefault) <==> FallsToDenial(policy, host))
            && (r.decision == Ask <==> Defers(policy, host))
            && (forall n :: r.matchedRule == Some(n) <==> Decides(policy, host, n))
            && (r.matchedRule.None? <==> NoneDecides(policy, host))
  {
    var n := FirstFiring(policy.rules, host);
    forall m | Decides(policy, host, m)
      ensures m == n
    {
    }
    if n < |policy.rules| { assert Decides(policy, host, n); }
  }

  /** The evaluation loop returns at the first rule that fires and names it; the default
      answers exactly when none does. */
  method RunPipeline(policy: Policy, host: string) returns (r: Outcome)
    ensures r == Evaluate(policy, host)
    ensures match r.matchedRule
            case Some(n) =>
              && Decides(policy, host, n)
              && (match policy.rules[n]
                  case Allow(_) => r.decision == Allowed
                  case Deny(_) => r.decision == Denied(MatchedDenyList)
                  case Decide => r.decision == Ask)
            case None =>
              && NoneDecides(policy, host)
              && r.decision == (if policy.default == DefaultAllow then Allowed else Denied(ByDefault))
  {
    var index := 0;
    var lowered := Lower(host);
    while index < |policy.rules|
      invariant 0 <= index <= |policy.rules|
      invariant forall i :: 0 <= i < index ==> !Fires(policy.rules[i], host)
    {
      match policy.rules[index] {
        case Allow(hosts) => if MatchesAny(lowered, hosts) { return Outcome(Allowed, Some(index)); }
        case Deny(hosts) => if MatchesAny(lowered, hosts) { return Outcome(Denied(MatchedDenyList), Some(index)); }
        case Decide => return Outcome(Ask, Some(index));
      }
      index := index + 1;
    }
    r := Outcome(match policy.default case DefaultAllow => Allowed case DefaultDeny => Denied(ByDefault), None);
  }

  /** Letter case never matters, neither in the host nor in a pattern. */
  lemma CaseNeverMatters(policy: Policy, policy': Policy, host: string, host': string)
    requires Lower(host) == Lower(host') && policy.default == policy'.default && |policy.rules| == |policy'.rules|
    requires forall i :: 0 <= i < |policy.rules| ==> SameButForCase(policy.rules[i], policy'.rules[i])
    ensures Evaluate(policy, host) == Evaluate(policy', host')
  {
    forall i | 0 <= i < |policy.rules|
      ensures Fires(policy.rules[i], host) <==> Fires(policy'.rules[i], host')
    {
      FiresWhateverCase(policy.rules[i], policy'.rules[i], host, host');
    }
    assert FirstFiring(policy.rules, host) == FirstFiring(policy'.rules, host');
  }

  lemma FiresWhateverCase(rule: Rule, rule': Rule, host: string, host': string)
    requires SameButForCase(rule, rule') && Lower(host) == Lower(host')
    ensures Fires(rule, host) <==> Fires(rule', host')
  {
    if !rule.Decide? {
      forall i | 0 <= i < |rule.hosts|
        ensures MatchesOne(Lower(host), rule.hosts[i]) == MatchesOne(Lower(host'), rule'.hosts[i])
      {
      }
    }
  }

  predicate SameButForCase(rule: Rule, rule': Rule) {
    && (rule.Allow? <==> rule'.Allow?) && (rule.Deny? <==> rule'.Deny?)
    && (!rule.Decide? ==> |rule.hosts| == |rule'.hosts|
                          && forall i :: 0 <= i < |rule.hosts| ==> Lower(rule.hosts[i]) == Lower(rule'.hosts[i]))
  }

  /** The pattern splits the host, letter case aside, with stars running up to the next dot
      or the end. */
  ghost predicate Covers(pattern: string, host: string) {
    var tokens := Tokens(Lower(pattern));
    exists parts :: Splits(Accepts, tokens, parts, Lower(host)) && StarsRunOn(tokens, parts)
  }

  /** A rule fires exactly on the hosts one of its patterns covers. */
  lemma FiresOnCovered(rule: Rule, host: string)
    requires !rule.Decide?
    ensures Fires(rule, host) <==> exists i :: 0 <= i < |rule.hosts| && Covers(rule.hosts[i], host)
  {
    forall i | 0 <= i < |rule.hosts|
      ensures MatchesOne(Lower(host), rule.hosts[i]) <==> Covers(rule.hosts[i], host)
    {
      MatchIsGreedySplitting(Tokens(Lower(rule.hosts[i])), Lower(host));
    }
  }

  /** When every pattern is one the matcher is complete for, a rule fires exactly on the
      union of its patterns' languages. */
  lemma FiresOnLanguages(rule: Rule, host: string)
    requires !rule.Decide?
    requires forall i :: 0 <= i < |rule.hosts| ==> StarsMeetDots(Tokens(Lower(rule.hosts[i])))
    ensures Fires(rule, host) <==>
            exists i :: 0 <= i < |rule.hosts| && InLanguage(Tokens(Lower(rule.hosts[i])), Lower(host))
  {
    forall i | 0 <= i < |rule.hosts|
      ensures MatchesOne(Lower(host), rule.hosts[i]) <==> InLanguage(Tokens(Lower(rule.hosts[i])), Lower(host))
    {
      MatchIsSound(Tokens(Lower(rule.hosts[i])), Lower(host));
      MatchIsCompleteExactlyWhenStarsMeetDots(Lower(rule.hosts[i]));
    }
  }
}
