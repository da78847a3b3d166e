/** Subjects of the local queue: how a publisher prints one, how it splits into tokens,
    and which subjects the stream and its consumer select. */
module Messages {

  datatype Source = Projects | Server | Docker | Agent

  function SourceValue(source: Source): string {
    match source
    case Projects => "projects"
    case Server => "server"
    case Docker => "docker"
    case Agent => "agent"
  }

  function Dot(a: string, b: string): string {
    a + "." + b
  }

  function BuildSubject(prefix: string, agentId: string, source: Source): string {
    Dot(Dot(Dot(prefix, "agents"), agentId), SourceValue(source))
  }

  /** The pattern that both the stream and the consumer are declared with. */
  function FilterSubject(prefix: string): string {
    Dot(Dot(Dot(prefix, "agents"), "*"), ">")
  }

  /** The subject of the publisher that exists only to declare the stream. */
  function DeclareSubject(prefix: string): string {
    Dot(Dot(prefix, "agents"), "_declare")
  }

  // ---- Tokens of a subject ----

  function PrependChar(c: char, tokens: seq<string>): (r: seq<string>)
    requires |tokens| >= 1
    ensures |r| >= 1
  {
    if c == '.' then [""] + tokens else [[c] + tokens[0]] + tokens[1..]
  }

  function Tokens(subject: string): (tokens: seq<string>)
    ensures |tokens| >= 1
  {
    if subject == "" then [""] else PrependChar(subject[0], Tokens(subject[1..]))
  }

  predicate DotFree(s: string) {
    '.' !in s
  }

  lemma {:induction false} TokensOfDotFree(s: string)
    requires DotFree(s)
    ensures Tokens(s) == [s]
  {
    if s == "" {
    } else {
      TokensOfDotFree(s[1..]);
      assert [s[0]] + s[1..] == s;
    }
  }

  lemma PrependCharConcat(c: char, a: seq<string>, b: seq<string>)
    requires |a| >= 1
    ensures PrependChar(c, a + b) == PrependChar(c, a) + b
  {
    if c == '.' {
      assert [""] + (a + b) == ([""] + a) + b;
    } else {
      var first := [[c] + a[0]];
      assert (a + b)[0] == a[0] && (a + b)[1..] == a[1..] + b;
      assert first + (a[1..] + b) == (first + a[1..]) + b;
    }
  }

  /** A dot separates: tokens of `a.b` are the tokens of `a` followed by those of `b`. */
  lemma {:induction false} TokensOfDotted(a: string, b: string)
    ensures Tokens(Dot(a, b)) == Tokens(a) + Tokens(b)
  {
    if a == "" {
      assert Dot(a, b)[0] == '.' && Dot(a, b)[1..] == b;
      assert Tokens(a) == [""];
    } else {
      assert Dot(a, b)[0] == a[0] && Dot(a, b)[1..] == Dot(a[1..], b);
      TokensOfDotted(a[1..], b);
      PrependCharConcat(a[0], Tokens(a[1..]), Tokens(b));
    }
  }

  lemma TokensUnderPrefix(prefix: string, name: string)
    requires DotFree(name)
    ensures Tokens(Dot(Dot(prefix, "agents"), name)) == Tokens(prefix) + ["agents", name]
  {
    TokensOfDotFree("agents");
    TokensOfDotFree(name);
    TokensOfDotted(prefix, "agents");
    TokensOfDotted(Dot(prefix, "agents"), name);
  }

  lemma TokensOfLeaf(prefix: string, name: string, leaf: string)
    requires DotFree(name) && DotFree(leaf)
    ensures Tokens(Dot(Dot(Dot(prefix, "agents"), name), leaf)) == Tokens(prefix) + ["agents", name, leaf]
  {
    TokensUnderPrefix(prefix, name);
    TokensOfDotFree(leaf);
    TokensOfDotted(Dot(Dot(prefix, "agents"), name), leaf);
  }

  // ---- Reading a subject back ----

  function SourceOf(value: string): (source: seq<Source>)
    ensures forall s :: source == [s] <==> value == SourceValue(s)
  {
    if value == "projects" then [Projects]
    else if value == "server" then [Server]
    else if value == "docker" then [Docker]
    else if value == "agent" then [Agent]
    else []
  }

  /** Agent id and source are the last two tokens; the empty answer means "not such a subject". */
  function ParseSubject(subject: string): seq<(string, Source)> {
    var tokens := Tokens(subject);
    if |tokens| < 3 || tokens[|tokens| - 3] != "agents" then []
    else
      var source := SourceOf(tokens[|tokens| - 1]);
      if source == [] then [] else [(tokens[|tokens| - 2], source[0])]
  }

  /** Printing then splitting on dots gives back the agent id and the source, under any prefix. */
  lemma SubjectRoundTrip(prefix: string, agentId: string, source: Source)
    requires DotFree(agentId)
    ensures ParseSubject(BuildSubject(prefix, agentId, source)) == [(agentId, source)]
  {
    var value := SourceValue(source);
    TokensOfLeaf(prefix, agentId, value);
    assert SourceOf(value) == [source];
  }

  lemma SubjectInjective(prefix: string, a: string, s: Source, b: string, t: Source)
    requires DotFree(a) && DotFree(b)
    requires BuildSubject(prefix, a, s) == BuildSubject(prefix, b, t)
    ensures a == b && s == t
  {
    SubjectRoundTrip(prefix, a, s);
    SubjectRoundTrip(prefix, b, t);
    assert [(a, s)][0] == [(b, t)][0];
  }

  // ---- Selection by a pattern ----

  /** `*` stands for exactly one token and a final `>` for one or more. */
  predicate Matches(pattern: seq<string>, tokens: seq<string>) {
    if pattern == [] then tokens == []
    else if pattern == [">"] then |tokens| >= 1
    else
      && tokens != []
      && (pattern[0] == "*" || pattern[0] == tokens[0])
      && Matches(pattern[1..], tokens[1..])
  }

  predicate Literal(tokens: seq<string>) {
    "*" !in tokens && ">" !in tokens
  }

  lemma {:induction false} LiteralPrefixMatch(literal: seq<string>, pattern: seq<string>, tokens: seq<string>)
    requires Literal(literal)
    ensures Matches(literal + pattern, tokens)
       <==> literal <= tokens && Matches(pattern, tokens[|literal|..])
  {
    if literal == [] {
      assert literal + pattern == pattern && tokens[0..] == tokens;
    } else {
      assert literal[0] in literal;
      assert (literal + pattern)[1..] == literal[1..] + pattern;
      if tokens != [] && tokens[0] == literal[0] {
        assert forall t :: t in literal[1..] ==> t in literal;
        LiteralPrefixMatch(literal[1..], pattern, tokens[1..]);
        assert tokens == [tokens[0]] + tokens[1..] && literal == [literal[0]] + literal[1..];
        if literal <= tokens {
          assert tokens[1..][|literal| - 1..] == tokens[|literal|..];
        }
      }
    }
  }

  lemma MatchStarRest(tokens: seq<string>)
    ensures Matches(["*", ">"], tokens) <==> |tokens| >= 2
  {
    assert ["*", ">"][1..] == [">"];
  }

  lemma MatchUnder(literal: seq<string>, tokens: seq<string>)
    requires Literal(literal)
    ensures Matches(literal + ["*", ">"], tokens) <==> literal <= tokens && |tokens| >= |literal| + 2
  {
    LiteralPrefixMatch(literal, ["*", ">"], tokens);
    if literal <= tokens {
      MatchStarRest(tokens[|literal|..]);
    }
  }

  lemma FilterTokens(prefix: string)
    ensures Tokens(FilterSubject(prefix)) == Tokens(prefix) + ["agents"] + ["*", ">"]
  {
    TokensOfLeaf(prefix, "*", ">");
    assert Tokens(prefix) + ["agents", "*", ">"] == Tokens(prefix) + ["agents"] + ["*", ">"];
  }

  /** The filter selects exactly the subjects with at least two tokens below `prefix.agents`. */
  lemma FilterSelects(prefix: string, subject: string)
    requires Literal(Tokens(prefix))
    ensures Matches(Tokens(FilterSubject(prefix)), Tokens(subject))
       <==> Tokens(prefix) + ["agents"] <= Tokens(subject) && |Tokens(subject)| >= |Tokens(prefix)| + 3
  {
    FilterTokens(prefix);
    MatchUnder(Tokens(prefix) + ["agents"], Tokens(subject));
  }

  lemma LeafIsConsumed(prefix: string, name: string, leaf: string)
    requires Literal(Tokens(prefix)) && DotFree(name) && DotFree(leaf)
    ensures Matches(Tokens(FilterSubject(prefix)), Tokens(Dot(Dot(Dot(prefix, "agents"), name), leaf)))
  {
    var tokens := Tokens(prefix) + ["agents"];
    FilterSelects(prefix, Dot(Dot(Dot(prefix, "agents"), name), leaf));
    TokensOfLeaf(prefix, name, leaf);
    assert Tokens(prefix) + ["agents", name, leaf] == tokens + [name, leaf];
  }

  lemma SourceValueDotFree(source: Source)
    ensures DotFree(SourceValue(source))
  {
  }

  lemma PatternsSpelledOut(prefix: string)
    ensures FilterSubject(prefix) == prefix + ".agents.*.>"
    ensures DeclareSubject(prefix) == prefix + ".agents._declare"
  {
    assert prefix + "." + "agents" + "." + "*" + "." + ">" == prefix + ".agents.*.>";
    assert prefix + "." + "agents" + "." + "_declare" == prefix + ".agents._declare";
  }

  /** Every published subject reaches the consumer... */
  lemma PublishedSubjectsAreConsumed(prefix: string, agentId: string, source: Source)
    requires Literal(Tokens(prefix)) && DotFree(agentId)
    ensures Matches(Tokens(FilterSubject(prefix)), Tokens(BuildSubject(prefix, agentId, source)))
  {
    SourceValueDotFree(source);
    LeafIsConsumed(prefix, agentId, SourceValue(source));
  }

  /** ...and the declaring subject never does. */
  lemma DeclaringSubjectIsNotConsumed(prefix: string)
    requires Literal(Tokens(prefix))
    ensures !Matches(Tokens(FilterSubject(prefix)), Tokens(DeclareSubject(prefix)))
  {
    FilterSelects(prefix, DeclareSubject(prefix));
    TokensUnderPrefix(prefix, "_declare");
  }
}
