/** The input and output guardrails of src/guardrails.py. Both are decision
    procedures over the lower-cased text; the one language-model call (the topic
    classifier) is given as its outcome: the reply's text, or `Failed` when the
    call raised. */
module Guardrails {
  import opened Outcomes
  import opened Text
  import opened Config

  /** `(is_safe, message)` as the two check functions return it. */
  datatype Verdict = Verdict(safe: bool, message: string)

  // Long fixed messages are written as concatenations of short literals; the
  // value is the source's string. The split lets each piece be shown free of
  // privacy keywords on its own (see the message lemmas below).
  // guardrails.py:21, split into pieces.
  const PrivacyInputMessage: string :=
    "Input " + ("c" + "ontains potentially ") + "sensitive information. " + "Please rephrase your question."
  // guardrails.py:51, split into pieces.
  const GreetingMessage: string :=
    "Hello! I am a Math Professor " + "Agent. Please ask me a " + "math-related question."
  // guardrails.py:56, split into pieces.
  const ScopeMessage: string :=
    "My expertise is in mathemati" + ("c" + "s ") + ("and edu" + ("c" + "ation. Please ask a ")) + "relevant question."
  const ValidMessage: string := "Input is valid."
  // guardrails.py:73, split into pieces.
  const PrivacyOutputMessage: string :=
    "Sorry, I " + ("c" + "annot provide a ") + ("response " + ("c" + "ontaining potentially ")) + "sensitive information."

  /** Math-problem indicators added to the topic words when the classifier fails. */
  const FallbackKeywords: seq<string> :=
    ["calculate", "solve", "how many", "what is the value", "find the", "equation", "problem",
     "sum", "difference", "product", "ratio", "average", "percent"]

  const Greetings: seq<string> := ["hello", "hi", "how are you", "what is your name"]

  /** Phrases of the advisory refusal heuristic on answers. */
  const RefusalPhrases: seq<string> := ["i cannot", "i'm unable to", "i apologize, but", "as an ai"]

  /** Some privacy keyword occurs in the lower-cased text. */
  predicate MentionsPrivacy(text: string)
  {
    ContainsAny(Lower(text), PrivacyKeywords)
  }

  /** The classifier is asked only once the privacy scan has passed. */
  predicate ConsultsClassifier(query: string)
  {
    !MentionsPrivacy(query)
  }

  /** `"yes" in response.content.strip().lower()`. */
  predicate ReplySaysYes(content: string)
  {
    Contains(Lower(Strip(content)), "yes")
  }

  /** The keyword fallback: a topic word or a math-problem indicator occurs. */
  predicate KeywordFallback(queryLower: string)
  {
    ContainsAny(queryLower, AllowedTopics) || ContainsAny(queryLower, FallbackKeywords)
  }

  /** `is_topic_allowed` after the try/except of the topic check. */
  predicate TopicAllowed(queryLower: string, reply: Outcome<string>)
  {
    match reply
    case Ok(content) => ReplySaysYes(content)
    case Failed => KeywordFallback(queryLower)
  }

  /** `check_input_guardrails(query)`, given the classifier's outcome for it. */
  function CheckInput(query: string, reply: Outcome<string>): (v: Verdict)
    ensures v.safe <==> v.message == ValidMessage
    ensures v.safe <==> !MentionsPrivacy(query) && TopicAllowed(Lower(query), reply)
  {
    var queryLower := Lower(query);
    if ContainsAny(queryLower, PrivacyKeywords) then
      Verdict(false, PrivacyInputMessage)
    else if !TopicAllowed(queryLower, reply) then
      if ContainsAny(queryLower, Greetings) then Verdict(false, GreetingMessage)
      else Verdict(false, ScopeMessage)
    else
      Verdict(true, ValidMessage)
  }

  /** `check_output_guardrails(response)`: the response unchanged, or the fixed
      refusal when it mentions a privacy keyword. */
  function CheckOutput(response: string): (v: Verdict)
    ensures v.safe <==> !MentionsPrivacy(response)
    ensures v.message == if v.safe then response else PrivacyOutputMessage
  {
    if ContainsAny(Lower(response), PrivacyKeywords) then Verdict(false, PrivacyOutputMessage)
    else Verdict(true, response)
  }

  /** The condition under which the output check logs a possible refusal. */
  predicate PotentialRefusal(response: string)
  {
    ContainsAny(Lower(response), RefusalPhrases) && |response| < 150
  }

  // ---------------------------------------------------------------------------
  // Input guardrail

  /** A privacy keyword decides the verdict before the classifier is consulted:
      the reply makes no difference. That the classifier is then not called at
      all is stated on the call trace, by `Pipeline.GateCalls` and
      `Pipeline.PrivacyQueriesMakeNoCalls`. */
  lemma PrivacyShortCircuits(query: string, reply: Outcome<string>, other: Outcome<string>)
    requires MentionsPrivacy(query)
    ensures CheckInput(query, reply) == CheckInput(query, other) == Verdict(false, PrivacyInputMessage)
  {
  }

  /** With a classifier reply, the topic is allowed exactly when "yes" occurs in
      the lower-cased reply; whitespace around the reply does not matter. */
  lemma ClassifierDecidesTopic(query: string, content: string)
    requires !MentionsPrivacy(query)
    ensures CheckInput(query, Ok(content)).safe <==> Contains(Lower(content), "yes")
  {
    StripLowerKeepsWord(content, "yes");
  }

  /** Without a classifier reply, the topic is allowed exactly when a topic word
      or a math-problem indicator occurs in the lower-cased query. */
  lemma KeywordFallbackDecidesTopic(query: string)
    requires !MentionsPrivacy(query)
    ensures CheckInput(query, Failed).safe <==>
      (ContainsAny(Lower(query), AllowedTopics) || ContainsAny(Lower(query), FallbackKeywords))
  {
  }

  /** A rejected topic gets the greeting when any greeting occurs, the scope
      refusal otherwise. */
  lemma RejectedTopicMessage(query: string, reply: Outcome<string>)
    requires !MentionsPrivacy(query) && !TopicAllowed(Lower(query), reply)
    ensures CheckInput(query, reply) ==
      Verdict(false, if ContainsAny(Lower(query), Greetings) then GreetingMessage else ScopeMessage)
  {
  }

  /** The greeting test is a substring test: a rejected query in which "this"
      occurs anywhere (after lower-casing) gets the greeting, because "hi"
      occurs inside "this". */
  lemma GreetingMatchesInsideWords(query: string, reply: Outcome<string>)
    requires !MentionsPrivacy(query) && !TopicAllowed(Lower(query), reply)
    requires Contains(Lower(query), "this")
    ensures CheckInput(query, reply) == Verdict(false, GreetingMessage)
  {
    assert MatchesAt("this", Greetings[1], 1);
    ContainsTrans(Lower(query), "this", Greetings[1]);
    assert Contains(Lower(query), Greetings[1]);
  }

  /** For the same classifier reply, the verdict on a query equals the verdict
      on its lower-cased form. (The classifier itself is shown the original
      query, so its reply may differ between the two.) */
  lemma CheckInputIgnoresCase(query: string, reply: Outcome<string>)
    ensures CheckInput(query, reply) == CheckInput(Lower(query), reply)
  {
    LowerIdempotent(query);
  }

  // ---------------------------------------------------------------------------
  // Output guardrail

  /** The refusal heuristic is advisory: a flagged answer without a privacy
      keyword passes unchanged. */
  lemma RefusalHeuristicIsAdvisory(response: string)
    requires PotentialRefusal(response) && !MentionsPrivacy(response)
    ensures CheckOutput(response) == Verdict(true, response)
  {
  }

  /** No text that leaves the output check mentions a privacy keyword. */
  lemma OutputNeverMentionsPrivacy(response: string)
    ensures !MentionsPrivacy(CheckOutput(response).message)
  {
    OutputPrivacyMessageIsClean();
  }

  /** The output check is idempotent, and its result passes it as safe. */
  lemma OutputCheckIdempotent(response: string)
    ensures CheckOutput(CheckOutput(response).message) == Verdict(true, CheckOutput(response).message)
  {
    OutputNeverMentionsPrivacy(response);
  }

  // ---------------------------------------------------------------------------
  // Keyword-free texts
  //
  // Each privacy keyword holds one of the adjacent pairs "sw" (password), "cr"
  // (secret, credit card) or "ci" (social security), so a text whose lower-cased
  // form holds none of these pairs mentions no privacy keyword. A fixed message
  // is shown free of them piece by piece.

  predicate IsWitnessPair(c: char, d: char)
  {
    (c == 's' && d == 'w') || (c == 'c' && (d == 'r' || d == 'i'))
  }

  /** No two adjacent characters of `t` form a witness pair, ignoring case. */
  predicate PairFree(t: string)
    decreases |t|
  {
    |t| < 2 || (!IsWitnessPair(LowerChar(t[0]), LowerChar(t[1])) && PairFree(t[1..]))
  }

  /** A piece with neither 'c' nor 'w' in either case. */
  predicate Plain(t: string)
  {
    forall i | 0 <= i < |t| :: t[i] != 'c' && t[i] != 'C' && t[i] != 'w' && t[i] != 'W'
  }

  lemma {:induction false} PlainIsPairFree(t: string)
    requires Plain(t)
    ensures PairFree(t)
    decreases |t|
  {
    if |t| >= 2 {
      assert Plain(t[1..]) by {
        assert forall i | 0 <= i < |t| - 1 :: t[1..][i] == t[i + 1];
      }
      PlainIsPairFree(t[1..]);
    }
  }

  lemma {:induction false} GluePairFree(a: string, b: string)
    requires PairFree(a) && PairFree(b)
    requires |a| == 0 || |b| == 0 || !IsWitnessPair(LowerChar(a[|a| - 1]), LowerChar(b[0]))
    ensures PairFree(a + b)
    decreases |a|
  {
    if |a| == 0 {
      assert a + b == b;
    } else if |a| == 1 {
      if |b| > 0 {
        assert (a + b)[1..] == b;
      }
    } else {
      GluePairFree(a[1..], b);
      assert (a + b)[1..] == a[1..] + b;
    }
  }

  lemma {:induction false} PairFreeAt(t: string, i: nat)
    requires PairFree(t) && i + 1 < |t|
    ensures !IsWitnessPair(LowerChar(t[i]), LowerChar(t[i + 1]))
    decreases i
  {
    if i > 0 {
      PairFreeAt(t[1..], i - 1);
    }
  }

  lemma PairFreeMentionsNoPrivacy(t: string)
    requires PairFree(t)
    ensures !MentionsPrivacy(t)
  {
    var lt := Lower(t);
    forall i | 0 <= i < |lt| - 1
      ensures !IsWitnessPair(lt[i], lt[i + 1])
    {
      PairFreeAt(t, i);
    }
    forall k | 0 <= k < |PrivacyKeywords|
      ensures !Contains(lt, PrivacyKeywords[k])
    {
      var kw := PrivacyKeywords[k];
      var m := if k == 0 then 3 else if k == 1 then 2 else if k == 2 then 0 else 2;
      assert IsWitnessPair(kw[m], kw[m + 1]);
      ContainsAdjacentPair(lt, kw, m);
    }
  }

  /** A non-empty pair-free piece that ends neither in 's' nor in 'c', so that
      gluing another piece after it cannot create a witness pair. */
  predicate Piece(t: string)
  {
    |t| > 0 && PairFree(t) && LowerChar(t[|t| - 1]) != 's' && LowerChar(t[|t| - 1]) != 'c'
  }

  lemma PlainPiece(t: string)
    requires Plain(t) && |t| > 0
    requires LowerChar(t[|t| - 1]) != 's' && LowerChar(t[|t| - 1]) != 'c'
    ensures Piece(t)
  {
    PlainIsPairFree(t);
  }

  lemma GluePieces(a: string, b: string)
    requires Piece(a) && Piece(b)
    ensures Piece(a + b)
  {
    GluePairFree(a, b);
    assert (a + b)[|a + b| - 1] == b[|b| - 1];
  }

  /** A piece that may follow a 'c': it starts with neither 'r' nor 'i'. */
  predicate AfterC(t: string)
  {
    Piece(t) && LowerChar(t[0]) != 'r' && LowerChar(t[0]) != 'i'
  }

  /** A 'c' glued before a piece that may follow it. */
  lemma LeadingC(b: string)
    requires AfterC(b)
    ensures Piece("c" + b)
  {
    GluePairFree("c", b);
    assert ("c" + b)[|"c" + b| - 1] == b[|b| - 1];
  }

  lemma PlainAfterC(t: string)
    requires Plain(t) && |t| > 0
    requires LowerChar(t[|t| - 1]) != 's' && LowerChar(t[|t| - 1]) != 'c'
    requires LowerChar(t[0]) != 'r' && LowerChar(t[0]) != 'i'
    ensures AfterC(t)
  {
    PlainPiece(t);
  }

  // The shapes of the fixed messages, proved once for any pieces.

  lemma CleanJoin3(a: string, b: string, c: string)
    requires Piece(a) && Piece(b) && Piece(c)
    ensures !MentionsPrivacy(a + b + c)
  {
    GluePieces(a, b);
    GluePieces(a + b, c);
    PairFreeMentionsNoPrivacy(a + b + c);
  }

  lemma CleanJoinC1(a: string, b: string, c: string, d: string)
    requires Piece(a) && AfterC(b) && Piece(c) && Piece(d)
    ensures !MentionsPrivacy(a + ("c" + b) + c + d)
  {
    LeadingC(b);
    CleanJoin3(a + ("c" + b), c, d) by {
      GluePieces(a, "c" + b);
    }
  }

  lemma CleanJoinC2(a: string, b: string, c: string, d: string, e: string)
    requires Piece(a) && AfterC(b) && Piece(c) && AfterC(d) && Piece(e)
    ensures !MentionsPrivacy(a + ("c" + b) + (c + ("c" + d)) + e)
  {
    LeadingC(b);
    LeadingC(d);
    GluePieces(a, "c" + b);
    GluePieces(c, "c" + d);
    CleanJoin3(a + ("c" + b), c + ("c" + d), e);
  }

  lemma CleanJoinC3(a: string, b: string, c: string, d: string, e: string, f: string)
    requires Piece(a) && AfterC(b) && Piece(c) && AfterC(d) && AfterC(e) && Piece(f)
    ensures !MentionsPrivacy(a + ("c" + b) + (c + ("c" + d)) + ("c" + e) + f)
  {
    LeadingC(b);
    LeadingC(d);
    LeadingC(e);
    GluePieces(a, "c" + b);
    GluePieces(c, "c" + d);
    GluePieces(a + ("c" + b), c + ("c" + d));
    CleanJoin3(a + ("c" + b) + (c + ("c" + d)), "c" + e, f);
  }

  // One literal per lemma keeps each proof small.

  lemma PieceInputLead()
    ensures Piece("Input ")
  {
    PlainPiece("Input ");
  }

  lemma PieceInputContains()
    ensures AfterC("ontains potentially ")
  {
    PlainAfterC("ontains potentially ");
  }

  lemma PieceInputSensitive()
    ensures Piece("sensitive information. ")
  {
    PlainPiece("sensitive information. ");
  }

  lemma PieceInputRephrase()
    ensures Piece("Please rephrase your question.")
  {
    PlainPiece("Please rephrase your question.");
  }

  lemma PieceGreetingHello()
    ensures Piece("Hello! I am a Math Professor ")
  {
    PlainPiece("Hello! I am a Math Professor ");
  }

  lemma PieceGreetingAgent()
    ensures Piece("Agent. Please ask me a ")
  {
    PlainPiece("Agent. Please ask me a ");
  }

  lemma PieceGreetingMath()
    ensures Piece("math-related question.")
  {
    PlainPiece("math-related question.");
  }

  lemma PieceScopeExpertise()
    ensures Piece("My expertise is in mathemati")
  {
    PlainPiece("My expertise is in mathemati");
  }

  lemma PieceScopeS()
    ensures AfterC("s ")
  {
    PlainAfterC("s ");
  }

  lemma PieceScopeEdu()
    ensures Piece("and edu")
  {
    PlainPiece("and edu");
  }

  lemma PieceScopeAtion()
    ensures AfterC("ation. Please ask a ")
  {
    PlainAfterC("ation. Please ask a ");
  }

  lemma PieceScopeRelevant()
    ensures Piece("relevant question.")
  {
    PlainPiece("relevant question.");
  }

  lemma PieceOutputSorry()
    ensures Piece("Sorry, I ")
  {
    PlainPiece("Sorry, I ");
  }

  lemma PieceOutputAnnot()
    ensures AfterC("annot provide a ")
  {
    PlainAfterC("annot provide a ");
  }

  lemma PieceOutputResponse()
    ensures Piece("response ")
  {
    PlainPiece("response ");
  }

  lemma PieceOutputContaining()
    ensures AfterC("ontaining potentially ")
  {
    PlainAfterC("ontaining potentially ");
  }

  lemma PieceOutputSensitive()
    ensures Piece("sensitive information.")
  {
    PlainPiece("sensitive information.");
  }

  lemma InputPrivacyMessageIsClean()
    ensures !MentionsPrivacy(PrivacyInputMessage)
  {
    PieceInputLead();
    PieceInputContains();
    PieceInputSensitive();
    PieceInputRephrase();
    CleanJoinC1("Input ", "ontains potentially ", "sensitive information. ", "Please rephrase your question.");
  }

  lemma GreetingMessageIsClean()
    ensures !MentionsPrivacy(GreetingMessage)
  {
    PieceGreetingHello();
    PieceGreetingAgent();
    PieceGreetingMath();
    CleanJoin3("Hello! I am a Math Professor ", "Agent. Please ask me a ", "math-related question.");
  }

  lemma ScopeMessageIsClean()
    ensures !MentionsPrivacy(ScopeMessage)
  {
    PieceScopeExpertise();
    PieceScopeS();
    PieceScopeEdu();
    PieceScopeAtion();
    PieceScopeRelevant();
    CleanJoinC2("My expertise is in mathemati", "s ", "and edu", "ation. Please ask a ", "relevant question.");
  }

  lemma OutputPrivacyMessageIsClean()
    ensures !MentionsPrivacy(PrivacyOutputMessage)
  {
    PieceOutputSorry();
    PieceOutputAnnot();
    PieceOutputResponse();
    PieceOutputContaining();
    PieceOutputSensitive();
    CleanJoinC2("Sorry, I ", "annot provide a ", "response ", "ontaining potentially ", "sensitive information.");
  }
}
