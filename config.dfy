/** The agent's configuration constants (src/config.py). */
module Config {

  /** FAISS L2 distance below which a knowledge-base match is trusted (lower is closer). */
  const SimilarityThreshold: real := 1.0

  /** Topic words accepted by the keyword fallback of the input guardrail. */
  const AllowedTopics: seq<string> :=
    ["math", "mathematics", "algebra", "geometry", "calculus", "statistics", "probability", "education"]

  /** Substrings that mark a query or an answer as privacy-sensitive. */
  const PrivacyKeywords: seq<string> := ["password", "secret", "credit card", "social security"]
}
