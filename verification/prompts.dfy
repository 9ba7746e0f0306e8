/**
 * The two functions of src/generation/prompts.py that compute something: the model
 * configuration lookup and the answer-quality estimate. The prompt texts are not modelled.
 */
module Prompts {
  import opened Common
  import opened Text
  import opened Documents

  /** A model configuration: setting name to value. */
  type Config = map<String, Value>

  const EMBEDDING_CONFIG: Config :=
    map["model" := Str("text-embedding-3-small"), "dimensions" := Num(1536.0), "max_tokens" := Num(8191.0)]

  const CHAT_CONFIG: Config :=
    map["model" := Str("deepseek-chat"), "temperature" := Num(0.7), "max_tokens" := Num(500.0),
        "top_p" := Num(0.9), "frequency_penalty" := Num(0.0), "presence_penalty" := Num(0.0)]

  const FALLBACK_CONFIG: Config :=
    map["model" := Str("gpt-4o-mini"), "temperature" := Num(0.7), "max_tokens" := Num(500.0)]

  const CONFIGS: map<String, Config> :=
    map["embedding" := EMBEDDING_CONFIG, "chat" := CHAT_CONFIG, "fallback" := FALLBACK_CONFIG]

  /**
   * `get_model_config`: the entry for "embedding", "chat" or "fallback", and the chat entry for
   * any other name; every configuration names its model.
   */
  function GetModelConfig(modelType: String): (r: Config)
    ensures modelType in CONFIGS ==> r == CONFIGS[modelType]
    ensures modelType !in CONFIGS ==> r == CHAT_CONFIG
    ensures "model" in r && "max_tokens" in r
    ensures r["model"] == Str("text-embedding-3-small") <==> modelType == "embedding"
    ensures r["model"] == Str("gpt-4o-mini") <==> modelType == "fallback"
  {
    if modelType in CONFIGS then CONFIGS[modelType] else CHAT_CONFIG
  }

  /** The metrics `evaluate_answer_quality` reports. */
  datatype Quality = Quality(lengthScore: real, keywordMatch: real, contextRelevance: real,
                             fluencyScore: real, accuracyScore: real, overallScore: real)

  /**
   * `evaluate_answer_quality`: only the length of the answer matters. The overall score is the
   * mean of the five metrics, `(length_score + 1.5) / 5`, so it lies between 0.3 (empty answer)
   * and 0.5 (200 characters or more).
   */
  function EvaluateAnswerQuality(answer: String, context: String, query: String): (r: Quality)
    ensures r.lengthScore == MinReal(|answer| as real / 200.0, 1.0)
    ensures r.keywordMatch == 0.0 && r.contextRelevance == 0.0 && r.fluencyScore == 0.8 && r.accuracyScore == 0.7
    ensures r.overallScore == (r.lengthScore + r.keywordMatch + r.contextRelevance + r.fluencyScore + r.accuracyScore) / 5.0
    ensures 0.3 <= r.overallScore <= 0.5
    ensures r.overallScore == 0.3 <==> answer == []
    ensures r.overallScore == 0.5 <==> |answer| >= 200
  {
    var length := MinReal(|answer| as real / 200.0, 1.0);
    Quality(length, 0.0, 0.0, 0.8, 0.7, (length + 0.0 + 0.0 + 0.8 + 0.7) / 5.0)
  }
}
