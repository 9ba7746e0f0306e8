/**
 * The application settings the core reads (config/settings.py): defaults of the
 * environment-driven constants, the embedding-method selection policy and the
 * start-up validation, which only ever warns.
 */
module Settings {
  import opened Common
  import opened Text

  const CHUNK_SIZE: nat := 1000
  const CHUNK_OVERLAP: nat := 200
  const TOP_K: nat := 5
  const MAX_FILE_SIZE_MB: nat := 50
  const SUPPORTED_FILE_TYPES: seq<String> := [".pdf", ".txt", ".md", ".docx"]
  const DOCUMENT_CATEGORIES: seq<String> := ["工作", "学习", "个人", "参考", "研究", "想法"]
  const PRIORITY_LEVELS: seq<String> := ["高", "中", "低"]

  /** Python truthiness of an optional environment string: set and non-empty. */
  predicate Truthy(s: Option<String>) { s.Some? && s.value != [] }

  /**
   * `Settings.get_optimal_embedding_method`. `embeddingMethod` is EMBEDDING_METHOD,
   * `openAiKey` is OPENAI_API_KEY, and `localModelImportable` says whether
   * `import sentence_transformers` succeeds.
   */
  function OptimalEmbeddingMethod(embeddingMethod: String, openAiKey: Option<String>,
                                  localModelImportable: bool): (r: String)
    ensures embeddingMethod != "auto" && embeddingMethod != "" ==> r == embeddingMethod
    ensures embeddingMethod == "auto" || embeddingMethod == "" ==>
              r in ["openai", "all-MiniLM-L6-v2", "text-hash"]
  {
    if embeddingMethod != "auto" && embeddingMethod != "" then embeddingMethod
    else if Truthy(openAiKey) then "openai"
    else if localModelImportable then "all-MiniLM-L6-v2"
    else "text-hash"
  }

  /**
   * The automatic choice follows the quality tiers: the cloud provider exactly when a
   * key is configured, then the local model exactly when it can be imported, and the
   * dependency-free hash embedding only when neither is available.
   */
  lemma AutoSelectionTiers(openAiKey: Option<String>, localModelImportable: bool)
    ensures var r := OptimalEmbeddingMethod("auto", openAiKey, localModelImportable);
            && (r == "openai" <==> Truthy(openAiKey))
            && (r == "all-MiniLM-L6-v2" <==> !Truthy(openAiKey) && localModelImportable)
            && (r == "text-hash" <==> !Truthy(openAiKey) && !localModelImportable)
  {
  }

  /** The kinds of messages `validate` logs. */
  datatype Warning =
    | MissingOpenAiKey      // "openai" chosen without a key
    | LocalModelInUse       // informational: the local model is importable
    | LocalModelUnavailable // "all-MiniLM-L6-v2" configured but not importable
    | HashEmbeddingInUse    // informational: the hash embedding is in use
    | MissingDeepSeekKey    // answers fall back to document excerpts

  /** An informational message (logged at INFO level, the ones starting with a check mark). */
  predicate IsInfo(w: Warning) { w == LocalModelInUse || w == HashEmbeddingInUse }

  /**
   * `Settings.validate`: collects the warnings and always accepts the configuration.
   * `deepSeekKey` is DEEPSEEK_API_KEY.
   */
  function Validate(embeddingMethod: String, openAiKey: Option<String>,
                    deepSeekKey: Option<String>, localModelImportable: bool): (r: (bool, seq<Warning>))
    ensures r.0
    ensures MissingOpenAiKey in r.1 <==> embeddingMethod == "openai" && !Truthy(openAiKey)
    ensures MissingDeepSeekKey in r.1 <==> !Truthy(deepSeekKey)
    ensures |r.1| <= 2
  {
    var m := OptimalEmbeddingMethod(embeddingMethod, openAiKey, localModelImportable);
    var first :=
      if m == "openai" && !Truthy(openAiKey) then [MissingOpenAiKey]
      else if m == "all-MiniLM-L6-v2" then
        (if localModelImportable then [LocalModelInUse] else [LocalModelUnavailable])
      else if m == "text-hash" then [HashEmbeddingInUse]
      else [];
    (true, first + (if Truthy(deepSeekKey) then [] else [MissingDeepSeekKey]))
  }
}
